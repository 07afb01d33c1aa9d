/**
 * The administrators' table of users: the fetch effect, the random password
 * the "Alterar Senha" button sends, and the confirmed deletion that filters
 * the user out of the list.
 */
module UsersTable {
  import opened Browser

  /** A user as listed by GET /users; `createdAt` is only formatted for display and is left out. */
  datatype UserRecord = UserRecord(id: int, name: string, email: string, password: string, role: string)

  // ---- generateRandomPassword ----

  /** The 62 symbols a generated password is drawn from. */
  const Alphabet := "ABCDEFGHIJKLMNOPQRSTUVWXYZabcdefghijklmnopqrstuvwxyz0123456789"

  const PasswordLength := 12

  lemma AlphabetSize()
    ensures |Alphabet| == 62
  {
  }

  /** A value `Math.random()` can return. */
  predicate IsRandomDraw(r: real)
    ensures IsRandomDraw(r) ==> 0 <= (r * (|Alphabet| as real)).Floor < |Alphabet|
  {
    0.0 <= r < 1.0
  }

  /** `Math.floor(r * chars.length)`: an index into the alphabet. */
  function DrawIndex(r: real): (i: int)
    requires IsRandomDraw(r)
    ensures 0 <= i < |Alphabet|
  {
    (r * (|Alphabet| as real)).Floor
  }

  /** The password the draws pick out, symbol by symbol. */
  function PasswordFrom(draws: seq<real>): (p: string)
    requires forall k :: 0 <= k < |draws| ==> IsRandomDraw(draws[k])
    ensures |p| == |draws|
    ensures forall k :: 0 <= k < |draws| ==> p[k] == Alphabet[DrawIndex(draws[k])]
  {
    if draws == [] then [] else PasswordFrom(draws[..|draws| - 1]) + [Alphabet[DrawIndex(draws[|draws| - 1])]]
  }

  /**
   * `generateRandomPassword`, with the twelve values `Math.random()` returns
   * given as `draws`: one symbol appended per turn of the loop.
   */
  method GenerateRandomPassword(draws: seq<real>) returns (password: string)
    requires |draws| == PasswordLength
    requires forall k :: 0 <= k < |draws| ==> IsRandomDraw(draws[k])
    ensures password == PasswordFrom(draws)
    ensures |password| == PasswordLength
    ensures forall k :: 0 <= k < |password| ==> password[k] in Alphabet
  {
    password := "";
    for i := 0 to PasswordLength
      invariant password == PasswordFrom(draws[..i])
    {
      password := password + [Alphabet[DrawIndex(draws[i])]];
      assert draws[..i + 1][..i] == draws[..i];
    }
    assert draws[..PasswordLength] == draws;
  }

  // ---- handleDeleteUser ----

  /** `users.filter(user => user.id !== userId)`. */
  function RemoveId(users: seq<UserRecord>, userId: int): (r: seq<UserRecord>)
    ensures |r| <= |users|
    ensures forall u :: u in r <==> u in users && u.id != userId
  {
    if users == [] then []
    else if users[0].id != userId then [users[0]] + RemoveId(users[1..], userId)
    else RemoveId(users[1..], userId)
  }

  /** The filter works piece by piece, so the users that stay keep their order. */
  lemma {:induction false} RemoveIdAppend(a: seq<UserRecord>, b: seq<UserRecord>, userId: int)
    ensures RemoveId(a + b, userId) == RemoveId(a, userId) + RemoveId(b, userId)
    decreases |a|
  {
    if a == [] {
      assert a + b == b;
    } else {
      var rest := a[1..] + b;
      assert a + b == [a[0]] + rest;
      RemoveIdAppend(a[1..], b, userId);
      assert RemoveId(a + b, userId) == (if a[0].id != userId then [a[0]] else []) + RemoveId(rest, userId);
    }
  }

  /** A list without the id is left as it is. */
  lemma {:induction false} RemoveAbsentId(users: seq<UserRecord>, userId: int)
    requires forall u :: u in users ==> u.id != userId
    ensures RemoveId(users, userId) == users
    decreases |users|
  {
    if users != [] {
      RemoveAbsentId(users[1..], userId);
      assert users == [users[0]] + users[1..];
    }
  }

  /** Removing the same id again changes nothing. */
  lemma RemoveIdIdempotent(users: seq<UserRecord>, userId: int)
    ensures RemoveId(RemoveId(users, userId), userId) == RemoveId(users, userId)
  {
    RemoveAbsentId(RemoveId(users, userId), userId);
  }

  const DeletedMessage := "Usuário deletado com sucesso!"
  const DeleteFailedMessage := "Erro ao deletar o usuário."

  // ---- handlePasswordChange ----

  const PasswordCopiedMessage := "Senha alterada com sucesso! Copiada para a área de transferência (Ctrl+V)."
  const PasswordNotCopiedMessage := "Senha alterada com sucesso, mas não foi possível copiar para o clipboard."
  const PasswordFailedMessage := "Erro ao alterar a senha do usuário."

  /**
   * The toasts one password change shows, in order. A rejection whose body
   * reads shows the backend's message first and then, from the outer
   * `catch`, the generic error.
   */
  function PasswordChangeNotices(reply: HttpReply, copied: bool): (ns: seq<Notice>)
    ensures |ns| >= 1
    ensures ns[|ns| - 1].Success? <==> reply.Answered? && reply.ok && copied
    ensures ns[|ns| - 1].Warning? <==> reply.Answered? && reply.ok && !copied
    ensures !(reply.Answered? && reply.ok) ==> ns[|ns| - 1] == Failure(PasswordFailedMessage)
    ensures forall k :: 0 <= k < |ns| ==> (ns[k].Failure? <==> !(reply.Answered? && reply.ok))
  {
    match reply
    case Unreachable => [Failure(PasswordFailedMessage)]
    case Answered(ok, json) =>
      if ok then [if copied then Success(PasswordCopiedMessage) else Warning(PasswordNotCopiedMessage)]
      else match json
        case None => [Failure(PasswordFailedMessage)]
        case Some(body) =>
          [Failure("Erro ao alterar a senha do usuário: " + Or(body.message, "Erro desconhecido")),
           Failure(PasswordFailedMessage)]
  }

  /** The toasts of one deletion; none when the confirmation is declined. */
  function DeleteNotices(confirmed: bool, reply: HttpReply): (ns: seq<Notice>)
    ensures !confirmed ==> ns == []
    ensures confirmed && reply.Answered? && reply.ok ==> ns == [Success(DeletedMessage)]
    ensures confirmed && !(reply.Answered? && reply.ok) ==> ns == [Failure(DeleteFailedMessage)]
  {
    if !confirmed then []
    else if reply.Answered? && reply.ok then [Success(DeletedMessage)]
    else [Failure(DeleteFailedMessage)]
  }

  const LoadFailedMessage := "Erro ao carregar os dados. Tente novamente mais tarde."

  /** The page's state and its handlers. */
  class UsersPage {
    var users: seq<UserRecord>
    var isLoading: bool
    var error: string

    constructor ()
      ensures users == [] && isLoading && error == ""
    {
      users := [];
      isLoading := true;
      error := "";
    }

    /** `fetchUsers` with its reply given; `isLoading` is cleared in `finally`. */
    method Load(reply: ListReply<UserRecord>)
      modifies this
      ensures !isLoading
      ensures ListItems(reply).Some? ==> users == ListItems(reply).value && error == old(error)
      ensures ListItems(reply).None? ==> users == old(users) && error == LoadFailedMessage
    {
      var items := ListItems(reply);
      if items.Some? {
        users := items.value;
      } else {
        error := LoadFailedMessage;
      }
      isLoading := false;
    }

    /**
     * `handleDeleteUser`: `confirmed` is the answer to `window.confirm`,
     * `reply` the answer to DELETE /users/{id} when it is sent.
     */
    method HandleDeleteUser(userId: int, confirmed: bool, reply: HttpReply) returns (requested: bool, notices: seq<Notice>)
      modifies this
      ensures requested == confirmed
      ensures notices == DeleteNotices(confirmed, reply)
      ensures confirmed && reply.Answered? && reply.ok ==> users == RemoveId(old(users), userId)
      ensures !(confirmed && reply.Answered? && reply.ok) ==> users == old(users)
      ensures isLoading == old(isLoading) && error == old(error)
    {
      if !confirmed {
        return false, [];
      }
      requested := true;
      if reply.Answered? && reply.ok {
        notices := [Success(DeletedMessage)];
        users := RemoveId(users, userId);
      } else {
        notices := [Failure(DeleteFailedMessage)];
      }
    }

    /**
     * `handlePasswordChange`: the new password is drawn, sent in the PUT
     * body and, after a success, copied to the clipboard (`copied` says
     * whether that worked). The list of users is never touched.
     */
    method HandlePasswordChange(userId: int, draws: seq<real>, reply: HttpReply, copied: bool)
      returns (sent: string, notices: seq<Notice>)
      requires |draws| == PasswordLength
      requires forall k :: 0 <= k < |draws| ==> IsRandomDraw(draws[k])
      ensures sent == PasswordFrom(draws) && |sent| == PasswordLength
      ensures notices == PasswordChangeNotices(reply, copied)
    {
      sent := GenerateRandomPassword(draws);
      notices := PasswordChangeNotices(reply, copied);
    }
  }
}
