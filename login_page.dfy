/**
 * The login form: each submission clears both messages, then stores the
 * access token and shows the success message, or shows one of three error
 * messages.
 */
module LoginPage {
  import opened Browser

  const LoggedInMessage := "Login realizado com sucesso!"
  const BadCredentialsMessage := "Email ou senha inválidos."
  const LoginFailedMessage := "Erro ao realizar login."
  const ConnectionFailedMessage := "Erro de conexão com o servidor."

  /** How one submission ends. */
  datatype LoginOutcome =
    | TokenReceived(token: string)     // ok reply with a truthy access_token
    | Failed(message: string)          // every other path

  /**
   * The outcome of a reply: the body is read before `ok` is looked at, so a
   * body that does not parse ends in the `catch` like a failed request.
   */
  function Outcome(reply: HttpReply): (r: LoginOutcome)
    ensures r.TokenReceived? <==>
      reply.Answered? && reply.ok && reply.json.Some? && Truthy(reply.json.value.accessToken)
    ensures r.TokenReceived? ==> r.token == reply.json.value.accessToken.value && r.token != ""
    ensures r == Failed(ConnectionFailedMessage) <==> reply.Unreachable? || reply.json.None?
    ensures r == Failed(BadCredentialsMessage) <==>
      reply.Answered? && reply.json.Some? && !(reply.ok && Truthy(reply.json.value.accessToken))
      && reply.json.value.statusCode == Some(401)
  {
    match reply
    case Unreachable => Failed(ConnectionFailedMessage)
    case Answered(ok, json) =>
      match json
      case None => Failed(ConnectionFailedMessage)
      case Some(data) =>
        if ok && Truthy(data.accessToken) then TokenReceived(data.accessToken.value)
        else if data.statusCode == Some(401) then Failed(BadCredentialsMessage)
        else Failed(LoginFailedMessage)
  }

  /** A rejection always carries one of the three error messages. */
  lemma FailureMessages(reply: HttpReply)
    ensures Outcome(reply).Failed? ==>
      Outcome(reply).message in {BadCredentialsMessage, LoginFailedMessage, ConnectionFailedMessage}
  {
  }

  /** A 401 in the body of a reply marked ok but without a token still reads as bad credentials. */
  lemma OkWithoutTokenAnd401(body: JsonBody)
    requires !Truthy(body.accessToken) && body.statusCode == Some(401)
    ensures Outcome(Answered(true, Some(body))) == Failed(BadCredentialsMessage)
  {
  }

  class LoginPageComponent {
    var email: string
    var password: string
    var error: string
    var success: string

    constructor ()
      ensures email == "" && password == "" && error == "" && success == ""
    {
      email := "";
      password := "";
      error := "";
      success := "";
    }

    /**
     * `handleSubmit` with the server's reply given. Only "access_token" is
     * written to storage, and only on success.
     */
    method HandleSubmit(store: Storage, reply: HttpReply)
      modifies this, store
      ensures email == old(email) && password == old(password)
      ensures error == "" || success == ""
      ensures Outcome(reply).TokenReceived? ==>
        store.entries == old(store.entries)["access_token" := Outcome(reply).token]
        && success == LoggedInMessage && error == ""
      ensures Outcome(reply).Failed? ==>
        store.entries == old(store.entries) && error == Outcome(reply).message && success == ""
    {
      error := "";
      success := "";
      match reply
      case Unreachable =>
        error := ConnectionFailedMessage;
      case Answered(ok, json) =>
        match json
        case None =>
          error := ConnectionFailedMessage;
        case Some(data) =>
          if ok && Truthy(data.accessToken) {
            store.SetItem("access_token", data.accessToken.value);
            success := LoggedInMessage;
          } else if data.statusCode == Some(401) {
            error := BadCredentialsMessage;
          } else {
            error := LoginFailedMessage;
          }
    }
  }
}
