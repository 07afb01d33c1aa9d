/**
 * The user registration page: `capitalizeWords` and the field updates that
 * use it, the role buttons, and the submission that derives the full name
 * and the initial password from the form.
 */
module RegisterUser {
  import opened Browser
  import opened Decimal
  import opened JsString

  // ---- capitalizeWords: split(" "), capitalise each word, join(" ") ----

  /** `text.split(" ")`: the pieces between single spaces; two spaces in a row give an empty piece. */
  function Split(s: string): (ws: seq<string>)
    ensures |ws| >= 1
    decreases |s|
  {
    if s == [] then [""]
    else if s[0] == ' ' then [""] + Split(s[1..])
    else
      var rest := Split(s[1..]);
      [[s[0]] + rest[0]] + rest[1..]
  }

  /** `words.join(" ")`. */
  function Join(ws: seq<string>): string
    decreases |ws|
  {
    if ws == [] then ""
    else if |ws| == 1 then ws[0]
    else ws[0] + " " + Join(ws[1..])
  }

  /** `word.charAt(0).toUpperCase() + word.slice(1).toLowerCase()`. */
  function Capitalize(w: string): (r: string)
    ensures |r| == |w|
  {
    if w == [] then [] else [ToUpper(w[0])] + LowerAll(w[1..])
  }

  function CapitalizeAll(ws: seq<string>): (rs: seq<string>)
    ensures |rs| == |ws| && forall i :: 0 <= i < |ws| ==> rs[i] == Capitalize(ws[i])
  {
    if ws == [] then [] else [Capitalize(ws[0])] + CapitalizeAll(ws[1..])
  }

  /** `capitalizeWords`: the same text as the character-by-character normalisation CaseFrom. */
  function CapitalizeWords(text: string): (r: string)
    ensures r == CaseFrom(text, true)
  {
    var ws := Split(text);
    CaseFromBySplit(text, true);
    assert CapitalizeAll(ws) == [Capitalize(ws[0])] + CapitalizeAll(ws[1..]);
    Join(CapitalizeAll(ws))
  }

  /** No piece of a split holds a space. */
  lemma {:induction false} SplitPiecesHaveNoSpace(s: string)
    ensures forall w :: w in Split(s) ==> ' ' !in w
    decreases |s|
  {
    if s != [] {
      SplitPiecesHaveNoSpace(s[1..]);
      if s[0] != ' ' {
        var rest := Split(s[1..]);
        assert ' ' !in rest[0];
        forall w | w in Split(s) ensures ' ' !in w {
          if w != [s[0]] + rest[0] {
            assert w in rest[1..];
          }
        }
      }
    }
  }

  lemma JoinPrefix(x: string, y: string, ws: seq<string>)
    ensures Join([x + y] + ws) == x + Join([y] + ws)
  {
    if ws != [] {
      assert ([x + y] + ws)[1..] == ws && ([y] + ws)[1..] == ws;
    }
  }

  /** Joining the pieces with single spaces gives the text back. */
  lemma {:induction false} JoinSplit(s: string)
    ensures Join(Split(s)) == s
    decreases |s|
  {
    if s != [] {
      JoinSplit(s[1..]);
      var rest := Split(s[1..]);
      if s[0] == ' ' {
        assert ([""] + rest)[1..] == rest;
      } else {
        JoinPrefix([s[0]], rest[0], rest[1..]);
        assert [rest[0]] + rest[1..] == rest;
      }
      assert s == [s[0]] + s[1..];
    }
  }

  /**
   * A character-by-character reading of the same normalisation: a character
   * that opens a word (at the start, or after a space) is upper-cased, every
   * other one lower-cased. `atStart` says whether s opens a word.
   */
  function CaseFrom(s: string, atStart: bool): (r: string)
    ensures |r| == |s|
    decreases |s|
  {
    if s == [] then []
    else [if atStart then ToUpper(s[0]) else ToLower(s[0])] + CaseFrom(s[1..], s[0] == ' ')
  }

  function CaseWord(w: string, atStart: bool): string {
    if atStart then Capitalize(w) else LowerAll(w)
  }

  lemma {:induction false} CaseFromBySplit(t: string, atStart: bool)
    ensures CaseFrom(t, atStart) == Join([CaseWord(Split(t)[0], atStart)] + CapitalizeAll(Split(t)[1..]))
    decreases |t|
  {
    if t != [] {
      var rest := Split(t[1..]);
      if t[0] == ' ' {
        CaseFromBySplit(t[1..], true);
        assert Split(t)[1..] == rest;
        assert CapitalizeAll(rest) == [Capitalize(rest[0])] + CapitalizeAll(rest[1..]);
        var ws := [CaseWord("", atStart)] + CapitalizeAll(rest);
        assert ws[1..] == CapitalizeAll(rest);
      } else {
        CaseFromBySplit(t[1..], false);
        var c := if atStart then ToUpper(t[0]) else ToLower(t[0]);
        assert Split(t)[0] == [t[0]] + rest[0] && Split(t)[1..] == rest[1..];
        assert CaseWord([t[0]] + rest[0], atStart) == [c] + LowerAll(rest[0]) by {
          assert ([t[0]] + rest[0])[1..] == rest[0];
        }
        JoinPrefix([c], LowerAll(rest[0]), CapitalizeAll(rest[1..]));
      }
    }
  }

  /** Each character of the result, by position: upper case where a word opens, lower case elsewhere. */
  lemma {:induction false} CaseFromAt(s: string, atStart: bool, i: nat)
    requires i < |s|
    ensures CaseFrom(s, atStart)[i] ==
      if (i == 0 && atStart) || (i > 0 && s[i - 1] == ' ') then ToUpper(s[i]) else ToLower(s[i])
    decreases |s|
  {
    if i > 0 {
      CaseFromAt(s[1..], s[0] == ' ', i - 1);
    }
  }

  /** The spaces stay where they were, no more and no fewer, so the text keeps its length. */
  lemma CapitalizeWordsKeepsSpaces(text: string)
    ensures |CapitalizeWords(text)| == |text|
    ensures forall i :: 0 <= i < |text| ==> (CapitalizeWords(text)[i] == ' ' <==> text[i] == ' ')
  {
    forall i | 0 <= i < |text| ensures (CaseFrom(text, true)[i] == ' ' <==> text[i] == ' ') {
      CaseFromAt(text, true, i);
      CaseMappingFacts(text[i]);
    }
  }

  lemma {:induction false} CaseFromIdempotent(s: string, atStart: bool)
    ensures CaseFrom(CaseFrom(s, atStart), atStart) == CaseFrom(s, atStart)
    decreases |s|
  {
    if s != [] {
      var r := CaseFrom(s, atStart);
      CaseMappingFacts(s[0]);
      CaseFromIdempotent(s[1..], s[0] == ' ');
      assert r[1..] == CaseFrom(s[1..], s[0] == ' ');
    }
  }

  /** Normalising a name twice gives the same as normalising it once. */
  lemma CapitalizeWordsIdempotent(text: string)
    ensures CapitalizeWords(CapitalizeWords(text)) == CapitalizeWords(text)
  {
    CaseFromIdempotent(text, true);
  }

  // ---- The form ----

  datatype RegisterForm = RegisterForm(name: string, surname: string, email: string, birthDate: string, role: string)

  const InitialRegisterForm := RegisterForm("", "", "", "", "user")

  /** The inputs that call `handleChange`, by their `name` attribute. */
  datatype RegisterInput = NameInput | SurnameInput | EmailInput | BirthDateInput

  /** The update of `handleChange`: name and surname are normalised, email and birth date stored as typed. */
  function ChangeInput(f: RegisterForm, input: RegisterInput, value: string): (r: RegisterForm)
    ensures input == NameInput ==> r == f.(name := CapitalizeWords(value))
    ensures input == SurnameInput ==> r == f.(surname := CapitalizeWords(value))
    ensures input == EmailInput ==> r == f.(email := value)
    ensures input == BirthDateInput ==> r == f.(birthDate := value)
  {
    match input
    case NameInput => f.(name := CapitalizeWords(value))
    case SurnameInput => f.(surname := CapitalizeWords(value))
    case EmailInput => f.(email := value)
    case BirthDateInput => f.(birthDate := value)
  }

  /** Retyping the value a name input already shows leaves the form as it is. */
  lemma RetypingNameIsStable(f: RegisterForm, value: string)
    ensures ChangeInput(ChangeInput(f, NameInput, value), NameInput, ChangeInput(f, NameInput, value).name)
      == ChangeInput(f, NameInput, value)
  {
    CapitalizeWordsIdempotent(value);
  }

  // ---- The submission ----

  /** The body of POST /users/register. */
  datatype Registration = Registration(name: string, email: string, password: string, role: string)

  /** `${yearOfBirth}`: the year, or "NaN" when the birth date does not parse. */
  function YearText(year: Option<int>): (s: string)
    ensures year.None? <==> s == "NaN"
  {
    match year
    case None => "NaN"
    case Some(y) =>
      assert IntToString(y)[0] == '-' || IsDigit(IntToString(y)[0]);
      IntToString(y)
  }

  /** The request built from the form; `year` is `new Date(birthDate).getFullYear()`. */
  function RegistrationFor(f: RegisterForm, year: Option<int>): (r: Registration)
    ensures r.email == f.email && r.role == f.role
    ensures |r.name| == |f.name| + 1 + |f.surname|
    ensures r.name[..|f.name|] == f.name && r.name[|f.name|] == ' ' && r.name[|f.name| + 1..] == f.surname
    ensures |r.password| > |f.surname| && r.password[..|f.surname|] == f.surname
  {
    var fullName := f.name + " " + f.surname;
    assert fullName[|f.name| + 1..] == f.surname;
    Registration(fullName, f.email, f.surname + YearText(year), f.role)
  }

  /** The password is the surname followed by the year of birth, which can be read back from it. */
  lemma PasswordCarriesYear(f: RegisterForm, y: int)
    ensures var p := RegistrationFor(f, Some(y)).password;
      IsIntText(p[|f.surname|..]) && ParseInt(p[|f.surname|..]) == y
  {
    var p := RegistrationFor(f, Some(y)).password;
    assert p[|f.surname|..] == IntToString(y);
    IntToStringRoundTrip(y);
  }

  const RegisteredMessage := "Usuário cadastrado com sucesso!"
  const RegisterSendFailedMessage := "Erro ao enviar os dados."
  const UnknownError := "Erro desconhecido"

  /** The toast for the reply, and the route the page moves to after a success. */
  function RegisterOutcome(reply: HttpReply): (out: (Notice, Option<string>))
    ensures out.0.Success? <==> reply.Answered? && reply.ok
    ensures out.1 == Some("/processos") <==> reply.Answered? && reply.ok
    ensures out.1.None? <==> !(reply.Answered? && reply.ok)
    ensures reply.Answered? && !reply.ok && reply.json.Some? ==>
      out.0 == Failure("Erro ao cadastrar usuário: " + Or(reply.json.value.message, UnknownError))
    ensures reply.Unreachable? || (!reply.ok && reply.json.None?) ==> out.0 == Failure(RegisterSendFailedMessage)
  {
    match reply
    case Unreachable => (Failure(RegisterSendFailedMessage), None)
    case Answered(ok, json) =>
      if ok then (Success(RegisteredMessage), Some("/processos"))
      else match json
        case None => (Failure(RegisterSendFailedMessage), None)
        case Some(body) => (Failure("Erro ao cadastrar usuário: " + Or(body.message, UnknownError)), None)
  }

  /** A rejection without a message names the error as unknown. */
  lemma MissingMessageIsUnknown(body: JsonBody)
    requires !Truthy(body.message)
    ensures RegisterOutcome(Answered(false, Some(body))).0 == Failure("Erro ao cadastrar usuário: Erro desconhecido")
  {
  }

  class RegisterUserPage {
    var form: RegisterForm
    var isSubmitting: bool

    constructor ()
      ensures form == InitialRegisterForm && !isSubmitting
    {
      form := InitialRegisterForm;
      isSubmitting := false;
    }

    method HandleChange(input: RegisterInput, value: string)
      modifies this
      ensures form == ChangeInput(old(form), input, value) && isSubmitting == old(isSubmitting)
    {
      var normalised := if input == NameInput || input == SurnameInput then CapitalizeWords(value) else value;
      match input
      case NameInput => form := form.(name := normalised);
      case SurnameInput => form := form.(surname := normalised);
      case EmailInput => form := form.(email := normalised);
      case BirthDateInput => form := form.(birthDate := normalised);
    }

    /** The Administrador and Usuário buttons. */
    method HandleRoleChange(role: string)
      modifies this
      ensures form == old(form).(role := role) && isSubmitting == old(isSubmitting)
    {
      form := form.(role := role);
    }

    /** `handleSubmit` up to the request: nothing while one is in flight, otherwise the request. */
    method BeginRegister(year: Option<int>) returns (request: Option<Registration>)
      modifies this
      ensures form == old(form) && isSubmitting
      ensures old(isSubmitting) <==> request.None?
      ensures request.Some? ==> request.value == RegistrationFor(form, year)
    {
      if isSubmitting {
        return None;
      }
      isSubmitting := true;
      request := Some(RegistrationFor(form, year));
    }

    /** `handleSubmit` after the reply: the toast, the navigation, and the `finally`. */
    method CompleteRegister(reply: HttpReply) returns (notice: Notice, route: Option<string>)
      modifies this
      ensures (notice, route) == RegisterOutcome(reply)
      ensures form == old(form) && !isSubmitting
    {
      var out := RegisterOutcome(reply);
      notice := out.0;
      route := out.1;
      isSubmitting := false;
    }
  }
}
