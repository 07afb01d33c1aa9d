/**
 * The application shell: the user restored from `localStorage` on start,
 * logout, and the two route tables (logged in and anonymous), each ending
 * in a catch-all redirect.
 */
module App {
  import opened Browser
  import Header
  import LoginPage

  /** The screens the route tables can show. */
  datatype Screen = LoginScreen | ProcessFormScreen | RegisterUserScreen | ProcessTableScreen

  /** A path either shows a screen or redirects to another path. */
  datatype Resolution = Show(screen: Screen) | Redirect(to: string)

  /** An ASCII capital to its small letter; every other character is kept. */
  function LowerAscii(c: char): char {
    if 'A' <= c <= 'Z' then (c as int + 32) as char else c
  }

  /** The path with its ASCII letters in small case. */
  function LowerPath(s: string): (t: string)
    ensures |t| == |s| && forall i :: 0 <= i < |s| ==> t[i] == LowerAscii(s[i])
  {
    seq(|s|, i requires 0 <= i < |s| => LowerAscii(s[i]))
  }

  /** The path without the slashes it ends with. */
  function DropTrailingSlashes(s: string): (t: string)
    ensures t <= s
    ensures t == [] || t[|t| - 1] != '/'
    ensures forall i :: |t| <= i < |s| ==> s[i] == '/'
    decreases |s|
  {
    if s != [] && s[|s| - 1] == '/' then DropTrailingSlashes(s[..|s| - 1]) else s
  }

  /**
   * What a `<Route path>` is compared with: route paths match regardless of
   * ASCII case and accept any number of trailing slashes. The root "/" comes
   * out as "".
   */
  function RoutePath(path: string): string {
    DropTrailingSlashes(LowerPath(path))
  }

  /** A path in small letters that does not end with a slash is compared as it is. */
  lemma CanonicalRoutePath(s: string)
    requires s != [] && s[|s| - 1] != '/'
    requires forall i :: 0 <= i < |s| ==> !('A' <= s[i] <= 'Z')
    ensures RoutePath(s) == s
  {
    assert LowerPath(s) == s;
  }

  /** The `<Routes>` in force: the first table when a user is set, the second otherwise. */
  function Resolve(loggedIn: bool, path: string): (r: Resolution)
    ensures loggedIn ==> (r.Show? <==> RoutePath(path) in {"/processos", "/cadastrar-usuario", "/visualizar-tabela"})
    ensures loggedIn && r.Redirect? ==> r.to == "/processos"
    ensures !loggedIn ==> (r.Show? <==> RoutePath(path) == "")
    ensures !loggedIn && r.Redirect? ==> r.to == "/"
    ensures !loggedIn && r.Show? ==> r.screen == LoginScreen
  {
    var key := RoutePath(path);
    if loggedIn then
      if key == "/processos" then Show(ProcessFormScreen)
      else if key == "/cadastrar-usuario" then Show(RegisterUserScreen)
      else if key == "/visualizar-tabela" then Show(ProcessTableScreen)
      else Redirect("/processos")
    else
      if key == "" then Show(LoginScreen) else Redirect("/")
  }

  /** One more trailing slash never changes where a path leads. */
  lemma {:induction false} TrailingSlashIgnored(loggedIn: bool, path: string)
    ensures Resolve(loggedIn, path + "/") == Resolve(loggedIn, path)
  {
    var lowered := LowerPath(path + "/");
    assert lowered == LowerPath(path) + "/";
    assert lowered[..|lowered| - 1] == LowerPath(path);
  }

  /** Paths that differ only in the case of ASCII letters lead to the same place. */
  lemma AsciiCaseIgnored(loggedIn: bool, p: string, q: string)
    requires |p| == |q| && forall i :: 0 <= i < |p| ==> LowerAscii(p[i]) == LowerAscii(q[i])
    ensures Resolve(loggedIn, p) == Resolve(loggedIn, q)
  {
    assert LowerPath(p) == LowerPath(q);
  }

  /** The registration form is reached with capitals and a trailing slash too. */
  lemma MixedCasePathExample()
    ensures Resolve(true, "/Cadastrar-Usuario/") == Show(RegisterUserScreen)
  {
    var lowered := LowerPath("/Cadastrar-Usuario/");
    assert lowered == "/cadastrar-usuario/";
    assert lowered[..|lowered| - 1] == "/cadastrar-usuario";
    CanonicalRoutePath("/cadastrar-usuario");
  }

  /** Every path shows a screen after at most one redirect; the login screen only shows to nobody. */
  lemma OneRedirectSettles(loggedIn: bool, path: string)
    ensures Resolve(loggedIn, path).Redirect? ==> Resolve(loggedIn, Resolve(loggedIn, path).to).Show?
    ensures Resolve(loggedIn, path).Show? ==> (Resolve(loggedIn, path).screen == LoginScreen <==> !loggedIn)
  {
  }

  /**
   * The bar's "Respostas Recebidas" and "Visualizar Usuários" buttons lead
   * to paths the logged-in table does not list, so both land on the process
   * form; "Formulário" and "Cadastrar" reach their screens.
   */
  lemma HeaderRoutesLanding()
    ensures Resolve(true, Header.RouteFor("respostas").value) == Redirect("/processos")
    ensures Resolve(true, Header.RouteFor("usuarios").value) == Redirect("/processos")
    ensures Resolve(true, Header.RouteFor("formulario").value) == Show(ProcessFormScreen)
    ensures Resolve(true, Header.RouteFor("cadastrar").value) == Show(RegisterUserScreen)
  {
    assert Header.RouteFor("respostas").value == "/visualizar-processos";
    assert Header.RouteFor("usuarios").value == "/visualizar-usuarios";
    assert Header.RouteFor("formulario").value == "/processos";
    assert Header.RouteFor("cadastrar").value == "/cadastrar-usuario";
    assert Resolve(true, "/visualizar-processos") == Redirect("/processos") by {
      LandingOf("/visualizar-processos");
    }
    assert Resolve(true, "/visualizar-usuarios") == Redirect("/processos") by {
      LandingOf("/visualizar-usuarios");
    }
    assert Resolve(true, "/processos") == Show(ProcessFormScreen) by {
      LandingOf("/processos");
    }
    assert Resolve(true, "/cadastrar-usuario") == Show(RegisterUserScreen) by {
      LandingOf("/cadastrar-usuario");
    }
  }

  /** A path in small letters without a trailing slash resolves by its own text. */
  lemma LandingOf(s: string)
    requires s != [] && s[|s| - 1] != '/'
    requires forall i :: 0 <= i < |s| ==> !('A' <= s[i] <= 'Z')
    ensures Resolve(true, s) == if s == "/processos" then Show(ProcessFormScreen)
      else if s == "/cadastrar-usuario" then Show(RegisterUserScreen)
      else if s == "/visualizar-tabela" then Show(ProcessTableScreen)
      else Redirect("/processos")
  {
    CanonicalRoutePath(s);
  }

  /** No button of the bar reaches the process table. */
  lemma TableUnreachableFromHeader(page: string)
    requires Header.RouteFor(page).Some?
    ensures Resolve(true, Header.RouteFor(page).value) != Show(ProcessTableScreen)
  {
  }

  /** `user.key` on a parsed value: an object's own field, `undefined` (None) otherwise. */
  function Member(v: Json, key: string): (r: Option<Json>)
    ensures r.Some? <==> v.JObject? && key in v.fields
    ensures r.Some? ==> r.value == v.fields[key]
  {
    if v.JObject? && key in v.fields then Some(v.fields[key]) else None
  }

  /** What the shell draws: the bar (only for a user) and what the path resolves to. */
  datatype Frame = Frame(bar: Option<Header.Bar>, landing: Resolution)

  /** `user ? <Header user={user} .../> <Routes>... : <Routes>...`. */
  function Draw(user: Option<Json>, activePage: string, path: string): (f: Frame)
    ensures f.bar.Some? <==> user.Some?
    ensures f.landing == Resolve(user.Some?, path)
    ensures user.Some? ==>
      f.bar.value == Header.Render(Member(user.value, "role"), Member(user.value, "name"), activePage)
  {
    match user
    case None => Frame(None, Resolve(false, path))
    case Some(u) => Frame(Some(Header.Render(Member(u, "role"), Member(u, "name"), activePage)), Resolve(true, path))
  }

  /**
   * The bar shows the four navigation buttons exactly to a user object whose
   * `role` field is the string "admin"; a user restored as an array has no
   * fields and never gets them.
   */
  lemma AdminButtonsOnlyForAdminRole(u: Json, activePage: string, path: string)
    ensures var bar := Draw(Some(u), activePage, path).bar.value;
      |bar.buttons| == 4 <==> u.JObject? && "role" in u.fields && u.fields["role"] == JString("admin")
    ensures u.JArray? ==> Draw(Some(u), activePage, path).bar.value.buttons == []
  {
  }

  const UserKey := "user"
  const TokenKey := "access_token"

  /** The user the app holds, and its effects on storage. */
  class AppComponent {
    var user: Option<Json>

    constructor ()
      ensures user == None
    {
      user := None;
    }

    /** `user ? ... : ...`: only a parsed object is ever stored in `user`, so it is set exactly when truthy. */
    function LoggedIn(): bool
      reads this
    {
      user.Some?
    }

    /**
     * The effect that runs once on start. `parsed` is what `JSON.parse`
     * gives for the stored text; it is read only when that text is a
     * non-empty string.
     */
    method RestoreUser(store: Storage, parsed: ParseResult)
      modifies this, store
      ensures var stored := old(store.GetItem(UserKey));
        && (!Truthy(stored) ==> user == old(user) && store.entries == old(store.entries))
        && (Truthy(stored) && parsed.Parsed? && IsTruthyObject(parsed.value) ==>
              user == Some(parsed.value) && store.entries == old(store.entries))
        && (Truthy(stored) && !(parsed.Parsed? && IsTruthyObject(parsed.value)) ==>
              user == old(user) && store.entries == old(store.entries) - {UserKey})
    {
      var stored := store.GetItem(UserKey);
      if stored.Some? && stored.value != "" {
        match parsed
        case Parsed(value) =>
          if IsTruthyObject(value) {
            user := Some(value);
          } else {
            store.RemoveItem(UserKey);
          }
        case SyntaxError =>
          store.RemoveItem(UserKey);
      }
    }

    /** `handleLogout`. */
    method HandleLogout(store: Storage)
      modifies this, store
      ensures user == None
      ensures store.entries == old(store.entries) - {TokenKey, UserKey}
    {
      store.RemoveItem(TokenKey);
      store.RemoveItem(UserKey);
      user := None;
    }
  }

  /** After logout nothing of the session is left in storage and every path leads to the login screen. */
  method LogoutEndsSession(app: AppComponent, store: Storage, path: string) returns (landing: Resolution)
    modifies app, store
    ensures TokenKey !in store.entries && UserKey !in store.entries
    ensures forall k :: k in old(store.entries) && k != TokenKey && k != UserKey ==>
      k in store.entries && store.entries[k] == old(store.entries)[k]
    ensures landing == Resolve(false, path)
    ensures landing.Show? || Resolve(false, landing.to) == Show(LoginScreen)
  {
    app.HandleLogout(store);
    landing := Resolve(app.LoggedIn(), path);
  }

  /**
   * The login page only ever writes "access_token": a browser with no stored
   * "user" is still logged out after a successful login and a reload, so the
   * logged-in routes stay out of reach.
   */
  method LoginThenReload(store: Storage, reply: HttpReply, parsed: ParseResult) returns (landing: Resolution)
    requires UserKey !in store.entries
    modifies store
    ensures UserKey !in store.entries
    ensures landing == Resolve(false, "/processos") && landing == Redirect("/")
  {
    var login := new LoginPage.LoginPageComponent();
    login.HandleSubmit(store, reply);
    var app := new AppComponent();
    app.RestoreUser(store, parsed);
    landing := Resolve(app.LoggedIn(), "/processos");
  }
}
