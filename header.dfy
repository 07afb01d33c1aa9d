/**
 * The bar shown above every page once a user is logged in: the page it
 * marks as active, the route each button leads to, and which buttons an
 * administrator sees that other users do not.
 */
module Header {
  import opened Browser

  /** `handleNavigation`'s if-chain: the route for a page name, or None for a name it does not know. */
  function RouteFor(page: string): (route: Option<string>)
    ensures route.Some? <==> page in {"formulario", "cadastrar", "respostas", "usuarios"}
  {
    if page == "formulario" then Some("/processos")
    else if page == "cadastrar" then Some("/cadastrar-usuario")
    else if page == "respostas" then Some("/visualizar-processos")
    else if page == "usuarios" then Some("/visualizar-usuarios")
    else None
  }

  /** The four known pages lead to four different routes. */
  lemma RoutesAreDistinct(p: string, q: string)
    requires RouteFor(p).Some? && RouteFor(q).Some?
    ensures RouteFor(p) == RouteFor(q) <==> p == q
  {
  }

  /** `user.role === "admin"`: only the string "admin" counts. */
  predicate IsAdmin(role: Option<Json>)
    ensures IsAdmin(role) ==> role.Some? && role.value.JString?
  {
    role == Some(JString("admin"))
  }

  /** A navigation button: its caption, the page it selects, and whether it is drawn as the active one. */
  datatype NavButton = NavButton(caption: string, page: string, active: bool)

  /** What the bar shows: the title, the navigation buttons, the user's name and the Sair button. */
  datatype Bar = Bar(title: string, buttons: seq<NavButton>, userName: Option<Json>, logoutCaption: string)

  function Title(role: Option<Json>): (t: string)
    ensures IsAdmin(role) ==> t == "Articuladores RENAPETI - Painel do Administrador"
    ensures !IsAdmin(role) ==> t == "Articuladores RENAPETI - Painel do Usuário"
  {
    "Articuladores RENAPETI - Painel do " + (if IsAdmin(role) then "Administrador" else "Usuário")
  }

  /** The bar for a user with the given `role` and `name` fields, with `activePage` selected. */
  function Render(role: Option<Json>, name: Option<Json>, activePage: string): (b: Bar)
    ensures b.userName == name && b.logoutCaption == "Sair"
    ensures !IsAdmin(role) ==> b.buttons == []
    ensures IsAdmin(role) ==> |b.buttons| == 4
    ensures forall k :: 0 <= k < |b.buttons| ==> RouteFor(b.buttons[k].page).Some?
    ensures forall k :: 0 <= k < |b.buttons| ==> (b.buttons[k].active <==> b.buttons[k].page == activePage)
  {
    var buttons :=
      if IsAdmin(role) then
        [ NavButton("Formulário", "formulario", activePage == "formulario"),
          NavButton("Cadastrar", "cadastrar", activePage == "cadastrar"),
          NavButton("Respostas Recebidas", "respostas", activePage == "respostas"),
          NavButton("Visualizar Usuários", "usuarios", activePage == "usuarios") ]
      else [];
    Bar(Title(role), buttons, name, "Sair")
  }

  /** At most one button is drawn as active, and for an administrator on a known page exactly one. */
  lemma OneActiveButton(role: Option<Json>, name: Option<Json>, activePage: string)
    ensures var bs := Render(role, name, activePage).buttons;
      forall j, k :: 0 <= j < k < |bs| && bs[j].active ==> !bs[k].active
    ensures IsAdmin(role) && RouteFor(activePage).Some? ==>
      exists k :: 0 <= k < |Render(role, name, activePage).buttons| && Render(role, name, activePage).buttons[k].active
  {
    var bs := Render(role, name, activePage).buttons;
    if IsAdmin(role) {
      assert bs[0].page == "formulario" && bs[1].page == "cadastrar";
      assert bs[2].page == "respostas" && bs[3].page == "usuarios";
      if RouteFor(activePage).Some? {
        if activePage == "formulario" { assert bs[0].active; }
        else if activePage == "cadastrar" { assert bs[1].active; }
        else if activePage == "respostas" { assert bs[2].active; }
        else { assert bs[3].active; }
      }
    }
  }

  /** The component's own state. */
  class HeaderComponent {
    var activePage: string

    constructor ()
      ensures activePage == "respostas"
    {
      activePage := "respostas";
    }

    /** `handleNavigation`: the page becomes active whatever it is; known pages also navigate. */
    method HandleNavigation(page: string) returns (navigateTo: Option<string>)
      modifies this
      ensures activePage == page
      ensures navigateTo == RouteFor(page)
    {
      activePage := page;
      if page == "formulario" {
        navigateTo := Some("/processos");
      } else if page == "cadastrar" {
        navigateTo := Some("/cadastrar-usuario");
      } else if page == "respostas" {
        navigateTo := Some("/visualizar-processos");
      } else if page == "usuarios" {
        navigateTo := Some("/visualizar-usuarios");
      } else {
        navigateTo := None;
      }
    }
  }
}
