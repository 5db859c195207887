/**
 * The route table and the `PrivateRoute` guard of src/App.jsx. A path is the list of its
 * non-empty segments ("/admin/calibrantes/7" is ["admin", "calibrantes", "7"]).
 */
module Routes {
  import opened Wrappers
  import opened Auth

  /** What `PrivateRoute` renders. */
  datatype GuardResult = Placeholder | RedirectTo(path: string) | Render

  /**
   * `PrivateRoute` for the session state (`loading`, `user`) and the required role, `""` when the
   * route requires none.
   */
  function Guard(loading: bool, user: Option<Record>, role: string): (g: GuardResult)
    ensures loading ==> g == Placeholder
    ensures !loading && user.None? ==> g == RedirectTo("/")
    ensures !loading && user.Some? && role != [] && RoleOf(user.value) != Some(role) ==> g == RedirectTo("/")
    ensures g == Render <==> !loading && user.Some? && (role == [] || RoleOf(user.value) == Some(role))
  {
    if loading then Placeholder
    else if user.None? then RedirectTo("/")
    else if role != [] && RoleOf(user.value) != Some(role) then RedirectTo("/")
    else Render
  }

  /** The pages of the application. */
  datatype Page =
    | LoginPage | ActivatePage
    | AdminPanel | AdminStats | ClientList | ClientDetail(id: string) | Templates | ExerciseLibrary
    | ClientHome | ClientPlan | ClientProgress | ClientProfile
    | ClientShell   // "/client" itself: the client layout with no page in it, as there is no index route

  /** What the router shows for a path. */
  datatype Screen = Show(page: Page) | Loading | Navigate(to: string) | NoMatch

  /** The page a child path of "/admin" names; `None` for the index route and for unknown paths. */
  function AdminChild(rest: seq<string>): Option<Page> {
    if rest == ["panel"] then Some(AdminPanel)
    else if rest == ["estadisticas"] then Some(AdminStats)
    else if rest == ["calibrantes"] then Some(ClientList)
    else if |rest| == 2 && rest[0] == "calibrantes" then Some(ClientDetail(rest[1]))
    else if rest == ["programas"] then Some(Templates)
    else if rest == ["ejercicios"] then Some(ExerciseLibrary)
    else None
  }

  /** The page a child path of "/client" names. */
  function ClientChild(rest: seq<string>): Option<Page> {
    if rest == [] then Some(ClientShell)
    else if rest == ["dashboard"] then Some(ClientHome)
    else if rest == ["programa"] then Some(ClientPlan)
    else if rest == ["progreso"] then Some(ClientProgress)
    else if rest == ["perfil"] then Some(ClientProfile)
    else None
  }

  /** A guarded subtree: the guard decides, and only when it lets through is the child shown. */
  function Guarded(loading: bool, user: Option<Record>, role: string, child: Screen): Screen {
    match Guard(loading, user, role)
    case Placeholder => Loading
    case RedirectTo(p) => Navigate(p)
    case Render => child
  }

  /** The routes of `App`: two public pages, the admin subtree and the client subtree. */
  function Resolve(path: seq<string>, loading: bool, user: Option<Record>): Screen {
    if path == [] then Show(LoginPage)
    else if path == ["activate"] then Show(ActivatePage)
    else if path[0] == "admin" then
      if |path| == 1 then Guarded(loading, user, "admin", Navigate("/admin/panel"))
      else
        match AdminChild(path[1..])
        case Some(p) => Guarded(loading, user, "admin", Show(p))
        case None => NoMatch
    else if path[0] == "client" then
      match ClientChild(path[1..])
      case Some(p) => Guarded(loading, user, "client", Show(p))
      case None => NoMatch
    else NoMatch
  }

  /** Whether a page belongs to the admin subtree. */
  predicate IsAdminPage(p: Page) {
    p.AdminPanel? || p.AdminStats? || p.ClientList? || p.ClientDetail? || p.Templates? || p.ExerciseLibrary?
  }

  /** Whether a page belongs to the client subtree. */
  predicate IsClientPage(p: Page) {
    p.ClientHome? || p.ClientPlan? || p.ClientProgress? || p.ClientProfile? || p.ClientShell?
  }

  /** An admin page is shown only to a signed-in user whose role is "admin", once loading is over. */
  lemma AdminPagesNeedAdmin(path: seq<string>, loading: bool, user: Option<Record>)
    requires Resolve(path, loading, user).Show? && IsAdminPage(Resolve(path, loading, user).page)
    ensures !loading && user.Some? && RoleOf(user.value) == Some("admin")
  {
  }

  /** A client page is shown only to a signed-in user whose role is "client", once loading is over. */
  lemma ClientPagesNeedClient(path: seq<string>, loading: bool, user: Option<Record>)
    requires Resolve(path, loading, user).Show? && IsClientPage(Resolve(path, loading, user).page)
    ensures !loading && user.Some? && RoleOf(user.value) == Some("client")
  {
  }

  /** A client who asks for anything under "/admin" is sent to "/" or finds no route. */
  lemma ClientNeverGetsAdmin(path: seq<string>, user: Record)
    requires path != [] && path[0] == "admin"
    requires RoleOf(user) == Some("client")
    ensures Resolve(path, false, Some(user)) in {Navigate("/"), NoMatch}
  {
  }

  /** For the admin, "/admin" goes to the panel, and every admin page is shown. */
  lemma AdminIndexGoesToPanel(user: Record)
    requires RoleOf(user) == Some("admin")
    ensures Resolve(["admin"], false, Some(user)) == Navigate("/admin/panel")
    ensures forall rest :: AdminChild(rest).Some? ==> Resolve(["admin"] + rest, false, Some(user)) == Show(AdminChild(rest).value)
  {
    forall rest | AdminChild(rest).Some?
      ensures Resolve(["admin"] + rest, false, Some(user)) == Show(AdminChild(rest).value)
    {
      assert (["admin"] + rest)[1..] == rest;
    }
  }

  /** While the session loads, every guarded route shows the placeholder. */
  lemma LoadingShowsPlaceholder(path: seq<string>, user: Option<Record>)
    requires path != [] && path != ["activate"]
    requires Resolve(path, true, user) != NoMatch
    ensures Resolve(path, true, user) == Loading
  {
  }

  /**
   * The provider renders the routes only once loading is over, so the guard's placeholder is never
   * on screen: every screen the application shows is one a settled session decides.
   */
  lemma PlaceholderNeverShown(a: AuthProvider, path: seq<string>)
    requires a.ChildrenShown()
    ensures Resolve(path, a.loading, a.user) != Loading
  {
  }
}
