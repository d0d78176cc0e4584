/**
 * The older route tree of App.js. Its `ProtectedRoute` differs from App.jsx:
 * it does not check that the role is present, and a role outside the list is
 * sent to `/shipments` instead of the login page.
 */
module AppRoutesAlt {
  import opened Wrappers
  import opened Roles
  import AppRoutes

  type Guard = AppRoutes.Guard

  /** `ProtectedRoute` of App.js. */
  function ProtectedRoute(loading: bool, user: Option<ClientUser>, allowedRoles: Option<seq<Role>>): (g: Guard)
    ensures loading ==> g == AppRoutes.ShowLoading
    ensures !loading && user.None? ==> g == AppRoutes.Redirect("/login")
    ensures !loading && user.Some? && allowedRoles.Some? && !Includes(allowedRoles.value, user.value.role) ==>
      g == AppRoutes.Redirect("/shipments")
    ensures g == AppRoutes.Render <==>
      !loading && user.Some? && (allowedRoles.None? || Includes(allowedRoles.value, user.value.role))
  {
    if loading then AppRoutes.ShowLoading
    else if user.None? then AppRoutes.Redirect("/login")
    else if allowedRoles.Some? && !Includes(allowedRoles.value, user.value.role) then AppRoutes.Redirect("/shipments")
    else AppRoutes.Render
  }

  /** Every route App.js admits is also admitted by App.jsx's guard unless the role is missing. */
  lemma GuardsCompared(loading: bool, user: Option<ClientUser>, allowedRoles: Option<seq<Role>>)
    ensures AppRoutes.ProtectedRoute(loading, user, allowedRoles) == AppRoutes.Render ==>
      ProtectedRoute(loading, user, allowedRoles) == AppRoutes.Render
    ensures user.Some? && Truthy(user.value.role) ==>
      (ProtectedRoute(loading, user, allowedRoles) == AppRoutes.Render <==>
       AppRoutes.ProtectedRoute(loading, user, allowedRoles) == AppRoutes.Render)
    ensures !loading && user.Some? && !Truthy(user.value.role) && allowedRoles.None? ==>
      ProtectedRoute(loading, user, allowedRoles) == AppRoutes.Render &&
      AppRoutes.ProtectedRoute(loading, user, allowedRoles) == AppRoutes.Redirect("/login")
  {
  }

  /**
   * The routes App.js declares. `/dashboard` is declared twice with the same
   * guard; the router ranks the two equally and keeps the first.
   */
  datatype RouteKey = LoginRoute | DashboardRoute | ShipmentsRoute | RootRoute | Unmatched

  /** The pages App.js can show; `/shipments` renders a placeholder. */
  datatype View = LoginView | DashboardView | ShipmentsPlaceholder

  /** `ReferenceError(name)`: building `App()`'s elements read an identifier nothing declares. */
  datatype Screen = Loading | Shows(view: View) | NoMatch | RedirectTo(path: string) | ReferenceError(name: string)

  /** The components App.js's element tree names, in the order `App()` evaluates them. */
  const REFERENCED: seq<string> :=
    ["AuthProvider", "Router", "Routes", "Route", "Login", "ProtectedRoute", "Dashboard",
     "MainLayout", "Navigate"]

  /** The names App.js imports or declares itself. */
  const DECLARED: set<string> :=
    {"Router", "Routes", "Route", "Navigate", "AuthProvider", "useAuth", "Login", "Dashboard",
     "ProtectedRoute", "App"}

  /** The first name of `refs` that `scope` does not declare, if any. */
  function FirstUnbound(refs: seq<string>, scope: set<string>): (r: Option<string>)
    ensures r.None? <==> forall i :: 0 <= i < |refs| ==> refs[i] in scope
    ensures r.Some? ==> r.value !in scope && exists i :: 0 <= i < |refs| && refs[i] == r.value &&
                                                   (forall j :: 0 <= j < i ==> refs[j] in scope)
  {
    if |refs| == 0 then None
    else if refs[0] !in scope then Some(refs[0])
    else
      var rest := FirstUnbound(refs[1..], scope);
      assert forall i :: 1 <= i < |refs| ==> refs[i] == refs[1..][i - 1];
      rest
  }

  /** Route `k` once the element tree has been built. */
  function RouteScreen(k: RouteKey, loading: bool, user: Option<ClientUser>): (s: Screen)
    ensures k == DashboardRoute && !loading && user.Some? ==>
      (s == Shows(DashboardView) <==> HasRole(user, ADMIN) || HasRole(user, AGENT))
    ensures k == RootRoute ==> s == RedirectTo("/login")
    ensures s == NoMatch <==> k == Unmatched
    ensures !s.ReferenceError?
  {
    match k
    case LoginRoute => Shows(LoginView)
    case RootRoute => RedirectTo("/login")
    case Unmatched => NoMatch
    case DashboardRoute =>
      var g := ProtectedRoute(loading, user, Some([ADMIN, AGENT]));
      if g == AppRoutes.ShowLoading then Loading
      else if g.Redirect? then RedirectTo(g.path)
      else Shows(DashboardView)
    case ShipmentsRoute =>
      var g := ProtectedRoute(loading, user, None);
      if g == AppRoutes.ShowLoading then Loading
      else if g.Redirect? then RedirectTo(g.path)
      else Shows(ShipmentsPlaceholder)
  }

  /**
   * Rendering `App()` with the names in `scope` bound: the whole element tree
   * is built before any route is matched, so an unbound name fails every path.
   */
  function Render(k: RouteKey, loading: bool, user: Option<ClientUser>, scope: set<string>): (s: Screen)
    ensures s.ReferenceError? <==> exists i :: 0 <= i < |REFERENCED| && REFERENCED[i] !in scope
    ensures s.ReferenceError? ==> s.name !in scope
  {
    match FirstUnbound(REFERENCED, scope)
    case Some(name) => ReferenceError(name)
    case None => RouteScreen(k, loading, user)
  }

  /** Rendering App.js as written, with the names it declares. */
  function Visit(k: RouteKey, loading: bool, user: Option<ClientUser>): (s: Screen)
    ensures s.ReferenceError? ==> s.name in REFERENCED && s.name !in DECLARED
  {
    Render(k, loading, user, DECLARED)
  }

  /** `MainLayout` is used but never imported, so App.js shows no route at all, not even `/login`. */
  lemma NothingRenders(k: RouteKey, loading: bool, user: Option<ClientUser>)
    ensures Visit(k, loading, user) == ReferenceError("MainLayout")
  {
    assert REFERENCED[7] == "MainLayout";
  }

  /**
   * App.js with `MainLayout` imported from components/MainLayout.jsx: the
   * dashboard is shown exactly to ADMIN and AGENT, `/` goes to `/login`, and
   * only undeclared paths match nothing.
   */
  function VisitWithLayout(k: RouteKey, loading: bool, user: Option<ClientUser>): (s: Screen)
    ensures s == RouteScreen(k, loading, user)
    ensures k == LoginRoute ==> s == Shows(LoginView)
    ensures k == DashboardRoute && !loading && user.Some? ==>
      (s == Shows(DashboardView) <==> HasRole(user, ADMIN) || HasRole(user, AGENT))
    ensures k == RootRoute ==> s == RedirectTo("/login")
    ensures s == NoMatch <==> k == Unmatched
  {
    assert forall i :: 0 <= i < |REFERENCED| ==> REFERENCED[i] in DECLARED + {"MainLayout"};
    Render(k, loading, user, DECLARED + {"MainLayout"})
  }
}
