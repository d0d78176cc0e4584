/**
 * The route tree of App.jsx: the `ProtectedRoute` guard, the incident view
 * dispatcher, and the table from route to allowed roles and page.
 */
module AppRoutes {
  import opened Wrappers
  import opened Roles

  /** What a `ProtectedRoute` renders: the loading placeholder, its children, or a `<Navigate>`. */
  datatype Guard = ShowLoading | Render | Redirect(path: string)

  /** The pages the router can show. */
  datatype View =
    | LoginView | RegisterView | DashboardView | PaymentsView
    | ShipmentsListView | ShipmentCreateView | ShipmentDetailView
    | InvoicesListView | InvoiceGenerateView
    | IncidentCreateView | IncidentsListView | IncidentDetailView
    | ClaimsListView | ClaimCreateView | ClaimDetailView

  /**
   * `ProtectedRoute` of App.jsx. `allowedRoles` is `None` where the route
   * passes no list. A missing or empty role and a role outside the list both
   * send the user to the login page.
   */
  function ProtectedRoute(loading: bool, user: Option<ClientUser>, allowedRoles: Option<seq<Role>>): (g: Guard)
    ensures loading ==> g == ShowLoading
    ensures !loading && user.None? ==> g == Redirect("/login")
    ensures g == Render <==>
      !loading && user.Some? && Truthy(user.value.role) &&
      (allowedRoles.None? || Includes(allowedRoles.value, user.value.role))
    ensures g.Redirect? ==> g.path == "/login"
  {
    if loading then ShowLoading
    else if user.None? then Redirect("/login")
    else if !Truthy(user.value.role) || (allowedRoles.Some? && !Includes(allowedRoles.value, user.value.role)) then
      Redirect("/login")
    else Render
  }

  /** `IncidentDispatcher`: nothing without a user, the report form for a driver, the list for anyone else. */
  function IncidentDispatcher(user: Option<ClientUser>): (v: Option<View>)
    ensures v.None? <==> user.None?
    ensures v == Some(IncidentCreateView) <==> HasRole(user, DRIVER)
    ensures user.Some? && !HasRole(user, DRIVER) ==> v == Some(IncidentsListView)
  {
    if user.None? then None
    else if user.value.role == Some("DRIVER") then Some(IncidentCreateView)
    else Some(IncidentsListView)
  }

  /** The path patterns declared in `<Routes>`; `Unmatched` stands for every other path (`*`). */
  datatype RouteKey =
    | LoginRoute | RegisterRoute | DashboardRoute | PaymentsRoute
    | ShipmentsRoute | ShipmentCreateRoute | ShipmentDetailRoute
    | InvoicesRoute | InvoiceGenerateRoute
    | IncidentsRoute | IncidentDetailRoute
    | ClaimsRoute | ClaimCreateRoute | ClaimDetailRoute
    | RootRoute | Unmatched

  /** The children of a protected route: a page, or the incident dispatcher. */
  datatype Content = Page(view: View) | Dispatch

  /** The `element` of a route. */
  datatype Element =
    | Public(view: View)
    | Protected(allowedRoles: Option<seq<Role>>, content: Content)
    | NavigateTo(path: string)

  function RouteElement(k: RouteKey): Element
  {
    match k
    case LoginRoute => Public(LoginView)
    case RegisterRoute => Public(RegisterView)
    case DashboardRoute => Protected(Some([ADMIN, AGENT, DRIVER, CLIENT]), Page(DashboardView))
    case PaymentsRoute => Protected(Some([ADMIN, AGENT]), Page(PaymentsView))
    case ShipmentsRoute => Protected(None, Page(ShipmentsListView))
    case ShipmentCreateRoute => Protected(Some([ADMIN, AGENT, CLIENT]), Page(ShipmentCreateView))
    case ShipmentDetailRoute => Protected(None, Page(ShipmentDetailView))
    case InvoicesRoute => Protected(None, Page(InvoicesListView))
    case InvoiceGenerateRoute => Protected(Some([ADMIN, AGENT]), Page(InvoiceGenerateView))
    case IncidentsRoute => Protected(Some([ADMIN, AGENT, DRIVER]), Dispatch)
    case IncidentDetailRoute => Protected(Some([ADMIN, AGENT]), Page(IncidentDetailView))
    case ClaimsRoute => Protected(None, Page(ClaimsListView))
    case ClaimCreateRoute => Protected(Some([CLIENT]), Page(ClaimCreateView))
    case ClaimDetailRoute => Protected(None, Page(ClaimDetailView))
    case RootRoute => NavigateTo("/login")
    case Unmatched => NavigateTo("/dashboard")
  }

  /** What the browser ends up showing for a route. */
  datatype Screen = Loading | Shows(view: View) | Blank | RedirectTo(path: string)

  /** Rendering the element of route `k` in the given session state. */
  function Visit(k: RouteKey, loading: bool, user: Option<ClientUser>): (s: Screen)
    ensures RouteElement(k).Protected? && loading ==> s == Loading
    ensures RouteElement(k).Protected? && !loading && user.None? ==> s == RedirectTo("/login")
    ensures s == Blank ==> k == IncidentsRoute
  {
    match RouteElement(k)
    case Public(v) => Shows(v)
    case NavigateTo(p) => RedirectTo(p)
    case Protected(allowed, content) =>
      match ProtectedRoute(loading, user, allowed)
      case ShowLoading => Loading
      case Redirect(p) => RedirectTo(p)
      case Render =>
        match content
        case Page(v) => Shows(v)
        case Dispatch =>
          match IncidentDispatcher(user)
          case None => Blank
          case Some(v) => Shows(v)
  }

  /** A signed-in user with a known role, as the profile endpoint returns it. */
  function SignedIn(username: string, r: Role): Option<ClientUser>
  {
    Some(ClientUser(username, Some(Name(r))))
  }

  /** The roles each protected route admits, written out route by route. */
  function GrantedRoles(k: RouteKey): set<Role>
    requires RouteElement(k).Protected?
  {
    if k in {PaymentsRoute, InvoiceGenerateRoute, IncidentDetailRoute} then {ADMIN, AGENT}
    else if k == ClaimCreateRoute then {CLIENT}
    else if k == IncidentsRoute then {ADMIN, AGENT, DRIVER}
    else if k == ShipmentCreateRoute then {ADMIN, AGENT, CLIENT}
    else {ADMIN, AGENT, DRIVER, CLIENT}
  }

  /**
   * The access matrix: once loading is over, a signed-in user with a known role
   * gets the route's page exactly when the role is granted, and the login page otherwise.
   */
  lemma {:induction false} AccessMatrix(k: RouteKey, username: string, r: Role)
    requires RouteElement(k).Protected?
    ensures Visit(k, false, SignedIn(username, r)) != Blank
    ensures Visit(k, false, SignedIn(username, r)).Shows? <==> r in GrantedRoles(k)
    ensures !(r in GrantedRoles(k)) ==> Visit(k, false, SignedIn(username, r)) == RedirectTo("/login")
  {
    var allowed := RouteElement(k).allowedRoles;
    if allowed.Some? {
      IncludesRole(allowed.value, r);
    }
  }

  /** A profile without a (truthy) role is sent to the login page on every protected route. */
  lemma MissingRoleRedirects(k: RouteKey, username: string, role: Option<string>)
    requires RouteElement(k).Protected? && !Truthy(role)
    ensures Visit(k, false, Some(ClientUser(username, role))) == RedirectTo("/login")
  {
  }

  /** `/` goes to the login page and every undeclared path to the dashboard, whatever the session. */
  lemma FallbackRoutes(loading: bool, user: Option<ClientUser>)
    ensures Visit(RootRoute, loading, user) == RedirectTo("/login")
    ensures Visit(Unmatched, loading, user) == RedirectTo("/dashboard")
  {
  }

  /** A driver on `/incidents` gets the report form, staff get the list. */
  lemma IncidentsRouteByRole(username: string, r: Role)
    ensures Visit(IncidentsRoute, false, SignedIn(username, r)) ==
      if r == DRIVER then Shows(IncidentCreateView)
      else if r == CLIENT then RedirectTo("/login")
      else Shows(IncidentsListView)
  {
    IncludesRole([ADMIN, AGENT, DRIVER], r);
  }
}
