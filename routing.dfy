// The frontend's role dispatch and route guards. Each source file has its
// own module; the variants disagree with one another and are kept apart.

/** What a dispatcher or guard produces: a loading view, a redirect, or the
    wrapped content. */
module Views {
  import opened Common

  /** A `<Navigate>` element or a `navigate(...)` call: target, replace
      flag, and the `state.from` location it carries, if any. */
  datatype Navigation = Navigation(to: string, replace: bool, from: Option<string>)

  datatype Screen = LoadingScreen | Redirect(nav: Navigation) | Content

  function ReplaceTo(path: string): Navigation {
    Navigation(path, true, None)
  }

  /** `allowedRoles.includes(user.role)`: an absent role is in no list. */
  predicate RoleListed(role: Option<string>, allowed: seq<string>) {
    role.Some? && role.value in allowed
  }
}

/** Frontend/src/components/DashboardRouter.jsx: the effect that sends a
    settled session to its dashboard. */
module DashboardRouting {
  import opened Common
  import opened Views
  import Session

  /** The navigation one run of the effect performs, if any. */
  function Dispatch(isLoading: bool, isAuthenticated: bool, user: Option<Session.User>): (n: Option<Navigation>)
    ensures n.None? <==> isLoading
    ensures n.Some? ==> n.value.replace && n.value.from.None?
    ensures n.Some? && !isAuthenticated ==> n.value.to == "/login"
    ensures n.Some? && isAuthenticated ==>
              n.value.to == (match Session.RoleOf(user)
                             case Some("customer") => "/customer"
                             case Some("caterer") => "/caterer"
                             case Some("admin") => "/admin"
                             case _ => "/unauthorized")
  {
    if isLoading then None
    else if !isAuthenticated then Some(ReplaceTo("/login"))
    else if Session.RoleOf(user) == Some("customer") then Some(ReplaceTo("/customer"))
    else if Session.RoleOf(user) == Some("caterer") then Some(ReplaceTo("/caterer"))
    else if Session.RoleOf(user) == Some("admin") then Some(ReplaceTo("/admin"))
    else Some(ReplaceTo("/unauthorized"))
  }

  /** Every target is one of five paths, and "/unauthorized" is chosen
      exactly for an authenticated session whose role is none of the three. */
  lemma DispatchTargets(isLoading: bool, isAuthenticated: bool, user: Option<Session.User>)
    requires !isLoading
    ensures Dispatch(isLoading, isAuthenticated, user).value.to in
              {"/login", "/customer", "/caterer", "/admin", "/unauthorized"}
    ensures Dispatch(isLoading, isAuthenticated, user).value.to == "/unauthorized" <==>
              isAuthenticated && Session.RoleOf(user) !in {Some("customer"), Some("caterer"), Some("admin")}
  {
  }
}

/** Frontend/src/components/common/ProtectedRoute.jsx. */
module CommonGuard {
  import opened Common
  import opened Views
  import Session

  /** The element the guard renders. `allowedRoles` is `None` when the prop
      is left at its default, undefined; any array, even an empty one, is a
      list to check. */
  function Guard(isLoading: bool, user: Option<Session.User>, allowedRoles: Option<seq<string>>, location: string): (v: Screen)
    ensures isLoading ==> v == LoadingScreen
    ensures !isLoading && user.None? ==> v == Redirect(Navigation("/login", true, Some(location)))
    ensures v.Content? <==> !isLoading && user.Some? && (allowedRoles.None? || RoleListed(user.value.role, allowedRoles.value))
    ensures v.Redirect? && v.nav.to == "/unauthorized" <==>
              !isLoading && user.Some? && allowedRoles.Some? && !RoleListed(user.value.role, allowedRoles.value)
    ensures v.Redirect? ==> v.nav.replace
  {
    if isLoading then LoadingScreen
    else if user.None? then Redirect(Navigation("/login", true, Some(location)))
    else if allowedRoles.Some? && !RoleListed(user.value.role, allowedRoles.value) then Redirect(ReplaceTo("/unauthorized"))
    else Content
  }
}

/** Frontend/src/components/layout/ProtectedRoute.jsx. */
module LayoutGuard {
  import opened Common
  import opened Views
  import Session

  function Guard(isLoading: bool, user: Option<Session.User>, allowedRoles: Option<seq<string>>, location: string): (v: Screen)
    ensures isLoading ==> v == LoadingScreen
    ensures !isLoading && user.None? ==> v == Redirect(Navigation("/", true, Some(location)))
    ensures v.Content? <==> !isLoading && user.Some? && (allowedRoles.None? || RoleListed(user.value.role, allowedRoles.value))
    ensures v.Redirect? && v.nav.to == "/unauthorized" <==>
              !isLoading && user.Some? && allowedRoles.Some? && !RoleListed(user.value.role, allowedRoles.value)
    ensures v.Redirect? ==> v.nav.replace
  {
    if isLoading then LoadingScreen
    else if user.None? then Redirect(Navigation("/", true, Some(location)))
    else if allowedRoles.Some? && !RoleListed(user.value.role, allowedRoles.value) then Redirect(ReplaceTo("/unauthorized"))
    else Content
  }
}

/** How the two guard files relate: they agree on every input except a
    settled session without a user, where one redirects to "/login" and the
    other to "/". */
module GuardComparison {
  import opened Common
  import opened Views
  import Session
  import CommonGuard
  import LayoutGuard

  lemma GuardsDifferOnlyWithoutUser(isLoading: bool, user: Option<Session.User>, allowedRoles: Option<seq<string>>, location: string)
    ensures (CommonGuard.Guard(isLoading, user, allowedRoles, location) != LayoutGuard.Guard(isLoading, user, allowedRoles, location))
            == (!isLoading && user.None?)
  {
  }
}

/** Frontend/src/App.jsx: the in-file dashboard router and the route table. */
module AppRoutes {
  import opened Common
  import opened Views
  import Session

  /** The in-file `DashboardRouter`: it looks at the user's role only. */
  function RouteByRole(user: Option<Session.User>): (n: Navigation)
    ensures n.replace && n.from.None?
    ensures n.to == "/customer" <==> Session.RoleOf(user) == Some("customer")
    ensures n.to == "/caterer" <==> Session.RoleOf(user) in {Some("caterer"), Some("admin")}
    ensures n.to == "/login" <==> Session.RoleOf(user) !in {Some("customer"), Some("caterer"), Some("admin")}
  {
    if Session.RoleOf(user) == Some("customer") then ReplaceTo("/customer")
    else if Session.RoleOf(user) == Some("caterer") || Session.RoleOf(user) == Some("admin") then ReplaceTo("/caterer")
    else ReplaceTo("/login")
  }

  datatype Page = LoginPage | RegisterPage | UnauthorizedPage | DashboardRouterPage
                | CustomerDashboardPage | CatererDashboardPage | NotFoundPage

  /** Unguarded, or guarded by a ProtectedRoute with this `allowedRoles`
      prop (`None` when the prop is absent). */
  datatype Access = Public | Guarded(allowedRoles: Option<seq<string>>)

  datatype Route = Route(page: Page, access: Access)

  /** The location path without its trailing slashes; a path made only of
      slashes keeps one. */
  function TrimTrailingSlashes(p: string): (q: string)
    ensures |q| <= |p| && q == p[..|q|]
    ensures |p| >= 1 ==> |q| >= 1
    ensures |q| <= 1 || q[|q| - 1] != '/'
    ensures forall i :: |q| <= i < |p| ==> p[i] == '/'
    decreases |p|
  {
    if |p| > 1 && p[|p| - 1] == '/' then TrimTrailingSlashes(p[..|p| - 1]) else p
  }

  /** The form in which React Router compares a location with a route path:
      letters without case, and any number of trailing slashes allowed. An
      empty location reads as "/". */
  function Canonical(path: string): (c: string)
    ensures |c| >= 1
  {
    if path == "" then "/" else Lower(TrimTrailingSlashes(path))
  }

  lemma LowerIdempotent(s: string)
    ensures Lower(Lower(s)) == Lower(s)
  {
  }

  /** A path already written in lower case without trailing slashes is its own canonical form. */
  lemma CanonicalOfPlainPath(path: string)
    requires path != "" && (|path| == 1 || path[|path| - 1] != '/')
    requires forall i :: 0 <= i < |path| ==> !('A' <= path[i] <= 'Z')
    ensures Canonical(path) == path
  {
    assert TrimTrailingSlashes(path) == path;
    assert Lower(path) == path;
  }

  /** Canonicalising twice gives the same path as once. */
  lemma CanonicalIdempotent(path: string)
    ensures Canonical(Canonical(path)) == Canonical(path)
  {
    if path != "" {
      var t := TrimTrailingSlashes(path);
      var l := Lower(t);
      assert |l| == |t|;
      assert |l| == 1 || l[|l| - 1] != '/';
      assert TrimTrailingSlashes(l) == l;
      LowerIdempotent(t);
    }
  }

  /** The route a canonical path selects. */
  function TableRoute(c: string): Route {
    match c
    case "/login" => Route(LoginPage, Public)
    case "/register" => Route(RegisterPage, Public)
    case "/unauthorized" => Route(UnauthorizedPage, Public)
    case "/" => Route(DashboardRouterPage, Guarded(None))
    case "/customer" => Route(CustomerDashboardPage, Guarded(Some(["customer"])))
    case "/caterer" => Route(CatererDashboardPage, Guarded(Some(["caterer", "admin"])))
    case _ => Route(NotFoundPage, Public)
  }

  /** The `<Routes>` table: the route a location path selects. */
  function RouteFor(path: string): (r: Route)
    ensures r.access.Public? <==> Canonical(path) !in {"/", "/customer", "/caterer"}
    ensures r.page == NotFoundPage <==>
              Canonical(path) !in {"/login", "/register", "/unauthorized", "/", "/customer", "/caterer"}
    ensures Canonical(path) == "/" ==> r == Route(DashboardRouterPage, Guarded(None))
  {
    TableRoute(Canonical(path))
  }

  /** Two locations with the same canonical form select the same route; in
      particular case and trailing slashes never change the route. */
  lemma RouteForCanonical(path: string)
    ensures RouteFor(Canonical(path)) == RouteFor(path)
  {
    CanonicalIdempotent(path);
  }

  /** "/Customer/" reaches the guarded customer dashboard, and "//" the
      dashboard router. */
  lemma LooseSpellings()
    ensures RouteFor("/Customer/") == Route(CustomerDashboardPage, Guarded(Some(["customer"])))
    ensures RouteFor("//") == Route(DashboardRouterPage, Guarded(None))
  {
    assert TrimTrailingSlashes("/Customer/") == "/Customer";
    assert Lower("/Customer") == "/customer";
    assert TrimTrailingSlashes("//") == "/";
    assert Lower("/") == "/";
  }

  /** Whether a route's guard lets a present user with this role through. */
  predicate Admits(a: Access, role: Option<string>) {
    a.Public? || a.allowedRoles.None? || RoleListed(role, a.allowedRoles.value)
  }

  /** Which roles each guarded dashboard admits. */
  lemma DashboardAllowLists(role: Option<string>)
    ensures Admits(RouteFor("/customer").access, role) <==> role == Some("customer")
    ensures Admits(RouteFor("/caterer").access, role) <==> role in {Some("caterer"), Some("admin")}
    ensures Admits(RouteFor("/").access, role)
  {
    CanonicalOfPlainPath("/customer");
    CanonicalOfPlainPath("/caterer");
    CanonicalOfPlainPath("/");
  }

  /** For each of the three roles, the router's target is a guarded
      dashboard that admits that role. */
  lemma RouterTargetsAdmitRole(user: Session.User)
    requires user.role in {Some("customer"), Some("caterer"), Some("admin")}
    ensures var to := RouteByRole(Some(user)).to;
            RouteFor(to).access.Guarded? && Admits(RouteFor(to).access, user.role)
  {
    CanonicalOfPlainPath("/customer");
    CanonicalOfPlainPath("/caterer");
  }
}

/** Frontend/src/pages/Index.jsx. */
module IndexPage {
  import opened Common
  import opened Views
  import Session

  function Render(isLoading: bool, isAuthenticated: bool, user: Option<Session.User>): (v: Screen)
    ensures v == LoadingScreen <==> isLoading
    ensures v != LoadingScreen ==> v.Redirect? && v.nav.replace && v.nav.from.None?
    ensures !isLoading && !isAuthenticated ==> v == Redirect(ReplaceTo("/login"))
    ensures !isLoading && isAuthenticated ==>
              v.nav.to == (match Session.RoleOf(user)
                           case Some("customer") => "/customer"
                           case Some("caterer") => "/caterer"
                           case Some("admin") => "/caterer"
                           case _ => "/login")
  {
    if isLoading then LoadingScreen
    else if !isAuthenticated then Redirect(ReplaceTo("/login"))
    else if Session.RoleOf(user) == Some("customer") then Redirect(ReplaceTo("/customer"))
    else if Session.RoleOf(user) == Some("caterer") || Session.RoleOf(user) == Some("admin") then Redirect(ReplaceTo("/caterer"))
    else Redirect(ReplaceTo("/login"))
  }
}

/** Where the dispatchers disagree. */
module DispatchComparison {
  import opened Common
  import opened Views
  import Session
  import DashboardRouting
  import AppRoutes
  import IndexPage

  /** An authenticated admin: "/admin" from DashboardRouter.jsx, "/caterer"
      from App.jsx and Index.jsx. */
  lemma AdminDestinations(user: Session.User)
    requires user.role == Some("admin")
    ensures DashboardRouting.Dispatch(false, true, Some(user)).value.to == "/admin"
    ensures AppRoutes.RouteByRole(Some(user)).to == "/caterer"
    ensures IndexPage.Render(false, true, Some(user)).nav.to == "/caterer"
  {
  }

  /** An authenticated user with an unknown role: "/unauthorized" from
      DashboardRouter.jsx, "/login" from Index.jsx. */
  lemma UnknownRoleDestinations(user: Session.User)
    requires user.role !in {Some("customer"), Some("caterer"), Some("admin")}
    ensures DashboardRouting.Dispatch(false, true, Some(user)).value.to == "/unauthorized"
    ensures IndexPage.Render(false, true, Some(user)).nav.to == "/login"
    ensures AppRoutes.RouteByRole(Some(user)).to == "/login"
  {
  }

  /** On the three known roles, App.jsx's router and Index.jsx agree. */
  lemma AppRouterMatchesIndex(user: Session.User)
    ensures IndexPage.Render(false, true, Some(user)) == Redirect(AppRoutes.RouteByRole(Some(user)))
  {
  }
}
