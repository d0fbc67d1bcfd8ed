/** The route table of the application (src/App.jsx): what each path shows
    or where it redirects, given the stored session. */
module AppRoutes {
  import opened JsValues
  import opened JsStrings
  import opened Session
  import opened ProtectedRoute

  /** `isAuthenticated()`: both the token and the role are stored and non-empty. */
  predicate IsAuthenticated(m: Storage) {
    TruthyText(GetItem(m, AuthTokenKey)) && TruthyText(GetItem(m, UserTypeKey))
  }

  /** `getDashboardRoute()`: the home of each known role; '/' for any other
      value, and when no role is stored. */
  function DashboardRoute(userType: Option<string>): (path: string)
    ensures path in {"/admin", "/technician", "/dashboard", "/"}
    ensures path == "/" <==> userType !in {Some("admin"), Some("technician"), Some("user")}
  {
    match userType
    case Some("admin") => "/admin"
    case Some("technician") => "/technician"
    case Some("user") => "/dashboard"
    case _ => "/"
  }

  datatype Page = LoginPage | DashboardPage

  datatype RouteResult = Show(page: Page) | NavigateTo(path: string)

  /** The four paths that show the inventory dashboard behind the guard. */
  const GuardedPaths: set<string> := {"/admin", "/technician", "/dashboard", "/inventory"}

  /** Drops every '/' at the end of a path. */
  function DropTrailingSlashes(s: string): (r: string)
    ensures |r| <= |s|
    ensures r == [] || r[|r| - 1] != '/'
  {
    if |s| > 0 && s[|s| - 1] == '/' then DropTrailingSlashes(s[..|s| - 1]) else s
  }

  lemma {:induction false} DropTrailingSlashesKeepsPrefix(s: string)
    ensures forall i :: 0 <= i < |DropTrailingSlashes(s)| ==> DropTrailingSlashes(s)[i] == s[i]
  {
    if |s| > 0 && s[|s| - 1] == '/' {
      DropTrailingSlashesKeepsPrefix(s[..|s| - 1]);
    }
  }

  /** The form in which the router compares a location with the declared
      paths: a route matches without regard to letter case and with any
      number of trailing slashes, so the location is lower-cased and its
      trailing slashes dropped. A location made only of slashes is the root. */
  function RoutePath(path: string): (p: string)
    ensures p != ""
  {
    var t := DropTrailingSlashes(Lower(path));
    if t == "" then "/" else t
  }

  /** A lower-case path without a trailing slash (or the root) is its own
      route path. */
  lemma PlainPathIsRoutePath(p: string)
    requires p != "" && (p == "/" || p[|p| - 1] != '/')
    requires forall i :: 0 <= i < |p| ==> !('A' <= p[i] <= 'Z')
    ensures RoutePath(p) == p
  {
    LowerOfLowerCase(p);
  }

  /** The route path of a route path is itself: it is already lower-case
      and has no trailing slash. */
  lemma RoutePathIdempotent(path: string)
    ensures RoutePath(RoutePath(path)) == RoutePath(path)
  {
    DropTrailingSlashesKeepsPrefix(Lower(path));
    PlainPathIsRoutePath(RoutePath(path));
  }

  /** The declared paths, and the targets of the router's own redirects, are
      written in their route-path form. */
  lemma DeclaredPathsArePlain()
    ensures RoutePath("/") == "/" && RoutePath("/login") == "/login"
    ensures forall p :: p in GuardedPaths ==> RoutePath(p) == p
  {
    PlainPathIsRoutePath("/");
    PlainPathIsRoutePath("/login");
    PlainPathIsRoutePath("/admin");
    PlainPathIsRoutePath("/technician");
    PlainPathIsRoutePath("/dashboard");
    PlainPathIsRoutePath("/inventory");
  }

  /** The element the router picks for a location. The guarded routes pass
      no required role to the guard. */
  function Route(path: string, m: Storage): RouteResult {
    var p := RoutePath(path);
    if p == "/" then
      NavigateTo(if IsAuthenticated(m) then DashboardRoute(GetItem(m, UserTypeKey)) else "/login")
    else if p == "/login" then Show(LoginPage)
    else if p in GuardedPaths then
      (match Guard(m, None)
       case RenderChildren => Show(DashboardPage)
       case Redirect(to) => NavigateTo(to))
    else NavigateTo("/login")
  }

  /** The route table, on the location's route path: '/' dispatches on the
      session, '/login' is open, the guarded paths show the dashboard
      exactly when a token is stored (the stored role plays no part, so the
      guard's role branch is never taken), and every other path redirects to
      '/login'. */
  lemma RouteTable(path: string, m: Storage)
    ensures RoutePath(path) == "/" ==>
      Route(path, m) == NavigateTo(if IsAuthenticated(m) then DashboardRoute(GetItem(m, UserTypeKey)) else "/login")
    ensures RoutePath(path) == "/login" ==> Route(path, m) == Show(LoginPage)
    ensures RoutePath(path) in GuardedPaths ==>
      (Route(path, m) == Show(DashboardPage) <==> TruthyText(GetItem(m, AuthTokenKey)))
    ensures RoutePath(path) in GuardedPaths && !TruthyText(GetItem(m, AuthTokenKey)) ==>
      Route(path, m) == NavigateTo("/")
    ensures RoutePath(path) !in GuardedPaths + {"/", "/login"} ==> Route(path, m) == NavigateTo("/login")
  {
  }

  /** Another spelling of a location (other letter case, trailing slashes)
      leads where its route path leads. */
  lemma RouteIgnoresCaseAndTrailingSlashes(path: string, m: Storage)
    ensures Route(path, m) == Route(RoutePath(path), m)
  {
    RoutePathIdempotent(path);
  }

  /** With a token stored, '/Admin' and '/admin/' show the dashboard, as
      '/admin' does. */
  lemma OtherSpellingsOfAdmin(m: Storage)
    requires TruthyText(GetItem(m, AuthTokenKey))
    ensures Route("/Admin", m) == Show(DashboardPage)
    ensures Route("/admin/", m) == Show(DashboardPage)
  {
    assert Lower("/Admin") == "/admin";
    assert DropTrailingSlashes("/admin") == "/admin";
    assert Lower("/admin/") == "/admin/";
    assert "/admin/"[..6] == "/admin";
    assert DropTrailingSlashes("/admin/") == "/admin";
  }

  /** Follows the router's redirects from a path, for at most `hops` of
      them: the page finally shown, or None if it has not settled. */
  function Resolve(path: string, m: Storage, hops: nat): Option<Page>
    decreases hops
  {
    match Route(path, m)
    case Show(page) => Some(page)
    case NavigateTo(next) => if hops == 0 then None else Resolve(next, m, hops - 1)
  }

  /** Without a token every path ends on the login page within two
      redirects (a guarded path goes to '/' first). */
  lemma NoTokenEndsOnLogin(path: string, m: Storage)
    requires !TruthyText(GetItem(m, AuthTokenKey))
    ensures Resolve(path, m, 2) == Some(LoginPage)
  {
    DeclaredPathsArePlain();
    assert !IsAuthenticated(m);
    assert Route("/", m) == NavigateTo("/login");
    assert Resolve("/login", m, 0) == Some(LoginPage);
    assert Resolve("/", m, 1) == Some(LoginPage);
    if RoutePath(path) in GuardedPaths {
      assert Route(path, m) == NavigateTo("/");
    }
  }

  /** A signed-in admin, technician or user who opens '/' lands on the
      dashboard after one redirect. */
  lemma KnownRoleRootShowsDashboard(m: Storage)
    requires IsAuthenticated(m)
    requires GetItem(m, UserTypeKey) in {Some("admin"), Some("technician"), Some("user")}
    ensures Resolve("/", m, 1) == Some(DashboardPage)
  {
    DeclaredPathsArePlain();
    var next := DashboardRoute(GetItem(m, UserTypeKey));
    assert next in GuardedPaths;
    assert Route(next, m) == Show(DashboardPage);
  }

  /** With a token and any other stored role, '/' redirects to itself, so no
      number of redirects settles it. */
  lemma {:induction false} UnknownRoleRootNeverSettles(m: Storage, hops: nat)
    requires IsAuthenticated(m)
    requires GetItem(m, UserTypeKey) !in {Some("admin"), Some("technician"), Some("user")}
    ensures Route("/", m) == NavigateTo("/")
    ensures Resolve("/", m, hops) == None
  {
    DeclaredPathsArePlain();
    if hops > 0 {
      UnknownRoleRootNeverSettles(m, hops - 1);
    }
  }

  /** A token without a stored role is not "authenticated" for '/', which
      sends the visitor to the login page, yet every guarded path shows the
      dashboard. */
  lemma TokenWithoutRole(m: Storage, path: string)
    requires TruthyText(GetItem(m, AuthTokenKey)) && GetItem(m, UserTypeKey) == None
    requires RoutePath(path) in GuardedPaths
    ensures Route("/", m) == NavigateTo("/login")
    ensures Route(path, m) == Show(DashboardPage)
  {
    DeclaredPathsArePlain();
  }
}
