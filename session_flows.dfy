/** How the session written by the sign-in screen, read by the router and
    the guard, and removed by the navigation bar fits together across the
    screens. */
module SessionFlows {
  import opened JsValues
  import opened Session
  import opened ProtectedRoute
  import opened AppRoutes
  import LoginSignup
  import Navigation

  /** The three places that map a role to its home agree on the three
      roles the application knows. */
  lemma KnownRolesAgree(role: string)
    requires role in {"admin", "technician", "user"}
    ensures DashboardRoute(Some(role)) == LoginSignup.RedirectTarget(role)
    ensures LoginSignup.RedirectTarget(role) == Navigation.DashboardHref(Some(role))
    ensures DashboardRoute(Some(role)) in GuardedPaths
  {
  }

  /** For any other role they disagree: the sign-in screen and the menu send
      it to '/dashboard', while the router's '/' sends it back to '/'. */
  lemma UnknownRolesDisagree(role: string)
    requires role !in {"admin", "technician", "user"}
    ensures LoginSignup.RedirectTarget(role) == "/dashboard"
    ensures Navigation.DashboardHref(Some(role)) == "/dashboard"
    ensures DashboardRoute(Some(role)) == "/"
  {
  }

  /** After sign-out nothing of the session is left: the visitor is not
      authenticated, the guard redirects to '/', and every path ends on the
      login page. Keys other than the session's are kept. */
  lemma SignedOutEverywhere(m: Storage, allowedRole: Option<string>, path: string)
    ensures var m' := m - Navigation.SessionKeys;
      && !IsAuthenticated(m')
      && Guard(m', allowedRole) == Redirect("/")
      && Resolve(path, m', 2) == Some(LoginPage)
      && (forall k :: k in m && k !in Navigation.SessionKeys ==> k in m' && m'[k] == m[k])
  {
    var m' := m - Navigation.SessionKeys;
    assert GetItem(m', AuthTokenKey) == None;
    NoTokenEndsOnLogin(path, m');
  }

  /** An accepted login authenticates the browser exactly when the token it
      stores is not the empty text. A missing token does not prevent it:
      the text "undefined" is stored in its place. */
  lemma LoginAuthenticatesIff(m: Storage, draft: LoginSignup.LoginDraft, reply: LoginSignup.AuthReply)
    requires reply.Replied?
    ensures IsAuthenticated(LoginSignup.LoginWrites(m, draft, reply)) <==> reply.token != Some("")
    ensures reply.token == None ==>
      GetItem(LoginSignup.LoginWrites(m, draft, reply), AuthTokenKey) == Some("undefined")
  {
    var m' := LoginSignup.LoginWrites(m, draft, reply);
    assert GetItem(m', UserTypeKey) == Some(LoginSignup.LoginUserType(reply));
  }

  /** After an accepted login with a non-empty token, the page it navigates
      to shows the dashboard, whatever role the server reported. */
  lemma LoginLandsOnDashboard(m: Storage, draft: LoginSignup.LoginDraft, reply: LoginSignup.AuthReply)
    requires reply.Replied? && reply.token != Some("")
    ensures var m' := LoginSignup.LoginWrites(m, draft, reply);
      Route(LoginSignup.RedirectTarget(LoginSignup.LoginUserType(reply)), m') == Show(DashboardPage)
  {
    var m' := LoginSignup.LoginWrites(m, draft, reply);
    assert TruthyText(GetItem(m', AuthTokenKey));
    var target := LoginSignup.RedirectTarget(LoginSignup.LoginUserType(reply));
    assert target in GuardedPaths;
    DeclaredPathsArePlain();
    RouteTable(target, m');
  }

  /** After an accepted registration with a non-empty token the browser is
      authenticated as a "user" and '/dashboard' shows the dashboard; the
      "userData" flag a login would set stays as it was. */
  lemma RegisterLandsOnDashboard(m: Storage, name: string, reply: LoginSignup.AuthReply)
    requires reply.Replied? && reply.token != Some("")
    ensures var m' := LoginSignup.RegisterWrites(m, name, reply);
      && IsAuthenticated(m')
      && DashboardRoute(GetItem(m', UserTypeKey)) == LoginSignup.RedirectTarget("user")
      && Route(LoginSignup.RedirectTarget("user"), m') == Show(DashboardPage)
      && GetItem(m', UserDataKey) == GetItem(m, UserDataKey)
  {
    var m' := LoginSignup.RegisterWrites(m, name, reply);
    assert TruthyText(GetItem(m', AuthTokenKey));
    DeclaredPathsArePlain();
    RouteTable("/dashboard", m');
  }

  /** With a session stored, of the menu's entries only "Dashboard" and
      "Electronics Inventory" lead to a page: the router has no route for
      the others, so they land on the login page. */
  lemma MenuTargets(m: Storage, i: int)
    requires TruthyText(GetItem(m, AuthTokenKey))
    requires 0 <= i < |Navigation.NavigationItems(GetItem(m, UserTypeKey))|
    ensures var href := Navigation.NavigationItems(GetItem(m, UserTypeKey))[i].href;
      if i < 2 then Route(href, m) == Show(DashboardPage) else Route(href, m) == NavigateTo("/login")
  {
    var items := Navigation.NavigationItems(GetItem(m, UserTypeKey));
    assert items == Navigation.BaseItems(GetItem(m, UserTypeKey))
      + (if GetItem(m, UserTypeKey) == Some("admin") then Navigation.AdminItems else []);
    PlainPathIsRoutePath(items[i].href);
    RouteTable(items[i].href, m);
  }
}
