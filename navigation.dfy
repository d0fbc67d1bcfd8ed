/** The navigation bar (src/components/Navigation.jsx): the entries it
    offers for the stored role, which entry is highlighted, the mobile menu
    and sign-out. The router's location is the `pathname` field; the stored
    role is the parameter of `NavigationItems`. */
module Navigation {
  import opened JsValues
  import opened Session

  /** The "Dashboard" entry's target: the home of an admin or a technician,
      '/dashboard' for every other role and when none is stored. */
  function DashboardHref(userType: Option<string>): (href: string)
    ensures href in {"/admin", "/technician", "/dashboard"}
    ensures href == "/dashboard" <==> userType != Some("admin") && userType != Some("technician")
  {
    if userType == Some("admin") then "/admin"
    else if userType == Some("technician") then "/technician"
    else "/dashboard"
  }

  datatype NavItem = NavItem(name: string, href: string)

  /** The entries every role sees. */
  function BaseItems(userType: Option<string>): seq<NavItem> {
    [NavItem("Dashboard", DashboardHref(userType)), NavItem("Electronics Inventory", "/inventory"),
     NavItem("Reports", "/reports"), NavItem("Analytics", "/analytics")]
  }

  /** The entries only an admin sees. */
  const AdminItems := [NavItem("Users", "/users"), NavItem("Settings", "/settings")]

  /** The menu for a stored role: four entries, the first being the role's
      dashboard, and the two admin entries after them for an admin only. No
      two entries share a target. */
  function NavigationItems(userType: Option<string>): (items: seq<NavItem>)
    ensures |items| == if userType == Some("admin") then 6 else 4
    ensures items[0] == NavItem("Dashboard", DashboardHref(userType))
    ensures (exists i :: 0 <= i < |items| && items[i].name == "Users") <==> userType == Some("admin")
    ensures forall i, j :: 0 <= i < j < |items| ==> items[i].href != items[j].href
  {
    var items := BaseItems(userType) + (if userType == Some("admin") then AdminItems else []);
    assert forall i :: 0 <= i < 4 ==> items[i].name != "Users";
    assert userType == Some("admin") ==> items[4].name == "Users";
    items
  }

  /** Builds the menu as the component does: the four common entries, then
      the admin entries pushed onto the same array. */
  method BuildNavigationItems(userType: Option<string>) returns (items: seq<NavItem>)
    ensures items == NavigationItems(userType)
  {
    items := BaseItems(userType);
    if userType == Some("admin") {
      items := items + [NavItem("Users", "/users")];
      items := items + [NavItem("Settings", "/settings")];
    }
  }

  /** `isCurrentPath(href)`. */
  predicate IsCurrentPath(pathname: string, href: string) {
    pathname == href
  }

  /** Whatever the location, at most one entry of the menu is highlighted. */
  lemma AtMostOneHighlighted(userType: Option<string>, pathname: string)
    ensures forall i, j ::
      (0 <= i < |NavigationItems(userType)| && 0 <= j < |NavigationItems(userType)|
       && IsCurrentPath(pathname, NavigationItems(userType)[i].href)
       && IsCurrentPath(pathname, NavigationItems(userType)[j].href)) ==> i == j
  {
  }

  /** The four keys sign-out removes. */
  const SessionKeys: set<string> := {AuthTokenKey, UserTypeKey, UserNameKey, UserDataKey}

  class NavBar {
    var isMobileMenuOpen: bool
    var pathname: string

    constructor (location: string)
      ensures !isMobileMenuOpen && pathname == location
    {
      isMobileMenuOpen := false;
      pathname := location;
    }

    /** The hamburger button. */
    method ToggleMobileMenu()
      modifies this`isMobileMenuOpen
      ensures isMobileMenuOpen == !old(isMobileMenuOpen)
    {
      isMobileMenuOpen := !isMobileMenuOpen;
    }

    /** Choosing an entry navigates to it; from the mobile menu it also
        closes the menu. */
    method SelectItem(item: NavItem, fromMobile: bool)
      modifies this
      ensures pathname == item.href
      ensures isMobileMenuOpen == (old(isMobileMenuOpen) && !fromMobile)
    {
      pathname := item.href;
      if fromMobile {
        isMobileMenuOpen := false;
      }
    }

    /** `handleLogout()`: removes the four session keys, keeps every other
        key, and navigates to '/login'; from the mobile menu it also closes
        the menu. */
    method HandleLogout(store: Store, fromMobile: bool)
      modifies this, store
      ensures store.items == old(store.items) - SessionKeys
      ensures pathname == "/login"
      ensures isMobileMenuOpen == (old(isMobileMenuOpen) && !fromMobile)
    {
      store.RemoveItem(AuthTokenKey);
      store.RemoveItem(UserTypeKey);
      store.RemoveItem(UserNameKey);
      store.RemoveItem(UserDataKey);
      pathname := "/login";
      if fromMobile {
        isMobileMenuOpen := false;
      }
    }
  }
}
