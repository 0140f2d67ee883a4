/**
 * `Sidebar`: the navigation drawer. Items are filtered by the user's role
 * string; logout calls the backend when a token is held, then clears the
 * session and goes to the login page.
 */
module Sidebar {
  import opened Common
  import opened Roles
  import opened FrontendCommon
  import opened Routes
  import opened AuthContext

  /** A menu entry and the role strings allowed to see it. */
  datatype NavItem = NavItem(caption: string, path: string, roles: seq<string>)

  /** The `RoleType` values: lower-case strings. */
  const RoleTypeManager: string := "manager"
  const RoleTypeEmployee: string := "employee"
  const RoleTypeRestricted: string := "restricted"

  /** `navigationItems` as written: one entry, listed for the lower-case roles. */
  const NavigationItems: seq<NavItem> :=
    [NavItem("Dashboard", DashboardPath, [RoleTypeManager, RoleTypeEmployee, RoleTypeRestricted])]

  /** The items whose role list includes `role`, in their original order. */
  function FilterByRole(items: seq<NavItem>, role: string): (visible: seq<NavItem>)
    ensures |visible| <= |items|
    ensures forall item :: item in visible <==> item in items && role in item.roles
    ensures (forall i :: 0 <= i < |items| ==> role in items[i].roles) ==> visible == items
  {
    if items == [] then []
    else if role in items[0].roles then [items[0]] + FilterByRole(items[1..], role)
    else FilterByRole(items[1..], role)
  }

  /**
   * Filtering keeps order and multiplicity: the items of a concatenation are
   * filtered part by part, and a single item survives exactly when it lists
   * the role.
   */
  lemma {:induction false} FilterByRoleAppend(a: seq<NavItem>, b: seq<NavItem>, role: string)
    ensures FilterByRole(a + b, role) == FilterByRole(a, role) + FilterByRole(b, role)
    ensures FilterByRole([], role) == []
    ensures forall item :: FilterByRole([item], role) == if role in item.roles then [item] else []
    decreases |a|
  {
    if a == [] {
      assert a + b == b;
    } else {
      assert (a + b)[0] == a[0];
      assert (a + b)[1..] == a[1..] + b;
      FilterByRoleAppend(a[1..], b, role);
    }
  }

  /** `getVisibleNavItems`: nothing without a user, otherwise the items listing the user's role. */
  function VisibleNavItems(items: seq<NavItem>, user: Option<User>): (visible: seq<NavItem>)
    ensures user.None? ==> visible == []
    ensures user.Some? ==> forall item :: item in visible <==> item in items && user.value.role in item.roles
  {
    if user.None? then [] else FilterByRole(items, user.value.role)
  }

  /** The drawer renders only for an authenticated session with a user. */
  function Renders(isAuthenticated: bool, user: Option<User>): (shown: bool)
    ensures shown <==> isAuthenticated && user.Some?
  {
    isAuthenticated && user.Some?
  }

  /**
   * `handleLogout`: the backend is asked to revoke the token only when one
   * is held (its failure is ignored), then the session is cleared and the
   * router goes to login. `backendToken` is the token sent, if any.
   */
  method HandleLogout(auth: AuthProvider, nav: Navigator) returns (backendToken: Option<string>)
    modifies auth, nav
    ensures backendToken.Some? <==> old(auth.token).Some? && old(auth.token).value != ""
    ensures backendToken.Some? ==> backendToken == old(auth.token)
    ensures auth.token == None && auth.user == None
    ensures nav.history == old(nav.history) + [Navigation(LoginPath, false)]
  {
    if auth.token.Some? && auth.token.value != "" {
      backendToken := auth.token;
    } else {
      backendToken := None;
    }
    auth.Logout();
    nav.Navigate(LoginPath, false);
  }

  /**
   * As written, a user holding any role string the backend sends sees no
   * menu entry at all: the backend names roles in upper case, the item lists
   * lower case.
   */
  lemma BackendRolesSeeNothingAsWritten(user: User, r: Role)
    requires user.role == r.Name()
    ensures VisibleNavItems(NavigationItems, Some(user)) == []
  {
  }

  /** The menu listing the role names the backend sends. */
  const NavigationItemsCorrected: seq<NavItem> :=
    [NavItem("Dashboard", DashboardPath, [Manager.Name(), Employee.Name(), Restricted.Name()])]

  /**
   * With the backend's role names, every signed-in role other than the guest
   * sees the whole menu, and the guest sees nothing.
   */
  lemma BackendRolesSeeMenuCorrected(user: User, r: Role)
    requires user.role == r.Name()
    ensures r != Guest ==> VisibleNavItems(NavigationItemsCorrected, Some(user)) == NavigationItemsCorrected
    ensures r == Guest ==> VisibleNavItems(NavigationItemsCorrected, Some(user)) == []
  {
  }
}
