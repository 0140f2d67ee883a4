/**
 * `routes.constant`: the frontend paths, the landing page per role string,
 * and the router configuration with its per-route role lists.
 */
module Routes {
  import opened Common
  import opened Roles

  const LoginPath: string := "/auth/login"
  const RegisterPath: string := "/auth/register"
  const DashboardPath: string := "/dashboard"
  const ManagerPath: string := "/dashboard/manager"
  const EmployeePath: string := "/dashboard/employee"
  const RestrictedPath: string := "/dashboard/restricted"
  const GuestPath: string := "/auth/login"

  /**
   * `ROLE_REDIRECT[role]`: defined for the four upper-case role strings and
   * undefined for anything else.
   */
  function RoleRedirect(role: string): (path: Option<string>)
    ensures path.Some? <==> role in {"MANAGER", "EMPLOYEE", "RESTRICTED", "GUEST"}
    ensures role == "MANAGER" ==> path == Some(ManagerPath)
    ensures role == "EMPLOYEE" ==> path == Some(EmployeePath)
    ensures role == "RESTRICTED" ==> path == Some(RestrictedPath)
    ensures role == "GUEST" ==> path == Some(LoginPath)
  {
    if role == "MANAGER" then Some(ManagerPath)
    else if role == "EMPLOYEE" then Some(EmployeePath)
    else if role == "RESTRICTED" then Some(RestrictedPath)
    else if role == "GUEST" then Some(GuestPath)
    else None
  }

  /** `ROLE_REDIRECT[role] || ROUTES.DASHBOARD`: the landing page, or the dashboard for an unmapped role. */
  function LandingOrDashboard(role: string): (path: string)
    ensures RoleRedirect(role).Some? ==> path == RoleRedirect(role).value
    ensures RoleRedirect(role).None? ==> path == DashboardPath
  {
    match RoleRedirect(role)
    case Some(p) => p
    case None => DashboardPath
  }

  /** One `ROUTER_CONFIG` entry. */
  datatype RouteEntry = RouteEntry(path: string, inProtected: bool, allowedRole: Option<seq<string>>)

  const RouterConfig: seq<RouteEntry> := [
    RouteEntry(DashboardPath, true, None),
    RouteEntry(LoginPath, false, None),
    RouteEntry(RegisterPath, false, None),
    RouteEntry(ManagerPath, true, Some(["MANAGER"])),
    RouteEntry(EmployeePath, true, Some(["EMPLOYEE"])),
    RouteEntry(RestrictedPath, true, Some(["RESTRICTED"]))
  ]

  /** The configuration entry for `path`, the first one listed. */
  function ConfigFor(path: string): (entry: Option<RouteEntry>)
    ensures entry.Some? <==> exists i :: 0 <= i < |RouterConfig| && RouterConfig[i].path == path
    ensures entry.Some? ==> entry.value in RouterConfig && entry.value.path == path
  {
    if RouterConfig[0].path == path then Some(RouterConfig[0])
    else if RouterConfig[1].path == path then Some(RouterConfig[1])
    else if RouterConfig[2].path == path then Some(RouterConfig[2])
    else if RouterConfig[3].path == path then Some(RouterConfig[3])
    else if RouterConfig[4].path == path then Some(RouterConfig[4])
    else if RouterConfig[5].path == path then Some(RouterConfig[5])
    else None
  }

  /**
   * The landing page agrees with the configuration: every backend role lands
   * on a configured page; the guest role on the unprotected login page, every
   * other role on a protected page under `/dashboard/` whose role list is
   * exactly that role.
   */
  lemma LandingMatchesConfig(r: Role)
    ensures RoleRedirect(r.Name()).Some?
    ensures var path := RoleRedirect(r.Name()).value;
      && ConfigFor(path).Some?
      && (r == Guest ==> path == LoginPath && !ConfigFor(path).value.inProtected)
      && (r != Guest ==> StartsWith(path, "/dashboard/") && ConfigFor(path).value.inProtected
                         && ConfigFor(path).value.allowedRole == Some([r.Name()]))
  {
    var path := RoleRedirect(r.Name()).value;
    match r
    case Guest =>
      assert RouterConfig[1].path == path;
    case Restricted =>
      assert RouterConfig[5].path == path;
    case Employee =>
      assert RouterConfig[4].path == path;
    case Manager =>
      assert RouterConfig[3].path == path;
  }

  /** The role strings are case sensitive: the lower-case role values have no landing page. */
  lemma LowerCaseRolesUnmapped()
    ensures RoleRedirect("manager").None? && RoleRedirect("employee").None?
    ensures RoleRedirect("restricted").None? && RoleRedirect("guest").None?
  {
  }
}
