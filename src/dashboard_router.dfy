/**
 * `DashboardRouter`: on `/dashboard` with a user, replaces the location with
 * the role's landing page; the three sub-routes render whatever the role.
 */
module DashboardRouter {
  import opened Common
  import opened FrontendCommon
  import opened Routes
  import opened Dashboard

  /**
   * The `navigate` call the mount effect makes, if any. The target is
   * `ROLE_REDIRECT[role]` with no fallback: `None` inside stands for the
   * `undefined` passed for a role without a landing page.
   */
  function RouterEffect(user: Option<User>, pathname: string): (call: Option<(Option<string>, bool)>)
    ensures call.Some? <==> user.Some? && pathname == DashboardPath
    ensures call.Some? ==> call.value == (RoleRedirect(user.value.role), true)
  {
    if user.Some? && pathname == "/dashboard" then Some((RoleRedirect(user.value.role), true)) else None
  }

  /** The sub-routes, relative to `/dashboard/`; none consults the role. */
  const SubRoutes: seq<string> := ["restricted", "employee", "manager"]

  /** The sub-route `pathname` selects under `/dashboard/`, if any. */
  function SubRoute(pathname: string): (route: Option<string>)
    ensures route.Some? ==> route.value in SubRoutes && pathname == DashboardPath + "/" + route.value
  {
    if pathname == DashboardPath + "/restricted" then Some("restricted")
    else if pathname == DashboardPath + "/employee" then Some("employee")
    else if pathname == DashboardPath + "/manager" then Some("manager")
    else None
  }

  /** Every role's landing page below `/dashboard/` is one of the sub-routes. */
  lemma LandingIsSubRoute(role: string)
    requires RoleRedirect(role).Some? && role != "GUEST"
    ensures SubRoute(RoleRedirect(role).value).Some?
  {
  }

  /**
   * On `/dashboard`, the router and the dashboard page agree for a role with
   * a landing page; for any other role the router navigates to `undefined`
   * while the page stays put.
   */
  lemma AgreesWithDashboard(user: User)
    ensures RoleRedirect(user.role).Some? ==>
      && RouterEffect(Some(user), DashboardPath) == Some((Some(DashboardEffect(false, Some(user)).value.path), true))
      && DashboardEffect(false, Some(user)).value.replace
    ensures RoleRedirect(user.role).None? ==>
      RouterEffect(Some(user), DashboardPath) == Some((None, true)) && DashboardEffect(false, Some(user)).None?
  {
  }
}
