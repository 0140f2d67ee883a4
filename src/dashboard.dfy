/**
 * `Dashboard`: once the session is known, sends the user to the landing page
 * of their role. An unknown role leaves the user on the redirecting screen.
 */
module Dashboard {
  import opened Common
  import opened Roles
  import opened FrontendCommon
  import opened Routes

  /** The navigation the effect requests, if any. */
  function DashboardEffect(isLoading: bool, user: Option<User>): (nav: Option<Navigation>)
    ensures isLoading ==> nav.None?
    ensures !isLoading && user.None? ==> nav == Some(Navigation(LoginPath, false))
    ensures !isLoading && user.Some? ==> (nav.Some? <==> RoleRedirect(user.value.role).Some?)
    ensures !isLoading && user.Some? && nav.Some? ==> nav.value == Navigation(RoleRedirect(user.value.role).value, true)
  {
    if isLoading then None
    else match user
      case None => Some(Navigation("/auth/login", false))
      case Some(u) =>
        match RoleRedirect(u.role)
        case Some(path) => Some(Navigation(path, true))
        case None => None
  }

  /** The loading screen shows while loading or without a user. */
  function ShowsLoading(isLoading: bool, user: Option<User>): (loading: bool)
    ensures loading <==> isLoading || user.None?
  {
    isLoading || user.None?
  }

  /**
   * A user carrying a backend role's name is sent, replacing the history
   * entry, to that role's landing page: login for the guest role, a page
   * under `/dashboard/` otherwise.
   */
  lemma BackendRoleLands(user: User, r: Role)
    requires user.role == r.Name()
    ensures DashboardEffect(false, Some(user)).Some?
    ensures DashboardEffect(false, Some(user)).value.replace
    ensures r == Guest ==> DashboardEffect(false, Some(user)).value.path == LoginPath
    ensures r != Guest ==> StartsWith(DashboardEffect(false, Some(user)).value.path, "/dashboard/")
  {
    LandingMatchesConfig(r);
  }
}
