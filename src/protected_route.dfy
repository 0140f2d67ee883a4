/**
 * `ProtectedRoute`: renders its children for an authenticated session and
 * redirects everyone else to the login page, remembering where they came
 * from. It does not look at the role.
 */
module ProtectedRoute {
  import opened Common
  import opened Routes
  import opened AuthContext

  /** What the route renders. */
  datatype View =
    | Waiting                                          // the loading placeholder
    | RedirectTo(to: string, from: string, replace: bool)
    | Children

  /** The guard, given the context's loading flag and authentication state and the current location. */
  function Guard(isLoading: bool, isAuthenticated: bool, location: string): (v: View)
    ensures isLoading <==> v.Waiting?
    ensures !isLoading ==> (v.Children? <==> isAuthenticated)
    ensures v.RedirectTo? ==> v == RedirectTo(LoginPath, location, true)
  {
    if isLoading then Waiting
    else if !isAuthenticated then RedirectTo(LoginPath, location, true)
    else Children
  }

  /**
   * The context supplies no loading flag, so the guard reads it as false:
   * the children render exactly when the provider holds a non-empty token
   * and a user, and otherwise the route redirects to login.
   */
  lemma GuardedByProvider(provider: AuthProvider, location: string)
    ensures Guard(false, provider.IsAuthenticated(), location).Children?
            <==> provider.token.Some? && provider.token.value != "" && provider.user.Some?
    ensures !Guard(false, provider.IsAuthenticated(), location).Waiting?
  {
  }
}
