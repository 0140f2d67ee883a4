/**
 * `useLogin`: signs in through the login endpoint, stores the session in the
 * context and goes to the role's landing page.
 */
module UseLogin {
  import opened Common
  import opened FrontendCommon
  import opened Routes
  import opened AuthContext
  import opened AuthApi

  const LoginFailedFallback: string := "Login failed. Please try again."

  class LoginHook {
    var isLoading: bool
    var error: Option<string>

    constructor ()
      ensures !isLoading && error == None
    {
      isLoading := false;
      error := None;
    }

    /**
     * `handleLogin`, given what the login call settled with. Success stores
     * the token and user and navigates (pushing a history entry) to the
     * role's landing page, or the dashboard for an unmapped role; failure
     * shows the thrown message and changes nothing else. Loading ends false.
     */
    method HandleLogin(outcome: Result<AuthResult, Thrown>, auth: AuthProvider, nav: Navigator) returns (ok: bool)
      modifies this, auth, nav
      ensures ok <==> outcome.Ok?
      ensures !isLoading
      ensures outcome.Ok? ==>
        && error == None
        && auth.token == Some(outcome.value.token) && auth.user == Some(outcome.value.user)
        && nav.history == old(nav.history) + [Navigation(LandingOrDashboard(outcome.value.user.role), false)]
      ensures outcome.Err? ==>
        && error == Some(CaughtMessage(outcome.error, LoginFailedFallback))
        && auth.token == old(auth.token) && auth.user == old(auth.user) && nav.history == old(nav.history)
    {
      isLoading := true;
      error := None;
      match outcome {
        case Ok(response) =>
          auth.Login(response.token, response.user);
          nav.Navigate(LandingOrDashboard(response.user.role), false);
          ok := true;
        case Err(thrown) =>
          error := Some(CaughtMessage(thrown, LoginFailedFallback));
          ok := false;
      }
      isLoading := false;
    }
  }

  /**
   * Through the login service, a refused login shows the service's message:
   * the server's text, "Invalid credentials" without one, or the network
   * message.
   */
  lemma RefusedLoginMessage(failure: ApiFailure)
    ensures Rejection(Login(Err(failure))).Err?
    ensures failure.NonAxios? ==> CaughtMessage(Rejection(Login(Err(failure))).error, LoginFailedFallback) == NetworkMessage
    ensures failure.Axios? ==>
      CaughtMessage(Rejection(Login(Err(failure))).error, LoginFailedFallback) == ServerText(failure.serverError, LoginFallback)
  {
  }
}
