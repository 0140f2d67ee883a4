/**
 * `authApi`: the login, registration and logout calls, and the default
 * `Authorization` header. Each call is given the outcome of its HTTP request:
 * the response body, or how the request failed. A rejected call is the
 * message of the `Error` it throws.
 */
module AuthApi {
  import opened Common
  import opened UserAccountEntity
  import opened FrontendCommon
  import opened Routes
  import opened AuthenticationService
  import opened AuthenticationController

  /** The JSON of `LoginAuthResponseDTO` as the client reads it. */
  datatype AuthResponseBody = AuthResponseBody(token: string, role: string, userId: int, email: string,
                                               permissions: seq<string>)

  /** `mapAuthResponseToUser`: the account fields kept as they came, the token dropped. */
  function MapAuthResponseToUser(body: AuthResponseBody): (user: User)
    ensures user.userId == body.userId && user.email == body.email
    ensures user.role == body.role && user.permissions == body.permissions
  {
    User(body.userId, body.email, body.role, body.permissions)
  }

  /** `body` is the JSON the backend writes for `resp`; the permission set arrives as an array in some order. */
  predicate SerialisedFrom(body: AuthResponseBody, resp: LoginAuthResponse)
  {
    body.token == resp.token && body.role == resp.role && body.userId == resp.userId && body.email == resp.email
    && (set p | p in body.permissions) == resp.permissions
  }

  const LoginFallback: string := "Invalid credentials"

  /** `authApi.login`: the token and mapped user, or the server's text, or the network message. */
  function Login(outcome: Result<AuthResponseBody, ApiFailure>): (r: Result<AuthResult, string>)
    ensures outcome.Ok? ==> r == Ok(AuthResult(outcome.value.token, MapAuthResponseToUser(outcome.value)))
    ensures outcome.Err? && outcome.error.Axios? ==> r == Err(ServerText(outcome.error.serverError, LoginFallback))
    ensures outcome.Err? && outcome.error.NonAxios? ==> r == Err(NetworkMessage)
  {
    match outcome
    case Ok(body) => Ok(AuthResult(body.token, MapAuthResponseToUser(body)))
    case Err(failure) => Err(FailureMessage(failure, LoginFallback, []))
  }

  const RegisterFallback: string := "Registration failed"
  const EmailTakenMessage: string := "This email is already registered"
  const PasswordRulesMessage: string := "Password must contain uppercase, lowercase, number, and special character (8+ chars)"

  /** Any mention of `email`, then of `password` (both case-sensitive), replaces the server's text. */
  const RegisterRules: seq<(string, string)> := [("email", EmailTakenMessage), ("password", PasswordRulesMessage)]

  /**
   * `authApi.register`. A server text mentioning `email` becomes the
   * already-registered message; otherwise one mentioning `password` the
   * password-rules message; otherwise the text itself.
   */
  function Register(outcome: Result<AuthResponseBody, ApiFailure>): (r: Result<AuthResult, string>)
    ensures outcome.Ok? ==> r == Ok(AuthResult(outcome.value.token, MapAuthResponseToUser(outcome.value)))
    ensures outcome.Err? && outcome.error.NonAxios? ==> r == Err(NetworkMessage)
    ensures outcome.Err? && outcome.error.Axios? ==>
      var text := ServerText(outcome.error.serverError, RegisterFallback);
      && (Contains(text, "email") ==> r == Err(EmailTakenMessage))
      && (!Contains(text, "email") && Contains(text, "password") ==> r == Err(PasswordRulesMessage))
      && (!Contains(text, "email") && !Contains(text, "password") ==> r == Err(text))
  {
    match outcome
    case Ok(body) => Ok(AuthResult(body.token, MapAuthResponseToUser(body)))
    case Err(failure) =>
      assert RegisterRules[0].0 == "email" && RegisterRules[1].0 == "password";
      Err(FailureMessage(failure, RegisterFallback, RegisterRules))
  }

  /**
   * The backend's refusal of a taken email reaches the form as the
   * already-registered message, assuming the error body's `error` field
   * carries the exception's message.
   */
  lemma TakenEmailMessage()
    ensures Register(Err(Axios(Some(EmailTakenText)))) == Err(EmailTakenMessage)
  {
    assert EmailTakenText[4..9] == "email";
    ContainsAt(EmailTakenText, "email", 4);
  }

  /**
   * A session built from a backend login response carries the account's
   * role name, which always has a landing page, and exactly its permission
   * names.
   */
  lemma LoginCarriesBackendRole(body: AuthResponseBody, row: AccountRow, token: string)
    requires SerialisedFrom(body, AuthResponse(row, token))
    ensures Login(Ok(body)).value.token == token
    ensures Login(Ok(body)).value.user.role == row.role.Name()
    ensures RoleRedirect(Login(Ok(body)).value.user.role).Some?
    ensures forall p :: p in Login(Ok(body)).value.user.permissions <==> p in AuthResponse(row, token).permissions
  {
    LandingMatchesConfig(row.role);
  }

  /** The header `authApi.logout` sends. */
  function LogoutHeader(token: string): (header: string)
    ensures StartsWith(header, "Bearer ") && |header| == |token| + 7
  {
    "Bearer " + token
  }

  /** The backend's logout reads back exactly the token the client sent. */
  lemma LogoutSendsToken(token: string)
    ensures BearerCredential(Some(LogoutHeader(token))) == Some(token)
  {
    BearerRoundTrip(token);
  }

  /** axios's default headers. */
  class AxiosDefaults {
    var headers: map<string, string>

    constructor ()
      ensures headers == map[]
    {
      headers := map[];
    }

    /** `setAuthToken`: a non-empty token sets the Bearer header, anything else deletes it. */
    method SetAuthToken(token: Option<string>)
      modifies this
      ensures token.Some? && token.value != "" ==> headers == old(headers)["Authorization" := LogoutHeader(token.value)]
      ensures token.None? || token.value == "" ==> headers == old(headers) - {"Authorization"}
      ensures token.Some? && token.value != "" ==> BearerCredential(Some(headers["Authorization"])) == token
      ensures token.None? || token.value == "" ==> "Authorization" !in headers
    {
      if token.Some? && token.value != "" {
        headers := headers["Authorization" := "Bearer " + token.value];
        BearerRoundTrip(token.value);
      } else {
        headers := headers - {"Authorization"};
      }
    }
  }
}
