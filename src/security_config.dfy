/**
 * `SecurityBeansConfig`: the request authorisation table and the CORS lists.
 * Registration, login and the H2 console are open; every other request
 * needs an authenticated principal, which only the JWT filter installs
 * (sessions are stateless).
 */
module SecurityConfig {
  import opened Common
  import opened AccountRepository
  import opened UserAccountEntity
  import opened UserAccountService
  import opened JwtService
  import opened PermissionService
  import opened AuthenticationController
  import opened JwtAuthenticationFilter

  /** The `permitAll` matchers: the two exact paths, and the H2 console pattern (the bare path and everything below it). */
  predicate PermitAll(path: string)
  {
    path == "/api/auth/register" || path == "/api/auth/login"
    || path == "/h2-console" || StartsWith(path, "/h2-console/")
  }

  /** `anyRequest().authenticated()` behind the `permitAll` rules. */
  function Admitted(path: string, auth: Option<Authentication>): (admit: bool)
    ensures PermitAll(path) ==> admit
    ensures !PermitAll(path) ==> (admit <==> auth.Some? && auth.value.authenticated)
  {
    PermitAll(path) || (auth.Some? && auth.value.authenticated)
  }

  const AllowedOrigins: seq<string> := ["http://localhost:5173", "http://revp1-ers-frontend.s3-website.us-east-2.amazonaws.com"]
  const AllowedMethods: seq<string> := ["GET", "POST", "PUT", "DELETE", "OPTIONS"]
  const AllowedHeaders: seq<string> := ["Authorization", "Content-Type", "X-Requested-With", "Accept"]
  const ExposedHeaders: seq<string> := ["Authorization"]

  /** A cross-origin request is allowed only from a listed origin with a listed method. */
  function CorsAllows(origin: string, httpMethod: string): (allowed: bool)
    ensures allowed ==> origin == "http://localhost:5173"
                        || origin == "http://revp1-ers-frontend.s3-website.us-east-2.amazonaws.com"
    ensures allowed <==> origin in AllowedOrigins && httpMethod in AllowedMethods
    ensures httpMethod == "PATCH" ==> !allowed
  {
    origin in AllowedOrigins && httpMethod in AllowedMethods
  }

  /**
   * As written, every `/api/auth/` path other than registration and login
   * (logout and password reset among them) is refused: the filter skips it,
   * so no request to it is ever authenticated, and it is not open.
   */
  lemma AuthEndpointsRefusedAsWritten(request: Request, revoked: set<string>, jwt: JwtSettings,
                                      rows: map<int, AccountRow>, now: int)
    requires Contains(request.uri, "/api/auth/") && !PermitAll(request.uri)
    ensures !Admitted(request.uri, Decide(SkipsAsWritten, request, revoked, jwt, rows, None, now))
  {
  }

  /** The logout endpoint in particular: even a live token for an existing account is refused. */
  lemma LogoutRefusedAsWritten(token: string, revoked: set<string>, jwt: JwtSettings,
                               rows: map<int, AccountRow>, now: int)
    ensures !Admitted("/api/auth/logout",
                      Decide(SkipsAsWritten, Request("/api/auth/logout", Some("Bearer " + token)), revoked, jwt, rows, None, now))
  {
    var uri := "/api/auth/logout";
    assert uri[0..10] == "/api/auth/";
    ContainsAt(uri, "/api/auth/", 0);
    assert !PermitAll(uri) by {
      assert uri[..12] != "/h2-console/" by { assert uri[1] == 'a'; }
    }
    AuthEndpointsRefusedAsWritten(Request(uri, Some("Bearer " + token)), revoked, jwt, rows, now);
  }

  /** The filter with the skip limited to the open paths. */
  predicate SkipsCorrected(uri: string)
  {
    PermitAll(uri)
  }

  /**
   * With the corrected skip, a live, unrevoked token issued for an existing
   * account reaches logout.
   */
  lemma LogoutAdmittedCorrected(revoked: set<string>, jwt: JwtSettings, rows: map<int, AccountRow>,
                                email: string, issuedClock: int, expiryClock: int, now: int)
    requires HasEmail(rows, email)
    requires jwt.decode(GenerateToken(jwt, email, issuedClock, expiryClock))
             == Some(BuildClaims(email, issuedClock, expiryClock, jwt.expiration))
    requires GenerateToken(jwt, email, issuedClock, expiryClock) !in revoked && now <= NumericDate(expiryClock + jwt.expiration)
    ensures var token := GenerateToken(jwt, email, issuedClock, expiryClock);
      Admitted("/api/auth/logout",
               Decide(SkipsCorrected, Request("/api/auth/logout", Some("Bearer " + token)), revoked, jwt, rows, None, now))
  {
    var uri := "/api/auth/logout";
    assert !PermitAll(uri) by {
      assert uri[..12] != "/h2-console/" by { assert uri[1] == 'a'; }
    }
    IssuedTokenAuthenticates(SkipsCorrected, uri, revoked, jwt, rows, email, issuedClock, expiryClock, now);
  }

  /** The corrected skip still leaves registration and login open and unauthenticated by the filter. */
  lemma CorrectedKeepsOpenPaths(request: Request, revoked: set<string>, jwt: JwtSettings,
                                rows: map<int, AccountRow>, current: Option<Authentication>, now: int)
    requires PermitAll(request.uri)
    ensures Decide(SkipsCorrected, request, revoked, jwt, rows, current, now).None?
    ensures Admitted(request.uri, Decide(SkipsCorrected, request, revoked, jwt, rows, current, now))
  {
  }
}
