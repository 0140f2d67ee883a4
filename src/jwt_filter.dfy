/**
 * `JwtAuthenticationFilter`: run once per request before the authorisation
 * rules. It may install an authentication in the request's security context
 * and always hands the request on down the chain exactly once.
 *
 * The user-details lookup resolves an account by email (the token's subject);
 * an unknown email throws, and like every other exception in the filter it is
 * swallowed, leaving the request unauthenticated.
 */
module JwtAuthenticationFilter {
  import opened Common
  import opened UserAccountEntity
  import opened AccountRepository
  import opened UserAccountService
  import opened JwtService
  import opened TokenBlacklist
  import opened PermissionService
  import opened AuthenticationController

  /** What the filter reads of an HTTP request: its URI and its `Authorization` header. */
  datatype Request = Request(uri: string, authorization: Option<string>)

  /** The per-request `SecurityContext`: the installed authentication, if any. */
  class SecurityContext {
    var authentication: Option<Authentication>

    /** A stateless session starts every request unauthenticated. */
    constructor ()
      ensures authentication == None
    {
      authentication := None;
    }
  }

  /** The rest of the filter chain, recording each request it is handed. */
  class FilterChain {
    var forwarded: seq<Request>

    constructor ()
      ensures forwarded == []
    {
      forwarded := [];
    }

    method DoFilter(request: Request)
      modifies this
      ensures forwarded == old(forwarded) + [request]
    {
      forwarded := forwarded + [request];
    }
  }

  /** The path the filter lets through untouched: any URI containing `/api/auth/`. */
  predicate SkipsAsWritten(uri: string)
  {
    Contains(uri, "/api/auth/")
  }

  /**
   * The authentication the filter installs for `request`, or `None` when it
   * leaves the context as it was. Only a non-skipped request with a Bearer
   * credential that is not revoked, whose subject names an account, while no
   * authentication is set yet, and whose token is valid for that subject at
   * `now`, is authenticated, as its subject. `skip` is the path test applied
   * first.
   */
  function Decide(skip: string -> bool, request: Request, revoked: set<string>, jwt: JwtSettings,
                  rows: map<int, AccountRow>, current: Option<Authentication>, now: int): (a: Option<Authentication>)
    ensures a.Some? ==>
      !skip(request.uri) && BearerCredential(request.authorization).Some?
      && BearerCredential(request.authorization).value !in revoked && current.None?
      && a.value.authenticated && HasEmail(rows, a.value.name)
      && IsTokenValid(jwt, BearerCredential(request.authorization).value, a.value.name, now) == Ok(true)
  {
    if skip(request.uri) then None
    else match BearerCredential(request.authorization)
      case None => None
      case Some(token) =>
        if token in revoked then None
        else match ExtractUsername(jwt, token, now)
          case Err(_) => None
          case Ok(subject) =>
            if subject.None? || current.Some? || !HasEmail(rows, subject.value) then None
            else if IsTokenValid(jwt, token, subject.value, now) == Ok(true) then Some(Authentication(subject.value, true))
            else None
  }

  /**
   * The converse: every condition met, the request is authenticated as the
   * token's subject.
   */
  lemma AdmitsLiveToken(skip: string -> bool, request: Request, revoked: set<string>, jwt: JwtSettings,
                        rows: map<int, AccountRow>, now: int, email: string)
    requires !skip(request.uri) && BearerCredential(request.authorization).Some?
    requires BearerCredential(request.authorization).value !in revoked
    requires HasEmail(rows, email)
    requires IsTokenValid(jwt, BearerCredential(request.authorization).value, email, now) == Ok(true)
    ensures Decide(skip, request, revoked, jwt, rows, None, now) == Some(Authentication(email, true))
  {
  }

  /**
   * A token issued at login for an existing account, sent as a Bearer
   * credential to a non-skipped path, authenticates its owner until its
   * expiry instant, unless it has been revoked.
   */
  lemma IssuedTokenAuthenticates(skip: string -> bool, uri: string, revoked: set<string>, jwt: JwtSettings,
                                 rows: map<int, AccountRow>, email: string, issuedClock: int, expiryClock: int, now: int)
    requires !skip(uri) && HasEmail(rows, email)
    requires jwt.decode(GenerateToken(jwt, email, issuedClock, expiryClock))
             == Some(BuildClaims(email, issuedClock, expiryClock, jwt.expiration))
    ensures var token := GenerateToken(jwt, email, issuedClock, expiryClock);
      Decide(skip, Request(uri, Some("Bearer " + token)), revoked, jwt, rows, None, now).Some?
      <==> token !in revoked && now <= NumericDate(expiryClock + jwt.expiration)
  {
    var token := GenerateToken(jwt, email, issuedClock, expiryClock);
    BearerRoundTrip(token);
    GeneratedTokenValidUntilExpiry(jwt, email, issuedClock, expiryClock, now);
    if token !in revoked && now <= NumericDate(expiryClock + jwt.expiration) {
      AdmitsLiveToken(skip, Request(uri, Some("Bearer " + token)), revoked, jwt, rows, now, email);
    }
  }

  /** A revoked token never authenticates, whatever else holds. */
  lemma RevokedNeverAuthenticates(skip: string -> bool, request: Request, revoked: set<string>, jwt: JwtSettings,
                                  rows: map<int, AccountRow>, current: Option<Authentication>, now: int)
    requires BearerCredential(request.authorization).Some? && BearerCredential(request.authorization).value in revoked
    ensures Decide(skip, request, revoked, jwt, rows, current, now).None?
  {
  }

  class JwtAuthenticationFilter {
    const jwt: JwtSettings
    const accounts: UserAccountRepository
    const blacklist: TokenBlacklistService

    constructor (jwt: JwtSettings, accounts: UserAccountRepository, blacklist: TokenBlacklistService)
      ensures this.jwt == jwt && this.accounts == accounts && this.blacklist == blacklist
    {
      this.jwt := jwt;
      this.accounts := accounts;
      this.blacklist := blacklist;
    }

    /**
     * `doFilterInternal`: the request is forwarded exactly once on every
     * path, and the context gains exactly the authentication `Decide` names
     * (or keeps what it had).
     */
    method DoFilterInternal(request: Request, context: SecurityContext, chain: FilterChain, now: int)
      requires accounts.Valid()
      modifies context, chain
      ensures chain.forwarded == old(chain.forwarded) + [request]
      ensures var d := Decide(SkipsAsWritten, request, blacklist.tokens, jwt, accounts.rows, old(context.authentication), now);
        context.authentication == if d.Some? then d else old(context.authentication)
    {
      if Contains(request.uri, "/api/auth/") {
        chain.DoFilter(request);
        return;
      }
      if request.authorization.None? || !StartsWith(request.authorization.value, "Bearer ") {
        chain.DoFilter(request);
        return;
      }
      var token := request.authorization.value[7..];
      var revoked := blacklist.IsTokenBlackListed(token);
      if revoked {
        chain.DoFilter(request);
        return;
      }
      match ExtractUsername(jwt, token, now) {
        case Err(_) =>
          // the library's exception is logged and swallowed
        case Ok(userEmail) =>
          if userEmail.Some? && context.authentication.None? {
            var details := accounts.FindByEmail(userEmail);
            // an unknown email throws from the lookup, and is swallowed
            if details.Some? {
              var valid := IsTokenValid(jwt, token, userEmail.value, now);
              if valid == Ok(true) {
                context.authentication := Some(Authentication(userEmail.value, true));
              }
            }
          }
      }
      chain.DoFilter(request);
    }
  }
}
