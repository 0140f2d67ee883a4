/**
 * `JwtService`: the registered claims a token carries (RFC 7519 section
 * 4.1.2 `sub`, section 4.1.4 `exp`, section 4.1.6 `iat`), how a token is
 * built from the clock and the configured lifetime, and when it is valid.
 *
 * Signing and decoding belong to the JWT library: `sign` turns claims into a
 * compact token and `decode` gives the claims of a token whose signature and
 * format it accepts, or `None` when it throws for those reasons. On top of
 * that the library's parser refuses a token whose `exp` lies before the
 * current time (`Parse`). Clock readings are milliseconds since the epoch, as
 * `java.util.Date` holds them; the claims themselves are NumericDates, whole
 * seconds (section 2 of RFC 7519), read back as milliseconds.
 */
module JwtService {
  import opened Common

  datatype Claims = Claims(subject: Option<string>, issuedAt: Option<int>, expiration: Option<int>)

  /** The configured secret (through `sign`/`decode`) and lifetime in milliseconds. */
  datatype JwtSettings = JwtSettings(expiration: int, sign: Claims -> string, decode: string -> Option<Claims>)

  /** Why a check threw instead of answering. */
  datatype JwtError =
    | Rejected      // the library refused the token, an expired one included
    | NullSubject   // the token has no `sub`, and `username.equals` dereferences it
    | NullExpiry    // the token has no `exp`, and `before` dereferences it

  /**
   * The instant a `Date` claim holds once stored: the library keeps
   * `getTime() / 1000` whole seconds (Java's division, towards zero) and
   * reads them back as that many thousand milliseconds.
   */
  function NumericDate(ms: int): (d: int)
    ensures d % 1000 == 0
    ensures 0 <= ms ==> 0 <= d <= ms < d + 1000
    ensures ms < 0 ==> d - 1000 < ms <= d <= 0
  {
    if 0 <= ms then (ms / 1000) * 1000 else -(((-ms) / 1000) * 1000)
  }

  /** Storing an instant never reorders two instants. */
  lemma {:induction false} NumericDateMonotone(a: int, b: int)
    ensures a <= b ==> NumericDate(a) <= NumericDate(b)
  {
    if b < a {
    } else if 0 <= a {
      assert a / 1000 <= b / 1000;
    } else if b < 0 {
      assert (-b) / 1000 <= (-a) / 1000;
    }
  }

  /**
   * The library's parser: a token it can decode, refused all the same when
   * its `exp` is before `now` (an `exp` equal to `now` passes; no clock skew
   * is configured).
   */
  function Parse(settings: JwtSettings, token: string, now: int): (r: Option<Claims>)
    ensures r.Some? <==>
      settings.decode(token).Some?
      && (settings.decode(token).value.expiration.None? || now <= settings.decode(token).value.expiration.value)
    ensures r.Some? ==> r == settings.decode(token)
  {
    match settings.decode(token)
    case None => None
    case Some(claims) =>
      if claims.expiration.Some? && now > claims.expiration.value then None else Some(claims)
  }

  /**
   * `buildToken`'s claims: subject the username, issued at the first clock
   * reading, expiring `expiration` milliseconds after the second reading
   * (the builder reads the clock twice), both cut to whole seconds.
   */
  function BuildClaims(username: string, issuedClock: int, expiryClock: int, expiration: int): (c: Claims)
    ensures c.subject == Some(username)
    ensures c.issuedAt == Some(NumericDate(issuedClock))
    ensures c.expiration == Some(NumericDate(expiryClock + expiration))
    ensures 0 <= expiryClock + expiration ==>
      expiryClock + expiration - 1000 < c.expiration.value <= expiryClock + expiration
    ensures issuedClock <= expiryClock && 0 <= expiration ==> c.issuedAt.value <= c.expiration.value
  {
    NumericDateMonotone(issuedClock, expiryClock + expiration);
    Claims(Some(username), Some(NumericDate(issuedClock)), Some(NumericDate(expiryClock + expiration)))
  }

  /** `generateToken(userDetails)`: no extra claims, the configured lifetime. */
  function GenerateToken(settings: JwtSettings, username: string, issuedClock: int, expiryClock: int): (token: string)
  {
    settings.sign(BuildClaims(username, issuedClock, expiryClock, settings.expiration))
  }

  /** `extractUsername`: the `sub` claim, which may be null; the parser's rejection propagates. */
  function ExtractUsername(settings: JwtSettings, token: string, now: int): (r: Result<Option<string>, JwtError>)
    ensures r.Err? <==> Parse(settings, token, now).None?
    ensures r.Ok? ==> r.value == settings.decode(token).value.subject
  {
    match Parse(settings, token, now)
    case None => Err(Rejected)
    case Some(claims) => Ok(claims.subject)
  }

  /**
   * `isTokenExpired`: the expiry is strictly before now. The parser has
   * already refused such a token, so the check never answers true: an
   * expired token throws instead.
   */
  function IsTokenExpired(settings: JwtSettings, token: string, now: int): (r: Result<bool, JwtError>)
    ensures Parse(settings, token, now).None? ==> r == Err(Rejected)
    ensures Parse(settings, token, now).Some? && settings.decode(token).value.expiration.None? ==> r == Err(NullExpiry)
    ensures r.Ok? ==> settings.decode(token).Some? && settings.decode(token).value.expiration.Some?
    ensures r.Ok? ==> (r.value <==> settings.decode(token).value.expiration.value < now)
    ensures r != Ok(true)
  {
    match Parse(settings, token, now)
    case None => Err(Rejected)
    case Some(claims) =>
      if claims.expiration.None? then Err(NullExpiry) else Ok(claims.expiration.value < now)
  }

  /**
   * `isTokenValid`: the subject equals the username and the token is not
   * expired. A different subject answers false without looking at `exp`; an
   * expired token never answers false, since the parser throws first.
   */
  function IsTokenValid(settings: JwtSettings, token: string, username: string, now: int): (r: Result<bool, JwtError>)
    ensures r == Ok(true) <==>
      settings.decode(token).Some? && settings.decode(token).value.subject == Some(username)
      && settings.decode(token).value.expiration.Some? && now <= settings.decode(token).value.expiration.value
    ensures r == Ok(false) <==>
      Parse(settings, token, now).Some? && settings.decode(token).value.subject.Some?
      && settings.decode(token).value.subject != Some(username)
    ensures Parse(settings, token, now).Some? && settings.decode(token).value.subject.None? ==> r == Err(NullSubject)
    ensures (settings.decode(token).Some? && settings.decode(token).value.expiration.Some?
             && now > settings.decode(token).value.expiration.value) ==> r == Err(Rejected)
  {
    match ExtractUsername(settings, token, now)
    case Err(e) => Err(e)
    case Ok(subject) =>
      if subject.None? then Err(NullSubject)
      else if subject.value != username then Ok(false)
      else
        match IsTokenExpired(settings, token, now)
        case Err(e) => Err(e)
        case Ok(expired) => Ok(!expired)
  }

  /**
   * A generated token, which the library decodes back to the claims it
   * signed, names its user and is valid for it exactly until its expiry
   * second (inclusive): up to a second before the configured lifetime ends.
   * After that every check throws.
   */
  lemma GeneratedTokenValidUntilExpiry(settings: JwtSettings, username: string, issuedClock: int, expiryClock: int, now: int)
    requires settings.decode(GenerateToken(settings, username, issuedClock, expiryClock))
             == Some(BuildClaims(username, issuedClock, expiryClock, settings.expiration))
    ensures ExtractUsername(settings, GenerateToken(settings, username, issuedClock, expiryClock), now) == Ok(Some(username))
            <==> now <= NumericDate(expiryClock + settings.expiration)
    ensures IsTokenValid(settings, GenerateToken(settings, username, issuedClock, expiryClock), username, now) == Ok(true)
            <==> now <= NumericDate(expiryClock + settings.expiration)
    ensures now > NumericDate(expiryClock + settings.expiration) ==>
      IsTokenValid(settings, GenerateToken(settings, username, issuedClock, expiryClock), username, now) == Err(Rejected)
  {
  }

  /**
   * The cut to whole seconds is visible: a token whose lifetime ends half a
   * second past a whole second is refused during that half second.
   */
  lemma ExpiresOnTheWholeSecond(settings: JwtSettings, username: string)
    requires settings.expiration == 500
    requires settings.decode(GenerateToken(settings, username, 0, 1_000_000))
             == Some(BuildClaims(username, 0, 1_000_000, 500))
    ensures IsTokenValid(settings, GenerateToken(settings, username, 0, 1_000_000), username, 1_000_200) == Err(Rejected)
  {
    assert NumericDate(1_000_500) == 1_000_000;
  }

  /** A token is never valid for two different users. */
  lemma ValidForOneUserOnly(settings: JwtSettings, token: string, a: string, b: string, now: int)
    requires IsTokenValid(settings, token, a, now) == Ok(true) && IsTokenValid(settings, token, b, now) == Ok(true)
    ensures a == b
  {
  }

  /** Validity only ends: a token valid at `later` was valid at every earlier time. */
  lemma ValidityIsAnInterval(settings: JwtSettings, token: string, username: string, earlier: int, later: int)
    requires earlier <= later && IsTokenValid(settings, token, username, later) == Ok(true)
    ensures IsTokenValid(settings, token, username, earlier) == Ok(true)
  {
  }
}
