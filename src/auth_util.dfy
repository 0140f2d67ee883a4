/**
 * `authUtils`: the token and the user record kept under two raw
 * `localStorage` keys (no versioned wrapper), and the client-side checks on
 * the token's `exp` claim (section 4.1.4 of RFC 7519, seconds since the
 * epoch).
 *
 * `jwtDecode` is a parameter: `None` when it throws, otherwise the `exp`
 * claim if present. The user JSON goes through a codec: `parse` gives `None`
 * when `JSON.parse` throws or yields a falsy value.
 */
module AuthUtil {
  import opened Common
  import opened FrontendCommon
  import opened StorageUtil

  const AccessTokenKey: string := "authToken"
  const UserKey: string := "authUser"
  const DefaultRefreshMinutes: int := 5

  /** A parsed user record: every field may be missing. */
  datatype StoredUser = StoredUser(userId: Option<int>, email: Option<string>, role: Option<string>,
                                   permissions: Option<seq<string>>)

  datatype UserCodec = UserCodec(stringify: User -> string, parse: string -> Option<StoredUser>)

  /** The JSON of `user`, read back. */
  function Stored(user: User): (s: StoredUser)
    ensures s.userId == Some(user.userId) && s.email == Some(user.email)
    ensures s.role == Some(user.role) && s.permissions == Some(user.permissions)
  {
    StoredUser(Some(user.userId), Some(user.email), Some(user.role), Some(user.permissions))
  }

  /** A codec that reads back what it writes. */
  predicate RoundTrips(codec: UserCodec, user: User)
  {
    codec.parse(codec.stringify(user)) == Some(Stored(user)) && codec.stringify(user) != ""
  }

  /** `setAuthData`: the token verbatim under one key, the user's JSON under the other. */
  method SetAuthData(store: LocalStorage, codec: UserCodec, token: string, user: User)
    modifies store
    ensures store.entries == old(store.entries)[AccessTokenKey := token][UserKey := codec.stringify(user)]
  {
    store.entries := store.entries[AccessTokenKey := token];
    store.entries := store.entries[UserKey := codec.stringify(user)];
  }

  /** `getToken`: the raw entry, if any. */
  function GetToken(entries: map<string, string>): (token: Option<string>)
    ensures token.Some? <==> AccessTokenKey in entries
    ensures token.Some? ==> token.value == entries[AccessTokenKey]
  {
    if AccessTokenKey in entries then Some(entries[AccessTokenKey]) else None
  }

  /** `getUser`: `null` for a missing or empty entry and for one that does not parse. */
  function GetUser(entries: map<string, string>, codec: UserCodec): (user: Option<StoredUser>)
    ensures UserKey !in entries || entries[UserKey] == "" ==> user.None?
    ensures UserKey in entries && entries[UserKey] != "" ==> user == codec.parse(entries[UserKey])
  {
    if UserKey in entries && entries[UserKey] != "" then codec.parse(entries[UserKey]) else None
  }

  /** The entries after `clearAuthData`. */
  function ClearedEntries(entries: map<string, string>): (after: map<string, string>)
    ensures AccessTokenKey !in after && UserKey !in after
    ensures forall k :: k != AccessTokenKey && k != UserKey ==> (k in after <==> k in entries)
    ensures forall k :: k in after ==> after[k] == entries[k]
  {
    entries - {AccessTokenKey, UserKey}
  }

  /** `clearAuthData`: exactly the two keys are removed. */
  method ClearAuthData(store: LocalStorage)
    modifies store
    ensures store.entries == ClearedEntries(old(store.entries))
  {
    store.RemoveItem(AccessTokenKey);
    store.RemoveItem(UserKey);
  }

  /** Clearing twice is clearing once. */
  lemma ClearIdempotent(entries: map<string, string>)
    ensures ClearedEntries(ClearedEntries(entries)) == ClearedEntries(entries)
  {
  }

  /** `Math.floor(ms / 1000)`: the current time in whole seconds. */
  function NowSeconds(nowMs: int): (s: int)
    ensures s * 1000 <= nowMs < s * 1000 + 1000
  {
    nowMs / 1000
  }

  /** The largest distance from the epoch, in milliseconds, a JavaScript `Date` can hold. */
  const MaxDateMs: int := 8_640_000_000_000_000

  /** `new Date(ms)` is a valid date, so `toISOString` does not throw `RangeError`. */
  predicate DateInRange(ms: int)
  {
    -MaxDateMs <= ms <= MaxDateMs
  }

  /**
   * `isAuthenticated`: a stored, non-empty token that decodes, carries a
   * truthy `exp`, and whose `exp` is strictly after the current second. A
   * token that does not decode answers false and stays stored. The check's
   * log formats `exp` and the current second as ISO dates inside the same
   * `try`; a value outside the `Date` range throws there and also answers
   * false.
   */
  function IsAuthenticated(entries: map<string, string>, decode: string -> Option<Option<int>>, nowMs: int): (b: bool)
    ensures GetToken(entries).None? || GetToken(entries).value == "" ==> !b
    ensures b <==>
      GetToken(entries).Some? && GetToken(entries).value != ""
      && decode(GetToken(entries).value).Some? && decode(GetToken(entries).value).value.Some?
      && decode(GetToken(entries).value).value.value != 0
      && decode(GetToken(entries).value).value.value > NowSeconds(nowMs)
      && DateInRange(decode(GetToken(entries).value).value.value * 1000)
      && DateInRange(NowSeconds(nowMs) * 1000)
  {
    match GetToken(entries)
    case None => false
    case Some(token) =>
      if token == "" then false
      else match decode(token)
        case None => false
        case Some(exp) =>
          var isValid := exp.Some? && exp.value != 0 && exp.value > NowSeconds(nowMs);
          var expiryLogged := exp.None? || exp.value == 0 || DateInRange(exp.value * 1000);
          var nowLogged := DateInRange(NowSeconds(nowMs) * 1000);
          if !expiryLogged || !nowLogged then false else isValid
  }

  /**
   * `needsRefresh(thresholdMinutes)`: false with no token or no truthy `exp`;
   * otherwise whether fewer than `thresholdMinutes` minutes remain. A decode
   * failure propagates.
   */
  function NeedsRefresh(entries: map<string, string>, decode: string -> Option<Option<int>>, nowMs: int,
                        thresholdMinutes: int): (r: Result<bool, ()>)
    ensures GetToken(entries).None? || GetToken(entries).value == "" ==> r == Ok(false)
    ensures r.Err? <==> GetToken(entries).Some? && GetToken(entries).value != "" && decode(GetToken(entries).value).None?
    ensures r == Ok(true) <==>
      GetToken(entries).Some? && GetToken(entries).value != ""
      && decode(GetToken(entries).value).Some? && decode(GetToken(entries).value).value.Some?
      && decode(GetToken(entries).value).value.value != 0
      && decode(GetToken(entries).value).value.value - NowSeconds(nowMs) < thresholdMinutes * 60
  {
    match GetToken(entries)
    case None => Ok(false)
    case Some(token) =>
      if token == "" then Ok(false)
      else match decode(token)
        case None => Err(())
        case Some(exp) => Ok(exp.Some? && exp.value != 0 && exp.value - NowSeconds(nowMs) < thresholdMinutes * 60)
  }

  /**
   * A token with a truthy `exp` within the `Date` range that no longer
   * authenticates always needs a refresh, for any positive threshold; one
   * that does not need a refresh is still authenticated. Past the range
   * `isAuthenticated` answers false at any time, while `needsRefresh`, which
   * formats no date, only compares numbers.
   */
  lemma RefreshCoversExpiry(entries: map<string, string>, decode: string -> Option<Option<int>>, nowMs: int,
                            thresholdMinutes: int)
    requires thresholdMinutes > 0
    requires GetToken(entries).Some? && GetToken(entries).value != ""
    requires decode(GetToken(entries).value).Some? && decode(GetToken(entries).value).value.Some?
    requires decode(GetToken(entries).value).value.value != 0
    ensures DateInRange(decode(GetToken(entries).value).value.value * 1000) && DateInRange(NowSeconds(nowMs) * 1000) ==>
      (!IsAuthenticated(entries, decode, nowMs) ==> NeedsRefresh(entries, decode, nowMs, thresholdMinutes) == Ok(true))
    ensures DateInRange(decode(GetToken(entries).value).value.value * 1000) && DateInRange(NowSeconds(nowMs) * 1000) ==>
      (NeedsRefresh(entries, decode, nowMs, thresholdMinutes) == Ok(false) ==> IsAuthenticated(entries, decode, nowMs))
    ensures !DateInRange(decode(GetToken(entries).value).value.value * 1000) ==> !IsAuthenticated(entries, decode, nowMs)
  {
  }

  /** What `setAuthData` stored reads back: the token verbatim, and the user record. */
  lemma SetThenRead(entries: map<string, string>, codec: UserCodec, token: string, user: User)
    requires RoundTrips(codec, user)
    ensures var after := entries[AccessTokenKey := token][UserKey := codec.stringify(user)];
      GetToken(after) == Some(token) && GetUser(after, codec) == Some(Stored(user))
  {
  }

  /**
   * The raw token is not a versioned wrapper: read through `storageUtils.get`
   * it is discarded or unparsable, never found, unless the codec reads
   * version 1 out of it.
   */
  lemma RawTokenNotWrapped<V>(entries: map<string, string>, codec: JsonCodec<V>, token: string, now: int)
    requires token != "" && (codec.parse(token).None? || codec.parse(token).value.version != Some(CurrentVersion))
    ensures !Classify(entries[AccessTokenKey := token], codec, AccessTokenKey, now).Found?
  {
  }
}
