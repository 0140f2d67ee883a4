/**
 * `session.util`: the session rebuilt from what `authUtils` stored, with a
 * default for every missing or falsy field.
 */
module SessionUtil {
  import opened Common
  import opened FrontendCommon
  import opened AuthUtil

  const NoSessionMessage: string := "No matching user data could be found."
  const DefaultRole: string := "GUEST"

  /** `fetchSession`: the stored user with defaults, or the error it throws when none is stored. */
  function FetchSession(entries: map<string, string>, codec: UserCodec): (r: Result<User, string>)
    ensures r.Err? <==> GetUser(entries, codec).None?
    ensures r.Err? ==> r.error == NoSessionMessage
    ensures r.Ok? ==> var stored := GetUser(entries, codec).value;
      && (stored.userId.Some? ==> r.value.userId == stored.userId.value)
      && (stored.userId.None? ==> r.value.userId == 0)
      && (stored.email.Some? ==> r.value.email == stored.email.value)
      && (stored.email.None? ==> r.value.email == "")
      && (stored.role.Some? && stored.role.value != "" ==> r.value.role == stored.role.value)
      && (stored.role.None? || stored.role.value == "" ==> r.value.role == DefaultRole)
      && (stored.permissions.Some? ==> r.value.permissions == stored.permissions.value)
      && (stored.permissions.None? ==> r.value.permissions == [])
  {
    match GetUser(entries, codec)
    case None => Err(NoSessionMessage)
    case Some(stored) =>
      Ok(User(
        if stored.userId.Some? && stored.userId.value != 0 then stored.userId.value else 0,
        if stored.email.Some? && stored.email.value != "" then stored.email.value else "",
        if stored.role.Some? && stored.role.value != "" then stored.role.value else DefaultRole,
        if stored.permissions.Some? then stored.permissions.value else []))
  }

  /** `getSession`: the stored token, or none. */
  function GetSession(entries: map<string, string>): (token: Option<string>)
    ensures token.Some? <==> AccessTokenKey in entries
    ensures token.Some? ==> token.value == entries[AccessTokenKey]
  {
    GetToken(entries)
  }

  /**
   * Round trip: the user `setAuthData` stored comes back unchanged from
   * `fetchSession` when its role is non-empty; an empty role comes back as
   * the guest role.
   */
  lemma StoredSessionRoundTrip(entries: map<string, string>, codec: UserCodec, token: string, user: User)
    requires RoundTrips(codec, user)
    ensures var after := entries[AccessTokenKey := token][UserKey := codec.stringify(user)];
      && GetSession(after) == Some(token)
      && FetchSession(after, codec) == Ok(if user.role != "" then user else user.(role := DefaultRole))
  {
    SetThenRead(entries, codec, token, user);
  }

  /** After `clearAuthData` there is no session. */
  lemma ClearedHasNoSession(entries: map<string, string>, codec: UserCodec)
    ensures FetchSession(ClearedEntries(entries), codec) == Err(NoSessionMessage)
    ensures GetSession(ClearedEntries(entries)).None?
  {
  }
}
