/**
 * `userApi`: the account endpoints. Each call is given the outcome of its
 * HTTP request; a rejected call is the message of the `Error` it throws.
 */
module UserApi {
  import opened Common
  import opened Roles
  import opened UserAccountEntity
  import opened UserAccountMapper
  import opened UserAccountService
  import opened FrontendCommon
  import opened Routes

  /** The JSON of a `UserAccountDTO` as the client reads it. */
  datatype AccountBody = AccountBody(userAccountId: int, email: string, role: string, permissions: seq<string>)

  /** The client's account record for a body: `userAccountId` becomes `userId`. */
  function ToUser(body: AccountBody): (user: User)
    ensures user.userId == body.userAccountId && user.email == body.email
    ensures user.role == body.role && user.permissions == body.permissions
  {
    User(body.userAccountId, body.email, body.role, body.permissions)
  }

  /** `body` is the JSON the backend writes for `dto`: the role as its name, the permission set as an array. */
  predicate SerialisedFrom(body: AccountBody, dto: UserAccountDto)
  {
    dto.userAccountId == Some(body.userAccountId) && dto.email == Some(body.email)
    && dto.role.Some? && body.role == dto.role.value.Name()
    && dto.permissions.Some? && (set p | p in body.permissions) == dto.permissions.value
  }

  const UpgradeFallback: string := "Failed to request employee access"
  const UpgradeRestrictedMessage: string := "Only restricted users" + " can request employee access"
  const UpgradeAlreadyMessage: string := "You already have employee access or higher"
  const UpgradeRules: seq<(string, string)> := [("RESTRICTED", UpgradeRestrictedMessage), ("already", UpgradeAlreadyMessage)]

  /**
   * `requestEmployeeAccess`: the updated account, or a message. A server
   * text mentioning `RESTRICTED` becomes the restricted-only message,
   * checked before one mentioning `already`.
   */
  function RequestEmployeeAccess(outcome: Result<AccountBody, ApiFailure>): (r: Result<User, string>)
    ensures outcome.Ok? ==> r == Ok(ToUser(outcome.value))
    ensures outcome.Err? && outcome.error.NonAxios? ==> r == Err(NetworkMessage)
    ensures outcome.Err? && outcome.error.Axios? ==>
      var text := ServerText(outcome.error.serverError, UpgradeFallback);
      && (Contains(text, "RESTRICTED") ==> r == Err(UpgradeRestrictedMessage))
      && (!Contains(text, "RESTRICTED") && Contains(text, "already") ==> r == Err(UpgradeAlreadyMessage))
      && (!Contains(text, "RESTRICTED") && !Contains(text, "already") ==> r == Err(text))
  {
    match outcome
    case Ok(body) => Ok(ToUser(body))
    case Err(failure) =>
      assert UpgradeRules[0].0 == "RESTRICTED" && UpgradeRules[1].0 == "already";
      Err(FailureMessage(failure, UpgradeFallback, UpgradeRules))
  }

  /**
   * The backend's refusal of an upgrade for a role other than RESTRICTED
   * reaches the client as the restricted-only message, assuming the error
   * body's `error` field carries the exception's message.
   */
  lemma RestrictedRefusalMessage()
    ensures RequestEmployeeAccess(Err(Axios(Some(OnlyRestrictedText)))) == Err(UpgradeRestrictedMessage)
  {
    assert OnlyRestrictedText[5..15] == "RESTRICTED";
    ContainsAt(OnlyRestrictedText, "RESTRICTED", 5);
  }

  /**
   * An upgrade the backend grants comes back as an account whose role is
   * `EMPLOYEE`, which lands on the employee dashboard.
   */
  lemma GrantedUpgradeIsEmployee(body: AccountBody, row: AccountRow)
    requires SerialisedFrom(body, RowDto(row.(role := Employee)))
    ensures RequestEmployeeAccess(Ok(body)).Ok?
    ensures RequestEmployeeAccess(Ok(body)).value.role == "EMPLOYEE"
    ensures RoleRedirect(RequestEmployeeAccess(Ok(body)).value.role) == Some(EmployeePath)
  {
  }

  const UsersFallback: string := "Failed to fetch users"

  /** `getAllUsers`: every account converted, in order, or the server's text. */
  function GetAllUsers(outcome: Result<seq<AccountBody>, ApiFailure>): (r: Result<seq<User>, string>)
    ensures outcome.Ok? <==> r.Ok?
    ensures outcome.Ok? ==> |r.value| == |outcome.value|
    ensures outcome.Ok? ==> forall i :: 0 <= i < |outcome.value| ==> r.value[i] == ToUser(outcome.value[i])
    ensures outcome.Err? ==> r.error == FailureMessage(outcome.error, UsersFallback, [])
  {
    match outcome
    case Ok(bodies) => Ok(seq(|bodies|, i requires 0 <= i < |bodies| => ToUser(bodies[i])))
    case Err(failure) => Err(FailureMessage(failure, UsersFallback, []))
  }

  const DeleteFallback: string := "Failed to delete user"
  const OwnAccountMessage: string := "Cannot delete your own account"

  /** `deleteUser`: nothing, or a message; a server text mentioning `own account` becomes the own-account message. */
  function DeleteUser(outcome: Result<(), ApiFailure>): (r: Result<(), string>)
    ensures outcome.Ok? <==> r.Ok?
    ensures outcome.Err? && outcome.error.NonAxios? ==> r == Err(NetworkMessage)
    ensures outcome.Err? && outcome.error.Axios? ==>
      var text := ServerText(outcome.error.serverError, DeleteFallback);
      && (Contains(text, "own account") ==> r == Err(OwnAccountMessage))
      && (!Contains(text, "own account") ==> r == Err(text))
  {
    match outcome
    case Ok(_) => Ok(())
    case Err(failure) =>
      var rules := [("own account", OwnAccountMessage)];
      assert rules[0].0 == "own account";
      Err(FailureMessage(failure, DeleteFallback, rules))
  }
}
