/**
 * `useUpgradeRequest`: a RESTRICTED user asks for employee access. The hook
 * destructures `updateUser` from the authentication context, which offers no
 * such member, so as written the call that should store the upgraded user
 * throws a `TypeError` after the server has granted the upgrade. The
 * corrected hook stores the upgraded user in the context, reports success
 * and moves to the employee dashboard once its 1.5-second timer fires.
 */
module UseUpgradeRequest {
  import opened Common
  import opened FrontendCommon
  import opened Routes
  import opened AuthContext
  import opened UserApi
  import opened UserAccountService

  const NoUserMessage: string := "No user logged in"
  const UpgradeFailedFallback: string := "Failed to request employee access. Please try again."
  /** The engine's message for calling an undefined member. */
  const UpdateUserTypeError: string := "updateUser is not a function"

  /** What a `requestUpgrade` call reports: its result and the message shown. */
  datatype Report = Report(ok: bool, error: Option<string>)

  /** Whether the hook's own checks let the request go out. */
  predicate MaySend(user: Option<User>)
  {
    user.Some? && user.value.role == "RESTRICTED"
  }

  /** The message the hook's own checks show, when they refuse. */
  function Refusal(user: Option<User>): (message: string)
    requires !MaySend(user)
    ensures user.None? <==> message == NoUserMessage
    ensures user.Some? <==> message == UpgradeRestrictedMessage
  {
    if user.None? then NoUserMessage else UpgradeRestrictedMessage
  }

  /**
   * The report as written: every call that reaches the server ends in the
   * `catch`, a granted upgrade with the `TypeError`'s message.
   */
  function ReportAsWritten(user: Option<User>, outcome: Result<User, Thrown>): (r: Report)
    ensures !r.ok
    ensures r.error.Some?
    ensures !MaySend(user) ==> r.error == Some(Refusal(user))
    ensures MaySend(user) && outcome.Err? ==> r.error == Some(CaughtMessage(outcome.error, UpgradeFailedFallback))
  {
    if !MaySend(user) then Report(false, Some(Refusal(user)))
    else match outcome
      case Ok(_) => Report(false, Some(CaughtMessage(ErrorObject(UpdateUserTypeError), UpgradeFailedFallback)))
      case Err(thrown) => Report(false, Some(CaughtMessage(thrown, UpgradeFailedFallback)))
  }

  /** The report once the context stores the upgraded user: true exactly for a granted request. */
  function ReportCorrected(user: Option<User>, outcome: Result<User, Thrown>): (r: Report)
    ensures r.ok <==> MaySend(user) && outcome.Ok?
    ensures r.ok <==> r.error.None?
    ensures !MaySend(user) ==> r.error == Some(Refusal(user))
    ensures MaySend(user) && outcome.Err? ==> r.error == Some(CaughtMessage(outcome.error, UpgradeFailedFallback))
  {
    if !MaySend(user) then Report(false, Some(Refusal(user)))
    else match outcome
      case Ok(_) => Report(true, None)
      case Err(thrown) => Report(false, Some(CaughtMessage(thrown, UpgradeFailedFallback)))
  }

  /**
   * The discrepancy: a RESTRICTED user whose upgrade the server grants is
   * told that it failed, with the `TypeError`'s message, as written.
   */
  lemma GrantedUpgradeReportedAsFailureAsWritten(user: User, upgraded: User)
    requires user.role == "RESTRICTED"
    ensures ReportAsWritten(Some(user), Ok(upgraded)) == Report(false, Some(UpdateUserTypeError))
    ensures ReportCorrected(Some(user), Ok(upgraded)) == Report(true, None)
  {
  }

  /** The two agree on every call that does not reach a granted upgrade. */
  lemma CorrectedAgreesOffTheGrant(user: Option<User>, outcome: Result<User, Thrown>)
    requires !(MaySend(user) && outcome.Ok?)
    ensures ReportCorrected(user, outcome) == ReportAsWritten(user, outcome)
  {
  }

  /**
   * Through the user service, a request the server refuses for the role
   * shows the hook's own wording for it.
   */
  lemma RefusedForRoleMessage(user: User)
    requires user.role == "RESTRICTED"
    ensures var r := ReportCorrected(Some(user), Rejection(RequestEmployeeAccess(Err(Axios(Some(OnlyRestrictedText))))));
      r.error == Some(UpgradeRestrictedMessage) && !r.ok
  {
    RestrictedRefusalMessage();
  }

  class UpgradeRequestHook {
    var isLoading: bool
    var error: Option<string>
    var success: bool

    constructor ()
      ensures !isLoading && error == None && !success
    {
      isLoading := false;
      error := None;
      success := false;
    }

    /**
     * `requestUpgrade` as written, given what the service call settled
     * with: the context, the router and `success` are never changed by a
     * granted upgrade.
     */
    method RequestUpgradeAsWritten(user: Option<User>, outcome: Result<User, Thrown>) returns (ok: bool)
      modifies this
      ensures Report(ok, error) == ReportAsWritten(user, outcome)
      ensures !MaySend(user) ==> isLoading == old(isLoading) && success == old(success)
      ensures MaySend(user) ==> !isLoading && !success
    {
      if user.None? {
        error := Some(NoUserMessage);
        return false;
      }
      if user.value.role != "RESTRICTED" {
        error := Some(UpgradeRestrictedMessage);
        return false;
      }
      isLoading := true;
      error := None;
      success := false;
      var thrown: Thrown;
      match outcome {
        case Ok(_) =>
          // `updateUser` is undefined: calling it throws before `setSuccess`
          thrown := ErrorObject(UpdateUserTypeError);
        case Err(t) =>
          thrown := t;
      }
      error := Some(CaughtMessage(thrown, UpgradeFailedFallback));
      ok := false;
      isLoading := false;
    }

    /**
     * `requestUpgrade` with the context storing the upgraded user: a granted
     * upgrade replaces the session's user (the token stays), sets `success`
     * and navigates to the employee dashboard; anything else changes
     * neither the context nor the router.
     */
    method RequestUpgrade(user: Option<User>, outcome: Result<User, Thrown>, auth: AuthProvider, nav: Navigator)
      returns (ok: bool)
      modifies this, auth, nav
      ensures Report(ok, error) == ReportCorrected(user, outcome)
      ensures ok ==>
        && success && !isLoading
        && auth.user == Some(outcome.value) && auth.token == old(auth.token)
        && nav.history == old(nav.history) + [Navigation(EmployeePath, false)]
      ensures !ok ==> auth.user == old(auth.user) && auth.token == old(auth.token) && nav.history == old(nav.history)
      ensures !ok && MaySend(user) ==> !success && !isLoading
    {
      if user.None? {
        error := Some(NoUserMessage);
        return false;
      }
      if user.value.role != "RESTRICTED" {
        error := Some(UpgradeRestrictedMessage);
        return false;
      }
      isLoading := true;
      error := None;
      success := false;
      match outcome {
        case Ok(upgraded) =>
          auth.user := Some(upgraded);
          success := true;
          nav.Navigate(EmployeePath, false);
          ok := true;
        case Err(thrown) =>
          error := Some(CaughtMessage(thrown, UpgradeFailedFallback));
          ok := false;
      }
      isLoading := false;
    }
  }
}
