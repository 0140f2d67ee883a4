/**
 * `reimbursementApi`: the reimbursement endpoints. Each call is given the
 * outcome of its HTTP request; a rejected call is the message of the `Error`
 * it throws.
 */
module ReimbursementApi {
  import opened Common
  import opened FrontendCommon
  import opened ReimbursementService

  /** `status ? { status } : {}`: the query parameters of the two list calls. */
  function StatusParams(status: Option<string>): (params: map<string, string>)
    ensures params.Keys <= {"status"}
    ensures "status" in params <==> status.Some? && status.value != ""
    ensures "status" in params ==> params["status"] == status.value
  {
    if status.Some? && status.value != "" then map["status" := status.value] else map[]
  }

  /** A call's result: the body it resolved with, or the message it rejected with. */
  function Settle<T>(outcome: Result<T, ApiFailure>, fallback: string, rules: seq<(string, string)>): (r: Result<T, string>)
    ensures outcome.Ok? <==> r.Ok?
    ensures outcome.Ok? ==> r.value == outcome.value
    ensures outcome.Err? ==> r.error == FailureMessage(outcome.error, fallback, rules)
  {
    match outcome
    case Ok(body) => Ok(body)
    case Err(failure) => Err(FailureMessage(failure, fallback, rules))
  }

  const CreateFallback: string := "Failed to create reimbursement"
  const ListFallback: string := "Failed to fetch reimbursements"
  const GetByIdFallback: string := "Failed to fetch reimbursement"
  const UpdateFallback: string := "Failed to update reimbursement"
  const ResolveFallback: string := "Failed to resolve reimbursement"

  const UpdateRules: seq<(string, string)> := [("pending", "Can only edit pending reimbursements")]
  const ManagersOnlyMessage: string := "Only managers" + " can resolve reimbursements"
  const ResolvePendingMessage: string := "Can only resolve " + "pending" + " reimbursements"
  const ResolveRules: seq<(string, string)> :=
    [("Only managers", ManagersOnlyMessage), ("pending", ResolvePendingMessage)]

  /** `create`: the stored reimbursement, or the server's text. */
  function Create(outcome: Result<ReimbursementView, ApiFailure>): (r: Result<ReimbursementView, string>)
    ensures outcome.Ok? ==> r == Ok(outcome.value)
    ensures outcome.Err? && outcome.error.Axios? ==> r == Err(ServerText(outcome.error.serverError, CreateFallback))
    ensures outcome.Err? && outcome.error.NonAxios? ==> r == Err(NetworkMessage)
  {
    Settle(outcome, CreateFallback, [])
  }

  /** `getMy` and `getAll`: the listed reimbursements, or the server's text. */
  function List(outcome: Result<seq<ReimbursementView>, ApiFailure>): (r: Result<seq<ReimbursementView>, string>)
    ensures outcome.Ok? ==> r == Ok(outcome.value)
    ensures outcome.Err? && outcome.error.Axios? ==> r == Err(ServerText(outcome.error.serverError, ListFallback))
    ensures outcome.Err? && outcome.error.NonAxios? ==> r == Err(NetworkMessage)
  {
    Settle(outcome, ListFallback, [])
  }

  /** `getById`. */
  function GetById(outcome: Result<ReimbursementView, ApiFailure>): (r: Result<ReimbursementView, string>)
    ensures outcome.Ok? ==> r == Ok(outcome.value)
    ensures outcome.Err? && outcome.error.Axios? ==> r == Err(ServerText(outcome.error.serverError, GetByIdFallback))
    ensures outcome.Err? && outcome.error.NonAxios? ==> r == Err(NetworkMessage)
  {
    Settle(outcome, GetByIdFallback, [])
  }

  /** `update`: a server text mentioning `pending` becomes the edit-pending message. */
  function Update(outcome: Result<ReimbursementView, ApiFailure>): (r: Result<ReimbursementView, string>)
    ensures outcome.Ok? ==> r == Ok(outcome.value)
    ensures outcome.Err? && outcome.error.NonAxios? ==> r == Err(NetworkMessage)
    ensures outcome.Err? && outcome.error.Axios? ==>
      var text := ServerText(outcome.error.serverError, UpdateFallback);
      && (Contains(text, "pending") ==> r == Err("Can only edit pending reimbursements"))
      && (!Contains(text, "pending") ==> r == Err(text))
  {
    assert UpdateRules[0].0 == "pending";
    Settle(outcome, UpdateFallback, UpdateRules)
  }

  /**
   * `resolve`: a server text mentioning `Only managers` becomes the
   * managers-only message, checked before one mentioning `pending`.
   */
  function Resolve(outcome: Result<ReimbursementView, ApiFailure>): (r: Result<ReimbursementView, string>)
    ensures outcome.Ok? ==> r == Ok(outcome.value)
    ensures outcome.Err? && outcome.error.NonAxios? ==> r == Err(NetworkMessage)
    ensures outcome.Err? && outcome.error.Axios? ==>
      var text := ServerText(outcome.error.serverError, ResolveFallback);
      && (Contains(text, "Only managers") ==> r == Err(ManagersOnlyMessage))
      && (!Contains(text, "Only managers") && Contains(text, "pending") ==> r == Err(ResolvePendingMessage))
      && (!Contains(text, "Only managers") && !Contains(text, "pending") ==> r == Err(text))
  {
    assert ResolveRules[0].0 == "Only managers" && ResolveRules[1].0 == "pending";
    Settle(outcome, ResolveFallback, ResolveRules)
  }

  /**
   * The backend's two refusals of a resolution reach the client with their
   * own wording, assuming the error body's `error` field carries the
   * exception's message.
   */
  lemma ResolveRefusalsKeepWording()
    ensures Resolve(Err(Axios(Some(OnlyManagersText)))) == Err(OnlyManagersText)
    ensures Resolve(Err(Axios(Some(NotPendingText)))) == Err(NotPendingText)
  {
    assert OnlyManagersText[..13] == "Only managers";
    ContainsAt(OnlyManagersText, "Only managers", 0);
    assert NotPendingText[17..24] == "pending";
    ContainsAt(NotPendingText, "pending", 17);
    assert 'O' !in NotPendingText;
    MissingCharDoesNotContain(NotPendingText, "Only managers", 'O');
  }
}
