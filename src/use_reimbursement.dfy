/**
 * `useReimbursements`: the signed-in user's reimbursements, optionally
 * filtered by status. The list machinery (fetch, refresh, filter) is shared
 * with the manager's hook, which lists every reimbursement instead.
 */
module UseReimbursement {
  import opened Common
  import opened FrontendCommon
  import opened ReimbursementApi

  const LoadFailedFallback: string := "Failed to load reimbursements. Please try again."

  /** Whose reimbursements a list fetches: `getMy` or `getAll`. */
  datatype Scope = Own | Everyone

  /** The endpoint path below the API base for a scope. */
  function ListPath(scope: Scope): (path: string)
    ensures scope.Own? <==> path == "/reimbursements/self"
    ensures scope.Everyone? <==> path == "/reimbursements"
  {
    match scope
    case Own => "/reimbursements/self"
    case Everyone => "/reimbursements"
  }

  class ReimbursementList {
    const scope: Scope
    var reimbursements: seq<ReimbursementView>
    var isLoading: bool
    var error: Option<string>
    var currentFilter: Option<string>

    /** Empty, loading, no message, no filter. */
    constructor (scope: Scope)
      ensures this.scope == scope
      ensures reimbursements == [] && isLoading && error == None && currentFilter == None
    {
      this.scope := scope;
      reimbursements := [];
      isLoading := true;
      error := None;
      currentFilter := None;
    }

    /** After a fetch: not loading, and a failure leaves the list empty. */
    predicate Settled()
      reads this
    {
      !isLoading && (error.Some? ==> reimbursements == [])
    }

    /** The query a fetch sends: the filter as `status` when one is set and non-empty. */
    function FetchParams(): (params: map<string, string>)
      reads this
      ensures "status" in params <==> currentFilter.Some? && currentFilter.value != ""
      ensures "status" in params ==> params["status"] == currentFilter.value
      ensures params.Keys <= {"status"}
    {
      StatusParams(currentFilter)
    }

    /**
     * `fetchReimbursements`, given what the list call settled with: the
     * list is replaced by the result, or emptied with the thrown message
     * shown. The filter is kept.
     */
    method Fetch(outcome: Result<seq<ReimbursementView>, Thrown>)
      modifies this
      ensures Settled()
      ensures currentFilter == old(currentFilter)
      ensures outcome.Ok? ==> reimbursements == outcome.value && error == None
      ensures outcome.Err? ==> reimbursements == [] && error == Some(CaughtMessage(outcome.error, LoadFailedFallback))
    {
      isLoading := true;
      error := None;
      match outcome {
        case Ok(data) =>
          reimbursements := data;
        case Err(thrown) =>
          error := Some(CaughtMessage(thrown, LoadFailedFallback));
          reimbursements := [];
      }
      isLoading := false;
    }

    /** The mount and filter-change effect: a fetch only when a user is signed in. */
    method Effect(user: Option<User>, outcome: Result<seq<ReimbursementView>, Thrown>)
      modifies this
      ensures user.None? ==>
        reimbursements == old(reimbursements) && isLoading == old(isLoading) && error == old(error)
      ensures user.Some? ==> Settled() && (outcome.Ok? ==> reimbursements == outcome.value && error == None)
      ensures user.Some? && outcome.Err? ==> reimbursements == [] && error == Some(CaughtMessage(outcome.error, LoadFailedFallback))
      ensures currentFilter == old(currentFilter)
    {
      if user.Some? {
        Fetch(outcome);
      }
    }

    /** `filterByStatus`: only the filter changes; the next effect run refetches. */
    method FilterByStatus(status: Option<string>)
      modifies this
      ensures currentFilter == status
      ensures reimbursements == old(reimbursements) && isLoading == old(isLoading) && error == old(error)
      ensures old(Settled()) ==> Settled()
    {
      currentFilter := status;
    }
  }

  /**
   * Through the list service, a fetch that fails shows the service's
   * message: the server's text, the list fallback without one, or the
   * network message.
   */
  lemma FailedFetchMessage(failure: ApiFailure)
    ensures Rejection(List(Err(failure))).Err?
    ensures failure.NonAxios? ==> CaughtMessage(Rejection(List(Err(failure))).error, LoadFailedFallback) == NetworkMessage
    ensures failure.Axios? ==>
      CaughtMessage(Rejection(List(Err(failure))).error, LoadFailedFallback) == ServerText(failure.serverError, ListFallback)
  {
  }
}
