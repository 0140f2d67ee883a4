/**
 * `useManagerReimbursements`: every reimbursement, with the list machinery
 * of `useReimbursements`, and the approval or denial of one of them.
 */
module UseManagerReimbursement {
  import opened Common
  import opened FrontendCommon
  import opened UseReimbursement

  const StatusMessage: string := "Status must be APPROVED or DENIED"
  const ResolveFailedFallback: string := "Failed to resolve reimbursement. Please try again."

  /** The statuses a manager may resolve to. */
  predicate IsResolution(status: string)
  {
    status == "APPROVED" || status == "DENIED"
  }

  class ManagerReimbursements {
    const list: ReimbursementList
    var isResolving: bool
    var resolveError: Option<string>

    /** The list is scoped to every reimbursement and starts as `useReimbursements` does. */
    constructor ()
      ensures fresh(list) && list.scope == Everyone
      ensures list.reimbursements == [] && list.isLoading && list.error == None && list.currentFilter == None
      ensures !isResolving && resolveError == None
    {
      list := new ReimbursementList(Everyone);
      isResolving := false;
      resolveError := None;
    }

    /**
     * `resolveReimbursement`, given what the resolve call and the refetch
     * that follows it settle with. A status other than APPROVED or DENIED
     * is refused without a call. A resolution that succeeds refetches the
     * list and reports true even when the refetch fails, since the fetch
     * catches its own errors; one that fails reports false with the thrown
     * message and leaves the list alone.
     */
    method Resolve(status: string, outcome: Result<ReimbursementView, Thrown>,
                   refetch: Result<seq<ReimbursementView>, Thrown>) returns (ok: bool)
      modifies this, list
      ensures ok <==> IsResolution(status) && outcome.Ok?
      ensures !IsResolution(status) ==>
        resolveError == Some(StatusMessage) && isResolving == old(isResolving)
      ensures IsResolution(status) ==> !isResolving
      ensures IsResolution(status) && outcome.Ok? ==>
        && resolveError == None && list.Settled()
        && (refetch.Ok? ==> list.reimbursements == refetch.value && list.error == None)
        && (refetch.Err? ==> list.reimbursements == [] && list.error == Some(CaughtMessage(refetch.error, LoadFailedFallback)))
      ensures !(IsResolution(status) && outcome.Ok?) ==>
        list.reimbursements == old(list.reimbursements) && list.error == old(list.error) && list.isLoading == old(list.isLoading)
      ensures IsResolution(status) && outcome.Err? ==> resolveError == Some(CaughtMessage(outcome.error, ResolveFailedFallback))
      ensures list.currentFilter == old(list.currentFilter)
    {
      if !IsResolution(status) {
        resolveError := Some(StatusMessage);
        return false;
      }
      isResolving := true;
      resolveError := None;
      match outcome {
        case Ok(_) =>
          list.Fetch(refetch);
          ok := true;
        case Err(thrown) =>
          resolveError := Some(CaughtMessage(thrown, ResolveFailedFallback));
          ok := false;
      }
      isResolving := false;
    }
  }
}
