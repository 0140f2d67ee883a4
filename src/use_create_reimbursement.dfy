/**
 * `useCreateReimbursement`: checks a new reimbursement on the client and
 * submits it with the description trimmed.
 */
module UseCreateReimbursement {
  import opened Common
  import opened FrontendCommon

  const DescriptionMessage: string := "Description must be at least 10 characters"
  const TypeMessage: string := "Please select a reimbursement type"
  const CreateFailedFallback: string := "Failed to create reimbursement. Please try again."
  const MinDescription: int := 10

  /** The client-side refusal: a missing or short (after trimming) description first, then a missing type. */
  function CreateError(description: Option<string>, kind: Option<string>): (error: Option<string>)
    ensures error.None? <==>
      description.Some? && |JsTrim(description.value)| >= MinDescription && kind.Some? && kind.value != ""
    ensures description.None? || |JsTrim(description.value)| < MinDescription ==> error == Some(DescriptionMessage)
    ensures description.Some? && |JsTrim(description.value)| >= MinDescription && (kind.None? || kind.value == "") ==>
      error == Some(TypeMessage)
  {
    if description.None? || description.value == "" || |JsTrim(description.value)| < MinDescription then Some(DescriptionMessage)
    else if kind.None? || kind.value == "" then Some(TypeMessage)
    else None
  }

  /** The request body sent: the trimmed description and the type. */
  datatype CreateRequest = CreateRequest(description: string, kind: string)

  class CreateReimbursementHook {
    var isLoading: bool
    var error: Option<string>
    var success: bool

    constructor ()
      ensures !isLoading && error == None && !success
    {
      isLoading := false;
      error := None;
      success := false;
    }

    /**
     * `createReimbursement`, given what the create call settled with. A
     * refused form sets its message and sends nothing (`sent` is `None`);
     * otherwise the trimmed description and the type are sent, and the
     * created record comes back with success set, or the thrown message is
     * shown.
     */
    method Create(description: Option<string>, kind: Option<string>, outcome: Result<ReimbursementView, Thrown>)
      returns (created: Option<ReimbursementView>, sent: Option<CreateRequest>)
      modifies this
      ensures sent.Some? <==> CreateError(description, kind).None?
      ensures sent.Some? ==> sent.value == CreateRequest(JsTrim(description.value), kind.value)
      ensures sent.None? ==> created.None? && error == CreateError(description, kind)
                             && isLoading == old(isLoading) && success == old(success)
      ensures sent.Some? ==> !isLoading && (created.Some? <==> outcome.Ok?) && (success <==> outcome.Ok?)
      ensures sent.Some? && outcome.Ok? ==> created == Some(outcome.value) && error == None
      ensures sent.Some? && outcome.Err? ==> error == Some(CaughtMessage(outcome.error, CreateFailedFallback))
    {
      var refused := CreateError(description, kind);
      if refused.Some? {
        error := refused;
        return None, None;
      }
      isLoading := true;
      error := None;
      success := false;
      sent := Some(CreateRequest(JsTrim(description.value), kind.value));
      match outcome {
        case Ok(reimbursement) =>
          success := true;
          created := Some(reimbursement);
        case Err(thrown) =>
          error := Some(CaughtMessage(thrown, CreateFailedFallback));
          created := None;
      }
      isLoading := false;
    }

    /** `reset`: the message and the success flag are cleared; loading is left alone. */
    method Reset()
      modifies this
      ensures error == None && !success && isLoading == old(isLoading)
    {
      error := None;
      success := false;
    }
  }

  /**
   * A description that passes the client check is sent with at least ten
   * characters and with no whitespace at either end.
   */
  lemma SentDescriptionIsTrimmed(description: Option<string>, kind: Option<string>)
    requires CreateError(description, kind).None?
    ensures |JsTrim(description.value)| >= MinDescription
    ensures !IsJsSpace(JsTrim(description.value)[0])
    ensures !IsJsSpace(JsTrim(description.value)[|JsTrim(description.value)| - 1])
  {
  }
}
