/**
 * The forgot-password form: the loading, success and error state around a
 * password-reset request, and what the form shows in each state.
 */
module ForgotPassword {
  import opened Common

  /** The value `requestPasswordReset` returns; an empty `error` is falsy. */
  datatype ResetResult = ResetResult(success: bool, error: Option<string>)

  datatype ResetOutcome = Returned(result: ResetResult) | Threw

  const FailedToSend := "Failed to send reset email"
  const Unexpected := "An unexpected error occurred"

  /** The error message an outcome leaves, if it leaves one. */
  function ErrorAfter(outcome: ResetOutcome): (e: Option<string>)
    ensures outcome.Threw? ==> e == Some(Unexpected)
    ensures outcome.Returned? && outcome.result.success ==> e == None
    ensures outcome.Returned? && !outcome.result.success ==>
      e == Some(OrElse(outcome.result.error, FailedToSend))
    ensures e.Some? ==> e.value != ""
  {
    match outcome
    case Threw => Some(Unexpected)
    case Returned(result) =>
      if result.success then None else Some(OrElse(result.error, FailedToSend))
  }

  class ForgotPasswordState {
    var isLoading: bool
    var success: bool
    var error: string

    constructor ()
      ensures !isLoading && !success && error == ""
    {
      isLoading := false;
      success := false;
      error := "";
    }

    /** The start of `onSubmit`: loading on, error cleared. */
    method BeginSubmit()
      modifies this
      ensures isLoading && error == "" && success == old(success)
    {
      isLoading := true;
      error := "";
    }

    /** The rest of `onSubmit`, once the request has settled; `finally` clears loading. */
    method CompleteSubmit(outcome: ResetOutcome)
      modifies this
      ensures !isLoading
      ensures success == (old(success) || (outcome.Returned? && outcome.result.success))
      ensures ErrorAfter(outcome).Some? ==> error == ErrorAfter(outcome).value
      ensures ErrorAfter(outcome).None? ==> error == old(error)
    {
      match outcome {
        case Returned(result) =>
          if result.success {
            success := true;
          } else {
            error := OrElse(result.error, FailedToSend);
          }
        case Threw =>
          error := Unexpected;
      }
      isLoading := false;
    }

    /**
     * A submit as one step: an address the email check rejects never
     * reaches the handler.
     */
    method OnSubmit(emailAccepted: bool, outcome: ResetOutcome)
      modifies this
      ensures !emailAccepted ==>
        isLoading == old(isLoading) && success == old(success) && error == old(error)
      ensures emailAccepted ==> !isLoading
      ensures emailAccepted ==> success == (old(success) || (outcome.Returned? && outcome.result.success))
      ensures emailAccepted ==> error == (if ErrorAfter(outcome).Some? then ErrorAfter(outcome).value else "")
    {
      if emailAccepted {
        BeginSubmit();
        CompleteSubmit(outcome);
      }
    }
  }

  /** The confirmation, or the form with its inputs and alert. */
  datatype FormView =
    | Confirmation
    | Form(inputDisabled: bool, buttonDisabled: bool, alert: Option<string>)

  function Render(isLoading: bool, success: bool, error: string): (v: FormView)
    ensures v == Confirmation <==> success
    ensures v.Form? ==> (v.inputDisabled <==> isLoading) && (v.buttonDisabled <==> isLoading)
    ensures v.Form? ==> (v.alert.Some? <==> error != "")
  {
    if success then Confirmation
    else Form(isLoading, isLoading, if error != "" then Some(error) else None)
  }

  /** After a failed request the form is back, enabled, and shows a non-empty alert. */
  lemma FailureShowsAlert(outcome: ResetOutcome)
    requires outcome.Threw? || !outcome.result.success
    ensures Render(false, false, ErrorAfter(outcome).value)
         == Form(false, false, Some(ErrorAfter(outcome).value))
  {
  }
}
