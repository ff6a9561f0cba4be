/**
 * The payment-method form: its schema, its default values, the form data it
 * sends to the server action, and the loading and error state around the
 * submission.
 */
module PaymentMethodForm {
  import opened Common

  /** The form's field values; `type` and `details` may be undefined. */
  datatype FormValues = FormValues(name: string, paymentType: Option<string>, details: Option<string>)

  /** A stored payment method; `details` is the stored JSON value, written out by a serialiser. */
  datatype PaymentMethodRow = PaymentMethodRow(name: string, paymentType: Option<string>, details: Option<string>)

  /** The schema: a name of at least two characters; type and details optional. */
  predicate SchemaAccepts(v: FormValues)
  {
    |v.name| >= 2
  }

  /**
   * `defaultValues`: copied from the edited row, missing fields as "", the
   * details passed through `stringify` (`JSON.stringify`, which is foreign).
   */
  function DefaultValues(row: Option<PaymentMethodRow>, stringify: string -> string): (v: FormValues)
    ensures v.paymentType.Some? && v.details.Some?
    ensures row.None? ==> v == FormValues("", Some(""), Some(""))
    ensures row.Some? ==> v.name == row.value.name
    ensures row.Some? ==> v.paymentType == Some(OrEmpty(row.value.paymentType))
    ensures row.Some? && !Truthy(row.value.details) ==> v.details == Some("")
    ensures row.Some? && Truthy(row.value.details) ==> v.details == Some(stringify(row.value.details.value))
  {
    match row
    case None => FormValues("", Some(""), Some(""))
    case Some(r) =>
      FormValues(r.name, Some(OrEmpty(r.paymentType)),
                 Some(if Truthy(r.details) then stringify(r.details.value) else ""))
  }

  /** A new record's defaults fail the schema: a name must be typed first. */
  lemma NewRecordDefaultsRejected(stringify: string -> string)
    ensures !SchemaAccepts(DefaultValues(None, stringify))
  {
  }

  datatype Entry = Entry(key: string, value: string)

  /** The `FormData` built before calling the action. */
  function BuildFormData(v: FormValues): (entries: seq<Entry>)
    ensures 1 <= |entries| <= 3
    ensures entries[0] == Entry("name", v.name)
    ensures forall e :: e in entries ==> e.key in {"name", "type", "details"}
  {
    [Entry("name", v.name)]
    + (if Truthy(v.paymentType) then [Entry("type", v.paymentType.value)] else [])
    + (if Truthy(v.details) then [Entry("details", v.details.value)] else [])
  }

  /** `formData.get(key)`: the first entry with that key. */
  function Get(entries: seq<Entry>, key: string): (r: Option<string>)
    ensures r.None? <==> forall e :: e in entries ==> e.key != key
    ensures r.Some? ==> exists i :: 0 <= i < |entries| && entries[i] == Entry(key, r.value) &&
                         forall j :: 0 <= j < i ==> entries[j].key != key
  {
    if entries == [] then None
    else if entries[0].key == key then Some(entries[0].value)
    else
      var r := Get(entries[1..], key);
      assert forall i :: 1 <= i < |entries| ==> entries[i] == entries[1..][i - 1];
      r
  }

  /**
   * Reading the built form data back gives the name, and gives type and
   * details exactly when they were non-empty.
   */
  lemma FormDataRoundTrip(v: FormValues)
    ensures Get(BuildFormData(v), "name") == Some(v.name)
    ensures Get(BuildFormData(v), "type") == (if Truthy(v.paymentType) then v.paymentType else None)
    ensures Get(BuildFormData(v), "details") == (if Truthy(v.details) then v.details else None)
  {
    var entries := BuildFormData(v);
    var rest := entries[1..];
    assert Get(entries, "type") == Get(rest, "type");
    assert Get(entries, "details") == Get(rest, "details");
    if Truthy(v.paymentType) {
      assert rest[0] == Entry("type", v.paymentType.value);
      assert Get(rest, "details") == Get(rest[1..], "details");
    }
  }

  /** The value returned by the action; an empty `error` is falsy. */
  datatype ActionResult = ActionResult(error: Option<string>)

  datatype SubmitOutcome = Returned(result: Option<ActionResult>) | Threw(err: Thrown)

  datatype Effect = Refresh | Navigate(path: string)

  const PaymentMethodsPath := "/settings/payment-methods"

  /** The action reported an error. */
  predicate ReportsError(outcome: SubmitOutcome)
  {
    outcome.Returned? && outcome.result.Some? && Truthy(outcome.result.value.error)
  }

  class FormState {
    var isLoading: bool
    var error: string
    var effects: seq<Effect>

    constructor ()
      ensures !isLoading && error == "" && effects == []
    {
      isLoading := false;
      error := "";
      effects := [];
    }

    /** The start of `handleFormSubmit`: loading on, error cleared. */
    method BeginSubmit()
      modifies this
      ensures isLoading && error == ""
      ensures effects == old(effects)
    {
      isLoading := true;
      error := "";
    }

    /** The rest of `handleFormSubmit`, once the action has settled. */
    method CompleteSubmit(outcome: SubmitOutcome)
      modifies this
      ensures !isLoading
      ensures ReportsError(outcome) ==>
        error == outcome.result.value.error.value && effects == old(effects)
      ensures outcome.Returned? && !ReportsError(outcome) ==>
        error == old(error) && effects == old(effects) + [Refresh, Navigate(PaymentMethodsPath)]
      ensures outcome.Threw? ==>
        error == MessageOf(outcome.err, "An error occurred") && effects == old(effects)
    {
      match outcome {
        case Returned(result) =>
          if ReportsError(outcome) {
            error := result.value.error.value;
          } else {
            effects := effects + [Refresh, Navigate(PaymentMethodsPath)];
          }
        case Threw(err) =>
          error := MessageOf(err, "An error occurred");
      }
      isLoading := false;
    }

    /**
     * A submit as one step: values the schema rejects never reach the
     * handler; otherwise the handler sends the built form data.
     */
    method HandleFormSubmit(v: FormValues, outcome: SubmitOutcome) returns (sent: Option<seq<Entry>>)
      modifies this
      ensures !SchemaAccepts(v) ==>
        sent == None && isLoading == old(isLoading) && error == old(error) && effects == old(effects)
      ensures SchemaAccepts(v) ==> sent == Some(BuildFormData(v)) && !isLoading
      ensures SchemaAccepts(v) && outcome.Returned? && !ReportsError(outcome) ==>
        error == "" && effects == old(effects) + [Refresh, Navigate(PaymentMethodsPath)]
      ensures SchemaAccepts(v) && ReportsError(outcome) ==>
        error == outcome.result.value.error.value && effects == old(effects)
      ensures SchemaAccepts(v) && outcome.Threw? ==>
        error == MessageOf(outcome.err, "An error occurred") && effects == old(effects)
    {
      if !SchemaAccepts(v) {
        return None;
      }
      BeginSubmit();
      sent := Some(BuildFormData(v));
      CompleteSubmit(outcome);
    }
  }
}
