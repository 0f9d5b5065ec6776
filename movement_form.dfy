/**
 * The movement-entry form (both revisions of MovementForm.tsx have the same
 * rules): three checks in a fixed order, the first failing one wins, and a
 * submit gate that forwards the trimmed values only when all pass.
 */
module MovementForm {
  import opened Wrappers
  import Text

  /** A JavaScript number as `Number(input)` produces it: NaN for text that is not a number. */
  datatype JsNumber = NaN | Num(value: real)

  /** The amount state: `""` while the input is empty, otherwise `Number(e.target.value)`. */
  datatype AmountField = Empty | Typed(n: JsNumber)

  datatype Fields = Fields(concept: string, amount: AmountField, date: string)

  /** What `onSubmit` receives. */
  datatype Submission = Submission(concept: string, amount: real, date: string)

  /** `new Date(s)` as an instant, `None` for an invalid date. */
  type InstantOf = string -> Option<int>

  const RequiredMessage := "Todos los campos son obligatorios"
  const AmountMessage := "El monto debe ser un número positivo"
  const FutureMessage := "La fecha no puede ser futura"

  /** `setAmount(v === "" ? "" : Number(v))`. */
  function AmountFromInput(v: string, toNumber: string -> JsNumber): (a: AmountField)
    ensures a.Empty? <==> v == ""
    ensures v != "" ==> a == Typed(toNumber(v))
  {
    if v == "" then Empty else Typed(toNumber(v))
  }

  /** Some required field is missing: a concept that is only white space, no amount, or no date. */
  predicate MissingRequired(f: Fields) {
    Text.Blank(f.concept) || f.amount.Empty? || f.date == ""
  }

  /** The amount is a number strictly greater than zero (NaN is not). */
  predicate PositiveAmount(a: AmountField) {
    a.Typed? && a.n.Num? && a.n.value > 0.0
  }

  /** `new Date(date) > new Date()`; an invalid date compares false. */
  predicate InFuture(date: string, now: int, instantOf: InstantOf) {
    match instantOf(date)
    case None => false
    case Some(t) => t > now
  }

  /** `validate`: the message of the first failing rule, or `None` when the form is valid. */
  function ValidationError(f: Fields, now: int, instantOf: InstantOf): (r: Option<string>)
    ensures MissingRequired(f) ==> r == Some(RequiredMessage)
    ensures !MissingRequired(f) && !PositiveAmount(f.amount) ==> r == Some(AmountMessage)
    ensures !MissingRequired(f) && PositiveAmount(f.amount) && InFuture(f.date, now, instantOf) ==> r == Some(FutureMessage)
    ensures r == None <==> !MissingRequired(f) && PositiveAmount(f.amount) && !InFuture(f.date, now, instantOf)
  {
    Text.TrimEmptyIffBlank(f.concept);
    if Text.Trim(f.concept) == "" || f.amount == Empty || f.date == "" then
      Some(RequiredMessage)
    else if f.amount.Empty? || f.amount.n.NaN? || f.amount.n.value <= 0.0 then
      Some(AmountMessage)
    else if InFuture(f.date, now, instantOf) then
      Some(FutureMessage)
    else
      None
  }

  /** The messages are distinct, so the message names the rule that failed. */
  lemma MessagesDistinct()
    ensures RequiredMessage != AmountMessage && AmountMessage != FutureMessage && RequiredMessage != FutureMessage
  {
    assert RequiredMessage[0] != AmountMessage[0];
    assert AmountMessage[0] != FutureMessage[0];
    assert RequiredMessage[0] != FutureMessage[0];
  }

  /** The component's state and its two handlers. */
  class MovementFormState {
    var concept: string
    var amount: AmountField
    var date: string
    var error: string
    var submitting: bool

    function FieldsNow(): Fields
      reads this
    {
      Fields(concept, amount, date)
    }

    /** The initial `useState` values. */
    constructor ()
      ensures concept == "" && amount == Empty && date == "" && error == "" && !submitting
    {
      concept, amount, date, error, submitting := "", Empty, "", "", false;
    }

    /** `validate`: sets `error` to the failing rule's message, or clears it, and reports success. */
    method Validate(now: int, instantOf: InstantOf) returns (ok: bool)
      modifies this`error
      ensures ok == (ValidationError(FieldsNow(), now, instantOf) == None)
      ensures error == ValidationError(FieldsNow(), now, instantOf).GetOr("")
    {
      var r := ValidationError(FieldsNow(), now, instantOf);
      match r {
        case Some(m) =>
          error := m;
          ok := false;
        case None =>
          error := "";
          ok := true;
      }
    }

    /**
     * `handleSubmit`: the submission passed to `onSubmit` (called at most once),
     * or `None` when validation fails; `submitting` is false after a submission
     * and untouched after a rejected one.
     */
    method HandleSubmit(now: int, instantOf: InstantOf) returns (submitted: Option<Submission>)
      modifies this`error, this`submitting
      ensures submitted.Some? <==> ValidationError(FieldsNow(), now, instantOf) == None
      ensures error == ValidationError(FieldsNow(), now, instantOf).GetOr("")
      ensures submitted.Some? ==>
                (amount.Typed? && amount.n.Num? && submitted.value == Submission(Text.Trim(concept), amount.n.value, date))
      ensures submitted.Some? ==> !submitting
      ensures submitted.None? ==> submitting == old(submitting)
    {
      var ok := Validate(now, instantOf);
      if !ok {
        return None;
      }
      submitting := true;
      submitted := Some(Submission(Text.Trim(concept), amount.n.value, date));
      submitting := false;
    }
  }

  /** A submission carries a non-empty concept with no white space at either end, and a positive amount. */
  lemma SubmissionWellFormed(f: Fields, now: int, instantOf: InstantOf)
    requires ValidationError(f, now, instantOf) == None
    ensures var c := Text.Trim(f.concept);
      c != "" && !Text.IsSpace(c[0]) && !Text.IsSpace(c[|c| - 1]) && Text.Trim(c) == c
    ensures f.amount.n.value > 0.0 && f.date != ""
  {
    Text.TrimEmptyIffBlank(f.concept);
    Text.TrimEnds(f.concept);
    Text.TrimIdempotent(f.concept);
  }

  /** The test 'validates amount is positive': amount -100 with a concept and a date is rejected on the amount. */
  lemma NegativeAmountScenario(now: int, instantOf: InstantOf)
    ensures ValidationError(Fields("Test Concept", Typed(Num(-100.0)), "2024-01-15"), now, instantOf) == Some(AmountMessage)
  {
    var f := Fields("Test Concept", Typed(Num(-100.0)), "2024-01-15");
    assert !Text.IsSpace(f.concept[0]);
  }

  /** The rule order: a blank concept is reported as missing even when the amount is also wrong. */
  lemma RequiredBeforeAmount(now: int, instantOf: InstantOf)
    ensures ValidationError(Fields("   ", Typed(Num(-5.0)), "2024-01-15"), now, instantOf) == Some(RequiredMessage)
  {
  }

  /** The test 'submits form with valid data': concept, amount 100 and a past date pass. */
  lemma ValidScenario(now: int, instantOf: InstantOf)
    requires instantOf("2024-01-15").Some? && instantOf("2024-01-15").value <= now
    ensures ValidationError(Fields("Test Concept", Typed(Num(100.0)), "2024-01-15"), now, instantOf) == None
  {
    var f := Fields("Test Concept", Typed(Num(100.0)), "2024-01-15");
    assert !Text.IsSpace(f.concept[0]);
  }
}
