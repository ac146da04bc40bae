/** The admin staff-edit form: the copy-and-update of the form data on each
    input event (with `experience` parsed from number inputs), and the
    submit handler's `isSubmitting` / `error` steps around the PATCH
    request, whose outcome is an input. */
module StaffEdit {
  import opened JsString

  /** A form field's value: `undefined`, the raw text of an input, or the
      number `parseInt` made of it. */
  datatype FieldValue = Undefined | Str(text: string) | Num(number: Number)

  /** `formData`: the properties are named by the inputs' `name` attributes. */
  type FormData = map<string, FieldValue>

  const Experience := "experience"

  /** The value `handleChange` stores for an input named `name` of type
      `inputType` holding `value`. */
  function ChangedValue(name: string, value: string, inputType: string): FieldValue {
    if name == Experience && inputType == "number" then
      if value == "" then Undefined else Num(ParseInt(value))
    else Str(value)
  }

  /** `handleChange`: `{ ...formData, [name]: … }`. */
  function HandleChange(form: FormData, name: string, value: string, inputType: string): (r: FormData)
    ensures r.Keys == form.Keys + {name}
    ensures forall k :: k in form && k != name ==> r[k] == form[k]
    ensures name == Experience && inputType == "number" && value == "" ==> r[name] == Undefined
    ensures name == Experience && inputType == "number" && value != "" && AllDigits(value)
            ==> r[name] == Num(Int(DigitsValue(value)))
    ensures name != Experience || inputType != "number" ==> r[name] == Str(value)
  {
    form[name := ChangedValue(name, value, inputType)]
  }

  /** What the experience input displays:
      `formData.experience === undefined ? "" : formData.experience`,
      with a number turned into its decimal text. */
  function ExperienceText(form: FormData): string {
    if Experience !in form then ""
    else match form[Experience]
      case Undefined => ""
      case Str(text) => text
      case Num(Int(n)) => if n >= 0 then DecimalString(n) else "-" + DecimalString(-n)
      case Num(NaN) => "NaN"
  }

  /** Re-entering the displayed experience in the number input leaves the
      form as it was, whenever the field holds undefined or an integer. */
  lemma RedisplayedExperienceUnchanged(form: FormData)
    requires Experience in form
    requires form[Experience] == Undefined || (form[Experience].Num? && form[Experience].number.Int?)
    ensures HandleChange(form, Experience, ExperienceText(form), "number") == form
  {
    if form[Experience].Num? {
      var n := form[Experience].number.value;
      if n >= 0 {
        ParseIntDecimal(n);
      } else {
        ParseIntDecimal(-n);
      }
    }
  }

  /** A number input holding a decimal such as "3.5" stores its integer part. */
  lemma DecimalExperienceTruncated(form: FormData, whole: string, fraction: string)
    requires whole != [] && AllDigits(whole)
    requires AllDigits(fraction)
    ensures HandleChange(form, Experience, whole + "." + fraction, "number")[Experience]
            == Num(Int(DigitsValue(whole)))
  {
    assert whole + "." + fraction == whole + ("." + fraction);
    ParseIntStopsAtNonDigit(whole, "." + fraction);
  }

  // ---------------------------------------------------------------------
  // handleSubmit
  // ---------------------------------------------------------------------

  /** How the PATCH request settles: a decoded response (its `ok` flag and
      the body's `error` text), or an exception (network failure or a body
      that is not JSON). */
  datatype SubmitOutcome = Responded(ok: bool, errorText: Option<string>) | Threw

  /** The component's three hooks. */
  datatype FormState = FormState(formData: FormData, isSubmitting: bool, error: string)

  const DefaultFailure := "Failed to update staff information"
  const ThrownFailure := "An error occurred while updating"

  /** `initialData = {}` and `useState({ ...initialData })`. */
  function InitialState(initialData: Option<FormData>): (s: FormState)
    ensures !s.isSubmitting && s.error == ""
    ensures initialData.Some? ==> s.formData == initialData.value
    ensures initialData.None? ==> s.formData == map[]
  {
    FormState(if initialData.Some? then initialData.value else map[], false, "")
  }

  /** Before the request: `setIsSubmitting(true)` and `setError("")`. */
  function BeginSubmit(s: FormState): FormState {
    s.(isSubmitting := true, error := "")
  }

  /** The `try` / `catch` / `finally` after the request. */
  function SettleSubmit(s: FormState, o: SubmitOutcome): FormState {
    var error :=
      match o
      case Responded(ok, errorText) =>
        if ok then s.error else if Present(errorText) then errorText.value else DefaultFailure
      case Threw => ThrownFailure;
    s.(error := error, isSubmitting := false)
  }

  /** `onSuccess && onSuccess()` runs only on an ok response. */
  predicate CallsOnSuccess(o: SubmitOutcome, hasOnSuccess: bool) {
    o.Responded? && o.ok && hasOnSuccess
  }

  /** A whole submit: the form data is untouched, `isSubmitting` is false
      again whatever the outcome, and the error box (shown when `error` is
      non-empty) appears exactly when the update did not succeed. */
  lemma SubmitRoundTrip(s: FormState, o: SubmitOutcome)
    ensures BeginSubmit(s).isSubmitting && BeginSubmit(s).error == ""
    ensures SettleSubmit(BeginSubmit(s), o).formData == s.formData
    ensures !SettleSubmit(BeginSubmit(s), o).isSubmitting
    ensures SettleSubmit(BeginSubmit(s), o).error == "" <==> o.Responded? && o.ok
  {
  }

  /** The message shown after a failed submit. */
  lemma SubmitErrorMessage(s: FormState, o: SubmitOutcome)
    ensures o.Responded? && !o.ok && Present(o.errorText) ==>
            SettleSubmit(BeginSubmit(s), o).error == o.errorText.value
    ensures o.Responded? && !o.ok && !Present(o.errorText) ==>
            SettleSubmit(BeginSubmit(s), o).error == DefaultFailure
    ensures o.Threw? ==> SettleSubmit(BeginSubmit(s), o).error == ThrownFailure
  {
  }

  /** The form component. */
  class StaffEditForm {
    const staffId: string
    var formData: FormData
    var isSubmitting: bool
    var error: string

    function State(): FormState
      reads this
    {
      FormState(formData, isSubmitting, error)
    }

    constructor (id: string, initialData: Option<FormData>)
      ensures staffId == id
      ensures State() == InitialState(initialData)
    {
      staffId := id;
      formData := if initialData.Some? then initialData.value else map[];
      isSubmitting := false;
      error := "";
    }

    /** An input's change event. */
    method OnChange(name: string, value: string, inputType: string)
      modifies this
      ensures formData == HandleChange(old(formData), name, value, inputType)
      ensures isSubmitting == old(isSubmitting) && error == old(error)
    {
      if name == Experience && inputType == "number" {
        formData := formData[name := if value == "" then Undefined else Num(ParseInt(value))];
      } else {
        formData := formData[name := Str(value)];
      }
    }

    /** The form's submit event, up to the request it sends. */
    method SubmitStarted() returns (endpoint: string, body: FormData)
      modifies this
      ensures State() == BeginSubmit(old(State()))
      ensures endpoint == "/api/admin/staff/" + staffId && body == formData
    {
      isSubmitting := true;
      error := "";
      endpoint := "/api/admin/staff/" + staffId;
      body := formData;
    }

    /** The request settles; reports whether `onSuccess` was called. */
    method SubmitSettled(o: SubmitOutcome, hasOnSuccess: bool) returns (onSuccessCalled: bool)
      modifies this
      ensures State() == SettleSubmit(old(State()), o)
      ensures onSuccessCalled == CallsOnSuccess(o, hasOnSuccess)
    {
      onSuccessCalled := false;
      match o {
        case Responded(ok, errorText) =>
          if ok {
            onSuccessCalled := hasOnSuccess;
          } else {
            error := if Present(errorText) then errorText.value else DefaultFailure;
          }
        case Threw =>
          error := ThrownFailure;
      }
      isSubmitting := false;
    }
  }
}
