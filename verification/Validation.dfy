/** The checks the fetch button runs before calling `fetchAndFormat`:
    `validateInputs` on the trimmed form fields, then the conversion of the
    dates and the end-before-start check. A field whose element is absent
    reads as `None` (`undefined`); an unchecked or absent "To Present" box
    reads as `false`. Each `showError` call is a returned message. */
module Validation {
  import opened Wrappers
  import opened JsDate

  datatype Inputs = Inputs(
    channelId: Option<string>,
    userToken: Option<string>,
    openrouterToken: Option<string>,
    fromDate: Option<string>,
    toPresent: bool,
    toDate: Option<string>)

  /** The keys of `requiredFields`. */
  datatype Field = ChannelId | UserToken | OpenrouterToken | FromDate

  const RequiredFields: seq<Field> := [ChannelId, UserToken, OpenrouterToken, FromDate]

  function Name(f: Field): string
  {
    match f
    case ChannelId => "channelId"
    case UserToken => "userToken"
    case OpenrouterToken => "openrouterToken"
    case FromDate => "fromDate"
  }

  /** `inputs[field]` */
  function ValueOf(inputs: Inputs, f: Field): Option<string>
  {
    match f
    case ChannelId => inputs.channelId
    case UserToken => inputs.userToken
    case OpenrouterToken => inputs.openrouterToken
    case FromDate => inputs.fromDate
  }

  /** A string value is truthy unless it is `undefined` or empty. */
  predicate Present(v: Option<string>)
  {
    v.Some? && v.value != ""
  }

  function MissingText(f: Field): string
  {
    "Please fill in all required fields (" + Name(f) + " is missing)"
  }

  const EndDateRequired: string := "Please select an end date or check \"To Present\""

  /** The `for…of` loop over the fields: the first one whose value is falsy. */
  function FirstMissing(inputs: Inputs, fields: seq<Field>): Option<Field>
  {
    if fields == [] then None
    else if !Present(ValueOf(inputs, fields[0])) then Some(fields[0])
    else FirstMissing(inputs, fields[1..])
  }

  /** The search finds a field exactly when one is falsy, and then the
      earliest one: every field before it is present. */
  lemma {:induction false} FirstMissingSpec(inputs: Inputs, fields: seq<Field>)
    ensures var r := FirstMissing(inputs, fields);
      && (r.None? <==> forall i | 0 <= i < |fields| :: Present(ValueOf(inputs, fields[i])))
      && (r.Some? ==> exists i | 0 <= i < |fields| ::
            && fields[i] == r.value
            && !Present(ValueOf(inputs, fields[i]))
            && forall j | 0 <= j < i :: Present(ValueOf(inputs, fields[j])))
  {
    if fields != [] && Present(ValueOf(inputs, fields[0])) {
      var rest := fields[1..];
      FirstMissingSpec(inputs, rest);
      var r := FirstMissing(inputs, fields);
      if r.Some? {
        var i :| 0 <= i < |rest| && rest[i] == r.value && !Present(ValueOf(inputs, rest[i]))
                 && forall j | 0 <= j < i :: Present(ValueOf(inputs, rest[j]));
        assert fields[i + 1] == r.value;
        forall j | 0 <= j < i + 1
          ensures Present(ValueOf(inputs, fields[j]))
        {
          if j > 0 {
            assert fields[j] == rest[j - 1];
          }
        }
      } else {
        forall i | 0 <= i < |fields|
          ensures Present(ValueOf(inputs, fields[i]))
        {
          if i > 0 {
            assert fields[i] == rest[i - 1];
          }
        }
      }
    }
  }

  /** What a validation returns and the messages it shows. */
  datatype Verdict = Verdict(valid: bool, shown: seq<string>)

  /** `validateInputs(inputs, uiManager)`: the required fields in order,
      then the end date unless "To Present" is checked. */
  function ValidateInputs(inputs: Inputs): Verdict
  {
    match FirstMissing(inputs, RequiredFields)
    case Some(f) => Verdict(false, [MissingText(f)])
    case None =>
      if !inputs.toPresent && !Present(inputs.toDate) then Verdict(false, [EndDateRequired])
      else Verdict(true, [])
  }

  predicate AllRequired(inputs: Inputs)
  {
    && Present(inputs.channelId) && Present(inputs.userToken)
    && Present(inputs.openrouterToken) && Present(inputs.fromDate)
  }

  /** The inputs pass exactly when the four required fields are truthy and
      either "To Present" is checked or an end date is given; a passing
      validation shows nothing and a failing one exactly one message. */
  lemma ValidateInputsSpec(inputs: Inputs)
    ensures var v := ValidateInputs(inputs);
      && (v.valid <==> AllRequired(inputs) && (inputs.toPresent || Present(inputs.toDate)))
      && (v.valid ==> v.shown == [])
      && (!v.valid ==> |v.shown| == 1)
  {
    FirstMissingSpec(inputs, RequiredFields);
    if AllRequired(inputs) {
      forall i | 0 <= i < |RequiredFields|
        ensures Present(ValueOf(inputs, RequiredFields[i]))
      {
      }
    } else {
      var f: Field :| !Present(ValueOf(inputs, f)) && f in RequiredFields;
    }
  }

  /** A falsy required field is reported by name, the first one in the
      order `channelId`, `userToken`, `openrouterToken`, `fromDate`, before
      the end date is looked at. */
  lemma MissingReported(inputs: Inputs, k: nat)
    requires k < |RequiredFields| && !Present(ValueOf(inputs, RequiredFields[k]))
    requires forall j | 0 <= j < k :: Present(ValueOf(inputs, RequiredFields[j]))
    ensures ValidateInputs(inputs) == Verdict(false, [MissingText(RequiredFields[k])])
  {
    FirstMissingSpec(inputs, RequiredFields);
    var r := FirstMissing(inputs, RequiredFields);
    var i :| 0 <= i < |RequiredFields| && RequiredFields[i] == r.value && !Present(ValueOf(inputs, RequiredFields[i]))
             && forall j | 0 <= j < i :: Present(ValueOf(inputs, RequiredFields[j]));
    assert i == k;
  }

  /** With every required field given, a missing end date is reported
      unless "To Present" is checked. */
  lemma EndDateReported(inputs: Inputs)
    requires AllRequired(inputs) && !inputs.toPresent && !Present(inputs.toDate)
    ensures ValidateInputs(inputs) == Verdict(false, [EndDateRequired])
  {
    FirstMissingSpec(inputs, RequiredFields);
    forall i | 0 <= i < |RequiredFields|
      ensures Present(ValueOf(inputs, RequiredFields[i]))
    {
    }
  }

  /* ---------- the date range ---------- */

  const EndBeforeStart: string := "End date must be after start date"

  /** `Number(d)` for what `localStringToUTC` returns: `null` converts to 0,
      a date to its time value. */
  function AsNumber(d: Option<TimeValue>): int
  {
    if d.Some? then d.value else 0
  }

  /** The dates the fetch passes on: the start converted, and no end date
      when "To Present" is checked. `convert` is `localStringToUTC`, which
      gives `null` or a valid date. */
  function Dates(inputs: Inputs, convert: string -> Option<TimeValue>): (Option<TimeValue>, Option<TimeValue>)
  {
    (convert(OrEmpty(inputs.fromDate)), if inputs.toPresent then None else convert(OrEmpty(inputs.toDate)))
  }

  function OrEmpty(v: Option<string>): string
  {
    if v.Some? then v.value else ""
  }

  /** `!inputs.toPresent && toDate < fromDate`, the relational comparison
      of the two converted values. */
  function RangeCheck(toPresent: bool, fromDate: Option<TimeValue>, toDate: Option<TimeValue>): Option<string>
  {
    if !toPresent && AsNumber(toDate) < AsNumber(fromDate) then Some(EndBeforeStart) else None
  }

  /** With "To Present" checked nothing is rejected; for two dates the
      range is rejected exactly when the end lies strictly before the
      start, so equal dates pass. */
  lemma RangeCheckSpec(toPresent: bool, fromDate: Option<TimeValue>, toDate: Option<TimeValue>)
    ensures toPresent ==> RangeCheck(toPresent, fromDate, toDate).None?
    ensures !toPresent && fromDate.Some? && toDate.Some? ==>
      (RangeCheck(toPresent, fromDate, toDate) == Some(EndBeforeStart) <==> toDate.value < fromDate.value)
  {
  }

  /** What the fetch button does before `fetchAndFormat`: the message it
      shows, or the start and end dates it passes on. */
  function Precheck(inputs: Inputs, convert: string -> Option<TimeValue>): Result<(Option<TimeValue>, Option<TimeValue>), string>
  {
    var v := ValidateInputs(inputs);
    if !v.valid then Err(v.shown[0])
    else
      var (fromDate, toDate) := Dates(inputs, convert);
      match RangeCheck(inputs.toPresent, fromDate, toDate)
      case Some(message) => Err(message)
      case None => Ok((fromDate, toDate))
  }

  /** The fetch goes ahead only with valid inputs and an end date that is
      not before the start; "To Present" sends no end date. */
  lemma PrecheckSpec(inputs: Inputs, convert: string -> Option<TimeValue>)
    ensures var p := Precheck(inputs, convert);
      && (p.Ok? <==> ValidateInputs(inputs).valid && RangeCheck(inputs.toPresent, Dates(inputs, convert).0, Dates(inputs, convert).1).None?)
      && (p.Ok? ==>
            && AllRequired(inputs)
            && p.value.0 == convert(inputs.fromDate.value)
            && (inputs.toPresent ==> p.value.1.None?)
            && (!inputs.toPresent ==>
                  && p.value.1 == convert(inputs.toDate.value)
                  && (p.value.0.Some? && p.value.1.Some? ==> p.value.0.value <= p.value.1.value)))
      && (p.Err? ==> p.error in {MissingText(ChannelId), MissingText(UserToken), MissingText(OpenrouterToken),
                                 MissingText(FromDate), EndDateRequired, EndBeforeStart})
  {
    ValidateInputsSpec(inputs);
  }
}
