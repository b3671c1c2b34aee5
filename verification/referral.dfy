/**
 * The referral form: six fields checked by a schema that trims every value
 * before checking it, then one row inserted into `referrals`. The email
 * pattern is a parameter; the insert's result is a parameter.
 */
module Referral {
  import opened Json
  import opened Js
  import opened Ui

  datatype Values = Values(
    referrerName: string, referrerEmail: string,
    referredName: string, referredEmail: string,
    referredPhone: string, message: string)

  const Defaults := Values("", "", "", "", "", "")

  datatype FieldName = ReferrerName | ReferrerEmail | ReferredName | ReferredEmail | ReferredPhone | Message

  /** The schema's fields, in the order it declares them. */
  const Fields: seq<FieldName> := [ReferrerName, ReferrerEmail, ReferredName, ReferredEmail, ReferredPhone, Message]

  lemma EveryField(n: FieldName)
    ensures n in Fields
  {
    match n
    case ReferrerName => assert Fields[0] == n;
    case ReferrerEmail => assert Fields[1] == n;
    case ReferredName => assert Fields[2] == n;
    case ReferredEmail => assert Fields[3] == n;
    case ReferredPhone => assert Fields[4] == n;
    case Message => assert Fields[5] == n;
  }

  function FieldValue(v: Values, n: FieldName): string
  {
    match n
    case ReferrerName => v.referrerName
    case ReferrerEmail => v.referrerEmail
    case ReferredName => v.referredName
    case ReferredEmail => v.referredEmail
    case ReferredPhone => v.referredPhone
    case Message => v.message
  }

  /** The longest value, in UTF-16 code units, each field accepts. */
  function MaxLength(n: FieldName): nat
  {
    match n
    case ReferrerName => 100
    case ReferredName => 100
    case ReferrerEmail => 255
    case ReferredEmail => 255
    case ReferredPhone => 20
    case Message => 500
  }

  predicate IsName(n: FieldName) { n == ReferrerName || n == ReferredName }
  predicate IsEmailField(n: FieldName) { n == ReferrerEmail || n == ReferredEmail }

  const InvalidEmail := "Invalid email address"

  function Required(n: FieldName): string
  {
    if n == ReferrerName then "Your name is required" else "Friend's name is required"
  }

  /** The schema library's default message for a `max` check. */
  function TooLong(limit: nat): string
  {
    "String must contain at most " + NatToString(limit) + " character(s)"
  }

  /**
   * The message of the first check a field fails, run on the trimmed value:
   * `min(1)` then `max` for a name, the email pattern then `max` for an
   * email, `max` alone for the phone and the message. The phone and the
   * message also accept the literal "", which already passes `max`.
   */
  function FieldError(n: FieldName, raw: string, isEmail: string -> bool): (r: Option<string>)
    ensures r.None? <==>
      (IsName(n) ==> Utf16Length(Trim(raw)) >= 1)
      && (IsEmailField(n) ==> isEmail(Trim(raw)))
      && Utf16Length(Trim(raw)) <= MaxLength(n)
  {
    var t := Trim(raw);
    var length := Utf16Length(t);
    if IsName(n) && length < 1 then Some(Required(n))
    else if IsEmailField(n) && !isEmail(t) then Some(InvalidEmail)
    else if length > MaxLength(n) then Some(TooLong(MaxLength(n)))
    else None
  }

  /** The field `n` of `v` passes its checks. */
  predicate Passes(n: FieldName, v: Values, isEmail: string -> bool)
  {
    FieldError(n, FieldValue(v, n), isEmail).None?
  }

  /** The failing fields among `names`, each with its message, in order: every failing field and nothing else. */
  function ErrorsOf(names: seq<FieldName>, v: Values, isEmail: string -> bool): (r: seq<(FieldName, string)>)
    ensures r == [] <==> forall i :: 0 <= i < |names| ==> Passes(names[i], v, isEmail)
    ensures forall e :: e in r ==> e.0 in names && FieldError(e.0, FieldValue(v, e.0), isEmail) == Some(e.1)
    ensures forall i :: 0 <= i < |names| && !Passes(names[i], v, isEmail) ==>
      (names[i], FieldError(names[i], FieldValue(v, names[i]), isEmail).value) in r
  {
    if names == [] then []
    else
      var rest := ErrorsOf(names[1..], v, isEmail);
      assert forall i :: 1 <= i < |names| ==> names[i] == names[1..][i - 1];
      match FieldError(names[0], FieldValue(v, names[0]), isEmail)
      case Some(m) => [(names[0], m)] + rest
      case None => rest
  }

  /** What the schema gives: the values it outputs, or the failing fields. */
  datatype Validation = Valid(out: Values) | Invalid(errors: seq<(FieldName, string)>)

  function TrimAll(v: Values): Values
  {
    Values(Trim(v.referrerName), Trim(v.referrerEmail), Trim(v.referredName), Trim(v.referredEmail),
      Trim(v.referredPhone), Trim(v.message))
  }

  /** Every field passes its checks. */
  predicate AllPass(v: Values, isEmail: string -> bool)
  {
    forall n :: Passes(n, v, isEmail)
  }

  function Validate(v: Values, isEmail: string -> bool): (r: Validation)
    ensures r.Valid? <==> AllPass(v, isEmail)
    ensures r.Valid? ==> r.out == TrimAll(v)
    ensures r.Invalid? ==> r.errors == ErrorsOf(Fields, v, isEmail) && r.errors != []
  {
    var errors := ErrorsOf(Fields, v, isEmail);
    if errors == [] then
      forall n ensures Passes(n, v, isEmail) {
        EveryField(n);
        var i :| 0 <= i < |Fields| && Fields[i] == n;
      }
      Valid(TrimAll(v))
    else
      assert errors[0] in errors;
      assert !Passes(errors[0].0, v, isEmail);
      Invalid(errors)
  }

  /** Every field of `TrimAll(v)` is the trimmed field of `v`. */
  lemma FieldValueOfTrimAll(v: Values, n: FieldName)
    ensures FieldValue(TrimAll(v), n) == Trim(FieldValue(v, n))
  {
  }

  /** What the schema lets through for field `n`: trimmed, within bounds, a name non-empty, an email well-formed. */
  predicate Acceptable(n: FieldName, t: string, isEmail: string -> bool)
  {
    (t == [] || (!IsJsSpace(t[0]) && !IsJsSpace(t[|t| - 1])))
    && Utf16Length(t) <= MaxLength(n)
    && (IsName(n) ==> t != [])
    && (IsEmailField(n) ==> isEmail(t))
  }

  /** A value that passes a field's checks, trimmed, is acceptable for the field. */
  lemma PassingField(n: FieldName, raw: string, isEmail: string -> bool)
    requires FieldError(n, raw, isEmail).None?
    ensures Acceptable(n, Trim(raw), isEmail)
  {
  }

  /** What the schema outputs is each field trimmed, and acceptable for its field. */
  lemma ValidOutput(v: Values, isEmail: string -> bool, n: FieldName)
    requires Validate(v, isEmail).Valid?
    ensures FieldValue(Validate(v, isEmail).out, n) == Trim(FieldValue(v, n))
    ensures Acceptable(n, FieldValue(Validate(v, isEmail).out, n), isEmail)
  {
    assert Passes(n, v, isEmail);
    PassingField(n, FieldValue(v, n), isEmail);
    FieldValueOfTrimAll(v, n);
  }

  /** Trimming a field twice is trimming it once, so a passing field passes again once trimmed. */
  lemma PassingFieldTrimmed(n: FieldName, raw: string, isEmail: string -> bool)
    requires FieldError(n, raw, isEmail).None?
    ensures FieldError(n, Trim(raw), isEmail).None?
  {
    TrimIdempotent(raw);
  }

  /** `TrimAll` is idempotent. */
  lemma TrimAllIdempotent(v: Values)
    ensures TrimAll(TrimAll(v)) == TrimAll(v)
  {
    TrimIdempotent(v.referrerName);
    TrimIdempotent(v.referrerEmail);
    TrimIdempotent(v.referredName);
    TrimIdempotent(v.referredEmail);
    TrimIdempotent(v.referredPhone);
    TrimIdempotent(v.message);
  }

  /** Values the schema put out pass it again unchanged. */
  lemma ValidateIdempotent(v: Values, isEmail: string -> bool)
    requires Validate(v, isEmail).Valid?
    ensures Validate(Validate(v, isEmail).out, isEmail) == Validate(v, isEmail)
  {
    var out := TrimAll(v);
    forall n ensures Passes(n, out, isEmail) {
      assert Passes(n, v, isEmail);
      PassingFieldTrimmed(n, FieldValue(v, n), isEmail);
      FieldValueOfTrimAll(v, n);
    }
    TrimAllIdempotent(v);
  }

  /** A row of `referrals`; `None` is SQL null. */
  datatype Row = Row(
    referrerName: string, referrerEmail: string,
    referredName: string, referredEmail: string,
    referredPhone: Option<string>, message: Option<string>)

  /** The row for the schema's output: an empty phone or message becomes null. */
  function RowOf(out: Values): (r: Row)
    ensures r.referredPhone.None? <==> out.referredPhone == ""
    ensures r.message.None? <==> out.message == ""
    ensures r.referrerName == out.referrerName && r.referrerEmail == out.referrerEmail
    ensures r.referredName == out.referredName && r.referredEmail == out.referredEmail
    ensures r.referredPhone.Some? ==> r.referredPhone.value == out.referredPhone
    ensures r.message.Some? ==> r.message.value == out.message
  {
    Row(out.referrerName, out.referrerEmail, out.referredName, out.referredEmail,
      OrNull(out.referredPhone), OrNull(out.message))
  }

  /** A phone made only of spaces is stored as null, and so is a message made only of spaces. */
  lemma BlankOptionalsAreNull(v: Values, isEmail: string -> bool)
    requires Validate(v, isEmail).Valid?
    ensures var row := RowOf(Validate(v, isEmail).out);
      (row.referredPhone.None? <==> AllSpace(v.referredPhone))
      && (row.message.None? <==> AllSpace(v.message))
  {
    TrimEmpty(v.referredPhone);
    TrimEmpty(v.message);
  }

  /** The form: its current values and whether a submission runs. */
  datatype Form = Form(values: Values, isSubmitting: bool)

  const Thanks := "Referral submitted successfully! Thank you for spreading the word."
  const Failed := "Failed to submit referral. Please try again."

  /** One submission: the form after it, the toast, the errors shown, and the row sent, if any. */
  datatype Submission = Submission(form: Form, toast: Option<Toast>, errors: seq<(FieldName, string)>, row: Option<Row>)

  /**
   * A submit: the schema runs first and, when it fails, `onSubmit` is not
   * called. Otherwise the row is inserted; `form.reset()` restores the
   * defaults on success, a failure keeps what was typed, and `finally`
   * clears the busy flag.
   */
  function Submit(f: Form, isEmail: string -> bool, outcome: InsertOutcome): (r: Submission)
    ensures r.row.Some? <==> Validate(f.values, isEmail).Valid?
    ensures r.row.None? ==> r == Submission(f, None, Validate(f.values, isEmail).errors, None)
    ensures r.row.Some? ==> r.row.value == RowOf(TrimAll(f.values)) && !r.form.isSubmitting && r.errors == []
    ensures r.row.Some? && outcome.Inserted? ==> r.form.values == Defaults && r.toast == Some(Success(Thanks))
    ensures r.row.Some? && outcome.InsertFailed? ==> r.form.values == f.values && r.toast == Some(Failure(Failed))
  {
    match Validate(f.values, isEmail)
    case Invalid(errors) => Submission(f, None, errors, None)
    case Valid(out) =>
      var row := RowOf(out);
      match outcome
      case Inserted => Submission(Form(Defaults, false), Some(Success(Thanks)), [], Some(row))
      case InsertFailed => Submission(Form(f.values, false), Some(Failure(Failed)), [], Some(row))
  }

  /** The defaults do not pass: both names are required. */
  lemma DefaultsRefused(isEmail: string -> bool)
    ensures Validate(Defaults, isEmail).Invalid?
    ensures (ReferrerName, "Your name is required") in Validate(Defaults, isEmail).errors
  {
    assert FieldError(ReferrerName, "", isEmail) == Some("Your name is required");
    var errors := ErrorsOf(Fields, Defaults, isEmail);
    assert (ReferrerName, "Your name is required") in errors;
  }
}
