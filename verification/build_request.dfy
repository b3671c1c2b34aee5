/**
 * The "get this project built" dialog: a lead form whose submission inserts
 * one row into `project_build_requests`. The dialog's props carry the
 * project and, optionally, the visitor's skill level, interest and
 * department. The insert's result is a parameter.
 */
module BuildRequest {
  import opened Js
  import opened Ui

  datatype FormData = FormData(
    name: string, email: string, phone: string,
    additionalRequirements: string, budgetRange: string, timeline: string)

  const EmptyForm := FormData("", "", "", "", "", "")

  datatype FieldName = Name | Email | Phone | AdditionalRequirements | BudgetRange | Timeline

  function FieldValue(f: FormData, n: FieldName): string
  {
    match n
    case Name => f.name
    case Email => f.email
    case Phone => f.phone
    case AdditionalRequirements => f.additionalRequirements
    case BudgetRange => f.budgetRange
    case Timeline => f.timeline
  }

  /** `setFormData({ ...formData, n: value })`: one field changes, the others stay. */
  function Set(f: FormData, n: FieldName, value: string): (r: FormData)
    ensures FieldValue(r, n) == value
    ensures forall m :: m != n ==> FieldValue(r, m) == FieldValue(f, m)
  {
    match n
    case Name => f.(name := value)
    case Email => f.(email := value)
    case Phone => f.(phone := value)
    case AdditionalRequirements => f.(additionalRequirements := value)
    case BudgetRange => f.(budgetRange := value)
    case Timeline => f.(timeline := value)
  }

  /** Two forms that agree on every field are the same form. */
  lemma FormExtensional(f: FormData, g: FormData)
    requires forall n :: FieldValue(f, n) == FieldValue(g, n)
    ensures f == g
  {
    assert FieldValue(f, Name) == FieldValue(g, Name) && FieldValue(f, Email) == FieldValue(g, Email) && FieldValue(f, Phone) == FieldValue(g, Phone);
    assert FieldValue(f, AdditionalRequirements) == FieldValue(g, AdditionalRequirements);
    assert FieldValue(f, BudgetRange) == FieldValue(g, BudgetRange) && FieldValue(f, Timeline) == FieldValue(g, Timeline);
  }

  /** Writing back what a field holds changes nothing; a second write wins over the first. */
  lemma SetLaws(f: FormData, n: FieldName, v: string, w: string)
    ensures Set(f, n, FieldValue(f, n)) == f
    ensures Set(Set(f, n, v), n, w) == Set(f, n, w)
  {
    FormExtensional(Set(f, n, FieldValue(f, n)), f);
    FormExtensional(Set(Set(f, n, v), n, w), Set(f, n, w));
  }

  /** The values the budget and timeline menus offer. */
  const BudgetRanges: seq<string> := ["under-1000", "1000-5000", "5000-10000", "10000-25000", "25000-plus", "flexible"]
  const Timelines: seq<string> := ["urgent", "normal", "flexible", "long-term"]

  /** The dialog's props; the three optional ones may be absent. */
  datatype Props = Props(
    projectTitle: string, projectDescription: string,
    skillLevel: Option<string>, interest: Option<string>, department: Option<string>)

  /** A row of `project_build_requests`; `None` is SQL null. */
  datatype Row = Row(
    name: string, email: string, phone: Option<string>,
    projectTitle: string, projectDescription: string,
    skillLevel: Option<string>, interest: Option<string>, department: Option<string>,
    additionalRequirements: Option<string>, budgetRange: Option<string>, timeline: Option<string>)

  /** `!formData.name || !formData.email` refuses the form. */
  predicate HasRequired(f: FormData)
  {
    f.name != "" && f.email != ""
  }

  /** The row inserted for a form and the dialog's props: every empty optional text becomes null. */
  function BuildRow(f: FormData, p: Props): (r: Row)
    ensures r.name == f.name && r.email == f.email
    ensures r.projectTitle == p.projectTitle && r.projectDescription == p.projectDescription
    ensures r.phone == OrNull(f.phone)
    ensures r.additionalRequirements == OrNull(f.additionalRequirements)
    ensures r.budgetRange == OrNull(f.budgetRange) && r.timeline == OrNull(f.timeline)
    ensures r.skillLevel == OptionalOrNull(p.skillLevel) && r.interest == OptionalOrNull(p.interest)
    ensures r.department == OptionalOrNull(p.department)
  {
    Row(f.name, f.email, OrNull(f.phone), p.projectTitle, p.projectDescription,
      OptionalOrNull(p.skillLevel), OptionalOrNull(p.interest), OptionalOrNull(p.department),
      OrNull(f.additionalRequirements), OrNull(f.budgetRange), OrNull(f.timeline))
  }

  /** Null read back as the empty string. */
  function OrEmpty(s: Option<string>): string
  {
    if s.None? then "" else s.value
  }

  /** The form a row was built from: the row loses nothing the form held. */
  function FormOfRow(r: Row): FormData
  {
    FormData(r.name, r.email, OrEmpty(r.phone), OrEmpty(r.additionalRequirements), OrEmpty(r.budgetRange), OrEmpty(r.timeline))
  }

  lemma FormOfBuildRow(f: FormData, p: Props)
    ensures FormOfRow(BuildRow(f, p)) == f
  {
  }

  /** No optional column of a row holds the empty string. */
  lemma NoEmptyColumns(f: FormData, p: Props)
    ensures var r := BuildRow(f, p);
      r.phone != Some("") && r.additionalRequirements != Some("") && r.budgetRange != Some("")
      && r.timeline != Some("") && r.skillLevel != Some("") && r.interest != Some("") && r.department != Some("")
  {
  }

  /** A budget and a timeline picked from the menus are stored as picked, never as null. */
  lemma MenuChoicesStored(f: FormData, p: Props, i: nat, j: nat)
    requires i < |BudgetRanges| && j < |Timelines|
    ensures var r := BuildRow(Set(Set(f, BudgetRange, BudgetRanges[i]), Timeline, Timelines[j]), p);
      r.budgetRange == Some(BudgetRanges[i]) && r.timeline == Some(Timelines[j])
  {
  }

  /** The dialog: whether the parent shows it, whether a submission runs, and the form. */
  datatype Dialog = Dialog(open: bool, isSubmitting: bool, form: FormData)

  const MissingInformation := Toast("Missing Information", "Please fill in all required fields.", true)
  const Submitted := Toast("Request Submitted!", "We'll get back to you soon with a quote for your project.", false)
  const SubmitFailed := Toast("Error", "Failed to submit your request. Please try again.", true)

  /** One submission: the dialog after it, the toast shown, and the row sent, if any. */
  datatype Submission = Submission(dialog: Dialog, toast: Toast, row: Option<Row>)

  /**
   * `handleSubmit`, with the insert's result given. On success the form is
   * cleared and `onOpenChange(false)` closes the dialog; on failure the form
   * and the dialog stay as they were; `finally` clears the busy flag.
   */
  function Submit(d: Dialog, p: Props, outcome: InsertOutcome): (r: Submission)
    ensures r.row.Some? <==> HasRequired(d.form)
    ensures r.row.None? ==> r == Submission(d, MissingInformation, None)
    ensures r.row.Some? ==> r.row.value == BuildRow(d.form, p) && !r.dialog.isSubmitting
    ensures r.row.Some? && outcome.Inserted? ==> r.dialog.form == EmptyForm && !r.dialog.open && r.toast == Submitted
    ensures r.row.Some? && outcome.InsertFailed? ==> r.dialog == d.(isSubmitting := false) && r.toast == SubmitFailed
  {
    if !HasRequired(d.form) then Submission(d, MissingInformation, None)
    else
      var row := BuildRow(d.form, p);
      match outcome
      case Inserted => Submission(Dialog(false, false, EmptyForm), Submitted, Some(row))
      case InsertFailed => Submission(d.(isSubmitting := false), SubmitFailed, Some(row))
  }

  /** A failed submission can be retried as it stands: it sends the same row again. */
  lemma RetrySendsSameRow(d: Dialog, p: Props, first: InsertOutcome, second: InsertOutcome)
    requires HasRequired(d.form) && first.InsertFailed?
    ensures Submit(Submit(d, p, first).dialog, p, second).row == Submit(d, p, first).row
  {
  }

  /** After a success, submitting again is refused until the required fields are filled in again. */
  lemma ClearedFormRefused(d: Dialog, p: Props, outcome: InsertOutcome)
    requires HasRequired(d.form) && outcome.Inserted?
    ensures Submit(Submit(d, p, outcome).dialog, p, outcome).row.None?
  {
  }
}
