/**
 * The "request your project" form: six text fields, three of them required.
 * A submission only shows a toast and clears the form; nothing is sent.
 */
module RequestForm {
  import opened Ui

  datatype FormData = FormData(
    name: string, email: string, phone: string,
    projectType: string, description: string, budget: string)

  const EmptyForm := FormData("", "", "", "", "", "")

  datatype FieldName = Name | Email | Phone | ProjectType | Description | Budget

  function FieldValue(f: FormData, n: FieldName): string
  {
    match n
    case Name => f.name
    case Email => f.email
    case Phone => f.phone
    case ProjectType => f.projectType
    case Description => f.description
    case Budget => f.budget
  }

  /** `setFormData({ ...formData, n: value })`: one field changes, the others stay. */
  function Set(f: FormData, n: FieldName, value: string): (r: FormData)
    ensures FieldValue(r, n) == value
    ensures forall m :: m != n ==> FieldValue(r, m) == FieldValue(f, m)
  {
    match n
    case Name => f.(name := value)
    case Email => f.(email := value)
    case Phone => f.(phone := value)
    case ProjectType => f.(projectType := value)
    case Description => f.(description := value)
    case Budget => f.(budget := value)
  }

  /** Two forms that agree on every field are the same form. */
  lemma FormExtensional(f: FormData, g: FormData)
    requires forall n :: FieldValue(f, n) == FieldValue(g, n)
    ensures f == g
  {
    assert FieldValue(f, Name) == FieldValue(g, Name) && FieldValue(f, Email) == FieldValue(g, Email) && FieldValue(f, Phone) == FieldValue(g, Phone);
    assert FieldValue(f, ProjectType) == FieldValue(g, ProjectType);
    assert FieldValue(f, Description) == FieldValue(g, Description) && FieldValue(f, Budget) == FieldValue(g, Budget);
  }

  /** Writing back what a field holds changes nothing; a second write wins over the first; writes to two fields commute. */
  lemma SetLaws(f: FormData, n: FieldName, m: FieldName, v: string, w: string)
    ensures Set(f, n, FieldValue(f, n)) == f
    ensures Set(Set(f, n, v), n, w) == Set(f, n, w)
    ensures n != m ==> Set(Set(f, n, v), m, w) == Set(Set(f, m, w), n, v)
  {
    FormExtensional(Set(f, n, FieldValue(f, n)), f);
    FormExtensional(Set(Set(f, n, v), n, w), Set(f, n, w));
    if n != m {
      FormExtensional(Set(Set(f, n, v), m, w), Set(Set(f, m, w), n, v));
    }
  }

  /** The values the project type menu offers. */
  const ProjectTypes: seq<string> := ["fullstack", "deeplearning", "machinelearning", "mobile", "other"]

  /** The fields the form asks for: name, email and project type. */
  predicate HasRequired(f: FormData)
  {
    f.name != "" && f.email != "" && f.projectType != ""
  }

  const MissingFields := "Please fill in all required fields"
  const Submitted := "Request submitted! We'll contact you soon."

  /** `handleSubmit`: the form after the submission and the toast shown. */
  function Submit(f: FormData): (r: (FormData, Toast))
    ensures HasRequired(f) ==> r == (EmptyForm, Success(Submitted))
    ensures !HasRequired(f) ==> r == (f, Failure(MissingFields))
    ensures r.1.destructive <==> !HasRequired(f)
  {
    if f.name == "" || f.email == "" || f.projectType == "" then (f, Failure(MissingFields))
    else (EmptyForm, Success(Submitted))
  }

  /** Any project type from the menu fills that field, so a form refused only for it is accepted once one is picked. */
  lemma MenuChoiceFillsProjectType(f: FormData, i: nat)
    requires i < |ProjectTypes|
    requires f.name != "" && f.email != ""
    ensures !Submit(Set(f, ProjectType, ProjectTypes[i])).1.destructive
  {
  }

  /** The optional fields alone decide nothing: two forms that agree on the required fields are accepted or refused together. */
  lemma OptionalFieldsIgnored(f: FormData, g: FormData)
    requires f.name == g.name && f.email == g.email && f.projectType == g.projectType
    ensures Submit(f).1 == Submit(g).1
  {
  }

  /** A refused form is kept, so submitting it again is refused the same way; an accepted one is cleared, so submitting again is refused. */
  lemma SubmitTwice(f: FormData)
    ensures Submit(Submit(f).0).1 == Failure(MissingFields)
    ensures !HasRequired(f) ==> Submit(Submit(f).0) == Submit(f)
  {
  }
}
