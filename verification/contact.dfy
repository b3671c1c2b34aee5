/**
 * The contact form: name, email and message, all required. A submission
 * only shows a toast and clears the form; nothing is sent.
 */
module Contact {
  import opened Ui

  datatype FormData = FormData(name: string, email: string, message: string)

  const EmptyForm := FormData("", "", "")

  datatype FieldName = Name | Email | Message

  function FieldValue(f: FormData, n: FieldName): string
  {
    match n
    case Name => f.name
    case Email => f.email
    case Message => f.message
  }

  /** `setFormData({ ...formData, n: value })`: one field changes, the others stay. */
  function Set(f: FormData, n: FieldName, value: string): (r: FormData)
    ensures FieldValue(r, n) == value
    ensures forall m :: m != n ==> FieldValue(r, m) == FieldValue(f, m)
  {
    match n
    case Name => f.(name := value)
    case Email => f.(email := value)
    case Message => f.(message := value)
  }

  /** Two forms that agree on every field are the same form. */
  lemma FormExtensional(f: FormData, g: FormData)
    requires forall n :: FieldValue(f, n) == FieldValue(g, n)
    ensures f == g
  {
    assert FieldValue(f, Name) == FieldValue(g, Name) && FieldValue(f, Email) == FieldValue(g, Email) && FieldValue(f, Message) == FieldValue(g, Message);
  }

  /** Writing back what a field holds changes nothing; a second write wins over the first; writes to two fields commute. */
  lemma SetLaws(f: FormData, n: FieldName, m: FieldName, v: string, w: string)
    ensures Set(f, n, FieldValue(f, n)) == f
    ensures Set(Set(f, n, v), n, w) == Set(f, n, w)
    ensures n != m ==> Set(Set(f, n, v), m, w) == Set(Set(f, m, w), n, v)
  {
    FormExtensional(Set(f, n, FieldValue(f, n)), f);
    FormExtensional(Set(Set(f, n, v), n, w), Set(f, n, w));
    if n != m {
      FormExtensional(Set(Set(f, n, v), m, w), Set(Set(f, m, w), n, v));
    }
  }

  /** Every field is filled in; a value of spaces only counts as filled in. */
  predicate Complete(f: FormData)
  {
    forall n :: FieldValue(f, n) != ""
  }

  const MissingFields := "Please fill in all fields"
  const Sent := "Message sent! We'll get back to you soon."

  /** `handleSubmit`: the form after the submission and the toast shown. */
  function Submit(f: FormData): (r: (FormData, Toast))
    ensures Complete(f) ==> r == (EmptyForm, Success(Sent))
    ensures !Complete(f) ==> r == (f, Failure(MissingFields))
  {
    if f.name == "" || f.email == "" || f.message == "" then
      assert FieldValue(f, Name) == "" || FieldValue(f, Email) == "" || FieldValue(f, Message) == "";
      (f, Failure(MissingFields))
    else (EmptyForm, Success(Sent))
  }

  /** Filling in the one empty field of a form turns a refusal into an acceptance. */
  lemma FillingLastField(f: FormData, n: FieldName, value: string)
    requires forall m :: m != n ==> FieldValue(f, m) != ""
    requires value != ""
    ensures Submit(Set(f, n, value)) == (EmptyForm, Success(Sent))
  {
    assert Complete(Set(f, n, value));
  }

  /** Emptying any field of a form makes it refused, and the refused form is kept as it was. */
  lemma EmptyingAnyField(f: FormData, n: FieldName)
    ensures Submit(Set(f, n, "")) == (Set(f, n, ""), Failure(MissingFields))
  {
  }
}
