/**
 * Toasts, the one kind of feedback the components give. The dialog toast
 * (`useToast`) has a title, a description and a variant; the `sonner`
 * toasts (`toast.success`, `toast.error`) have a message only, kept here as
 * the title with an empty description.
 */
module Ui {
  datatype Toast = Toast(title: string, description: string, destructive: bool)

  /** `toast.success(message)`. */
  function Success(message: string): Toast
  {
    Toast(message, "", false)
  }

  /** `toast.error(message)`. */
  function Failure(message: string): Toast
  {
    Toast(message, "", true)
  }

  /** What a database insert resolves to: no error, or an `error`. */
  datatype InsertOutcome = Inserted | InsertFailed
}
