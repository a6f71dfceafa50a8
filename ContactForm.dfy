/**
 The contact form of the details section: three text inputs held in one record,
 updated one input at a time, and a submit handler that checks the two required
 inputs, reports the outcome as a toast and clears the form on success.
 */
module ContactForm {

  /** The `name` attributes of the three inputs. */
  datatype Field = FullName | Email | Company

  datatype FormData = FormData(fullName: string, email: string, company: string)

  /** The notification a submit shows: `toast.error` or `toast.success`. */
  datatype Toast = ErrorToast(message: string) | SuccessToast(message: string)

  const EmptyForm: FormData := FormData("", "", "")
  const MissingFieldsMessage: string := "Please fill in all required fields"
  const SubmittedMessage: string := "Request submitted successfully!"

  function Get(d: FormData, f: Field): string
  {
    match f
    case FullName => d.fullName
    case Email => d.email
    case Company => d.company
  }

  /** The record after an input event on field `f` with value `v`. */
  function Changed(d: FormData, f: Field, v: string): (r: FormData)
    ensures Get(r, f) == v
    ensures forall g :: g != f ==> Get(r, g) == Get(d, g)
  {
    match f
    case FullName => d.(fullName := v)
    case Email => d.(email := v)
    case Company => d.(company := v)
  }

  /** Typing into two different inputs gives the same record in either order. */
  lemma ChangesCommute(d: FormData, f: Field, v: string, g: Field, w: string)
    requires f != g
    ensures Changed(Changed(d, f, v), g, w) == Changed(Changed(d, g, w), f, v)
  {
  }

  /** A later input event on the same field overrides the earlier one. */
  lemma ChangeOverrides(d: FormData, f: Field, v: string, w: string)
    ensures Changed(Changed(d, f, v), f, w) == Changed(d, f, w)
  {
  }

  /** The submit handler: the toast shown and the record afterwards. */
  function SubmitStep(d: FormData): (r: (Toast, FormData))
    ensures r.0.ErrorToast? <==> d.fullName == "" || d.email == ""
    ensures r.0.ErrorToast? ==> r.0.message == MissingFieldsMessage && r.1 == d
    ensures r.0.SuccessToast? ==> r.0.message == SubmittedMessage && r.1 == EmptyForm
  {
    if d.fullName == "" || d.email == "" then
      (ErrorToast(MissingFieldsMessage), d)
    else
      (SuccessToast(SubmittedMessage), EmptyForm)
  }

  /** The optional company never decides the outcome. */
  lemma CompanyNeverBlocks(d: FormData, company: string)
    ensures SubmitStep(d.(company := company)).0 == SubmitStep(d).0
  {
  }

  /** Right after a successful submit the form is empty, so submitting again is rejected and changes nothing. */
  lemma ResubmitRejected(d: FormData)
    requires SubmitStep(d).0.SuccessToast?
    ensures SubmitStep(SubmitStep(d).1) == (ErrorToast(MissingFieldsMessage), EmptyForm)
  {
  }

  /** Filling in the two required inputs of a fresh form is enough for success, whatever they hold. */
  lemma FilledFormSubmits(name: string, email: string, company: string)
    requires name != "" && email != ""
    ensures SubmitStep(Changed(Changed(Changed(EmptyForm, FullName, name), Email, email), Company, company))
      == (SuccessToast(SubmittedMessage), EmptyForm)
  {
  }

  /** The form state of the section. */
  class ContactFormSection {
    var fullName: string
    var email: string
    var company: string

    function Data(): FormData
      reads this
    {
      FormData(fullName, email, company)
    }

    constructor ()
      ensures Data() == EmptyForm
    {
      fullName, email, company := "", "", "";
    }

    /** `handleChange` for an input named `f` whose value became `v`. */
    method Change(f: Field, v: string)
      modifies this
      ensures Data() == Changed(old(Data()), f, v)
    {
      match f
      case FullName => fullName := v;
      case Email => email := v;
      case Company => company := v;
    }

    /** `handleSubmit`. */
    method Submit() returns (toast: Toast)
      modifies this
      ensures (toast, Data()) == SubmitStep(old(Data()))
    {
      if fullName == "" || email == "" {
        toast := ErrorToast(MissingFieldsMessage);
        return;
      }
      toast := SuccessToast(SubmittedMessage);
      fullName, email, company := "", "", "";
    }
  }
}
