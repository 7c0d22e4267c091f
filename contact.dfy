/**
 * The contact form (src/sections/Contact.jsx): four controlled text fields
 * and a submitting flag. The asynchronous submit is split into its start
 * (before the two-second wait) and its finish (after it).
 */
module Contact {
  import opened Wrappers

  datatype Field = Name | Email | Subject | Message

  datatype FormData = FormData(name: string, email: string, subject: string, message: string)

  const EmptyForm: FormData := FormData("", "", "", "")

  /** The value of one field. */
  function Get(f: FormData, field: Field): string
  {
    match field
    case Name => f.name
    case Email => f.email
    case Subject => f.subject
    case Message => f.message
  }

  /** `{ ...formData, [field]: value }`: that field replaced, the other three kept. */
  function Set(f: FormData, field: Field, value: string): (r: FormData)
    ensures Get(r, field) == value
    ensures forall g :: g != field ==> Get(r, g) == Get(f, g)
  {
    match field
    case Name => f.(name := value)
    case Email => f.(email := value)
    case Subject => f.(subject := value)
    case Message => f.(message := value)
  }

  /** The `name` attribute of each input, which equals the form key it edits. */
  function InputName(field: Field): (name: string)
    ensures name in ["name", "email", "subject", "message"]
  {
    match field
    case Name => "name"
    case Email => "email"
    case Subject => "subject"
    case Message => "message"
  }

  /** The form key that `e.target.name` addresses. */
  function FieldNamed(name: string): (r: Option<Field>)
    ensures r.Some? ==> InputName(r.value) == name
  {
    if name == "name" then Some(Name)
    else if name == "email" then Some(Email)
    else if name == "subject" then Some(Subject)
    else if name == "message" then Some(Message)
    else None
  }

  /** Every input's name leads back to its own field, so no input edits another's key. */
  lemma InputNamesRoundTrip(field: Field)
    ensures FieldNamed(InputName(field)) == Some(field)
  {
  }

  class ContactForm {
    var formData: FormData
    var isSubmitting: bool

    constructor ()
      ensures formData == EmptyForm && !isSubmitting
      ensures forall g :: Get(formData, g) == ""
    {
      formData := EmptyForm;
      isSubmitting := false;
    }

    /** The submit button is enabled exactly while no submission is running. */
    function SubmitEnabled(): bool
      reads this
    {
      !isSubmitting
    }

    /** `handleInputChange` for the input whose `name` attribute is `inputName`. */
    method HandleInputChange(inputName: string, value: string)
      requires FieldNamed(inputName).Some?
      modifies this`formData
      ensures formData == Set(old(formData), FieldNamed(inputName).value, value)
      ensures Get(formData, FieldNamed(inputName).value) == value
      ensures forall g :: g != FieldNamed(inputName).value ==> Get(formData, g) == Get(old(formData), g)
    {
      var field := FieldNamed(inputName).value;
      formData := Set(formData, field, value);
    }

    /** The synchronous part of `handleSubmit`; the disabled button keeps a second submit out. */
    method StartSubmit()
      requires !isSubmitting
      modifies this`isSubmitting
      ensures isSubmitting && !SubmitEnabled()
      ensures formData == old(formData)
    {
      isSubmitting := true;
    }

    /** After the wait: clear the flag and empty all four fields (the alert is not modelled). */
    method FinishSubmit()
      requires isSubmitting
      modifies this
      ensures !isSubmitting && SubmitEnabled()
      ensures formData == EmptyForm
      ensures forall g :: Get(formData, g) == ""
    {
      isSubmitting := false;
      formData := EmptyForm;
    }
  }
}
