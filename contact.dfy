/**
 * The contact form: four text fields; submitting inserts them as one row of
 * `contact_submissions`, with no check for an earlier identical row. Success
 * clears the form; failure keeps it for another try.
 */
module Contact {
  import opened Shared
  import opened Store

  const Sent: string := "Message sent successfully! We will get back to you soon."
  const Failed: string := "Something went wrong. Please try again or email us directly at hello@innovbridge.tech"

  datatype ContactForm = ContactForm(name: string, email: string, subject: string, message: string)

  const Blank: ContactForm := ContactForm("", "", "", "")

  /** The `name` attributes of the form's four inputs. */
  datatype FieldName = NameField | EmailField | SubjectField | MessageField

  function FieldOf(f: ContactForm, field: FieldName): string {
    match field
    case NameField => f.name
    case EmailField => f.email
    case SubjectField => f.subject
    case MessageField => f.message
  }

  /** `{...formData, [name]: value}` */
  function WithField(f: ContactForm, field: FieldName, value: string): (g: ContactForm)
    ensures FieldOf(g, field) == value
    ensures forall other :: other != field ==> FieldOf(g, other) == FieldOf(f, other)
  {
    match field
    case NameField => f.(name := value)
    case EmailField => f.(email := value)
    case SubjectField => f.(subject := value)
    case MessageField => f.(message := value)
  }

  /** Writing a field twice keeps the last value; writing what is there changes nothing. */
  lemma WithFieldLastWins(f: ContactForm, field: FieldName, a: string, b: string)
    ensures WithField(WithField(f, field, a), field, b) == WithField(f, field, b)
    ensures WithField(f, field, FieldOf(f, field)) == f
  {
  }

  class Form {
    var formData: ContactForm
    var status: Status
    var statusMessage: string

    constructor()
      ensures formData == Blank && status == Idle && statusMessage == ""
    {
      formData := Blank;
      status := Idle;
      statusMessage := "";
    }

    /** `handleChange` */
    method Change(field: FieldName, value: string)
      modifies this
      ensures formData == WithField(old(formData), field, value)
      ensures status == old(status) && statusMessage == old(statusMessage)
    {
      formData := WithField(formData, field, value);
    }

    method Begin()
      modifies this
      ensures status == Loading && statusMessage == "" && formData == old(formData)
    {
      status := Loading;
      statusMessage := "";
    }

    /** `handleSubmit` with the store's answer: the form as it is becomes one new row. */
    method Submit(rows: seq<ContactForm>, insertFault: Option<DbError>) returns (rows': seq<ContactForm>)
      modifies this
      ensures insertFault.None? ==>
                rows' == rows + [old(formData)] && status == Success && statusMessage == Sent && formData == Blank
      ensures insertFault.Some? ==>
                rows' == rows && status == Error && statusMessage == Failed && formData == old(formData)
    {
      Begin();
      var inserted := Append(rows, formData, insertFault);
      rows' := inserted.0;
      if inserted.1.Some? {
        statusMessage := Failed;
        status := Error;
        return;
      }
      statusMessage := Sent;
      status := Success;
      formData := Blank;
    }
  }

  /** Two identical submissions both succeed, each clearing the form, and the
    * table holds the same row twice. */
  method SubmitTwice(name: string, email: string, subject: string, message: string)
    returns (rows: seq<ContactForm>, first: Status, second: Status, after: ContactForm)
    ensures rows == [ContactForm(name, email, subject, message), ContactForm(name, email, subject, message)]
    ensures first == Success && second == Success && after == Blank
  {
    var form := new Form();
    form.Change(NameField, name);
    form.Change(EmailField, email);
    form.Change(SubjectField, subject);
    form.Change(MessageField, message);
    rows := form.Submit([], None);
    first := form.status;
    form.Change(NameField, name);
    form.Change(EmailField, email);
    form.Change(SubjectField, subject);
    form.Change(MessageField, message);
    rows := form.Submit(rows, None);
    second := form.status;
    after := form.formData;
  }
}
