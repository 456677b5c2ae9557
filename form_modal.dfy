/**
 * The create/edit dialog (src/components/ContactFormModal.jsx): the
 * validation schema, the values the form is reset to when it opens, the
 * mutation a valid submit issues, and the dialog's own state (the form
 * values and the success snackbar).
 */
module FormModal {
  import opened Wrappers
  import opened Contacts
  import opened Api

  /** The five values react-hook-form holds for the dialog. */
  datatype FormValues = FormValues(name: string, email: string, phone: string, address: string, favourite: bool)

  const DefaultFormValues := FormValues("", "", "", "", false)

  // ---------------------------------------------------------------------
  // The validation schema
  // ---------------------------------------------------------------------

  /** name: required, at least 2 and at most 50 characters. */
  predicate NameAccepted(s: string)
  {
    s != "" && 2 <= |s| <= 50
  }

  /** email: required, well-formed by `emailSyntax` (the email test of the
      validation library, a parameter here), at most 100 characters. */
  predicate EmailAccepted(s: string, emailSyntax: string -> bool)
  {
    s != "" && emailSyntax(s) && |s| <= 100
  }

  /** The characters the regular-expression class `\s` matches. */
  predicate JsWhitespace(c: char)
  {
    c == '\t' || c == '\n' || c == '\U{B}' || c == '\U{C}' || c == '\r' || c == ' '
    || c == '\U{A0}' || c == '\U{1680}' || ('\U{2000}' <= c <= '\U{200A}')
    || c == '\U{2028}' || c == '\U{2029}' || c == '\U{202F}' || c == '\U{205F}'
    || c == '\U{3000}' || c == '\U{FEFF}'
  }

  /** One character of the class `[\d\s-]`. */
  predicate PhoneChar(c: char)
  {
    ('0' <= c <= '9') || JsWhitespace(c) || c == '-'
  }

  /** `[\d\s-]{10,20}` matching a whole string. */
  predicate PhoneRun(s: string)
  {
    10 <= |s| <= 20 && forall i :: 0 <= i < |s| ==> PhoneChar(s[i])
  }

  /** phone: required, and matching `^[+]?[\d\s-]{10,20}$`. Since `+` is not
      in the class, the optional `+` is taken exactly when the string starts
      with one. */
  predicate PhoneAccepted(s: string)
  {
    s != "" && (PhoneRun(s) || (s[0] == '+' && PhoneRun(s[1..])))
  }

  /** address: required, at least 10 and at most 200 characters. */
  predicate AddressAccepted(s: string)
  {
    s != "" && 10 <= |s| <= 200
  }

  /** An accepted phone number has 10 to 21 characters, each a digit, a
      whitespace character or `-`, except for a `+` that may stand first
      and nowhere else. */
  lemma PhoneAcceptedShape(s: string)
    requires PhoneAccepted(s)
    ensures 10 <= |s| <= 21
    ensures forall i :: 0 < i < |s| ==> s[i] != '+' && PhoneChar(s[i])
    ensures s[0] == '+' || PhoneChar(s[0])
  {
  }

  /** Conversely, 10 to 20 phone characters are accepted, with or without
      one `+` in front. */
  lemma PhoneRunAccepted(t: string)
    requires PhoneRun(t)
    ensures PhoneAccepted(t) && PhoneAccepted("+" + t)
  {
  }

  /** A `+` anywhere but first is rejected. */
  lemma PhoneRejections(s: string, i: int)
    requires 0 < i < |s| && s[i] == '+'
    ensures !PhoneAccepted(s)
  {
  }

  /** Too short a number, such as "12", is rejected. */
  lemma ShortPhoneRejected(s: string)
    requires |s| < 10
    ensures !PhoneAccepted(s)
  {
  }

  /** The fields of the form, for its per-field errors. */
  datatype Field = NameField | EmailField | PhoneField | AddressField

  /** The fields the schema rejects; `favourite` is any boolean and never
      fails. */
  function FieldErrors(v: FormValues, emailSyntax: string -> bool): (errs: set<Field>)
    ensures NameField in errs <==> !NameAccepted(v.name)
    ensures EmailField in errs <==> !EmailAccepted(v.email, emailSyntax)
    ensures PhoneField in errs <==> !PhoneAccepted(v.phone)
    ensures AddressField in errs <==> !AddressAccepted(v.address)
    ensures forall f :: f in errs ==> f in {NameField, EmailField, PhoneField, AddressField}
  {
    (if NameAccepted(v.name) then {} else {NameField})
    + (if EmailAccepted(v.email, emailSyntax) then {} else {EmailField})
    + (if PhoneAccepted(v.phone) then {} else {PhoneField})
    + (if AddressAccepted(v.address) then {} else {AddressField})
  }

  // ---------------------------------------------------------------------
  // Mode, reset values and submit payload
  // ---------------------------------------------------------------------

  /** `!!contact`: the dialog edits exactly when it is given a contact. */
  predicate IsEditMode(contact: Option<Contact>)
  {
    contact.Some?
  }

  /** The values the open effect resets the form to: the contact's own
      values, `""` or `false` where one is missing, or the defaults when no
      contact is given. */
  function ResetValues(contact: Option<Contact>): (v: FormValues)
    ensures contact.None? ==> v == DefaultFormValues
    ensures contact.Some? ==> v == FormValues(
      StringOrEmpty(contact.value.name), StringOrEmpty(contact.value.email),
      StringOrEmpty(contact.value.phone), StringOrEmpty(contact.value.address),
      FlagOrFalse(contact.value.favourite))
  {
    match contact
    case None => DefaultFormValues
    case Some(c) =>
      FormValues(StringOrEmpty(c.name), StringOrEmpty(c.email), StringOrEmpty(c.phone),
                 StringOrEmpty(c.address), FlagOrFalse(c.favourite))
  }

  /** The form data as a JSON record: its five keys, and no avatar. */
  function FormDetails(data: FormValues): (d: Details)
    ensures d.avatar == None
    ensures d.name == Some(data.name) && d.email == Some(data.email) && d.phone == Some(data.phone)
    ensures d.address == Some(data.address) && d.favourite == Some(data.favourite)
  {
    Details(Some(data.name), Some(data.email), Some(data.phone), Some(data.address), Some(data.favourite), None)
  }

  /** What onSubmit hands to a mutation: in edit mode an update of
      `{ id: contact.id, ...data }`, otherwise a create of the data as it
      is. */
  function SubmitPayload(contact: Option<Contact>, data: FormValues): (m: Mutation)
    ensures m.Update? <==> IsEditMode(contact)
    ensures m.Create? <==> !IsEditMode(contact)
    ensures m.Update? ==> m.contact.id == contact.value.id && WithoutId(m.contact) == FormDetails(data)
    ensures m.Create? ==> m.details == FormDetails(data)
  {
    match contact
    case Some(c) => Update(WithId(c.id, FormDetails(data)))
    case None => Create(FormDetails(data))
  }

  /** handleSubmit(onSubmit): the mutation issued, which is none at all
      when some field fails validation. */
  function HandleSubmit(contact: Option<Contact>, data: FormValues, emailSyntax: string -> bool): (m: Option<Mutation>)
    ensures m.Some? <==> FieldErrors(data, emailSyntax) == {}
    ensures m.Some? ==> m.value == SubmitPayload(contact, data)
  {
    if FieldErrors(data, emailSyntax) == {} then Some(SubmitPayload(contact, data)) else None
  }

  /** A submission with phone "12" fails on its phone field and issues no
      request. */
  lemma ShortPhoneIssuesNothing(contact: Option<Contact>, data: FormValues, emailSyntax: string -> bool)
    requires data.phone == "12"
    ensures PhoneField in FieldErrors(data, emailSyntax)
    ensures HandleSubmit(contact, data, emailSyntax) == None
  {
  }

  /** An edit submission becomes a PUT to the contact's own path whose body
      is exactly the form data. */
  lemma EditSubmitRequest(c: Contact, data: FormValues)
    ensures MutationRequest(SubmitPayload(Some(c), data)) ==
      Request(PUT, ContactPath(c.id), [], Json(FormDetails(data)))
  {
  }

  /** Opening a complete contact for editing and submitting it unchanged
      sends the same contact back, except that the avatar is not part of
      the form and so is dropped. */
  lemma UnchangedEditRoundTrip(c: Contact)
    requires c.name.Some? && c.email.Some? && c.phone.Some? && c.address.Some? && c.favourite.Some?
    ensures SubmitPayload(Some(c), ResetValues(Some(c))) == Update(c.(avatar := None))
  {
  }

  // ---------------------------------------------------------------------
  // Busy flag
  // ---------------------------------------------------------------------

  /** `isLoading`, the dialog's busy flag: a create or an update started by
      this dialog is pending. It disables Cancel (`ContactForm.Cancel`) and
      shows the submit button as loading. */
  predicate IsLoading(creating: bool, updating: bool)
  {
    creating || updating
  }

  // ---------------------------------------------------------------------
  // The dialog's state
  // ---------------------------------------------------------------------

  const UpdatedMessage := "Contact updated successfully!"
  const AddedMessage := "Contact added successfully!"

  datatype Snackbar = Snackbar(open: bool, message: string, severity: string)

  /** The callbacks the parent passes in, as they are invoked. */
  datatype Notify = OnClose | OnSuccess

  /** The snackbar message after a successful submit. */
  function SuccessMessage(editMode: bool): string
  {
    if editMode then UpdatedMessage else AddedMessage
  }

  class ContactForm {
    /** The current field values of the form. */
    var values: FormValues
    var snackbar: Snackbar

    constructor ()
      ensures values == DefaultFormValues
      ensures snackbar == Snackbar(false, "", "success")
    {
      values := DefaultFormValues;
      snackbar := Snackbar(false, "", "success");
    }

    /** The effect that runs when `open` or `contact` changes: while the
        dialog is open the form is reset; while it is closed nothing
        happens. */
    method OpenEffect(open: bool, contact: Option<Contact>)
      modifies this`values
      ensures open ==> values == ResetValues(contact)
      ensures !open ==> values == old(values)
    {
      if open {
        values := ResetValues(contact);
      }
    }

    /** The favourite checkbox writes its checked state into the form. */
    method SetFavourite(checked: bool)
      modifies this`values
      ensures values == old(values).(favourite := checked)
    {
      values := values.(favourite := checked);
    }

    /** The success callback of the mutation: show the success message for
        the mode the submit was made in, then call `onClose`, then
        `onSuccess` if the parent gave one. */
    method MutationSucceeded(contact: Option<Contact>, hasOnSuccess: bool) returns (calls: seq<Notify>)
      modifies this`snackbar
      ensures snackbar == Snackbar(true, SuccessMessage(IsEditMode(contact)), "success")
      ensures calls == if hasOnSuccess then [OnClose, OnSuccess] else [OnClose]
    {
      snackbar := Snackbar(true, SuccessMessage(IsEditMode(contact)), "success");
      calls := [OnClose];
      if hasOnSuccess {
        calls := calls + [OnSuccess];
      }
    }

    /** The submit button, `handleSubmit(onSubmit)` on the current values.
        It shows as loading while a create or an update is pending, and a
        loading button takes no clicks, so nothing is submitted twice. */
    method Submit(contact: Option<Contact>, creating: bool, updating: bool, emailSyntax: string -> bool)
      returns (m: Option<Mutation>)
      ensures IsLoading(creating, updating) ==> m == None
      ensures !IsLoading(creating, updating) ==> m == HandleSubmit(contact, values, emailSyntax)
    {
      m := None;
      if !IsLoading(creating, updating) {
        m := HandleSubmit(contact, values, emailSyntax);
      }
    }

    /** The Cancel button calls `onClose`, but is disabled while a create
        or an update is pending, so a click then calls nothing. */
    method Cancel(creating: bool, updating: bool) returns (calls: seq<Notify>)
      ensures IsLoading(creating, updating) ==> calls == []
      ensures !IsLoading(creating, updating) ==> calls == [OnClose]
    {
      calls := [];
      if !IsLoading(creating, updating) {
        calls := [OnClose];
      }
    }

    /** Closing the snackbar keeps its message and severity. */
    method CloseSnackbar()
      modifies this`snackbar
      ensures snackbar == old(snackbar).(open := false)
    {
      snackbar := snackbar.(open := false);
    }
  }
}
