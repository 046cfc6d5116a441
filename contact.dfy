/**
 * The contact page: a call-back form and a contact form, each a record of
 * strings updated field by field and reset on submit.
 */
module Contact {
  import opened Forms

  const CallFields: set<string> := {"name", "phone", "address"}

  /** The call-back inputs carrying `required`; the address is optional. */
  const CallRequired: set<string> := {"name", "phone"}

  const ContactFields: set<string> := {"name", "email", "phone", "subject", "message"}

  /** The contact inputs carrying `required`; the phone is optional. */
  const ContactRequired: set<string> := {"name", "email", "subject", "message"}

  /** The option values of the subject select, the placeholder "" first. */
  const SubjectOptions: seq<string> := ["", "buying", "selling", "renting", "investment", "consultation", "other"]

  class ContactPage {
    var callFormData: Draft
    var contactFormData: Draft

    ghost predicate Valid()
      reads this
    {
      && callFormData.Keys == CallFields
      && contactFormData.Keys == ContactFields
      && contactFormData["subject"] in SubjectOptions
    }

    constructor ()
      ensures Valid()
      ensures callFormData == Blank(CallFields)
      ensures contactFormData == Blank(ContactFields)
    {
      callFormData := Blank(CallFields);
      contactFormData := Blank(ContactFields);
    }

    /** A call-back input's change handler. */
    method ChangeCallField(field: string, value: string)
      requires Valid() && field in CallFields
      modifies this`callFormData
      ensures Valid()
      ensures callFormData == Put(old(callFormData), field, value)
      ensures contactFormData == old(contactFormData)
    {
      callFormData := callFormData[field := value];
    }

    /** A contact input's change handler; the subject select only offers its option values. */
    method ChangeContactField(field: string, value: string)
      requires Valid() && field in ContactFields
      requires field == "subject" ==> value in SubjectOptions
      modifies this`contactFormData
      ensures Valid()
      ensures contactFormData == Put(old(contactFormData), field, value)
      ensures callFormData == old(callFormData)
    {
      contactFormData := contactFormData[field := value];
    }

    /** `handleCallSubmit`, reached only once name and phone are non-empty. */
    method HandleCallSubmit()
      requires Valid() && Filled(callFormData, CallRequired)
      modifies this`callFormData
      ensures Valid()
      ensures callFormData == Blank(CallFields)
      ensures contactFormData == old(contactFormData)
    {
      callFormData := map k | k in CallFields :: "";
    }

    /** `handleContactSubmit`, reached only once name, email, subject and message are non-empty. */
    method HandleContactSubmit()
      requires Valid() && Filled(contactFormData, ContactRequired)
      modifies this`contactFormData
      ensures Valid()
      ensures contactFormData == Blank(ContactFields)
      ensures callFormData == old(callFormData)
    {
      contactFormData := map k | k in ContactFields :: "";
    }
  }

  /** A filled contact form has chosen a real subject, not the placeholder. */
  lemma FilledSubjectIsChosen(d: Draft)
    requires d.Keys == ContactFields && d["subject"] in SubjectOptions
    requires Filled(d, ContactRequired)
    ensures d["subject"] in SubjectOptions[1..]
  {
    assert "subject" in ContactRequired;
  }
}
