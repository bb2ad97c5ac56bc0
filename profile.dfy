/** The trusted-contact form of the profile page. */
module Profile {
  import opened Base

  const MaxContacts: nat := 3
  const FillAllFields := "Please fill in all fields"
  const ContactLimit := "You can only add up to 3 contacts"
  const ContactAdded := "Contact added successfully"
  const AddFailed := "Failed to add contact"

  /** The checks of `handleAddContact`, empty fields first; `None` lets the insert go ahead. */
  function ValidateContact(name: string, phone: string, contactCount: nat): (e: Option<string>)
    ensures e == Some(FillAllFields) <==> name == "" || phone == ""
    ensures e == Some(ContactLimit) <==> name != "" && phone != "" && contactCount >= MaxContacts
    ensures e.None? <==> name != "" && phone != "" && contactCount < MaxContacts
  {
    if name == "" || phone == "" then Some(FillAllFields)
    else if contactCount >= MaxContacts then Some(ContactLimit)
    else None
  }

  /** Whether the "Add Contact" part of the page is shown at all. */
  function ShowsAddControl(contactCount: nat): (shown: bool)
    ensures shown <==> contactCount < MaxContacts
  {
    contactCount < 3
  }

  /** With both fields filled, the form is offered exactly when the count check would pass. */
  lemma AddControlMatchesLimit(name: string, phone: string, contactCount: nat)
    requires name != "" && phone != ""
    ensures ShowsAddControl(contactCount) <==> ValidateContact(name, phone, contactCount).None?
  {
  }

  class ContactForm {
    var name: string
    var phone: string
    var showAddContact: bool
    var error: string
    var success: string

    constructor ()
      ensures name == "" && phone == "" && !showAddContact && error == "" && success == ""
    {
      name, phone := "", "";
      showAddContact := false;
      error, success := "", "";
    }

    /**
     * `handleAddContact` with `contactCount` the contacts on the page and
     * `insertError` the database's answer (`None` for success). Returns whether
     * the insert was sent.
     */
    method HandleAddContact(contactCount: nat, insertError: Option<string>) returns (inserted: bool)
      modifies this
      ensures inserted <==> ValidateContact(old(name), old(phone), contactCount).None?
      ensures !inserted ==>
        && error == ValidateContact(old(name), old(phone), contactCount).value
        && name == old(name) && phone == old(phone)
        && showAddContact == old(showAddContact) && success == old(success)
      ensures inserted && insertError.None? ==>
        name == "" && phone == "" && !showAddContact && error == "" && success == ContactAdded
      ensures inserted && insertError.Some? ==>
        && error == (if insertError.value != "" then insertError.value else AddFailed)
        && name == old(name) && phone == old(phone) && showAddContact == old(showAddContact)
        && success == old(success)
    {
      var problem := ValidateContact(name, phone, contactCount);
      if problem.Some? {
        error := problem.value;
        return false;
      }
      error := "";
      inserted := true;
      if insertError.Some? {
        error := if insertError.value != "" then insertError.value else AddFailed;
      } else {
        success := ContactAdded;
        name, phone := "", "";
        showAddContact := false;
      }
    }
  }
}
