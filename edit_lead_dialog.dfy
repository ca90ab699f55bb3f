/** The dialog that edits a lead: the form read from the lead and the body built back from it. */
module EditLeadDialog {
  import opened Wrappers
  import opened Lookup
  import opened Forms
  import opened Web
  import opened AddLeadDialog

  /** The form the dialog starts with: a missing note is "", a missing partner is "". */
  function FormOf(l: Lead): (f: Form)
    ensures f.note == OrElse(l.note, "") && f.partener_id == IdText(l.partener_id)
    ensures f.nume_contact == l.nume_contact && f.telefon_contact == l.telefon_contact
    ensures f.email_contact == l.email_contact && f.sursa_lead == l.sursa_lead && f.status == l.status
  {
    Form(l.nume_contact, l.telefon_contact, l.email_contact, l.sursa_lead, l.status,
         OrElse(l.note, ""), IdText(l.partener_id))
  }

  /**
   * Saving an unchanged form sends the lead back as it was, its partner included, except
   * that a missing note is sent as "" and a partner id of 0 as `null`.
   */
  lemma UnchangedFormRoundTrip(l: Lead)
    ensures Payload(FormOf(l)) == LeadPayload(
      l.nume_contact, l.telefon_contact, l.email_contact, l.sursa_lead, l.status,
      OrElse(l.note, ""), if l.partener_id == Some(0) then None else l.partener_id)
  {
    IdRoundTrip(l.partener_id);
  }

  /** `handleSubmit`'s reply: ok closes and refreshes; anything else leaves the dialog open, silently. */
  function SubmitOutcome(reply: Reply): (o: Outcome)
    ensures reply == Ok ==> o == Done
    ensures reply != Ok ==> o == Kept
  {
    if reply == Ok then Done else Kept
  }
}
