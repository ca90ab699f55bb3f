/**
 * The dialog that records a lead: its form and defaults, the request body with the chosen
 * partner, and what an ok or failed save does to the form.
 */
module AddLeadDialog {
  import opened Wrappers
  import opened Text
  import opened Forms
  import opened Web

  /**
   * The form. The contact fields and the source can hold `null` when the edit dialog copies
   * them from a lead; the partner field holds a partner id as text, or "" for none.
   */
  datatype Form = Form(
    nume_contact: Option<string>, telefon_contact: Option<string>, email_contact: Option<string>,
    sursa_lead: Option<string>, status: string, note: string, partener_id: string)

  /** The body sent to create or update a lead. */
  datatype LeadPayload = LeadPayload(
    nume_contact: Option<string>, telefon_contact: Option<string>, email_contact: Option<string>,
    sursa_lead: Option<string>, status: string, note: string, partener_id: Option<int>)

  const InitialForm := Form(Some(""), Some(""), Some(""), Some("facebook"), "nou", "", "")

  /** The body for a form: every field as typed, the partner read with `parseInt`, "" as `null`. */
  function Payload(f: Form): (p: LeadPayload)
    ensures p.partener_id == IdOrNull(f.partener_id)
    ensures p.nume_contact == f.nume_contact && p.telefon_contact == f.telefon_contact
    ensures p.email_contact == f.email_contact && p.sursa_lead == f.sursa_lead
    ensures p.status == f.status && p.note == f.note
  {
    LeadPayload(f.nume_contact, f.telefon_contact, f.email_contact, f.sursa_lead, f.status,
                f.note, IdOrNull(f.partener_id))
  }

  /** A lead saved from the untouched form is a new lead from facebook with no partner. */
  lemma DefaultPayload()
    ensures var p := Payload(InitialForm);
            p.status == "nou" && p.sursa_lead == Some("facebook") && p.partener_id.None?
  {
  }

  /** A partner picked from the list, by its id as text, is sent as that id. */
  lemma ChosenPartnerSent(f: Form, id: int)
    ensures Payload(f.(partener_id := IntToString(id))).partener_id == Some(id)
  {
    ParseIntOfIntToString(id);
  }

  class Dialog {
    var open: bool
    var form: Form

    constructor()
      ensures !open && form == InitialForm
    {
      open := false;
      form := InitialForm;
    }

    /**
     * `handleSubmit`: an ok response closes the dialog and resets the whole form to the
     * defaults; any other response alerts and keeps the form; a throw changes nothing.
     */
    method Submit(reply: Reply) returns (sent: LeadPayload, outcome: Outcome)
      modifies this`open, this`form
      ensures sent == Payload(old(form))
      ensures reply == Ok ==> outcome == Done && !open && form == InitialForm
      ensures reply == NotOk ==> outcome == Alerted("Eroare la salvare.")
      ensures reply == Thrown ==> outcome == Kept
      ensures reply != Ok ==> open == old(open) && form == old(form)
    {
      sent := Payload(form);
      match reply
      case Ok =>
        open := false;
        form := InitialForm;
        outcome := Done;
      case NotOk =>
        outcome := Alerted("Eroare la salvare.");
      case Thrown =>
        outcome := Kept;
    }
  }
}
