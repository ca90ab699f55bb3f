/**
 * The dialog that registers a student: its blank form, the request body, how the server
 * reads that body, and the reset after a successful save.
 */
module AddElevDialog {
  import opened Wrappers
  import opened Calendar
  import opened Forms
  import opened Web
  import Schemas

  datatype Form = Form(
    nume_complet: string, data_nasterii: string, scoala_curenta: string, nume_parinte: string,
    telefon_parinte: string, email_parinte: string, gdpr_accepted: bool)

  /** The body sent to create or update a student; `note` is `Omitted` when the key is absent. */
  datatype ElevPayload = ElevPayload(
    nume_complet: string, data_nasterii: Option<string>, scoala_curenta: string,
    nume_parinte: string, telefon_parinte: string, email_parinte: string,
    gdpr_accepted: bool, note: Field<Option<string>>)

  const InitialForm := Form("", "", "", "", "", "", false)

  /** The body for a form: an empty birth date is `null`, every other field is sent as typed, no note. */
  function Payload(f: Form): (p: ElevPayload)
    ensures p.data_nasterii == EmptyToNull(f.data_nasterii)
    ensures p.nume_complet == f.nume_complet && p.scoala_curenta == f.scoala_curenta
    ensures p.nume_parinte == f.nume_parinte && p.telefon_parinte == f.telefon_parinte
    ensures p.email_parinte == f.email_parinte && p.gdpr_accepted == f.gdpr_accepted
    ensures p.note.Omitted?
  {
    ElevPayload(f.nume_complet, EmptyToNull(f.data_nasterii), f.scoala_curenta, f.nume_parinte,
                f.telefon_parinte, f.email_parinte, f.gdpr_accepted, Omitted)
  }

  /**
   * How the server reads the body as a student record: a birth date that is not a
   * `YYYY-MM-DD` date of the years 1 to 9999 rejects the request; an absent note is `None`.
   */
  function Received(p: ElevPayload): (b: Option<Schemas.ElevBody>)
    ensures b.Some? <==> p.data_nasterii.None? || ParseServerDate(p.data_nasterii.value).Some?
    ensures b.Some? ==> b.value.nume_complet == p.nume_complet
    ensures b.Some? ==> b.value.scoala_curenta == Some(p.scoala_curenta)
                        && b.value.nume_parinte == Some(p.nume_parinte)
    ensures b.Some? ==> b.value.telefon_parinte == Some(p.telefon_parinte)
                        && b.value.email_parinte == Some(p.email_parinte)
    ensures b.Some? ==> b.value.gdpr_accepted == Given(p.gdpr_accepted)
    ensures b.Some? ==> b.value.note == (if p.note.Given? then p.note.value else None)
    ensures b.Some? ==>
      b.value.data_nasterii == (if p.data_nasterii.None? then None else ParseServerDate(p.data_nasterii.value))
  {
    var birth := if p.data_nasterii.None? then Some(None)
                 else match ParseServerDate(p.data_nasterii.value)
                   case Some(d) => Some(Some(d))
                   case None => None;
    match birth
    case None => None
    case Some(d) =>
      Some(Schemas.ElevBody(p.nume_complet, d, Some(p.scoala_curenta), Some(p.nume_parinte),
                            Some(p.telefon_parinte), Some(p.email_parinte), Given(p.gdpr_accepted),
                            if p.note.Given? then p.note.value else None))
  }

  /**
   * A body whose birth date is in year 0000 is rejected by the server, although the date
   * input can produce such a date.
   */
  lemma YearZeroBirthDateRejected(p: ElevPayload)
    requires p.data_nasterii.Some? && |p.data_nasterii.value| >= 4
    requires p.data_nasterii.value[..4] == "0000"
    ensures Received(p).None?
  {
    ServerRejectsYearZeroText(p.data_nasterii.value);
  }

  /** A student saved from the blank form has no birth date and no GDPR consent. */
  lemma BlankFormPayload()
    ensures var p := Payload(InitialForm); p.data_nasterii.None? && !p.gdpr_accepted
    ensures Received(Payload(InitialForm)).Some?
  {
  }

  class Dialog {
    var open: bool
    var form: Form

    constructor()
      ensures !open && form == InitialForm
    {
      open := false;
      form := InitialForm;
    }

    /**
     * `handleSubmit`: an ok response closes the dialog and blanks the form; any other
     * reply leaves the dialog and the form as they were.
     */
    method Submit(reply: Reply) returns (sent: ElevPayload, outcome: Outcome)
      modifies this`open, this`form
      ensures sent == Payload(old(form))
      ensures reply == Ok ==> outcome == Done && !open && form == InitialForm
      ensures reply != Ok ==> outcome == Kept && open == old(open) && form == old(form)
    {
      sent := Payload(form);
      if reply == Ok {
        open := false;
        form := InitialForm;
        outcome := Done;
      } else {
        outcome := Kept;
      }
    }
  }
}
