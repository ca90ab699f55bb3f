/**
 * The dialog that edits a student: the form read from the student and the body built back
 * from it. The body the dialog sends has no `note` key, and the server's update writes the
 * note it reads, so saving the dialog erases the student's note; `PayloadKeepingNote` is the
 * body that keeps it, as the other edit dialogs do.
 */
module EditElevDialog {
  import opened Wrappers
  import opened Calendar
  import opened Lookup
  import opened Forms
  import opened Web
  import opened AddElevDialog
  import Schemas

  /** The form the dialog starts with: every missing text is "", the consent is copied. */
  function FormOf(e: Elev): (f: Form)
    ensures f.nume_complet == e.nume_complet && f.data_nasterii == OrElse(e.data_nasterii, "")
    ensures f.scoala_curenta == OrElse(e.scoala_curenta, "") && f.nume_parinte == OrElse(e.nume_parinte, "")
    ensures f.telefon_parinte == OrElse(e.telefon_parinte, "") && f.email_parinte == OrElse(e.email_parinte, "")
    ensures f.gdpr_accepted == e.gdpr_accepted
  {
    Form(e.nume_complet, OrElse(e.data_nasterii, ""), OrElse(e.scoala_curenta, ""),
         OrElse(e.nume_parinte, ""), OrElse(e.telefon_parinte, ""), OrElse(e.email_parinte, ""),
         e.gdpr_accepted)
  }

  /** A birth date the server would accept back: none, or a `YYYY-MM-DD` date of years 1 to 9999. */
  predicate BirthDateReadable(e: Elev) {
    e.data_nasterii.None? || ParseServerDate(e.data_nasterii.value).Some?
  }

  /**
   * As written: saving the unchanged form of a student with a note stores the student with
   * no note.
   */
  lemma SavingErasesNote(e: Elev)
    requires BirthDateReadable(e) && e.note.Some?
    ensures Received(Payload(FormOf(e))).Some?
    ensures Schemas.DecodeElev(Received(Payload(FormOf(e))).value).note.None?
  {
  }

  /** The corrected body: the form's body with the student's own note. */
  function PayloadKeepingNote(f: Form, e: Elev): (p: ElevPayload)
    ensures p.note == Given(e.note) && p.(note := Omitted) == Payload(f)
  {
    Payload(f).(note := Given(e.note))
  }

  /**
   * With the corrected body, saving the unchanged form stores the student's name, birth
   * date, consent and note as they were.
   */
  lemma SavingKeepsStudent(e: Elev)
    requires BirthDateReadable(e)
    ensures Received(PayloadKeepingNote(FormOf(e), e)).Some?
    ensures var s := Schemas.DecodeElev(Received(PayloadKeepingNote(FormOf(e), e)).value);
            s.nume_complet == e.nume_complet && s.note == e.note && s.gdpr_accepted == e.gdpr_accepted
            && s.data_nasterii == (if e.data_nasterii.None? then None else ParseServerDate(e.data_nasterii.value))
  {
    assert e.data_nasterii.Some? ==> e.data_nasterii.value != "";
  }

  /** The birth date survives the round trip: `null` comes back `null`, a date stays the date. */
  lemma BirthDateRoundTrip(e: Elev)
    ensures Payload(FormOf(e)).data_nasterii == if e.data_nasterii == Some("") then None else e.data_nasterii
  {
    EmptyRoundTrip(e.data_nasterii);
  }

  /** `handleSubmit`'s reply: ok closes and refreshes; anything else leaves the dialog open, silently. */
  function SubmitOutcome(reply: Reply): (o: Outcome)
    ensures reply == Ok ==> o == Done
    ensures reply != Ok ==> o == Kept
  {
    if reply == Ok then Done else Kept
  }
}
