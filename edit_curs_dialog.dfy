/** The dialog that edits a course: the form read from the course and the body built back from it. */
module EditCursDialog {
  import opened Wrappers
  import opened Text
  import opened Lookup
  import opened Forms
  import opened Web
  import opened AddCursDialog
  import Schemas

  /**
   * The form the dialog starts with: the ages as decimal text, a missing link as "". The
   * ages are read with `toString()`, which throws on a course without them.
   */
  function FormOf(c: Curs): (f: Form)
    requires c.varsta_min.Some? && c.varsta_max.Some?
    ensures f.varsta_min == IntToString(c.varsta_min.value) && f.varsta_max == IntToString(c.varsta_max.value)
    ensures f.programa_link == OrElse(c.programa_link, "")
    ensures f.nume_curs == c.nume_curs && f.categorie == c.categorie
    ensures f.nivel_dificultate == c.nivel_dificultate
  {
    Form(c.nume_curs, c.categorie, c.nivel_dificultate, IntToString(c.varsta_min.value),
         IntToString(c.varsta_max.value), OrElse(c.programa_link, ""))
  }

  /** The body of an edit: the form's body with the course's own description added back. */
  function EditPayload(f: Form, c: Curs): (p: CursPayload)
    ensures p.descriere == Given(c.descriere) && p.(descriere := Omitted) == Payload(f)
  {
    Payload(f).(descriere := Given(c.descriere))
  }

  /**
   * Saving an unchanged form stores the course's ages, category, level and description as
   * they were.
   */
  lemma UnchangedFormRoundTrip(c: Curs)
    requires c.varsta_min.Some? && c.varsta_max.Some?
    ensures var s := Schemas.DecodeCurs(Received(EditPayload(FormOf(c), c)));
            s.varsta_min == c.varsta_min && s.varsta_max == c.varsta_max
            && s.categorie == c.categorie && s.nivel_dificultate == c.nivel_dificultate
            && s.descriere == c.descriere && s.nume_curs == c.nume_curs
  {
    ParseIntOfIntToString(c.varsta_min.value);
    ParseIntOfIntToString(c.varsta_max.value);
  }

  /** `handleSubmit`'s reply: ok closes and refreshes; any other response alerts; a throw is silent. */
  function SubmitOutcome(reply: Reply): (o: Outcome)
    ensures reply == Ok ==> o == Done
    ensures reply == NotOk ==> o == Alerted("Eroare la actualizare.")
    ensures reply == Thrown ==> o == Kept
  {
    match reply
    case Ok => Done
    case NotOk => Alerted("Eroare la actualizare.")
    case Thrown => Kept
  }
}
