/**
 * The dialog that creates a course: its defaults, the request body with the ages read as
 * numbers, how the server reads that body, and the reset after a successful save.
 */
module AddCursDialog {
  import opened Wrappers
  import opened Text
  import opened Forms
  import opened Web
  import Schemas

  /** The form; category and level can hold `null` when the edit dialog copies them from a course. */
  datatype Form = Form(
    nume_curs: string, categorie: Option<string>, nivel_dificultate: Option<string>,
    varsta_min: string, varsta_max: string, programa_link: string)

  /** The body sent to create or update a course; `descriere` is `Omitted` when the key is absent. */
  datatype CursPayload = CursPayload(
    nume_curs: string, categorie: Option<string>, nivel_dificultate: Option<string>,
    varsta_min: Option<int>, varsta_max: Option<int>, programa_link: string,
    descriere: Field<Option<string>>)

  const InitialForm := Form("", Some("Programare"), Some("Incepator"), "7", "14", "")

  /** The body for a form: both ages read with `parseInt` (NaN is sent as `null`), no description. */
  function Payload(f: Form): (p: CursPayload)
    ensures p.varsta_min == ParseInt(f.varsta_min) && p.varsta_max == ParseInt(f.varsta_max)
    ensures p.nume_curs == f.nume_curs && p.categorie == f.categorie
    ensures p.nivel_dificultate == f.nivel_dificultate && p.programa_link == f.programa_link
    ensures p.descriere.Omitted?
  {
    CursPayload(f.nume_curs, f.categorie, f.nivel_dificultate, ParseInt(f.varsta_min),
                ParseInt(f.varsta_max), f.programa_link, Omitted)
  }

  /** How the server reads the body: every key is present except possibly the description. */
  function Received(p: CursPayload): (b: Schemas.CursBody)
    ensures b.categorie == Given(p.categorie) && b.nivel_dificultate == Given(p.nivel_dificultate)
    ensures b.varsta_min == Given(p.varsta_min) && b.varsta_max == Given(p.varsta_max)
    ensures b.descriere == (if p.descriere.Given? then p.descriere.value else None)
  {
    Schemas.CursBody(p.nume_curs, Given(p.categorie), Given(p.nivel_dificultate),
                     Given(p.varsta_min), Given(p.varsta_max), Some(p.programa_link),
                     if p.descriere.Given? then p.descriere.value else None)
  }

  /**
   * A course saved from the untouched form is a beginner programming course for ages 7 to
   * 14: the dialog's defaults, not the server's ("General", 6 to 18), are the ones stored.
   */
  lemma DefaultsOverrideServerDefaults()
    ensures var c := Schemas.DecodeCurs(Received(Payload(InitialForm)));
            c.categorie == Some("Programare") && c.nivel_dificultate == Some("Incepator")
            && c.varsta_min == Some(7) && c.varsta_max == Some(14) && c.descriere.None?
  {
    assert IntToString(7) == "7" && IntToString(14) == "14";
    ParseIntOfIntToString(7);
    ParseIntOfIntToString(14);
    var p := Payload(InitialForm);
    assert p.varsta_min == Some(7) && p.varsta_max == Some(14);
  }

  class Dialog {
    var open: bool
    var form: Form

    constructor()
      ensures !open && form == InitialForm
    {
      open := false;
      form := InitialForm;
    }

    /**
     * `handleSubmit`: an ok response closes the dialog and restores the defaults; any other
     * reply leaves the dialog and the form as they were.
     */
    method Submit(reply: Reply) returns (sent: CursPayload, outcome: Outcome)
      modifies this`open, this`form
      ensures sent == Payload(old(form))
      ensures reply == Ok ==> outcome == Done && !open && form == InitialForm
      ensures reply != Ok ==> outcome == Kept && open == old(open) && form == old(form)
    {
      sent := Payload(form);
      if reply == Ok {
        open := false;
        form := InitialForm;
        outcome := Done;
      } else {
        outcome := Kept;
      }
    }
  }
}
