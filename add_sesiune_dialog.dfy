/**
 * The dialog that schedules a session: its form, the teacher filled in when a group is
 * chosen, the request body with the start and end of the session, and the reset after a
 * successful save.
 */
module AddSesiuneDialog {
  import opened Wrappers
  import opened Text
  import opened Lookup
  import opened Forms
  import opened Web

  datatype Form = Form(
    grupa_id: string, profesor_id: string, data_start: string, ora_start: string,
    ora_end: string, sala: string, tema_lectiei: string, status_sesiune: string)

  /** The body sent to create or update a session. */
  datatype SesiunePayload = SesiunePayload(
    grupa_id: Option<int>, profesor_id: Option<int>, data_ora_start: string,
    data_ora_end: string, sala: string, tema_lectiei: string, status_sesiune: string,
    note: Option<string>)

  const InitialForm := Form("", "", "", "14:00", "16:00", "", "", "planificata")

  /** The teacher field for a chosen group: its regular teacher's id, or "" for an unknown group. */
  function TitularOf(grupe: seq<Grupa>, grupaId: string): (r: string)
    ensures (forall i :: 0 <= i < |grupe| ==> IntToString(grupe[i].id) != grupaId) ==> r == ""
    ensures forall i :: 0 <= i < |grupe| && IntToString(grupe[i].id) == grupaId
              && (forall j :: 0 <= j < i ==> IntToString(grupe[j].id) != grupaId)
              ==> r == IntToString(grupe[i].profesor_titular_id)
  {
    var p := (g: Grupa) => IntToString(g.id) == grupaId;
    var found := FirstMatch(grupe, p);
    assert forall i :: 0 <= i < |grupe| && IntToString(grupe[i].id) == grupaId
             && (forall j :: 0 <= j < i ==> IntToString(grupe[j].id) != grupaId)
             ==> found == Some(grupe[i]) by {
      forall i | 0 <= i < |grupe| && IntToString(grupe[i].id) == grupaId
                 && (forall j :: 0 <= j < i ==> IntToString(grupe[j].id) != grupaId) {
        FirstMatchAt(grupe, p, i);
      }
    }
    match found
    case Some(g) => IntToString(g.profesor_titular_id)
    case None => ""
  }

  /**
   * The body for a form: the ids read with `parseInt`, the start and the end on the date of
   * the start field, and the given note.
   */
  function Payload(f: Form, note: Option<string>): (p: SesiunePayload)
    ensures p.grupa_id == ParseInt(f.grupa_id) && p.profesor_id == ParseInt(f.profesor_id)
    ensures p.data_ora_start == LocalDateTime(f.data_start, f.ora_start)
    ensures p.data_ora_end == LocalDateTime(f.data_start, f.ora_end)
    ensures p.sala == f.sala && p.tema_lectiei == f.tema_lectiei && p.status_sesiune == f.status_sesiune
    ensures p.note == note
  {
    SesiunePayload(ParseInt(f.grupa_id), ParseInt(f.profesor_id),
                   LocalDateTime(f.data_start, f.ora_start), LocalDateTime(f.data_start, f.ora_end),
                   f.sala, f.tema_lectiei, f.status_sesiune, note)
  }

  /** The start and the end of a session always fall on the same date. */
  lemma StartAndEndShareDate(f: Form, note: Option<string>)
    ensures var p := Payload(f, note);
            p.data_ora_start[..|f.data_start| + 1] == p.data_ora_end[..|f.data_start| + 1]
            == f.data_start + "T"
  {
    LocalDateTimeStartsWithDate(f.data_start, f.ora_start);
    LocalDateTimeStartsWithDate(f.data_start, f.ora_end);
  }

  /** A group picked from the loaded list gives its teacher's id back through `parseInt`. */
  lemma TitularIsTeacherId(grupe: seq<Grupa>, i: int)
    requires 0 <= i < |grupe|
    requires forall j :: 0 <= j < i ==> grupe[j].id != grupe[i].id
    ensures ParseInt(TitularOf(grupe, IntToString(grupe[i].id))) == Some(grupe[i].profesor_titular_id)
  {
    forall j | 0 <= j < i ensures IntToString(grupe[j].id) != IntToString(grupe[i].id) {
      ParseIntOfIntToString(grupe[j].id);
      ParseIntOfIntToString(grupe[i].id);
    }
    ParseIntOfIntToString(grupe[i].profesor_titular_id);
  }

  class Dialog {
    var open: bool
    var grupe: seq<Grupa>
    var form: Form

    constructor(grupe: seq<Grupa>)
      ensures !open && this.grupe == grupe && form == InitialForm
    {
      open := false;
      this.grupe := grupe;
      form := InitialForm;
    }

    /** `handleGrupaChange`: the group and its regular teacher; the other fields stay. */
    method HandleGrupaChange(grupaId: string)
      modifies this`form
      ensures form == old(form).(grupa_id := grupaId, profesor_id := TitularOf(grupe, grupaId))
    {
      form := form.(grupa_id := grupaId, profesor_id := TitularOf(grupe, grupaId));
    }

    /**
     * `handleSubmit`: the body is sent with an empty note. After an ok response the dialog
     * closes and only the topic is cleared; otherwise nothing changes.
     */
    method Submit(reply: Reply) returns (sent: SesiunePayload, outcome: Outcome)
      modifies this`open, this`form
      ensures sent == Payload(old(form), Some(""))
      ensures reply == Ok ==> outcome == Done && !open && form == old(form).(tema_lectiei := "")
      ensures reply != Ok ==> outcome == Kept && open == old(open) && form == old(form)
    {
      sent := Payload(form, Some(""));
      if reply == Ok {
        open := false;
        form := form.(tema_lectiei := "");
        outcome := Done;
      } else {
        outcome := Kept;
      }
    }
  }
}
