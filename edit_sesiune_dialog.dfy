/**
 * The dialog that edits a session: the form read out of the session's `YYYY-MM-DDTHH:MM:SS`
 * local date-times (the extended ISO 8601 layout, RFC 3339 `full-date "T" partial-time`
 * without an offset), the body built back from it, and what a reply does.
 */
module EditSesiuneDialog {
  import opened Wrappers
  import opened Text
  import opened Lookup
  import opened Forms
  import opened Web
  import AddSesiuneDialog

  /** The edit form; a time is missing when the date-time it came from has no "T". */
  datatype Form = Form(
    grupa_id: string, profesor_id: string, data_start: string, ora_start: Option<string>,
    ora_end: Option<string>, sala: string, tema_lectiei: string, status_sesiune: string)

  /** `s.split("T")[0]`: the date part, everything before the first "T". */
  function DatePart(s: string): (d: string)
    ensures 'T' !in d && |d| <= |s| && d == s[..|d|]
    ensures |d| < |s| ==> s[|d|] == 'T'
  {
    Split(s, 'T')[0]
  }

  /** `s.split("T")[1]?.substring(0, 5)`: the `HH:MM` after the first "T", if there is a "T". */
  function TimePart(s: string): (t: Option<string>)
    ensures t.Some? <==> 'T' in s
    ensures t.Some? ==> |t.value| <= 5
  {
    var parts := Split(s, 'T');
    if |parts| >= 2 then Some(Prefix(parts[1], 5)) else None
  }

  /** The date and time parts of `d + "T" + rest` when `d` has no "T". */
  lemma PartsOf(d: string, rest: string)
    requires 'T' !in d
    ensures DatePart(d + "T" + rest) == d
    ensures TimePart(d + "T" + rest) == Some(Prefix(Split(rest, 'T')[0], 5))
  {
    SplitAtFirst(d, 'T', rest);
  }

  /** A date-time without a "T" has no time part; it is all date. */
  lemma PartsOfDateOnly(s: string)
    requires 'T' !in s
    ensures DatePart(s) == s && TimePart(s).None?
  {
    SplitWithoutSeparator(s, 'T');
  }

  /** The form the dialog starts with, read from the session. */
  function FormOf(s: Sesiune): (f: Form)
    ensures f.data_start == DatePart(s.data_ora_start)
    ensures f.ora_start == TimePart(s.data_ora_start) && f.ora_end == TimePart(s.data_ora_end)
    ensures f.grupa_id == IntToString(s.grupa_id) && f.profesor_id == IntToString(s.profesor_id)
    ensures f.sala == OrElse(s.sala, "") && f.tema_lectiei == OrElse(s.tema_lectiei, "")
    ensures f.status_sesiune == s.status_sesiune
  {
    Form(IntToString(s.grupa_id), IntToString(s.profesor_id), DatePart(s.data_ora_start),
         TimePart(s.data_ora_start), TimePart(s.data_ora_end),
         OrElse(s.sala, ""), OrElse(s.tema_lectiei, ""), s.status_sesiune)
  }

  /**
   * The body for the form: like the body of a new session, with a missing time written as
   * "undefined" by the template string, and the session's own note.
   */
  function Payload(f: Form, s: Sesiune): (p: AddSesiuneDialog.SesiunePayload)
    ensures p.data_ora_start == LocalDateTime(f.data_start, Interpolate(f.ora_start))
    ensures p.data_ora_end == LocalDateTime(f.data_start, Interpolate(f.ora_end))
    ensures p.grupa_id == ParseInt(f.grupa_id) && p.profesor_id == ParseInt(f.profesor_id)
    ensures p.note == s.note
  {
    AddSesiuneDialog.Payload(
      AddSesiuneDialog.Form(f.grupa_id, f.profesor_id, f.data_start, Interpolate(f.ora_start),
                            Interpolate(f.ora_end), f.sala, f.tema_lectiei, f.status_sesiune),
      s.note)
  }

  /** An `HH:MM:SS` time of day. */
  predicate IsTimeOfDay(t: string) {
    |t| == 8 && t[2] == ':' && t[5] == ':'
    && IsDigit(t[0]) && IsDigit(t[1]) && IsDigit(t[3]) && IsDigit(t[4]) && IsDigit(t[6]) && IsDigit(t[7])
  }

  /**
   * Saving an unchanged form: for a start `D` + "T" + `HH:MM:SS` the start sent back is
   * `D` + "T" + `HH:MM:00`, the seconds dropped; the end keeps its own time of day but is
   * put on the start's date, whatever date the end had.
   */
  lemma UnchangedFormRoundTrip(s: Sesiune, d: string, start: string, endDate: string, end: string)
    requires 'T' !in d && 'T' !in endDate && IsTimeOfDay(start) && IsTimeOfDay(end)
    requires s.data_ora_start == d + "T" + start && s.data_ora_end == endDate + "T" + end
    ensures Payload(FormOf(s), s).data_ora_start == d + "T" + start[..5] + ":00"
    ensures Payload(FormOf(s), s).data_ora_end == d + "T" + end[..5] + ":00"
    ensures Payload(FormOf(s), s).grupa_id == Some(s.grupa_id)
    ensures Payload(FormOf(s), s).profesor_id == Some(s.profesor_id)
  {
    PartsOfDateTime(d, start);
    PartsOfDateTime(endDate, end);
    ParseIntOfIntToString(s.grupa_id);
    ParseIntOfIntToString(s.profesor_id);
  }

  /** A `date "T" HH:MM:SS` date-time splits into the date and the `HH:MM` of its time. */
  lemma PartsOfDateTime(d: string, t: string)
    requires 'T' !in d && IsTimeOfDay(t)
    ensures DatePart(d + "T" + t) == d && TimePart(d + "T" + t) == Some(t[..5])
  {
    PartsOf(d, t);
    assert 'T' !in t by {
      assert forall i :: 0 <= i < 8 ==> IsDigit(t[i]) || t[i] == ':';
    }
    SplitWithoutSeparator(t, 'T');
  }

  /** Saving a session whose start has no time sends the text "undefined" in its place. */
  lemma DateOnlyStartSendsUndefined(s: Sesiune)
    requires 'T' !in s.data_ora_start
    ensures Payload(FormOf(s), s).data_ora_start == s.data_ora_start + "Tundefined:00"
  {
    var x := s.data_ora_start;
    PartsOfDateOnly(x);
    var f := FormOf(s);
    assert f.data_start == x && f.ora_start.None?;
    assert LocalDateTime(x, "undefined") == x + "Tundefined:00";
  }

  /** `handleSubmit`'s reply: ok closes and refreshes; any other response alerts; a throw is silent. */
  function SubmitOutcome(reply: Reply): (o: Outcome)
    ensures reply == Ok ==> o == Done
    ensures reply == NotOk ==> o == Alerted("Eroare la actualizare.")
    ensures reply == Thrown ==> o == Kept
  {
    match reply
    case Ok => Done
    case NotOk => Alerted("Eroare la actualizare.")
    case Thrown => Kept
  }
}
