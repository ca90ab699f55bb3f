/**
 * The conversions the dialogs apply between a record and the text fields of a form:
 * a missing value shown as an empty field and sent back as `null`, an id shown as its
 * decimal string and read back with `parseInt`, and the outcome of submitting a form.
 */
module Forms {
  import opened Wrappers
  import opened Text
  import opened Lookup

  /** `s || null`: an empty field is sent as `null`. */
  function EmptyToNull(s: string): (r: Option<string>)
    ensures s == "" <==> r.None?
    ensures s != "" ==> r == Some(s)
  {
    if s == "" then None else Some(s)
  }

  /** A missing text shown as "" and sent back comes back missing; a non-empty text is kept. */
  lemma EmptyRoundTrip(x: Option<string>)
    ensures EmptyToNull(OrElse(x, "")) == if x == Some("") then None else x
  {
  }

  /** `x ? x.toString() : ""`: an optional id shown in a field; `null` and 0 show as "". */
  function IdText(x: Option<int>): (s: string)
    ensures s == "" <==> x.None? || x == Some(0)
  {
    if x.None? || x.value == 0 then "" else IntToString(x.value)
  }

  /** `s ? parseInt(s) : null`: an empty field is `null`; text that is not a number is NaN, sent as `null`. */
  function IdOrNull(s: string): (r: Option<int>)
    ensures s == "" ==> r.None?
    ensures s != "" ==> r == ParseInt(s)
  {
    if s == "" then None else ParseInt(s)
  }

  /** A non-zero id shown in a field and read back is the same id; 0 comes back as `null`. */
  lemma IdRoundTrip(x: Option<int>)
    ensures IdOrNull(IdText(x)) == if x == Some(0) then None else x
  {
    if x.Some? && x.value != 0 {
      ParseIntOfIntToString(x.value);
    }
  }

  /** What submitting a dialog does on screen: whether it closes, tells the page, or alerts. */
  datatype Outcome = Outcome(closed: bool, notified: bool, alert: Option<string>)

  /** Closed and the page told to refresh. */
  const Done := Outcome(true, true, None)

  /** Open, silent. */
  const Kept := Outcome(false, false, None)

  /** Open, with an alert. */
  function Alerted(message: string): (o: Outcome)
    ensures !o.closed && !o.notified && o.alert == Some(message)
  {
    Outcome(false, false, Some(message))
  }

  /** `${date}T${time}:00`: the local date-time of a date field and an `HH:MM` time field. */
  function LocalDateTime(date: string, time: string): (r: string)
    ensures |r| == |date| + |time| + 4
    ensures r[..|date|] == date && r[|date|] == 'T'
    ensures r[|date| + 1..|date| + 1 + |time|] == time && r[|date| + 1 + |time|..] == ":00"
  {
    date + "T" + time + ":00"
  }

  /** A local date-time begins with its date and the "T". */
  lemma LocalDateTimeStartsWithDate(date: string, time: string)
    ensures LocalDateTime(date, time)[..|date| + 1] == date + "T"
  {
    var r := LocalDateTime(date, time);
    assert r[..|date| + 1] == r[..|date|] + [r[|date|]];
  }
}
