/**
 * Calendar dates as (year, month, day) triples, the `YYYY-MM-DD` text form in which the API
 * sends them, and the calendar age computed from a birth date.
 */
module Calendar {
  import opened Wrappers
  import opened Text

  /** A calendar date; `month` runs 1..12 and `day` from 1. */
  datatype Date = Date(year: int, month: int, day: int)

  predicate IsLeapYear(y: int) {
    y % 4 == 0 && (y % 100 != 0 || y % 400 == 0)
  }

  function DaysInMonth(y: int, m: int): (n: int)
    requires 1 <= m <= 12
    ensures 28 <= n <= 31
    ensures m == 2 ==> (n == 29 <==> IsLeapYear(y))
  {
    if m == 2 then (if IsLeapYear(y) then 29 else 28)
    else if m == 4 || m == 6 || m == 9 || m == 11 then 30
    else 31
  }

  predicate ValidDate(d: Date) {
    1 <= d.month <= 12 && 1 <= d.day <= DaysInMonth(d.year, d.month)
  }

  /** `(m1, d1)` comes strictly before `(m2, d2)` within a year. */
  predicate MonthDayBefore(m1: int, d1: int, m2: int, d2: int) {
    m1 < m2 || (m1 == m2 && d1 < d2)
  }

  /** Chronological order: `a` is on or before `b`. */
  predicate NotAfter(a: Date, b: Date) {
    a.year < b.year || (a.year == b.year && !MonthDayBefore(b.month, b.day, a.month, a.day))
  }

  // ------------------------------------------------------------ text form

  function Pow10(w: nat): (p: nat)
    ensures p >= 1
  {
    if w == 0 then 1 else 10 * Pow10(w - 1)
  }

  /** The last `w` decimal digits of `n`, with leading zeros. */
  function PadDigits(n: nat, w: nat): (s: string)
    ensures |s| == w && AllDigits(s)
  {
    if w == 0 then "" else PadDigits(n / 10, w - 1) + [DigitChar(n % 10)]
  }

  lemma {:induction false} PadDigitsValue(n: nat, w: nat)
    requires n < Pow10(w)
    ensures DigitsValue(PadDigits(n, w)) == n
  {
    if w > 0 {
      PadDigitsValue(n / 10, w - 1);
      var s := PadDigits(n, w);
      assert s[..|s| - 1] == PadDigits(n / 10, w - 1);
    }
  }

  lemma {:induction false} PadDigitsOfValue(s: string)
    requires AllDigits(s)
    ensures PadDigits(DigitsValue(s), |s|) == s
  {
    if s != [] {
      var init := s[..|s| - 1];
      PadDigitsOfValue(init);
      var n := DigitsValue(s);
      assert n / 10 == DigitsValue(init) && n % 10 == DigitValue(s[|s| - 1]);
      assert DigitChar(n % 10) == s[|s| - 1];
      assert init + [s[|s| - 1]] == s;
    }
  }

  /** The `YYYY-MM-DD` form in which a date is serialised to JSON. */
  function FormatIsoDate(d: Date): (s: string)
    requires 0 <= d.year <= 9999 && ValidDate(d)
    ensures |s| == 10 && s[4] == '-' && s[7] == '-'
  {
    PadDigits(d.year, 4) + "-" + PadDigits(d.month, 2) + "-" + PadDigits(d.day, 2)
  }

  /**
   * A `YYYY-MM-DD` string read as a date; anything else, or a day that the month does not
   * have, is rejected (`None`, an invalid date).
   */
  function ParseIsoDate(s: string): (r: Option<Date>)
    ensures r.Some? ==> ValidDate(r.value) && 0 <= r.value.year <= 9999
    ensures r.Some? ==> |s| == 10
  {
    if |s| == 10 && s[4] == '-' && s[7] == '-'
       && AllDigits(s[..4]) && AllDigits(s[5..7]) && AllDigits(s[8..])
    then
      var d := Date(DigitsValue(s[..4]), DigitsValue(s[5..7]), DigitsValue(s[8..]));
      if d.year <= 9999 && ValidDate(d) then Some(d) else None
    else None
  }

  /** Parsing the serialised form of a date gives the date back. */
  lemma ParseFormat(d: Date)
    requires 0 <= d.year <= 9999 && ValidDate(d)
    ensures ParseIsoDate(FormatIsoDate(d)) == Some(d)
  {
    var s := FormatIsoDate(d);
    assert s[..4] == PadDigits(d.year, 4);
    assert s[5..7] == PadDigits(d.month, 2);
    assert s[8..] == PadDigits(d.day, 2);
    PadDigitsValue(d.year, 4);
    PadDigitsValue(d.month, 2);
    PadDigitsValue(d.day, 2);
  }

  /** A string that parses is exactly the serialised form of what it parses to. */
  lemma FormatParse(s: string)
    requires ParseIsoDate(s).Some?
    ensures FormatIsoDate(ParseIsoDate(s).value) == s
  {
    PadDigitsOfValue(s[..4]);
    PadDigitsOfValue(s[5..7]);
    PadDigitsOfValue(s[8..]);
    assert s == s[..4] + "-" + s[5..7] + "-" + s[8..];
  }

  /**
   * A `date` field as the server reads it. Python's `date` runs from year 1 to year 9999, so
   * the text of a year-0000 day is rejected although it names a calendar day.
   */
  function ParseServerDate(s: string): (r: Option<Date>)
    ensures r.Some? <==> ParseIsoDate(s).Some? && ParseIsoDate(s).value.year >= 1
    ensures r.Some? ==> r == ParseIsoDate(s) && 1 <= r.value.year <= 9999
  {
    match ParseIsoDate(s)
    case Some(d) => if d.year >= 1 then Some(d) else None
    case None => None
  }

  /** The server reads back the sent form of every date it can hold. */
  lemma ServerDateRoundTrip(d: Date)
    requires 1 <= d.year <= 9999 && ValidDate(d)
    ensures ParseServerDate(FormatIsoDate(d)) == Some(d)
  {
    ParseFormat(d);
  }

  /** No text whose year is written "0000" is a date to the server. */
  lemma ServerRejectsYearZeroText(s: string)
    requires |s| >= 4 && s[..4] == "0000"
    ensures ParseServerDate(s).None?
  {
    if ParseIsoDate(s).Some? {
      assert "0"[..0] == "" && "00"[..1] == "0" && "000"[..2] == "00" && "0000"[..3] == "000";
      assert DigitsValue("0000") == 0;
    }
  }

  /** "0000-01-01" names a calendar day, but the server does not accept it as a date. */
  lemma ServerDateRejectsYearZero()
    ensures ParseIsoDate("0000-01-01") == Some(Date(0, 1, 1))
    ensures ParseServerDate("0000-01-01").None?
  {
    var d := Date(0, 1, 1);
    ParseFormat(d);
    assert FormatIsoDate(d) == "0000-01-01";
  }

  // ------------------------------------------------------------------- age

  /**
   * Completed years between `birth` and `now`: the difference of the years, less one when
   * the birthday has not come yet in the year of `now`.
   */
  function Age(birth: Date, now: Date): (a: int)
    ensures a == now.year - birth.year <==> NotAfter(Date(now.year, birth.month, birth.day), now)
    ensures a == now.year - birth.year - 1 <==> !NotAfter(Date(now.year, birth.month, birth.day), now)
  {
    var years := now.year - birth.year;
    if now.month < birth.month || (now.month == birth.month && now.day < birth.day)
    then years - 1
    else years
  }

  /**
   * The age is the number of completed years: the anniversary of that many years is on or
   * before `now`, and the next anniversary is after it.
   */
  lemma AgeIsCompletedYears(birth: Date, now: Date)
    ensures NotAfter(Date(birth.year + Age(birth, now), birth.month, birth.day), now)
    ensures !NotAfter(Date(birth.year + Age(birth, now) + 1, birth.month, birth.day), now)
  {
  }

  /** On the birthday itself the age is the difference of the years. */
  lemma AgeOnBirthday(birth: Date, year: int)
    ensures Age(birth, Date(year, birth.month, birth.day)) == year - birth.year
  {
  }

  /** On the day before the birthday in the same month the age is one less. */
  lemma AgeOnDayBefore(birth: Date, year: int)
    requires birth.day > 1
    ensures Age(birth, Date(year, birth.month, birth.day - 1)) == year - birth.year - 1
  {
  }

  /** A person is never of negative age once born. */
  lemma AgeNonNegative(birth: Date, now: Date)
    requires NotAfter(birth, now)
    ensures Age(birth, now) >= 0
  {
  }

  /** The age never decreases as time goes forward. */
  lemma AgeMonotone(birth: Date, now: Date, later: Date)
    requires NotAfter(now, later)
    ensures Age(birth, now) <= Age(birth, later)
  {
  }
}
