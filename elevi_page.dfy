/** The students page: the age label shown for a birth date. */
module EleviPage {
  import opened Wrappers
  import opened Text
  import opened Calendar

  /**
   * `getVarsta` on the birth date the API sends and today's date: "-" for a missing date,
   * "NaN ani" for a string that is not a date, and otherwise the completed years and " ani".
   */
  function VarstaLabel(dataNasterii: Option<string>, today: Date): (r: string)
    ensures dataNasterii.None? || dataNasterii == Some("") ==> r == "-"
    ensures dataNasterii.Some? && dataNasterii.value != "" && ParseIsoDate(dataNasterii.value).None?
            ==> r == "NaN ani"
    ensures dataNasterii.Some? && ParseIsoDate(dataNasterii.value).Some?
            ==> r == IntToString(Age(ParseIsoDate(dataNasterii.value).value, today)) + " ani"
  {
    if dataNasterii.None? || dataNasterii.value == "" then "-"
    else
      match ParseIsoDate(dataNasterii.value)
      case None => "NaN ani"
      case Some(birth) => IntToString(Age(birth, today)) + " ani"
  }

  /** The label of a stored birth date, as the API serialises it, is the age in completed years. */
  lemma LabelOfStoredDate(birth: Date, today: Date)
    requires 0 <= birth.year <= 9999 && ValidDate(birth)
    ensures VarstaLabel(Some(FormatIsoDate(birth)), today) == IntToString(Age(birth, today)) + " ani"
  {
    ParseFormat(birth);
  }

  /** For a birth date on or before today the label starts with a digit, never a minus sign. */
  lemma LabelOfBornStudent(birth: Date, today: Date)
    requires 0 <= birth.year <= 9999 && ValidDate(birth) && NotAfter(birth, today)
    ensures var l := VarstaLabel(Some(FormatIsoDate(birth)), today); l != [] && IsDigit(l[0])
  {
    LabelOfStoredDate(birth, today);
    AgeNonNegative(birth, today);
  }
}
