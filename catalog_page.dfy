/**
 * The attendance catalog of one session: the list of enrolled students with their presence,
 * star rating and note, the edits the page makes to that list, and what it derives from it
 * (attendance figures, initials and avatar colour).
 */
module CatalogPage {
  import opened Wrappers
  import opened Text
  import opened Lookup

  /** One row of the catalog; `rating_profesor` and `note` may be null. */
  datatype CatalogItem = CatalogItem(
    inscriere_id: int, elev_id: int, nume_elev: string, is_prezent: bool,
    rating_profesor: Option<int>, note: Option<string>)

  /** The student whose note is being edited: enrolment id, name and the note to start from. */
  datatype NoteTarget = NoteTarget(id: int, name: string, note: string)

  // ------------------------------------------------------------- list edits

  /** The catalog with presence `status` on every row of enrolment `id`. */
  function SetPresence(c: seq<CatalogItem>, id: int, status: bool): (r: seq<CatalogItem>)
    ensures |r| == |c|
    ensures forall i :: 0 <= i < |c| && c[i].inscriere_id == id ==> r[i] == c[i].(is_prezent := status)
    ensures forall i :: 0 <= i < |c| && c[i].inscriere_id != id ==> r[i] == c[i]
  {
    seq(|c|, i requires 0 <= i < |c| =>
      if c[i].inscriere_id == id then c[i].(is_prezent := status) else c[i])
  }

  /** The catalog with rating `rating` on every row of enrolment `id`. */
  function SetRating(c: seq<CatalogItem>, id: int, rating: int): (r: seq<CatalogItem>)
    ensures |r| == |c|
    ensures forall i :: 0 <= i < |c| && c[i].inscriere_id == id ==> r[i] == c[i].(rating_profesor := Some(rating))
    ensures forall i :: 0 <= i < |c| && c[i].inscriere_id != id ==> r[i] == c[i]
  {
    seq(|c|, i requires 0 <= i < |c| =>
      if c[i].inscriere_id == id then c[i].(rating_profesor := Some(rating)) else c[i])
  }

  /** The catalog with note `text` on every row of enrolment `id`. */
  function SetNote(c: seq<CatalogItem>, id: int, text: string): (r: seq<CatalogItem>)
    ensures |r| == |c|
    ensures forall i :: 0 <= i < |c| && c[i].inscriere_id == id ==> r[i] == c[i].(note := Some(text))
    ensures forall i :: 0 <= i < |c| && c[i].inscriere_id != id ==> r[i] == c[i]
  {
    seq(|c|, i requires 0 <= i < |c| =>
      if c[i].inscriere_id == id then c[i].(note := Some(text)) else c[i])
  }

  /** Marking presence twice with the same status is marking it once. */
  lemma SetPresenceIdempotent(c: seq<CatalogItem>, id: int, status: bool)
    ensures SetPresence(SetPresence(c, id, status), id, status) == SetPresence(c, id, status)
  {
  }

  /** The later of two presence marks on the same enrolment wins. */
  lemma SetPresenceLastWins(c: seq<CatalogItem>, id: int, s1: bool, s2: bool)
    ensures SetPresence(SetPresence(c, id, s1), id, s2) == SetPresence(c, id, s2)
  {
  }

  /** The star toggle: a star (rating 5) is cleared to 0, anything else, null included, becomes 5. */
  function NextRating(current: Option<int>): (r: int)
    ensures r == 0 || r == 5
    ensures r == 0 <==> current == Some(5)
  {
    if current == Some(5) then 0 else 5
  }

  /** Toggling twice brings a rating written by the toggle back to itself. */
  lemma NextRatingInvolution(current: Option<int>)
    requires current == Some(0) || current == Some(5)
    ensures NextRating(Some(NextRating(current))) == current.value
  {
  }

  // -------------------------------------------------------------- statistics

  /** The number of rows marked present. */
  function PresentCount(c: seq<CatalogItem>): (n: nat)
    ensures n <= |c|
  {
    if c == [] then 0 else (if c[0].is_prezent then 1 else 0) + PresentCount(c[1..])
  }

  /** `Math.round(100 * present / total)`, or 0 when the catalog is empty. */
  function Percentage(present: nat, total: nat): (p: int)
    ensures total == 0 ==> p == 0
    ensures p >= 0
  {
    if total > 0 then (200 * present + total) / (2 * total) else 0
  }

  /** The percentage lies between 0 and 100. */
  lemma PercentageBounds(present: nat, total: nat)
    requires present <= total
    ensures 0 <= Percentage(present, total) <= 100
  {
    if total > 0 {
      var t := 2 * total;
      var n := 200 * present + total;
      assert n < 101 * t;
      QuotientBelow(n, t, 101);
    }
  }

  /** A quotient of a number below `k * t` is below `k`. */
  lemma QuotientBelow(n: nat, t: int, k: nat)
    requires t > 0 && n < k * t
    ensures n / t < k
  {
    var q := n / t;
    assert n == q * t + n % t;
    if q >= k {
      MultiplyMonotone(q, k, t);
    }
  }

  lemma MultiplyMonotone(a: int, b: int, t: int)
    requires a >= b && t > 0
    ensures a * t >= b * t
  {
  }

  /**
   * The percentage is 100·present/total rounded to the nearest integer, halves upward:
   * it is within half a point of the exact ratio.
   */
  lemma PercentageRounds(present: nat, total: nat)
    ensures var p := Percentage(present, total);
            total > 0 ==> 2 * total * p - total <= 200 * present < 2 * total * p + total
  {
    if total == 0 {
      return;
    }
    var t := 2 * total;
    var n := 200 * present + total;
    var p := n / t;
    assert n == p * t + n % t && 0 <= n % t < t;
  }

  /** Attendance figures of a catalog: total rows, rows present and the rounded percentage. */
  function Stats(c: seq<CatalogItem>): (s: (nat, nat, int))
    ensures s.0 == |c| && s.1 == PresentCount(c) && s.1 <= s.0
    ensures 0 <= s.2 <= 100
    ensures s.0 == 0 ==> s.2 == 0
    ensures s.0 > 0 ==> 2 * s.0 * s.2 - s.0 <= 200 * s.1 < 2 * s.0 * s.2 + s.0
  {
    var total := |c|;
    var present := PresentCount(c);
    PercentageBounds(present, total);
    PercentageRounds(present, total);
    (total, present, Percentage(present, total))
  }

  /** Marking a row present never lowers the number present; marking it absent never raises it. */
  lemma {:induction false} PresenceMonotone(c: seq<CatalogItem>, id: int)
    ensures PresentCount(SetPresence(c, id, false)) <= PresentCount(c) <= PresentCount(SetPresence(c, id, true))
  {
    if c != [] {
      PresenceMonotone(c[1..], id);
      assert SetPresence(c, id, false)[1..] == SetPresence(c[1..], id, false);
      assert SetPresence(c, id, true)[1..] == SetPresence(c[1..], id, true);
    }
  }

  // ---------------------------------------------------------------- initials

  /** `words.map(n => n[0]).join("")`: the first character of each word; an empty word adds nothing. */
  function Heads(words: seq<string>): string {
    if words == [] then ""
    else (if words[0] == "" then "" else [words[0][0]]) + Heads(words[1..])
  }

  /**
   * Reference definition: the characters of `s` that start a word, a word being a run of
   * characters other than a space; `atStart` says whether the position before `s` is a
   * word boundary.
   */
  function WordStarts(s: string, atStart: bool): string {
    if s == [] then ""
    else if s[0] == ' ' then WordStarts(s[1..], true)
    else (if atStart then [s[0]] else "") + WordStarts(s[1..], false)
  }

  lemma HeadsCons(w: string, rest: seq<string>)
    ensures Heads([w] + rest) == (if w == "" then "" else [w[0]]) + Heads(rest)
  {
    assert ([w] + rest)[1..] == rest;
  }

  /** Splitting at spaces and taking the head of each piece finds exactly the word starts. */
  lemma {:induction false} HeadsOfSplit(s: string)
    ensures Heads(Split(s, ' ')) == WordStarts(s, true)
    ensures Heads(Split(s, ' ')[1..]) == WordStarts(s, false)
  {
    if s != [] {
      var rest := Split(s[1..], ' ');
      HeadsOfSplit(s[1..]);
      if s[0] == ' ' {
        HeadsCons("", rest);
        assert Split(s, ' ') == [""] + rest;
        assert Split(s, ' ')[1..] == rest;
      } else {
        HeadsCons([s[0]] + rest[0], rest[1..]);
        assert Split(s, ' ') == [[s[0]] + rest[0]] + rest[1..];
        assert Split(s, ' ')[1..] == rest[1..];
      }
    }
  }

  /** Every word start is a character other than a space. */
  lemma {:induction false} WordStartsAreNotSpaces(s: string, atStart: bool)
    ensures forall i :: 0 <= i < |WordStarts(s, atStart)| ==> WordStarts(s, atStart)[i] != ' '
  {
    if s != [] {
      WordStartsAreNotSpaces(s[1..], true);
      WordStartsAreNotSpaces(s[1..], false);
    }
  }

  /**
   * `getInitials`: the first characters of the space-separated words, at most two of
   * them, upper-cased.
   */
  function Initials(name: string): (r: string)
    ensures |r| <= 2
    ensures r == Upper(Prefix(WordStarts(name, true), 2))
  {
    HeadsOfSplit(name);
    Upper(Prefix(Heads(Split(name, ' ')), 2))
  }

  /** A two-word name gives the capitals of both words, the initials of a first and last name. */
  lemma InitialsOfTwoWords(first: string, last: string)
    requires first != [] && last != [] && ' ' !in first && ' ' !in last
    ensures Initials(first + " " + last) == [UpperChar(first[0]), UpperChar(last[0])]
  {
    SplitAtFirst(first, ' ', last);
    SplitWithoutSeparator(last, ' ');
    var name := first + " " + last;
    assert Split(name, ' ') == [first, last];
    HeadsOfSplit(name);
    HeadsCons(first, [last]);
    HeadsCons(last, []);
  }

  // ------------------------------------------------------------------ colour

  /** The avatar palette. */
  const Palette: seq<string> := [
    "bg-red-100 text-red-600", "bg-blue-100 text-blue-600", "bg-green-100 text-green-600",
    "bg-purple-100 text-purple-600", "bg-orange-100 text-orange-600"]

  /** JavaScript `a % b`: the remainder takes the sign of the dividend. */
  function JsRem(a: int, b: int): (r: int)
    requires b > 0
    ensures a >= 0 ==> r == a % b
    ensures a < 0 ==> -b < r <= 0
  {
    if a >= 0 then a % b else -((-a) % b)
  }

  /**
   * `colors[id % colors.length]`: the palette entry, or `undefined` (rendered in the class
   * list as "undefined") for a negative remainder.
   */
  function Color(id: int): (r: string)
    ensures id >= 0 ==> r == Palette[id % 5]
    ensures id < 0 && id % 5 != 0 ==> r == "undefined"
    ensures id < 0 && id % 5 == 0 ==> r == Palette[0]
  {
    var k := JsRem(id, |Palette|);
    if k >= 0 then Palette[k] else "undefined"
  }

  /** Non-negative ids with the same remainder modulo 5 get the same colour. */
  lemma ColorPeriodic(a: int, b: int)
    requires a >= 0 && b >= 0 && a % 5 == b % 5
    ensures Color(a) == Color(b)
  {
  }

  // -------------------------------------------------------------- page state

  class Page {
    var catalog: seq<CatalogItem>
    var noteDialogOpen: bool
    var selectedForNote: Option<NoteTarget>

    constructor(loaded: seq<CatalogItem>)
      ensures catalog == loaded && !noteDialogOpen && selectedForNote.None?
    {
      catalog := loaded;
      noteDialogOpen := false;
      selectedForNote := None;
    }

    /** `togglePrezenta`: every row of the enrolment gets the new presence. */
    method TogglePrezenta(id: int, status: bool)
      modifies this`catalog
      ensures catalog == SetPresence(old(catalog), id, status)
    {
      catalog := SetPresence(catalog, id, status);
    }

    /** `toggleStar`: the rating written follows the current rating shown on the row. */
    method ToggleStar(id: int, currentRating: Option<int>) returns (written: int)
      modifies this`catalog
      ensures written == NextRating(currentRating)
      ensures catalog == SetRating(old(catalog), id, written)
    {
      written := if currentRating == Some(5) then 0 else 5;
      catalog := SetRating(catalog, id, written);
    }

    /** `saveNote`: without a selected student nothing changes. */
    method SaveNote(text: string)
      modifies this`catalog
      ensures selectedForNote.None? ==> catalog == old(catalog)
      ensures selectedForNote.Some? ==> catalog == SetNote(old(catalog), selectedForNote.value.id, text)
    {
      if selectedForNote.None? {
        return;
      }
      catalog := SetNote(catalog, selectedForNote.value.id, text);
    }

    /** `openNoteDialog`: the editor starts from the row's note, or "" when it has none. */
    method OpenNoteDialog(item: CatalogItem)
      modifies this`selectedForNote, this`noteDialogOpen
      ensures selectedForNote == Some(NoteTarget(item.inscriere_id, item.nume_elev, OrElse(item.note, "")))
      ensures noteDialogOpen
    {
      selectedForNote := Some(NoteTarget(item.inscriere_id, item.nume_elev, OrElse(item.note, "")));
      noteDialogOpen := true;
    }
  }
}
