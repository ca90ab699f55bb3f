/**
 * The two JavaScript idioms the pages use to show a related record: `xs.find(p)`, the first
 * element that satisfies a predicate, and `a || b`, which falls back on `b` when `a` is
 * `null`, `undefined` or the empty string.
 */
module Lookup {
  import opened Wrappers

  /** `xs.find(p)`: the first element satisfying `p`, or `undefined` when there is none. */
  function FirstMatch<T>(xs: seq<T>, p: T -> bool): (r: Option<T>)
    ensures r.None? <==> forall i :: 0 <= i < |xs| ==> !p(xs[i])
    ensures r.Some? ==> exists i :: 0 <= i < |xs| && xs[i] == r.value && p(xs[i])
                                    && forall j :: 0 <= j < i ==> !p(xs[j])
  {
    if xs == [] then None
    else if p(xs[0]) then Some(xs[0])
    else
      var r := FirstMatch(xs[1..], p);
      assert forall j :: 1 <= j < |xs| ==> xs[j] == xs[1..][j - 1];
      r
  }

  /** The first match is the element at the first index that satisfies `p`. */
  lemma FirstMatchAt<T>(xs: seq<T>, p: T -> bool, i: int)
    requires 0 <= i < |xs| && p(xs[i])
    requires forall j :: 0 <= j < i ==> !p(xs[j])
    ensures FirstMatch(xs, p) == Some(xs[i])
  {
    var r := FirstMatch(xs, p);
    var k :| 0 <= k < |xs| && xs[k] == r.value && p(xs[k]) && forall j :: 0 <= j < k ==> !p(xs[j]);
    assert !(k < i) && !(i < k);
  }

  /** `s || fallback` for a text that may be missing: the fallback replaces null and "". */
  function OrElse(s: Option<string>, fallback: string): (r: string)
    ensures s.None? || s == Some("") ==> r == fallback
    ensures s.Some? && s.value != "" ==> r == s.value
  {
    if s.Some? && s.value != "" then s.value else fallback
  }

  /** The optional name of an optional record, as `x?.name` reads it. */
  function NameOf<T>(x: Option<T>, name: T -> string): (r: Option<string>)
    ensures x.None? <==> r.None?
    ensures x.Some? ==> r == Some(name(x.value))
  {
    match x
    case None => None
    case Some(v) => Some(name(v))
  }

  /** `${x}` in a template string: a missing value is spelt `undefined`. */
  function Interpolate(x: Option<string>): (r: string)
    ensures x.Some? ==> r == x.value
    ensures x.None? ==> r == "undefined"
  {
    match x
    case Some(s) => s
    case None => "undefined"
  }

  /**
   * `xs.find(x => key(x) === id)?.name || fallback`: the name of the first element whose key
   * is `id`, or the fallback when no element has that key or its name is empty.
   */
  function NameById<T>(xs: seq<T>, key: T -> int, name: T -> string, id: int, fallback: string): (r: string)
    ensures forall i :: 0 <= i < |xs| && key(xs[i]) == id && (forall j :: 0 <= j < i ==> key(xs[j]) != id)
              ==> r == OrElse(Some(name(xs[i])), fallback)
    ensures (forall i :: 0 <= i < |xs| ==> key(xs[i]) != id) ==> r == fallback
  {
    var p := (x: T) => key(x) == id;
    var found := FirstMatch(xs, p);
    assert forall i :: 0 <= i < |xs| && key(xs[i]) == id && (forall j :: 0 <= j < i ==> key(xs[j]) != id)
             ==> found == Some(xs[i]) by {
      forall i | 0 <= i < |xs| && key(xs[i]) == id && (forall j :: 0 <= j < i ==> key(xs[j]) != id) {
        FirstMatchAt(xs, p, i);
      }
    }
    OrElse(NameOf(found, name), fallback)
  }
}
