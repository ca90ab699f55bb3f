/**
 * One database table: its rows in the order a scan returns them. The database gives each
 * new row the id one above the largest id in the table (1 in an empty table) and scans in
 * id order, so a table is a sequence of (id, row) entries with strictly increasing ids.
 */
module Tables {
  import opened Wrappers

  datatype Entry<+R> = Entry(id: int, row: R)

  /** Ids are positive and strictly increasing along the table. */
  predicate Valid<R>(t: seq<Entry<R>>) {
    (forall i :: 0 <= i < |t| ==> t[i].id >= 1)
    && (forall i, j :: 0 <= i < j < |t| ==> t[i].id < t[j].id)
  }

  predicate Has<R>(t: seq<Entry<R>>, id: int) {
    exists i :: 0 <= i < |t| && t[i].id == id
  }

  /** The id the next inserted row receives. */
  function NextId<R>(t: seq<Entry<R>>): (id: int)
    ensures Valid(t) ==> id >= 1 && forall i :: 0 <= i < |t| ==> t[i].id < id
  {
    if t == [] then 1 else t[|t| - 1].id + 1
  }

  /** The row stored under `id`, found by scanning from the start. */
  function Find<R>(t: seq<Entry<R>>, id: int): (r: Option<R>)
    ensures r.None? <==> !Has(t, id)
    ensures r.Some? ==> exists i :: 0 <= i < |t| && t[i] == Entry(id, r.value)
  {
    if t == [] then None
    else if t[0].id == id then Some(t[0].row)
    else
      var r := Find(t[1..], id);
      assert r.Some? ==> exists i :: 1 <= i < |t| && t[i] == Entry(id, r.value) by {
        if r.Some? {
          var k :| 0 <= k < |t[1..]| && t[1..][k] == Entry(id, r.value);
          assert t[k + 1] == Entry(id, r.value);
        }
      }
      r
  }

  /** In a valid table the row found is the one at the position holding the id. */
  lemma {:induction false} FindAt<R>(t: seq<Entry<R>>, i: int)
    requires Valid(t) && 0 <= i < |t|
    ensures Find(t, t[i].id) == Some(t[i].row)
  {
    if i > 0 {
      assert t[0].id < t[i].id;
      assert t[1..][i - 1] == t[i];
      FindAt(t[1..], i - 1);
    }
  }

  /** The table with `row` added at the end under `NextId(t)`. */
  function Insert<R>(t: seq<Entry<R>>, row: R): (r: seq<Entry<R>>)
    ensures Valid(t) ==> Valid(r)
    ensures |r| == |t| + 1 && r[..|t|] == t && r[|t|] == Entry(NextId(t), row)
  {
    t + [Entry(NextId(t), row)]
  }

  /** After an insert the new id finds the new row and every older id finds what it found. */
  lemma InsertFind<R>(t: seq<Entry<R>>, row: R, id: int)
    requires Valid(t)
    ensures Find(Insert(t, row), NextId(t)) == Some(row)
    ensures id != NextId(t) ==> Find(Insert(t, row), id) == Find(t, id)
  {
    var u := Insert(t, row);
    FindAt(u, |t|);
    if id != NextId(t) {
      FindPrefix(t, [Entry(NextId(t), row)], id);
    }
  }

  lemma {:induction false} FindPrefix<R>(t: seq<Entry<R>>, extra: seq<Entry<R>>, id: int)
    requires forall i :: 0 <= i < |extra| ==> extra[i].id != id
    ensures Find(t + extra, id) == Find(t, id)
  {
    if t == [] {
      assert !Has(extra, id);
    } else {
      assert (t + extra)[1..] == t[1..] + extra;
      FindPrefix(t[1..], extra, id);
    }
  }

  /** The table with the row under `id` replaced by `row`; other entries stay as they were. */
  function Replace<R>(t: seq<Entry<R>>, id: int, row: R): (r: seq<Entry<R>>)
    ensures |r| == |t|
    ensures forall i :: 0 <= i < |t| ==> r[i].id == t[i].id
    ensures forall i :: 0 <= i < |t| && t[i].id != id ==> r[i] == t[i]
    ensures forall i :: 0 <= i < |t| && t[i].id == id ==> r[i].row == row
  {
    seq(|t|, i requires 0 <= i < |t| => if t[i].id == id then Entry(id, row) else t[i])
  }

  lemma ReplaceFind<R>(t: seq<Entry<R>>, id: int, row: R, k: int)
    requires Valid(t) && Has(t, id)
    ensures Valid(Replace(t, id, row))
    ensures Find(Replace(t, id, row), id) == Some(row)
    ensures k != id ==> Find(Replace(t, id, row), k) == Find(t, k)
  {
    var u := Replace(t, id, row);
    var i :| 0 <= i < |t| && t[i].id == id;
    FindAt(u, i);
    if k != id {
      if j :| 0 <= j < |t| && t[j].id == k {
        FindAt(t, j);
        FindAt(u, j);
      } else {
        assert !Has(u, k);
      }
    }
  }

  /** The table without the row under `id`. */
  function Remove<R>(t: seq<Entry<R>>, id: int): (r: seq<Entry<R>>)
    ensures |r| <= |t|
    ensures !Has(r, id)
    ensures forall i :: 0 <= i < |r| ==> exists j :: 0 <= j < |t| && t[j] == r[i]
  {
    if t == [] then []
    else
      var rest := Remove(t[1..], id);
      if t[0].id == id then rest
      else
        var r := [t[0]] + rest;
        assert forall i :: 1 <= i < |r| ==> r[i] == rest[i - 1];
        r
  }

  lemma {:induction false} RemoveKeeps<R>(t: seq<Entry<R>>, id: int, k: int)
    requires k != id
    ensures Find(Remove(t, id), k) == Find(t, k)
  {
    if t != [] {
      RemoveKeeps(t[1..], id, k);
    }
  }

  lemma {:induction false} RemoveValid<R>(t: seq<Entry<R>>, id: int)
    requires Valid(t)
    ensures Valid(Remove(t, id))
  {
    if t != [] {
      var tail := t[1..];
      assert Valid(tail) by {
        forall i | 0 <= i < |tail| ensures tail[i] == t[i + 1] { }
      }
      RemoveValid(tail, id);
      if t[0].id != id {
        var rest := Remove(tail, id);
        forall i | 0 <= i < |rest| ensures t[0].id < rest[i].id {
          var j :| 0 <= j < |tail| && tail[j] == rest[i];
          assert t[j + 1] == rest[i];
        }
        ConsValid(t[0], rest);
      }
    }
  }

  /** An entry with a smaller positive id in front of a valid table gives a valid table. */
  lemma ConsValid<R>(e: Entry<R>, rest: seq<Entry<R>>)
    requires Valid(rest) && e.id >= 1
    requires forall i :: 0 <= i < |rest| ==> e.id < rest[i].id
    ensures Valid([e] + rest)
  {
    var r := [e] + rest;
    forall i, j | 0 <= i < j < |r| ensures r[i].id < r[j].id {
      assert r[j] == rest[j - 1];
      if i > 0 {
        assert r[i] == rest[i - 1];
      }
    }
  }

  lemma {:induction false} RemoveAbsent<R>(t: seq<Entry<R>>, id: int)
    requires !Has(t, id)
    ensures Remove(t, id) == t
  {
    if t != [] {
      assert !Has(t[1..], id) by {
        forall j | 0 <= j < |t[1..]| ensures t[1..][j].id != id {
          assert t[1..][j] == t[j + 1];
        }
      }
      RemoveAbsent(t[1..], id);
      assert [t[0]] + t[1..] == t;
    }
  }

  lemma {:induction false} RemoveLength<R>(t: seq<Entry<R>>, id: int)
    requires Valid(t) && Has(t, id)
    ensures |Remove(t, id)| == |t| - 1
  {
    var tail := t[1..];
    if t[0].id == id {
      assert !Has(tail, id) by {
        forall j | 0 <= j < |tail| ensures tail[j].id != id {
          assert tail[j] == t[j + 1];
        }
      }
      RemoveAbsent(tail, id);
    } else {
      var j :| 0 <= j < |t| && t[j].id == id;
      assert tail[j - 1].id == id;
      RemoveLength(tail, id);
    }
  }

  /** Deleting a present id removes exactly that row and leaves every other id's row. */
  lemma RemoveFind<R>(t: seq<Entry<R>>, id: int, k: int)
    requires Valid(t)
    ensures Valid(Remove(t, id)) && Find(Remove(t, id), id).None?
    ensures Has(t, id) ==> |Remove(t, id)| == |t| - 1
    ensures k != id ==> Find(Remove(t, id), k) == Find(t, k)
  {
    RemoveValid(t, id);
    if Has(t, id) {
      RemoveLength(t, id);
    }
    if k != id {
      RemoveKeeps(t, id, k);
    }
  }

  // -------------------------------------------------------------- listing

  /** Where a listing starts: a negative offset counts as no offset. */
  function PageStart<R>(t: seq<Entry<R>>, skip: int): (s: nat)
    ensures s <= |t|
  {
    if skip <= 0 then 0 else if skip >= |t| then |t| else skip
  }

  /**
   * `OFFSET skip LIMIT limit`: the rows from position `skip` on, at most `limit` of them;
   * a negative limit means no limit.
   */
  function Page<R>(t: seq<Entry<R>>, skip: int, limit: int): (r: seq<Entry<R>>)
    ensures limit >= 0 ==> |r| <= limit
    ensures var s := PageStart(t, skip);
      |r| == (if limit < 0 || s + limit >= |t| then |t| - s else limit)
      && r == t[s..s + |r|]
  {
    var s := PageStart(t, skip);
    if limit < 0 || s + limit >= |t| then t[s..] else t[s..s + limit]
  }

  /**
   * Every row of `t` put through the partial conversion `f`, ids kept; nothing when some
   * row has no image.
   */
  function ConvertAll<R, S>(t: seq<Entry<R>>, f: R -> Option<S>): (r: Option<seq<Entry<S>>>)
    ensures r.Some? <==> forall i :: 0 <= i < |t| ==> f(t[i].row).Some?
    ensures r.Some? ==> |r.value| == |t|
    ensures r.Some? ==> forall i :: 0 <= i < |t| ==> r.value[i] == Entry(t[i].id, f(t[i].row).value)
  {
    if forall i :: 0 <= i < |t| ==> f(t[i].row).Some? then
      Some(seq(|t|, i requires 0 <= i < |t| => Entry(t[i].id, f(t[i].row).value)))
    else None
  }

  /** The default listing (`skip` 0, `limit` 100) is the first hundred rows. */
  lemma DefaultPage<R>(t: seq<Entry<R>>)
    ensures Page(t, 0, 100) == if |t| <= 100 then t else t[..100]
  {
  }

  /** Consecutive pages cover the table without gaps or overlaps. */
  lemma PagesConcatenate<R>(t: seq<Entry<R>>, skip: nat, a: nat, b: nat)
    ensures Page(t, skip, a) + Page(t, skip + a, b) == Page(t, skip, a + b)
  {
  }
}
