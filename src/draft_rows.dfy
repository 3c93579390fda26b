/** The draft-row list that every bulk-entry page keeps in state: a sequence of
    rows, each with an id and the page's own form fields. The pages append three
    blank rows at a time, edit one row by id, delete one row by id, and on submit
    keep the rows that pass a filter and map them to the request payload. */
module DraftRows {

  datatype Draft<F> = Draft(id: int, fields: F)

  predicate IdsUnique<F>(rows: seq<Draft<F>>) {
    forall i, j :: 0 <= i < j < |rows| ==> rows[i].id != rows[j].id
  }

  predicate IdsIncreasing<F>(rows: seq<Draft<F>>) {
    forall i, j :: 0 <= i < j < |rows| ==> rows[i].id < rows[j].id
  }

  predicate IdsBelow<F>(rows: seq<Draft<F>>, bound: int) {
    forall i :: 0 <= i < |rows| ==> rows[i].id < bound
  }

  /** The id of the last row, or 0 for an empty list. */
  function LastId<F>(rows: seq<Draft<F>>): int {
    if rows == [] then 0 else rows[|rows| - 1].id
  }

  /** The three blank rows with ids `first`, `first + 1`, `first + 2`. */
  function Block<F>(first: int, blank: F): seq<Draft<F>> {
    [Draft(first, blank), Draft(first + 1, blank), Draft(first + 2, blank)]
  }

  /** Appends three blank rows numbered after the last row's id
      (`lastId + 1 .. lastId + 3`), as the pages that number rows 1, 2, 3, … do. */
  method AppendSequential<F>(rows: seq<Draft<F>>, blank: F) returns (r: seq<Draft<F>>)
    ensures r == rows + Block(LastId(rows) + 1, blank)
  {
    var lastId := LastId(rows);
    var added: seq<Draft<F>> := [];
    for i := 1 to 4
      invariant |added| == i - 1
      invariant forall k :: 0 <= k < i - 1 ==> added[k] == Draft(lastId + k + 1, blank)
    {
      added := added + [Draft(lastId + i, blank)];
    }
    r := rows + added;
  }

  /** Appends three blank rows with ids `now`, `now + 1`, `now + 2`, as the pages
      that number rows by a millisecond clock reading do; `now` is that reading. */
  method AppendTimed<F>(rows: seq<Draft<F>>, now: int, blank: F) returns (r: seq<Draft<F>>)
    ensures r == rows + Block(now, blank)
  {
    var added: seq<Draft<F>> := [];
    for i := 0 to 3
      invariant |added| == i
      invariant forall k :: 0 <= k < i ==> added[k] == Draft(now + k, blank)
    {
      added := added + [Draft(now + i, blank)];
    }
    r := rows + added;
  }

  /** Numbering after the last id keeps increasing ids increasing. */
  lemma SequentialKeepsIncreasing<F>(rows: seq<Draft<F>>, blank: F)
    requires IdsIncreasing(rows)
    ensures IdsIncreasing(rows + Block(LastId(rows) + 1, blank))
  {
    var r := rows + Block(LastId(rows) + 1, blank);
    forall i, j | 0 <= i < j < |r| ensures r[i].id < r[j].id {
      if j >= |rows| && i < |rows| {
        assert rows[i].id <= LastId(rows);
      }
    }
  }

  /** Clock-numbered rows get ids distinct from each other and, when every earlier
      row is older than the clock reading, from every earlier row. */
  lemma TimedKeepsUnique<F>(rows: seq<Draft<F>>, now: int, blank: F)
    requires IdsUnique(rows) && IdsBelow(rows, now)
    ensures IdsUnique(rows + Block(now, blank))
  {
  }

  /** `rows.map(row => row.id === id ? edit(row) : row)` */
  function Update<F>(rows: seq<Draft<F>>, id: int, edit: F -> F): (r: seq<Draft<F>>)
    ensures |r| == |rows|
    ensures forall i :: 0 <= i < |rows| ==> r[i].id == rows[i].id
    ensures forall i :: 0 <= i < |rows| && rows[i].id != id ==> r[i] == rows[i]
    ensures forall i :: 0 <= i < |rows| && rows[i].id == id ==> r[i].fields == edit(rows[i].fields)
  {
    seq(|rows|, i requires 0 <= i < |rows| =>
      if rows[i].id == id then Draft(id, edit(rows[i].fields)) else rows[i])
  }

  /** Editing keeps the ids, so it keeps them distinct and ordered, and an edit of
      an id no row has changes nothing. */
  lemma UpdateKeepsIds<F>(rows: seq<Draft<F>>, id: int, edit: F -> F)
    ensures IdsUnique(rows) ==> IdsUnique(Update(rows, id, edit))
    ensures IdsIncreasing(rows) ==> IdsIncreasing(Update(rows, id, edit))
    ensures (forall i :: 0 <= i < |rows| ==> rows[i].id != id) ==> Update(rows, id, edit) == rows
  {
  }

  /** `rows.filter(row => row.id !== id)` */
  function Delete<F>(rows: seq<Draft<F>>, id: int): (r: seq<Draft<F>>)
    ensures |r| <= |rows|
    ensures forall i :: 0 <= i < |r| ==> r[i].id != id
    ensures forall k :: 0 <= k < |r| ==> r[k] in rows
    ensures forall i :: 0 <= i < |rows| && rows[i].id != id ==> rows[i] in r
  {
    if rows == [] then []
    else if rows[0].id == id then Delete(rows[1..], id)
    else [rows[0]] + Delete(rows[1..], id)
  }

  /** Deletion goes row by row and keeps the order of what it keeps: it
      distributes over concatenation, and a single row stays exactly when its id
      is not the one deleted. */
  lemma {:induction false} DeleteAppend<F>(a: seq<Draft<F>>, b: seq<Draft<F>>, id: int)
    ensures Delete(a + b, id) == Delete(a, id) + Delete(b, id)
    ensures |a| == 1 ==> Delete(a, id) == if a[0].id == id then [] else a
  {
    if a == [] {
      assert a + b == b;
    } else {
      assert (a + b)[0] == a[0] && (a + b)[1..] == a[1..] + b;
      DeleteAppend(a[1..], b, id);
      if |a| == 1 {
        assert a[1..] == [];
      }
    }
  }

  /** Deleting an id no row has changes nothing. */
  lemma {:induction false} DeleteAbsent<F>(rows: seq<Draft<F>>, id: int)
    requires forall i :: 0 <= i < |rows| ==> rows[i].id != id
    ensures Delete(rows, id) == rows
  {
    if rows != [] {
      DeleteAbsent(rows[1..], id);
      assert [rows[0]] + rows[1..] == rows;
    }
  }

  /** Deleting twice is deleting once. */
  lemma DeleteIdempotent<F>(rows: seq<Draft<F>>, id: int)
    ensures Delete(Delete(rows, id), id) == Delete(rows, id)
  {
    DeleteAbsent(Delete(rows, id), id);
  }

  /** Surviving rows keep their relative order, so increasing ids stay increasing. */
  lemma {:induction false} DeleteKeepsIncreasing<F>(rows: seq<Draft<F>>, id: int)
    requires IdsIncreasing(rows)
    ensures IdsIncreasing(Delete(rows, id))
  {
    if rows != [] {
      var tail := Delete(rows[1..], id);
      DeleteKeepsIncreasing(rows[1..], id);
      if rows[0].id != id {
        DeleteAbove(rows, id);
        ConsIncreasing(rows[0], tail);
      }
    }
  }

  /** The rows surviving from the tail all have ids above the head's. */
  lemma DeleteAbove<F>(rows: seq<Draft<F>>, id: int)
    requires rows != [] && IdsIncreasing(rows)
    ensures forall j :: 0 <= j < |Delete(rows[1..], id)| ==> rows[0].id < Delete(rows[1..], id)[j].id
  {
    var tail := Delete(rows[1..], id);
    forall j | 0 <= j < |tail| ensures rows[0].id < tail[j].id {
      var m :| 0 <= m < |rows[1..]| && rows[1..][m] == tail[j];
      assert rows[m + 1] == tail[j];
    }
  }

  lemma ConsIncreasing<F>(head: Draft<F>, tail: seq<Draft<F>>)
    requires IdsIncreasing(tail)
    requires forall j :: 0 <= j < |tail| ==> head.id < tail[j].id
    ensures IdsIncreasing([head] + tail)
  {
    var r := [head] + tail;
    forall i, j | 0 <= i < j < |r| ensures r[i].id < r[j].id {
      assert r[j] == tail[j - 1];
      if i > 0 {
        assert r[i] == tail[i - 1];
      }
    }
  }

  /** Deleting keeps distinct ids distinct. */
  lemma {:induction false} DeleteKeepsUnique<F>(rows: seq<Draft<F>>, id: int)
    requires IdsUnique(rows)
    ensures IdsUnique(Delete(rows, id))
  {
    if rows != [] {
      var tail := Delete(rows[1..], id);
      DeleteKeepsUnique(rows[1..], id);
      if rows[0].id != id {
        forall j | 0 <= j < |tail| ensures rows[0].id != tail[j].id {
          var m :| 0 <= m < |rows[1..]| && rows[1..][m] == tail[j];
          assert rows[m + 1] == tail[j];
        }
      }
    }
  }

  /** With distinct ids, deleting removes at most one row. */
  lemma {:induction false} DeleteUniqueRemovesAtMostOne<F>(rows: seq<Draft<F>>, id: int)
    requires IdsUnique(rows)
    ensures |Delete(rows, id)| >= |rows| - 1
  {
    if rows != [] {
      if rows[0].id == id {
        forall i | 0 <= i < |rows[1..]| ensures rows[1..][i].id != id {
          assert rows[1..][i] == rows[i + 1];
        }
        DeleteAbsent(rows[1..], id);
      } else {
        DeleteUniqueRemovesAtMostOne(rows[1..], id);
      }
    }
  }

  /** Submit's filter-then-map: the payload items of the rows that `keep` accepts,
      in row order. */
  function Select<F, P>(rows: seq<Draft<F>>, keep: F -> bool, conv: F -> P): (r: seq<P>)
    ensures |r| <= |rows|
    ensures r == [] <==> forall i :: 0 <= i < |rows| ==> !keep(rows[i].fields)
    ensures forall k :: 0 <= k < |r| ==> exists i :: 0 <= i < |rows| && keep(rows[i].fields) && r[k] == conv(rows[i].fields)
  {
    if rows == [] then []
    else
      var rest := Select(rows[1..], keep, conv);
      assert forall i :: 1 <= i < |rows| ==> rows[1..][i - 1] == rows[i];
      if keep(rows[0].fields) then [conv(rows[0].fields)] + rest else rest
  }

  /** Every accepted row contributes its payload item: selection misses nothing. */
  lemma {:induction false} SelectComplete<F, P>(rows: seq<Draft<F>>, keep: F -> bool, conv: F -> P, i: int)
    requires 0 <= i < |rows| && keep(rows[i].fields)
    ensures conv(rows[i].fields) in Select(rows, keep, conv)
  {
    if i > 0 {
      SelectComplete(rows[1..], keep, conv, i - 1);
    }
  }

  /** Selection distributes over concatenation. */
  lemma {:induction false} SelectAppend<F, P>(a: seq<Draft<F>>, b: seq<Draft<F>>, keep: F -> bool, conv: F -> P)
    ensures Select(a + b, keep, conv) == Select(a, keep, conv) + Select(b, keep, conv)
  {
    if a == [] {
      assert a + b == b;
    } else {
      var x := a[0];
      var t := a[1..];
      var head := if keep(x.fields) then [conv(x.fields)] else [];
      assert a == [x] + t;
      assert a + b == [x] + (t + b);
      calc {
        Select(a + b, keep, conv);
        Select([x] + (t + b), keep, conv);
        { SelectCons(x, t + b, keep, conv); }
        head + Select(t + b, keep, conv);
        { SelectAppend(t, b, keep, conv); }
        head + (Select(t, keep, conv) + Select(b, keep, conv));
        (head + Select(t, keep, conv)) + Select(b, keep, conv);
        { SelectCons(x, t, keep, conv); }
        Select([x] + t, keep, conv) + Select(b, keep, conv);
        Select(a, keep, conv) + Select(b, keep, conv);
      }
    }
  }

  lemma SelectCons<F, P>(x: Draft<F>, t: seq<Draft<F>>, keep: F -> bool, conv: F -> P)
    ensures Select([x] + t, keep, conv)
      == (if keep(x.fields) then [conv(x.fields)] else []) + Select(t, keep, conv)
  {
    assert ([x] + t)[1..] == t;
  }

  /** `rows.some(row => pred(row))` */
  predicate AnyRow<F>(rows: seq<Draft<F>>, pred: F -> bool) {
    exists i :: 0 <= i < |rows| && pred(rows[i].fields)
  }

  /** When the validity test implies the submit filter, a form that passes the
      validity test always submits at least one item. */
  lemma ValidFormSubmitsSomething<F, P>(rows: seq<Draft<F>>, valid: F -> bool, keep: F -> bool, conv: F -> P)
    requires forall f :: valid(f) ==> keep(f)
    requires AnyRow(rows, valid)
    ensures Select(rows, keep, conv) != []
  {
    var i :| 0 <= i < |rows| && valid(rows[i].fields);
    assert keep(rows[i].fields);
  }
}
