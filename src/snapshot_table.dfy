/** The editable metadata tables (menu items, store items, users, suppliers,
    departments). Loading copies each record's editable fields into `initial*`
    snapshot fields; an edit replaces one field of one record and then adds the id
    to `changedRows` when the record differs from its snapshot and removes it
    otherwise; a successful Apply copies the record into its snapshot and removes
    the id; a successful Delete filters the record out. A page supplies the snapshot
    function (`snap`: which fields are copied, with what defaults) and the
    comparison it writes in its edit handler (`differs`). */
module SnapshotTable {
  import opened Js

  /** A record as the user is editing it, with the snapshot taken of it. */
  datatype Row<V, S> = Row(id: int, current: V, snapshot: S)

  predicate UniqueIds<V, S>(rows: seq<Row<V, S>>) {
    forall i, j :: 0 <= i < j < |rows| ==> rows[i].id != rows[j].id
  }

  /** A snapshot taken from a record never differs from that record. */
  ghost predicate Coherent<V(!new), S>(snap: V -> S, differs: (V, S) -> bool) {
    forall v :: !differs(v, snap(v))
  }

  /** `rows.find(r => r.id === id)` */
  function Find<V, S>(rows: seq<Row<V, S>>, id: int): (r: Option<Row<V, S>>)
    ensures r.None? <==> forall i :: 0 <= i < |rows| ==> rows[i].id != id
    ensures r.Some? ==> r.value in rows && r.value.id == id
  {
    if rows == [] then None
    else if rows[0].id == id then Some(rows[0])
    else
      var rest := Find(rows[1..], id);
      assert forall i :: 1 <= i < |rows| ==> rows[1..][i - 1] == rows[i];
      rest
  }

  /** With distinct ids the row found is the one row carrying the id. */
  lemma FindUnique<V, S>(rows: seq<Row<V, S>>, i: int)
    requires UniqueIds(rows) && 0 <= i < |rows|
    ensures Find(rows, rows[i].id) == Some(rows[i])
  {
    var r := Find(rows, rows[i].id);
    var k :| 0 <= k < |rows| && rows[k] == r.value;
    assert k == i;
  }

  /** The load handler: each fetched `(id, record)` becomes a row whose snapshot is
      taken from the record itself. */
  function Loaded<V, S>(fetched: seq<(int, V)>, snap: V -> S): (r: seq<Row<V, S>>)
    ensures |r| == |fetched|
    ensures forall i :: 0 <= i < |r| ==>
      r[i].id == fetched[i].0 && r[i].current == fetched[i].1 && r[i].snapshot == snap(r[i].current)
  {
    seq(|fetched|, i requires 0 <= i < |fetched| => Row(fetched[i].0, fetched[i].1, snap(fetched[i].1)))
  }

  /** `rows.map(r => r.id === id ? {...r, [field]: value} : r)`, the field update
      given as `edit`; snapshots are untouched. */
  function Edited<V, S>(rows: seq<Row<V, S>>, id: int, edit: V -> V): (r: seq<Row<V, S>>)
    ensures |r| == |rows|
    ensures forall i :: 0 <= i < |r| ==> r[i].id == rows[i].id && r[i].snapshot == rows[i].snapshot
    ensures forall i :: 0 <= i < |r| ==> r[i].current == if rows[i].id == id then edit(rows[i].current) else rows[i].current
  {
    seq(|rows|, i requires 0 <= i < |rows| =>
      if rows[i].id == id then Row(id, edit(rows[i].current), rows[i].snapshot) else rows[i])
  }

  /** Apply's success branch: the matching row's snapshot is retaken from it. */
  function Committed<V, S>(rows: seq<Row<V, S>>, id: int, snap: V -> S): (r: seq<Row<V, S>>)
    ensures |r| == |rows|
    ensures forall i :: 0 <= i < |r| ==> r[i].id == rows[i].id && r[i].current == rows[i].current
    ensures forall i :: 0 <= i < |r| ==> r[i].snapshot == if rows[i].id == id then snap(rows[i].current) else rows[i].snapshot
  {
    seq(|rows|, i requires 0 <= i < |rows| =>
      if rows[i].id == id then Row(id, rows[i].current, snap(rows[i].current)) else rows[i])
  }

  /** Delete's success branch: `rows.filter(r => r.id !== id)`. */
  function Without<V, S>(rows: seq<Row<V, S>>, id: int): (r: seq<Row<V, S>>)
    ensures |r| <= |rows|
    ensures forall k :: 0 <= k < |r| ==> r[k] in rows && r[k].id != id
    ensures forall i :: 0 <= i < |rows| && rows[i].id != id ==> rows[i] in r
  {
    if rows == [] then []
    else
      var rest := Without(rows[1..], id);
      assert forall i :: 1 <= i < |rows| ==> rows[1..][i - 1] == rows[i];
      if rows[0].id == id then rest else [rows[0]] + rest
  }

  /** The filter keeps the order of the rows it keeps: it distributes over
      concatenation, and a single row stays exactly when its id is not the one
      deleted. */
  lemma {:induction false} WithoutAppend<V, S>(a: seq<Row<V, S>>, b: seq<Row<V, S>>, id: int)
    ensures Without(a + b, id) == Without(a, id) + Without(b, id)
    ensures |a| == 1 ==> Without(a, id) == if a[0].id == id then [] else a
  {
    if a == [] {
      assert a + b == b;
    } else {
      assert (a + b)[0] == a[0] && (a + b)[1..] == a[1..] + b;
      WithoutAppend(a[1..], b, id);
      if |a| == 1 {
        assert a[1..] == [];
      }
    }
  }

  lemma {:induction false} WithoutKeepsUnique<V, S>(rows: seq<Row<V, S>>, id: int)
    requires UniqueIds(rows)
    ensures UniqueIds(Without(rows, id))
  {
    if rows != [] {
      WithoutKeepsUnique(rows[1..], id);
      if rows[0].id != id {
        WithoutTailDistinct(rows, id);
        ConsUnique(rows[0], Without(rows[1..], id));
        assert Without(rows, id) == [rows[0]] + Without(rows[1..], id);
      }
    }
  }

  /** No row surviving from the tail shares the head's id. */
  lemma WithoutTailDistinct<V, S>(rows: seq<Row<V, S>>, id: int)
    requires rows != [] && UniqueIds(rows)
    ensures forall j :: 0 <= j < |Without(rows[1..], id)| ==> rows[0].id != Without(rows[1..], id)[j].id
  {
    var tail := Without(rows[1..], id);
    forall j | 0 <= j < |tail| ensures rows[0].id != tail[j].id {
      var m :| 0 <= m < |rows[1..]| && rows[1..][m] == tail[j];
      assert rows[m + 1] == tail[j];
    }
  }

  lemma ConsUnique<V, S>(head: Row<V, S>, tail: seq<Row<V, S>>)
    requires UniqueIds(tail)
    requires forall j :: 0 <= j < |tail| ==> head.id != tail[j].id
    ensures UniqueIds([head] + tail)
  {
    var r := [head] + tail;
    forall i, j | 0 <= i < j < |r| ensures r[i].id != r[j].id {
      assert r[j] == tail[j - 1];
      if i > 0 {
        assert r[i] == tail[i - 1];
      }
    }
  }

  class Table<V(==,!new), S(==)> {
    const snap: V -> S
    const differs: (V, S) -> bool
    var rows: seq<Row<V, S>>
    var changed: set<int>

    ghost predicate Valid()
      reads this
    {
      UniqueIds(rows)
    }

    /** The highlight and the Apply button of a row are driven by `changedRows`;
        this is the property that they show exactly the rows differing from their
        snapshots. */
    ghost predicate Tracks()
      reads this
    {
      forall i :: 0 <= i < |rows| ==> (rows[i].id in changed <==> differs(rows[i].current, rows[i].snapshot))
    }

    constructor (snap: V -> S, differs: (V, S) -> bool)
      ensures this.snap == snap && this.differs == differs
      ensures rows == [] && changed == {}
      ensures Valid() && Tracks()
    {
      this.snap := snap;
      this.differs := differs;
      rows := [];
      changed := {};
    }

    /** Loading (also the Refresh button) replaces the rows and takes fresh
        snapshots, but leaves `changedRows` as it was: the invariant then holds
        exactly when none of the reloaded ids is still in the set. */
    method Load(fetched: seq<(int, V)>)
      requires forall i, j :: 0 <= i < j < |fetched| ==> fetched[i].0 != fetched[j].0
      modifies this`rows
      ensures rows == Loaded(fetched, snap)
      ensures Valid()
      ensures Coherent(snap, differs) ==>
        (Tracks() <==> forall i :: 0 <= i < |fetched| ==> fetched[i].0 !in changed)
    {
      rows := Loaded(fetched, snap);
      if Coherent(snap, differs) {
        if Tracks() {
          forall i | 0 <= i < |fetched| ensures fetched[i].0 !in changed {
            assert !differs(rows[i].current, snap(rows[i].current));
          }
        }
      }
    }

    /** The edit handler: update the record, then add or remove its id by
        comparing the updated record with its snapshot. */
    method Change(id: int, edit: V -> V)
      requires Valid()
      modifies this
      ensures Valid()
      ensures rows == Edited(old(rows), id, edit)
      ensures changed == match Find(rows, id)
        case None => old(changed)
        case Some(r) => if differs(r.current, r.snapshot) then old(changed) + {id} else old(changed) - {id}
      ensures old(Tracks()) ==> Tracks()
    {
      ghost var before := rows;
      ghost var wasTracking := Tracks();
      rows := Edited(rows, id, edit);
      var found := Find(rows, id);
      if found.Some? {
        if differs(found.value.current, found.value.snapshot) {
          changed := changed + {id};
        } else {
          changed := changed - {id};
        }
      }
      if wasTracking {
        forall i | 0 <= i < |rows|
          ensures rows[i].id in changed <==> differs(rows[i].current, rows[i].snapshot)
        {
          if rows[i].id == id {
            FindUnique(rows, i);
          } else {
            assert rows[i] == before[i];
          }
        }
      }
    }

    /** The Apply handler: nothing is sent when no row has the id; otherwise the
        row's record is sent, and when the server accepts it the snapshot is
        retaken and the id removed. A refusal leaves everything as it was. */
    method Apply(id: int, accepted: bool) returns (sent: Option<V>)
      requires Valid()
      modifies this
      ensures Valid()
      ensures sent == match Find(old(rows), id)
        case None => None
        case Some(r) => Some(r.current)
      ensures if sent.Some? && accepted
        then rows == Committed(old(rows), id, snap) && changed == old(changed) - {id}
        else rows == old(rows) && changed == old(changed)
      ensures Coherent(snap, differs) && old(Tracks()) ==> Tracks()
    {
      var found := Find(rows, id);
      if found.None? {
        return None;
      }
      sent := Some(found.value.current);
      if accepted {
        ghost var before := rows;
        ghost var wasTracking := Tracks();
        rows := Committed(rows, id, snap);
        changed := changed - {id};
        if wasTracking && Coherent(snap, differs) {
          forall i | 0 <= i < |rows|
            ensures rows[i].id in changed <==> differs(rows[i].current, rows[i].snapshot)
          {
            if rows[i].id == id {
              assert !differs(rows[i].current, snap(rows[i].current));
            } else {
              assert rows[i] == before[i];
            }
          }
        }
      }
    }

    /** The Delete handler: after the confirmation dialog and the server's
        acceptance the row is filtered out; `changedRows` is not touched. */
    method Delete(id: int, confirmed: bool, accepted: bool)
      requires Valid()
      modifies this`rows
      ensures Valid()
      ensures rows == if confirmed && accepted then Without(old(rows), id) else old(rows)
      ensures old(Tracks()) ==> Tracks()
    {
      if confirmed && accepted {
        WithoutKeepsUnique(rows, id);
        ghost var before := rows;
        ghost var wasTracking := Tracks();
        rows := Without(rows, id);
        if wasTracking {
          forall k | 0 <= k < |rows|
            ensures rows[k].id in changed <==> differs(rows[k].current, rows[k].snapshot)
          {
            var i :| 0 <= i < |before| && before[i] == rows[k];
          }
        }
      }
    }
  }
}
