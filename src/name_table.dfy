/** The supplier table and the department table. Both pages have the same
    handlers: only `name` is editable, `initialName` is its snapshot, and the apply
    request is a one-element list `{id, name}` (`SnapshotTable.Table` with `Snap` and
    `Differs` below). */
module NameTable {
  import opened Js
  import opened SnapshotTable

  datatype Named = Named(name: Val)

  /** `{...record, name: value}` */
  function Rename(r: Named, value: Val): (s: Named)
    ensures s.name == value
  {
    r.(name := value)
  }

  function Snap(r: Named): Val {
    r.name
  }

  /** `updated.name !== updated.initialName` */
  predicate Differs(r: Named, initialName: Val) {
    r.name != initialName
  }

  /** On load every record's `initialName` is its name, so no row is dirty; a
      rename dirties the row exactly when the new name is not the initial one. */
  lemma RenameDirtyIff(r: Named, initialName: Val, value: Val)
    ensures !Differs(r, Snap(r)) && Coherent(Snap, Differs)
    ensures Differs(Rename(r, value), initialName) <==> value != initialName
  {
  }

  /** After a successful apply the committed row is clean whatever it held. */
  lemma CommitClearsDirty(rows: seq<Row<Named, Val>>, id: int, i: int)
    requires 0 <= i < |rows| && rows[i].id == id
    ensures !Differs(Committed(rows, id, Snap)[i].current, Committed(rows, id, Snap)[i].snapshot)
  {
  }

  datatype ApplyItem = ApplyItem(id: int, name: Val)

  function ApplyPayload(id: int, r: Named): (item: ApplyItem)
    ensures item.id == id && item.name == r.name
  {
    ApplyItem(id, r.name)
  }

  predicate Accepted(count: int) {
    count >= 1
  }
}
