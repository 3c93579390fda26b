/** The store-item table: name, unit, measure, price and group are editable and
    tracked against `initial*` snapshots (`SnapshotTable.Table` with `Snap` and
    `Differs` below). */
module ManageStoreItems {
  import opened Js
  import opened SnapshotTable

  datatype StoreItem = StoreItem(name: Val, unit: Val, measure: Val, price: Val, groupId: Val)

  /** `initialName`, `initialUnit`, `initialMeasure`, `initialPrice`, `initialGroupId`:
      the snapshot holds the same five fields. */
  type Initial = StoreItem

  datatype Field = Name | Unit | Measure | Price | GroupId

  function Get(s: StoreItem, f: Field): Val {
    match f
    case Name => s.name
    case Unit => s.unit
    case Measure => s.measure
    case Price => s.price
    case GroupId => s.groupId
  }

  /** `{...item, [field]: value}` */
  function SetField(s: StoreItem, f: Field, value: Val): (r: StoreItem)
    ensures Get(r, f) == value
    ensures forall g :: g != f ==> Get(r, g) == Get(s, g)
  {
    match f
    case Name => s.(name := value)
    case Unit => s.(unit := value)
    case Measure => s.(measure := value)
    case Price => s.(price := value)
    case GroupId => s.(groupId := value)
  }

  function Snap(s: StoreItem): Initial {
    s
  }

  /** `hasChanges`: one of the five fields differs from its initial value. */
  predicate Differs(s: StoreItem, init: Initial) {
    s.name != init.name || s.unit != init.unit || s.measure != init.measure
    || s.price != init.price || s.groupId != init.groupId
  }

  /** Dirty means some tracked field moved; a fresh snapshot is clean. */
  lemma DirtyIffSomeFieldMoved(s: StoreItem, init: Initial)
    ensures Differs(s, init) <==> exists f :: Get(s, f) != Get(init, f)
    ensures Coherent(Snap, Differs)
  {
    if Differs(s, init) {
      if s.name != init.name { assert Get(s, Name) != Get(init, Name); }
      else if s.unit != init.unit { assert Get(s, Unit) != Get(init, Unit); }
      else if s.measure != init.measure { assert Get(s, Measure) != Get(init, Measure); }
      else if s.price != init.price { assert Get(s, Price) != Get(init, Price); }
      else { assert Get(s, GroupId) != Get(init, GroupId); }
    }
  }

  /** A single edit makes a clean item dirty exactly when the new value differs
      from the old one. */
  lemma EditDirtiesIffValueChanged(s: StoreItem, f: Field, value: Val)
    ensures Differs(SetField(s, f, value), Snap(s)) <==> value != Get(s, f)
  {
  }

  /** The apply request: the id and the five tracked fields. */
  datatype ApplyItem = ApplyItem(id: int, fields: StoreItem)

  function ApplyPayload(id: int, s: StoreItem): (item: ApplyItem)
    ensures item.id == id && !Differs(s, item.fields)
  {
    ApplyItem(id, s)
  }

  predicate Accepted(count: int) {
    count >= 1
  }
}
