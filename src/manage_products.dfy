/** The menu-item table: name, department, master item and price are editable and
    tracked against `initial*` snapshots; two counters report how many items sold in
    the last week and the last month. The state machine is `SnapshotTable.Table`
    with `Snap` and `Differs` below. */
module ManageProducts {
  import opened Js
  import opened SnapshotTable

  datatype Product = Product(
    name: Val, departmentId: Val, masterItemId: Val, price: Val,
    weeklyItemsSold: Val, monthlyItemsSold: Val)

  /** The `initialName`, `initialDepartmentId`, `initialMasterItemId` and
      `initialPrice` fields. */
  datatype Initial = Initial(name: Val, departmentId: Val, masterItemId: Val, price: Val)

  datatype Field = Name | DepartmentId | MasterItemId | Price

  function Get(p: Product, f: Field): Val {
    match f
    case Name => p.name
    case DepartmentId => p.departmentId
    case MasterItemId => p.masterItemId
    case Price => p.price
  }

  /** `{...product, [field]: value}` */
  function SetField(p: Product, f: Field, value: Val): (r: Product)
    ensures Get(r, f) == value
    ensures forall g :: g != f ==> Get(r, g) == Get(p, g)
    ensures r.weeklyItemsSold == p.weeklyItemsSold && r.monthlyItemsSold == p.monthlyItemsSold
  {
    match f
    case Name => p.(name := value)
    case DepartmentId => p.(departmentId := value)
    case MasterItemId => p.(masterItemId := value)
    case Price => p.(price := value)
  }

  /** The snapshot taken on load and on a successful apply. */
  function Snap(p: Product): Initial {
    Initial(p.name, p.departmentId, p.masterItemId, p.price)
  }

  /** The edit handler's `hasChanges`: one of the four fields differs from its
      initial value under `!==`. */
  predicate Differs(p: Product, s: Initial) {
    p.name != s.name || p.departmentId != s.departmentId
    || p.masterItemId != s.masterItemId || p.price != s.price
  }

  /** A record is dirty exactly when its snapshot would change if retaken now; in
      particular a freshly taken snapshot is clean. */
  lemma DirtyIffSnapshotMoved(p: Product, s: Initial)
    ensures Differs(p, s) <==> Snap(p) != s
    ensures Coherent(Snap, Differs)
  {
  }

  /** Reverting an edited field to its snapshot value makes the record clean again
      when no other field was touched. */
  lemma RevertClears(p: Product, f: Field, value: Val)
    ensures !Differs(SetField(SetField(p, f, value), f, Get(p, f)), Snap(p))
    ensures Differs(SetField(p, f, value), Snap(p)) <==> value != Get(p, f)
  {
  }

  /** The single item of the apply request: the id and exactly the tracked fields. */
  datatype ApplyItem = ApplyItem(id: int, fields: Initial)

  function ApplyPayload(id: int, p: Product): (item: ApplyItem)
    ensures item.id == id && !Differs(p, item.fields)
  {
    ApplyItem(id, Snap(p))
  }

  /** `response.count >= 1` */
  predicate Accepted(count: int) {
    count >= 1
  }

  /** `(x || 0) > 0` */
  predicate HasSales(x: Val) {
    Greater(ToNumberVal(Or(x, Number(0.0))), 0.0)
  }

  /** The sold figure a counter reads. */
  function Sold(p: Product, weekly: bool): Val {
    if weekly then p.weeklyItemsSold else p.monthlyItemsSold
  }

  /** `products.filter(p => (p.weeklyItemsSold || 0) > 0).length` (`weekly`) and the
      monthly counterpart. */
  function CountWithSales(ps: seq<Product>, weekly: bool): (n: nat)
    ensures n <= |ps|
  {
    if ps == [] then 0
    else (if HasSales(Sold(ps[0], weekly)) then 1 else 0) + CountWithSales(ps[1..], weekly)
  }

  /** A counter is zero exactly when no product has sales in its period. */
  lemma {:induction false} CountZeroIff(ps: seq<Product>, weekly: bool)
    ensures CountWithSales(ps, weekly) == 0 <==> forall i :: 0 <= i < |ps| ==> !HasSales(Sold(ps[i], weekly))
  {
    if ps != [] {
      CountZeroIff(ps[1..], weekly);
      assert forall i :: 1 <= i < |ps| ==> ps[1..][i - 1] == ps[i];
    }
  }

  /** An item counts exactly when its sold figure converts to a positive number. */
  lemma HasSalesIffPositive(x: Val)
    ensures HasSales(x) <==> Greater(ToNumberVal(x), 0.0)
  {
    OrZeroPositive(x);
  }

  /** Editing prices or names never changes the counters. */
  lemma {:induction false} CountIgnoresEdits(ps: seq<Product>, qs: seq<Product>, weekly: bool)
    requires |ps| == |qs|
    requires forall i :: 0 <= i < |ps| ==>
      ps[i].weeklyItemsSold == qs[i].weeklyItemsSold && ps[i].monthlyItemsSold == qs[i].monthlyItemsSold
    ensures CountWithSales(ps, weekly) == CountWithSales(qs, weekly)
  {
    if ps != [] {
      CountIgnoresEdits(ps[1..], qs[1..], weekly);
    }
  }
}
