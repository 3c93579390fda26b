/** The kitchen-consumption dashboard: consumption rows recorded as part of a base
    item (a truthy `baseItemId` other than the string '0') may be neither deleted
    nor applied here; other rows hold an edited quantity and offer Apply while it
    differs from the row. */
module ManageItemConsumption {
  import opened Js

  datatype ConsumptionRecord = ConsumptionRecord(
    itemId: Val, departmentId: Val, dt: Val, baseItemId: Val,
    item: Option<string>, department: Option<string>, quantity: Val, totalPrice: Val)

  /** `baseItemId && baseItemId !== '0'` */
  predicate IsBaseItem(baseItemId: Val) {
    Truthy(baseItemId) && baseItemId != Str("0")
  }

  /** Exactly the missing ids, numeric 0 and the string '0' pass the guard. */
  lemma BaseItemGuard(baseItemId: Val)
    ensures !IsBaseItem(baseItemId) <==>
      baseItemId in {Undefined, Null, Bool(false), Number(0.0), Str(""), Str("0")}
  {
  }

  datatype Entry = Entry(dt: Val, departmentId: Val, itemId: Val, baseItemId: int, quantity: Num)
  datatype DeleteKey = DeleteKey(dt: Val, departmentId: Val, itemId: Val, baseItemId: int)


  /** `handleDelete`: the key of the row with `baseItemId: 0`. */
  function HandleDelete(itemId: Val, departmentId: Val, dt: Val, baseItemId: Val, confirmed: bool): (o: Outcome<DeleteKey>)
    ensures IsBaseItem(baseItemId) <==> o.Refused?
    ensures o.Sent? <==> !IsBaseItem(baseItemId) && confirmed
    ensures o.Sent? ==> (o.request.baseItemId == 0 && o.request.itemId == itemId
      && o.request.departmentId == departmentId && o.request.dt == dt)
  {
    if IsBaseItem(baseItemId) then Refused("Cannot delete ingredients used in base item from this dashboard")
    else if !confirmed then Cancelled
    else Sent(DeleteKey(dt, departmentId, itemId, 0))
  }

  /** `handleApply`: a one-entry list with `baseItemId: 0` and `parseFloat(quantity)`. */
  function HandleApply(itemId: Val, departmentId: Val, dt: Val, quantity: Val, baseItemId: Val): (o: Outcome<seq<Entry>>)
    ensures IsBaseItem(baseItemId) <==> o.Refused?
    ensures !o.Cancelled?
    ensures o.Sent? ==> (|o.request| == 1 && o.request[0].baseItemId == 0
      && o.request[0].quantity == ParseFloatVal(quantity) && o.request[0].itemId == itemId)
  {
    if IsBaseItem(baseItemId) then Refused("Cannot update quantity of base item ingredients from this dashboard")
    else Sent([Entry(dt, departmentId, itemId, 0, ParseFloatVal(quantity))])
  }

  /** Apply succeeds when the response reports `count >= 1`. */
  predicate ApplySucceeded(count: int) {
    count >= 1
  }

  class ConsumptionRow {
    const row: ConsumptionRecord
    var quantity: Val
    var hasChanges: bool

    ghost predicate Valid()
      reads this
    {
      hasChanges == (quantity != row.quantity)
    }

    constructor (row: ConsumptionRecord)
      ensures this.row == row && quantity == row.quantity && !hasChanges && Valid()
    {
      this.row := row;
      quantity := row.quantity;
      hasChanges := false;
    }

    predicate Rendered() {
      row.item.Some? && row.department.Some?
    }

    /** The quantity box is disabled under the same predicate that hides Apply. */
    predicate InputDisabled() {
      IsBaseItem(row.baseItemId)
    }

    predicate ShowsApply()
      reads this
    {
      hasChanges && !IsBaseItem(row.baseItemId)
    }

    method EditQuantity(text: string)
      requires !InputDisabled()
      modifies this
      ensures quantity == Number(OrZero(ParseFloat(text))) && Valid()
    {
      quantity := Number(OrZero(ParseFloat(text)));
      hasChanges := quantity != row.quantity;
    }

    method Apply() returns (o: Outcome<seq<Entry>>)
      requires ShowsApply() && Valid()
      ensures o.Sent? && o.request == [Entry(row.dt, row.departmentId, row.itemId, 0, ParseFloatVal(quantity))]
    {
      o := HandleApply(row.itemId, row.departmentId, row.dt, quantity, row.baseItemId);
    }
  }

  /** `sum + (parseFloat(row.totalPrice) || 0)` */
  function TotalCost(rows: seq<ConsumptionRecord>): real {
    Sum(rows, (r: ConsumptionRecord) => OrZero(ParseFloatVal(r.totalPrice)))
  }

  /** Removing a row from the list removes exactly its contribution. */
  lemma TotalCostSplit(rows: seq<ConsumptionRecord>, k: int)
    requires 0 <= k < |rows|
    ensures TotalCost(rows) == TotalCost(rows[..k] + rows[k + 1..]) + OrZero(ParseFloatVal(rows[k].totalPrice))
  {
    var f := (r: ConsumptionRecord) => OrZero(ParseFloatVal(r.totalPrice));
    assert rows == rows[..k] + ([rows[k]] + rows[k + 1..]);
    SumAppend(rows[..k], [rows[k]] + rows[k + 1..], f);
    SumAppend([rows[k]], rows[k + 1..], f);
    SumAppend(rows[..k], rows[k + 1..], f);
    assert Sum([rows[k]], f) == f(rows[k]) by {
      assert [rows[k]][..0] == [];
    }
  }

  /** The date range shown on arrival: both URL dates when both are present, else
      yesterday for both ends. */
  datatype Range = Range(filter: string, startDate: string, endDate: string)

  function InitialRange(startParam: Option<string>, endParam: Option<string>, yesterday: string): (r: Range)
    ensures startParam.Some? && startParam.value != "" && endParam.Some? && endParam.value != ""
      ==> r == Range("custom", startParam.value, endParam.value)
    ensures !(startParam.Some? && startParam.value != "" && endParam.Some? && endParam.value != "")
      ==> r == Range("yesterday", yesterday, yesterday)
  {
    if startParam.Some? && startParam.value != "" && endParam.Some? && endParam.value != ""
    then Range("custom", startParam.value, endParam.value)
    else Range("yesterday", yesterday, yesterday)
  }
}
