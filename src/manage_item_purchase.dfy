/** The store-purchase dashboard: rows of base items (made from a recipe) may be
    neither deleted nor applied here; the other rows hold edited quantity and total
    price, recompute `hasChanges` and the unit price preview, and offer Apply while
    changed. */
module ManageItemPurchase {
  import opened Js

  /** `item.unitQuantity`; the row's `item` may be missing. */
  datatype ItemRef = ItemRef(unitQuantity: real)

  datatype PurchaseRecord = PurchaseRecord(
    itemId: Val, supplierId: Val, dt: Val, supplier: Option<string>, item: Option<ItemRef>,
    quantity: Val, totalPrice: Val, itemPrice: Val, itemType: Val)

  predicate IsBaseItem(itemType: Val) {
    itemType == Str("Base Item")
  }

  datatype DeleteRequest = DeleteRequest(dt: Val, supplierId: Val, itemId: Val)
  datatype ApplyItem = ApplyItem(dt: Val, supplierId: Val, itemId: Val, quantity: Val, totalPrice: Val, unitQuantity: real)


  /** `handleDelete`: a base item is refused before the confirmation dialog. */
  function HandleDelete(itemId: Val, supplierId: Val, dt: Val, itemType: Val, confirmed: bool): (o: Outcome<DeleteRequest>)
    ensures IsBaseItem(itemType) <==> o.Refused?
    ensures o.Sent? <==> !IsBaseItem(itemType) && confirmed
    ensures o.Sent? ==> o.request == DeleteRequest(dt, supplierId, itemId)
  {
    if IsBaseItem(itemType) then Refused("Base items must be deleted from Base Item Recipe dashboard")
    else if !confirmed then Cancelled
    else Sent(DeleteRequest(dt, supplierId, itemId))
  }

  /** `handleApply`: a base item is refused; otherwise a one-item list is sent. */
  function HandleApply(itemId: Val, supplierId: Val, dt: Val, quantity: Val, totalPrice: Val,
                       unitQuantity: real, itemType: Val): (o: Outcome<seq<ApplyItem>>)
    ensures IsBaseItem(itemType) <==> o.Refused?
    ensures !o.Cancelled?
    ensures o.Sent? ==> o.request == [ApplyItem(dt, supplierId, itemId, quantity, totalPrice, unitQuantity)]
  {
    if IsBaseItem(itemType) then Refused("Base items must be updated from Base Item Recipe dashboard")
    else Sent([ApplyItem(dt, supplierId, itemId, quantity, totalPrice, unitQuantity)])
  }

  /** `row.item?.unitQuantity || 1` */
  function UnitQuantityOrOne(item: Option<ItemRef>): (u: real)
    ensures u != 0.0
    ensures item.Some? && item.value.unitQuantity != 0.0 ==> u == item.value.unitQuantity
  {
    if item.Some? && item.value.unitQuantity != 0.0 then item.value.unitQuantity else 1.0
  }

  /** The item price preview `(totalPrice * unitQuantity / quantity)`, recomputed
      only when both amounts are positive; otherwise the previous price stays. */
  function PreviewPrice(q: Num, t: Num, unit: real, before: Val): (p: Val)
    ensures p != before ==> Greater(q, 0.0) && Greater(t, 0.0)
    ensures Greater(q, 0.0) && Greater(t, 0.0) && unit > 0.0 ==> p.Number? && p.n > 0.0
  {
    if Greater(q, 0.0) && Greater(t, 0.0) then
      PositiveQuotient(t.v, unit, q.v);
      Number(t.v * unit / q.v)
    else before
  }

  lemma PositiveQuotient(a: real, b: real, c: real)
    requires c > 0.0
    ensures a > 0.0 && b > 0.0 ==> a * b / c > 0.0
  {
    if a > 0.0 && b > 0.0 {
      assert a * b > 0.0;
    }
  }

  /** The row component. */
  class PurchaseRow {
    const row: PurchaseRecord
    var quantity: Val
    var totalPrice: Val
    var hasChanges: bool
    var itemPrice: Val

    /** The change flag after the effect has run. */
    ghost predicate Valid()
      reads this
    {
      hasChanges == (quantity != row.quantity || totalPrice != row.totalPrice)
    }

    /** The effect: recompute the flag, and the item price when both amounts are
        positive (`(totalPrice * unitQuantity / quantity)`); otherwise the previous
        item price stays. */
    method Effect()
      modifies this`hasChanges, this`itemPrice
      ensures Valid()
      ensures ItemPriceRule(quantity, totalPrice, old(itemPrice), itemPrice)
    {
      var price := PreviewPrice(ToNumberVal(quantity), ToNumberVal(totalPrice), UnitQuantityOrOne(row.item), itemPrice);
      hasChanges := quantity != row.quantity || totalPrice != row.totalPrice;
      itemPrice := price;
    }

    /** The item price preview: recomputed exactly when both amounts are positive. */
    ghost predicate ItemPriceRule(q: Val, t: Val, before: Val, after: Val)
      reads this
    {
      after == PreviewPrice(ToNumberVal(q), ToNumberVal(t), UnitQuantityOrOne(row.item), before)
    }

    constructor (row: PurchaseRecord)
      ensures this.row == row && quantity == row.quantity && totalPrice == row.totalPrice
      ensures !hasChanges && Valid()
      ensures ItemPriceRule(row.quantity, row.totalPrice, row.itemPrice, itemPrice)
    {
      this.row := row;
      quantity := row.quantity;
      totalPrice := row.totalPrice;
      itemPrice := row.itemPrice;
      hasChanges := false;
      new;
      Effect();
    }

    /** `setQuantity(parseFloat(value) || 0)` followed by the effect. */
    method EditQuantity(text: string)
      modifies this
      ensures quantity == Number(OrZero(ParseFloat(text))) && totalPrice == old(totalPrice)
      ensures Valid() && ItemPriceRule(quantity, totalPrice, old(itemPrice), itemPrice)
    {
      quantity := Number(OrZero(ParseFloat(text)));
      Effect();
    }

    method EditTotalPrice(text: string)
      modifies this
      ensures totalPrice == Number(OrZero(ParseFloat(text))) && quantity == old(quantity)
      ensures Valid() && ItemPriceRule(quantity, totalPrice, old(itemPrice), itemPrice)
    {
      totalPrice := Number(OrZero(ParseFloat(text)));
      Effect();
    }

    /** Apply is shown only for a changed row that is not a base item (whose inputs
        are disabled). */
    predicate ShowsApply()
      reads this
    {
      hasChanges && !IsBaseItem(row.itemType)
    }

    predicate Rendered() {
      row.supplier.Some? && row.item.Some?
    }

    method Apply() returns (o: Outcome<seq<ApplyItem>>)
      requires ShowsApply()
      ensures o == Sent([ApplyItem(row.dt, row.supplierId, row.itemId, quantity, totalPrice, UnitQuantityOrOne(row.item))])
    {
      o := HandleApply(row.itemId, row.supplierId, row.dt, quantity, totalPrice, UnitQuantityOrOne(row.item), row.itemType);
    }
  }

  /** `sum + parseFloat(item.totalPrice || 0)`; an unparseable price makes it NaN. */
  function Total(rows: seq<PurchaseRecord>): Num {
    SumNum(rows, (r: PurchaseRecord) => ParseFloatVal(Or(r.totalPrice, Number(0.0))))
  }

  /** With numeric (or missing) prices the total is the sum of the prices. */
  lemma TotalOfNumbers(rows: seq<PurchaseRecord>)
    requires forall i :: 0 <= i < |rows| ==> rows[i].totalPrice.Number? || !Truthy(rows[i].totalPrice)
    ensures Total(rows).Fin?
  {
    SumNumFinite(rows, (r: PurchaseRecord) => ParseFloatVal(Or(r.totalPrice, Number(0.0))));
  }
}
