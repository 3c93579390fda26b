/** The entries of `items/list` that the stock-entry pages look up, and the
    price preview that the kitchen-consumption and closing-stock pages show for
    a row (the two pages define the same `getItemPrice`). */
module StockItems {
  import opened Js

  /** An entry of `items/list`; every field is as the server sent it. */
  datatype StockItem = StockItem(id: Val, unit: Val, unitQuantity: Val, unitPrice: Val)

  /** The position `items.findIndex(matches)` would give, or `|items|`. */
  function FindIndex(items: seq<StockItem>, matches: StockItem -> bool): (i: nat)
    ensures i <= |items|
    ensures i < |items| ==> matches(items[i])
    ensures forall j :: 0 <= j < i ==> !matches(items[j])
  {
    if items == [] then 0
    else if matches(items[0]) then 0
    else 1 + FindIndex(items[1..], matches)
  }

  /** `items.find(matches)`: the first matching entry. */
  function Find(items: seq<StockItem>, matches: StockItem -> bool): (r: Option<StockItem>)
    ensures r.None? <==> forall j :: 0 <= j < |items| ==> !matches(items[j])
    ensures r.Some? ==> r.value in items && matches(r.value)
    ensures r.Some? ==>
      exists i :: 0 <= i < |items| && items[i] == r.value && forall j :: 0 <= j < i ==> !matches(items[j])
  {
    var i := FindIndex(items, matches);
    if i < |items| then Some(items[i]) else None
  }

  /** `item.id === value` for the text of a select box: strict equality, so only
      an id that is itself that string matches. */
  predicate IdIsText(item: StockItem, value: string) {
    item.id == Str(value)
  }

  /** A list whose ids are all numbers, as the server's are. */
  predicate NumericIds(items: seq<StockItem>) {
    forall j :: 0 <= j < |items| ==> items[j].id.Number?
  }

  /** Strict equality never matches a number with a string: over numeric ids the
      lookup by the select box's text finds nothing. */
  lemma TextNeverFindsNumericId(items: seq<StockItem>, value: string)
    requires NumericIds(items)
    ensures Lookup(items, value).None?
  {
  }

  /** `item.unitQuantity || 1` */
  function PackSize(item: StockItem): Num {
    ToNumberVal(Or(item.unitQuantity, Number(1.0)))
  }

  /** No entry's pack size reads as zero; the preview divides by it unguarded. */
  predicate PackSizesNonZero(items: seq<StockItem>) {
    forall j :: 0 <= j < |items| ==> PackSize(items[j]) != Fin(0.0)
  }

  /** `item.unitPrice || 0` */
  function UnitPrice(item: StockItem): Num {
    ToNumberVal(Or(item.unitPrice, Number(0.0)))
  }

  /** What a row shows: both cells '-', or the unit price and the line total. */
  datatype Preview = Dash | Priced(unitPrice: Num, totalPrice: Num)

  /** `items.find(i => i.id === itemId)` */
  function Lookup(items: seq<StockItem>, itemId: string): (r: Option<StockItem>)
    ensures r.None? <==> forall j :: 0 <= j < |items| ==> !IdIsText(items[j], itemId)
    ensures r.Some? ==> r.value in items && IdIsText(r.value, itemId)
  {
    Find(items, (it: StockItem) => IdIsText(it, itemId))
  }

  /** `p` shows the item's unit price and a total that, when it is a number, is
      the quantity in packs times the unit price. */
  predicate PricedFrom(p: Preview, quantity: Num, item: StockItem) {
    p.Priced? && p.unitPrice == UnitPrice(item)
    && (p.totalPrice.Fin? <==> quantity.Fin? && PackSize(item).Fin? && UnitPrice(item).Fin?)
    && (p.totalPrice.Fin? ==> p.totalPrice.v * PackSize(item).v == quantity.v * UnitPrice(item).v)
  }

  /** `getItemPrice(itemId, quantity)`: '-' unless the item is found and the
      quantity is filled in; then the quantity in packs times the unit price. */
  function ItemPrice(items: seq<StockItem>, itemId: string, quantity: string): (p: Preview)
    requires PackSizesNonZero(items)
    ensures p.Dash? <==> quantity == "" || Lookup(items, itemId).None?
    ensures p.Priced? ==> Lookup(items, itemId).Some? && PricedFrom(p, ToNumber(quantity), Lookup(items, itemId).value)
  {
    var item := Lookup(items, itemId);
    if item.None? || quantity == "" then Dash
    else
      var it := item.value;
      assert PackSize(it) != Fin(0.0) by {
        var j :| 0 <= j < |items| && items[j] == it;
      }
      PreviewOfItem(ToNumber(quantity), it);
      Priced(UnitPrice(it), Mul(Div(ToNumber(quantity), PackSize(it)), UnitPrice(it)))
  }

  lemma PreviewOfItem(quantity: Num, item: StockItem)
    requires PackSize(item) != Fin(0.0)
    ensures PricedFrom(Priced(UnitPrice(item), Mul(Div(quantity, PackSize(item)), UnitPrice(item))), quantity, item)
  {
    PacksTimesPrice(quantity, PackSize(item), UnitPrice(item));
  }

  lemma PacksTimesPrice(q: Num, pack: Num, price: Num)
    requires pack != Fin(0.0)
    ensures Mul(Div(q, pack), price).Fin? <==> q.Fin? && pack.Fin? && price.Fin?
    ensures Mul(Div(q, pack), price).Fin? ==> Mul(Div(q, pack), price).v * pack.v == q.v * price.v
  {
    if q.Fin? && pack.Fin? && price.Fin? {
      var packs := q.v / pack.v;
      assert packs * pack.v == q.v;
      calc {
        packs * price.v * pack.v;
        packs * pack.v * price.v;
        q.v * price.v;
      }
    }
  }

  /** Over the server's numeric ids the preview is always '-'. */
  lemma NumericIdsShowDash(items: seq<StockItem>, itemId: string, quantity: string)
    requires PackSizesNonZero(items) && NumericIds(items)
    ensures ItemPrice(items, itemId, quantity) == Dash
  {
  }
}
