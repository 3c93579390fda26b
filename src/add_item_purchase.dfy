/** The kitchen-purchase entry page: draft rows of supplier, item, quantity and
    total price, numbered by a millisecond clock reading; choosing an item
    copies its pack size and unit into the row; the per-pack price preview;
    submit sends the complete rows. */
module AddItemPurchase {
  import opened Js
  import opened DraftRows
  import opened StockItems

  /** A row as typed; `unitQuantity` and `unit` come from the chosen item. */
  datatype PurchaseRow = PurchaseRow(supplierId: string, itemId: string, quantity: string,
                                     totalPrice: string, unitQuantity: Val, unit: Val)

  const Blank := PurchaseRow("", "", "", "", Number(1.0), Str(""))

  datatype Field = Supplier | Item | Quantity | TotalPrice

  /** `item.id === parseInt(value)`: NaN matches nothing. */
  predicate IdIsNumber(item: StockItem, n: Num) {
    n.Fin? && item.id == Number(n.v)
  }

  /** `items.find(item => item.id === parseInt(value))`, with `n` the parsed value. */
  function LookupNumber(items: seq<StockItem>, n: Num): (r: Option<StockItem>)
    ensures r.None? <==> forall j :: 0 <= j < |items| ==> !IdIsNumber(items[j], n)
    ensures r.Some? ==> r.value in items && IdIsNumber(r.value, n)
  {
    Find(items, (it: StockItem) => IdIsNumber(it, n))
  }

  /** The row edit of `updateRow`: the named field takes the value; choosing an
      item that exists also takes its pack size (`|| 1`) and unit (`|| ''`). */
  function EditRow(items: seq<StockItem>, r: PurchaseRow, f: Field, value: string): (s: PurchaseRow)
    ensures s.supplierId == (if f == Supplier then value else r.supplierId)
    ensures s.itemId == (if f == Item then value else r.itemId)
    ensures s.quantity == (if f == Quantity then value else r.quantity)
    ensures s.totalPrice == (if f == TotalPrice then value else r.totalPrice)
    ensures f != Item || LookupNumber(items, ParseInt(value)).None? ==>
      s.unitQuantity == r.unitQuantity && s.unit == r.unit
    ensures f == Item && LookupNumber(items, ParseInt(value)).Some? ==>
      var it := LookupNumber(items, ParseInt(value)).value;
      s.unitQuantity == Or(it.unitQuantity, Number(1.0)) && s.unit == Or(it.unit, Str(""))
  {
    match f
    case Supplier => r.(supplierId := value)
    case Quantity => r.(quantity := value)
    case TotalPrice => r.(totalPrice := value)
    case Item =>
      match LookupNumber(items, ParseInt(value))
      case None => r.(itemId := value)
      case Some(it) =>
        r.(itemId := value, unitQuantity := Or(it.unitQuantity, Number(1.0)), unit := Or(it.unit, Str("")))
  }

  /** Every row's pack size is truthy: the blank row's is 1 and an item's is
      taken `|| 1`. */
  predicate PackSizesTruthy(rows: seq<Draft<PurchaseRow>>) {
    forall i :: 0 <= i < |rows| ==> Truthy(rows[i].fields.unitQuantity)
  }

  lemma EditKeepsPackSizeTruthy(items: seq<StockItem>, r: PurchaseRow, f: Field, value: string)
    requires Truthy(r.unitQuantity)
    ensures Truthy(EditRow(items, r, f, value).unitQuantity)
  {
  }

  /** The preview cell: '-' or the price of one pack. */
  datatype PackPrice = NoPrice | PerPack(price: Num)

  /** `price` is the total spread over the quantity and scaled to one pack:
      price × quantity = total × pack size. */
  predicate PriceFrom(price: Num, quantity: Num, total: Num, pack: Num) {
    (price.Fin? <==> total.Fin? && pack.Fin? && quantity.Fin?)
    && (price.Fin? ==> price.v * quantity.v == total.v * pack.v)
  }

  lemma PerPackArithmetic(quantity: Num, total: Num, pack: Num)
    requires Greater(quantity, 0.0)
    ensures PriceFrom(Div(Mul(total, pack), quantity), quantity, total, pack)
  {
  }

  /** `calculateItemPrice(row)`: a price only when the quantity and the total
      are positive numbers and the pack size is truthy. */
  function CalculateItemPrice(r: PurchaseRow): (p: PackPrice)
    ensures p.NoPrice? <==>
      !(Greater(ToNumber(r.quantity), 0.0) && Greater(ToNumber(r.totalPrice), 0.0) && Truthy(r.unitQuantity))
    ensures p.PerPack? ==>
      PriceFrom(p.price, ToNumber(r.quantity), ToNumber(r.totalPrice), ToNumberVal(r.unitQuantity))
  {
    var q := ToNumber(r.quantity);
    var t := ToNumber(r.totalPrice);
    if Greater(q, 0.0) && Greater(t, 0.0) && Truthy(r.unitQuantity) then
      PerPackArithmetic(q, t, ToNumberVal(r.unitQuantity));
      PerPack(Div(Mul(t, ToNumberVal(r.unitQuantity)), q))
    else NoPrice
  }

  /** The row test shared by `isFormValid` and submit. */
  predicate ValidRow(r: PurchaseRow) {
    r.supplierId != "" && r.itemId != "" && Greater(ToNumber(r.quantity), 0.0)
    && Greater(ToNumber(r.totalPrice), 0.0)
  }

  /** A submitted line. */
  datatype Line = Line(dt: string, supplierId: Num, itemId: Num, quantity: Num,
                       totalPrice: Num, unitQuantity: Num)

  function ToLine(date: string, r: PurchaseRow): Line {
    Line(date, ParseInt(r.supplierId), ParseInt(r.itemId), ParseFloat(r.quantity),
         ParseFloat(r.totalPrice), ParseIntVal(r.unitQuantity))
  }

  function Lines(date: string, rows: seq<Draft<PurchaseRow>>): seq<Line> {
    Select(rows, ValidRow, (r: PurchaseRow) => ToLine(date, r))
  }

  /** `isFormValid` */
  predicate IsFormValid(date: string, rows: seq<Draft<PurchaseRow>>) {
    date != "" && AnyRow(rows, ValidRow)
  }

  /** `handleSubmit` up to the request: no valid row, no request. */
  function SubmitRequest(date: string, rows: seq<Draft<PurchaseRow>>): (o: Outcome<seq<Line>>)
    ensures o.Refused? <==> !AnyRow(rows, ValidRow)
    ensures o.Refused? ==> o.reason == "Please fill all fields before submitting"
    ensures !o.Cancelled?
    ensures o.Sent? ==> o.request == Lines(date, rows) && o.request != []
  {
    var data := Lines(date, rows);
    if !AnyRow(rows, ValidRow) then Refused("Please fill all fields before submitting")
    else
      ValidFormSubmitsSomething(rows, ValidRow, ValidRow, (r: PurchaseRow) => ToLine(date, r));
      Sent(data)
  }

  /** A form that passes `isFormValid` is sent, every sent line comes from a
      valid row and carries the form's date, and every valid row is sent. */
  lemma SubmitSendsValidRows(date: string, rows: seq<Draft<PurchaseRow>>)
    ensures IsFormValid(date, rows) ==> SubmitRequest(date, rows).Sent?
    ensures forall k :: 0 <= k < |Lines(date, rows)| ==> Lines(date, rows)[k].dt == date
    ensures forall i :: 0 <= i < |rows| && ValidRow(rows[i].fields) ==>
      ToLine(date, rows[i].fields) in Lines(date, rows)
  {
    forall i | 0 <= i < |rows| && ValidRow(rows[i].fields)
      ensures ToLine(date, rows[i].fields) in Lines(date, rows)
    {
      SelectComplete(rows, ValidRow, (r: PurchaseRow) => ToLine(date, r), i);
    }
  }

  /** The rows after a successful submit, as written: `setRows([])` is
      overridden by `addRow()`, which appends to the rows the handler started
      with. */
  function RowsAfterSuccessAsWritten(submitted: seq<Draft<PurchaseRow>>, now: int): (r: seq<Draft<PurchaseRow>>)
    ensures |r| == |submitted| + 3 && r[..|submitted|] == submitted
    ensures r[|submitted|..] == RowsAfterSuccess(now)
  {
    submitted + Block(now, Blank)
  }

  /** The rows after a successful submit as intended: three fresh blank rows. */
  function RowsAfterSuccess(now: int): (r: seq<Draft<PurchaseRow>>)
    ensures IdsUnique(r) && PackSizesTruthy(r)
    ensures !AnyRow(r, ValidRow)
  {
    BlankBlock(now);
    Block(now, Blank)
  }

  lemma BlankBlock(now: int)
    ensures IdsUnique(Block(now, Blank)) && PackSizesTruthy(Block(now, Blank))
    ensures !AnyRow(Block(now, Blank), ValidRow)
  {
    var b := Block(now, Blank);
    assert !ValidRow(Blank) by {
      assert Blank.supplierId == "";
    }
    assert forall i :: 0 <= i < |b| ==> b[i].fields == Blank;
  }

  /** As written, the submitted rows survive a successful submit, so a second
      click sends the same lines again. */
  lemma ResubmitsAsWritten(date: string, submitted: seq<Draft<PurchaseRow>>, now: int)
    requires AnyRow(submitted, ValidRow)
    ensures SubmitRequest(date, RowsAfterSuccessAsWritten(submitted, now)) == SubmitRequest(date, submitted)
  {
    var conv := (r: PurchaseRow) => ToLine(date, r);
    var after := RowsAfterSuccessAsWritten(submitted, now);
    var fresh3 := RowsAfterSuccess(now);
    assert after == submitted + fresh3;
    SelectAppend(submitted, fresh3, ValidRow, conv);
    assert Select(fresh3, ValidRow, conv) == [];
    assert Lines(date, after) == Lines(date, submitted);
    var i :| 0 <= i < |submitted| && ValidRow(submitted[i].fields);
    assert after[i] == submitted[i];
    assert AnyRow(after, ValidRow);
  }

  /** As intended, nothing is left to send after a successful submit. */
  lemma NothingToResend(date: string, now: int)
    ensures SubmitRequest(date, RowsAfterSuccess(now)).Refused?
  {
  }

  /** The page state. `now` parameters are the `Date.now()` readings. */
  class Page {
    const items: seq<StockItem>
    var date: string
    var rows: seq<Draft<PurchaseRow>>

    /** The state once the dropdown data has loaded: today's date and the
        first three blank rows. */
    constructor (today: string, items: seq<StockItem>, now: int)
      ensures this.items == items && date == today && rows == Block(now, Blank)
      ensures IdsUnique(rows) && PackSizesTruthy(rows)
    {
      this.items := items;
      date := today;
      rows := RowsAfterSuccess(now);
    }

    /** `addRow`: three blank rows with ids `now .. now + 2`. */
    method AddRow(now: int)
      modifies this`rows
      ensures rows == old(rows) + Block(now, Blank)
      ensures old(IdsUnique(rows) && IdsBelow(rows, now)) ==> IdsUnique(rows)
      ensures old(PackSizesTruthy(rows)) ==> PackSizesTruthy(rows)
    {
      if IdsUnique(rows) && IdsBelow(rows, now) {
        TimedKeepsUnique(rows, now, Blank);
      }
      rows := AppendTimed(rows, now, Blank);
    }

    /** `updateRow`: only the row with the id changes. */
    method UpdateRow(id: int, f: Field, value: string)
      modifies this`rows
      ensures rows == Update(old(rows), id, (r: PurchaseRow) => EditRow(items, r, f, value))
      ensures old(IdsUnique(rows)) ==> IdsUnique(rows)
      ensures old(PackSizesTruthy(rows)) ==> PackSizesTruthy(rows)
    {
      var edit := (r: PurchaseRow) => EditRow(items, r, f, value);
      UpdateKeepsIds(rows, id, edit);
      var updated := Update(rows, id, edit);
      if PackSizesTruthy(rows) {
        forall i | 0 <= i < |updated| ensures Truthy(updated[i].fields.unitQuantity) {
          if rows[i].id == id {
            EditKeepsPackSizeTruthy(items, rows[i].fields, f, value);
          }
        }
      }
      rows := updated;
    }

    /** `handleSubmit` with the response's `count` and the clock readings as
        inputs; success resets the date and leaves three blank rows. */
    method Submit(count: int, today: string, now: int) returns (o: Outcome<seq<Line>>)
      modifies this`date, this`rows
      ensures o == SubmitRequest(old(date), old(rows))
      ensures o.Sent? && count >= 1 ==> date == today && rows == RowsAfterSuccess(now)
      ensures !(o.Sent? && count >= 1) ==> date == old(date) && rows == old(rows)
    {
      o := SubmitRequest(date, rows);
      if o.Sent? && count >= 1 {
        var blank := RowsAfterSuccess(now);
        date, rows := today, blank;
      }
    }
  }
}
