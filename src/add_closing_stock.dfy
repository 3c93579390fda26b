/** The closing-stock entry page: draft rows of item and quantity numbered
    1, 2, 3, …; choosing an item copies its unit; submit sends the filled rows. */
module AddClosingStock {
  import opened Js
  import opened DraftRows
  import opened StockItems

  datatype StockRow = StockRow(itemId: string, quantity: string, unit: Val)

  const Blank := StockRow("", "", Str(""))

  datatype Field = Item | Quantity

  /** `updateRow`'s edit: choosing an item sets its unit (`''` when not found). */
  function EditRow(items: seq<StockItem>, r: StockRow, f: Field, value: string): (s: StockRow)
    ensures s.itemId == (if f == Item then value else r.itemId)
    ensures s.quantity == (if f == Quantity then value else r.quantity)
    ensures f == Quantity ==> s.unit == r.unit
    ensures f == Item && Lookup(items, value).None? ==> s.unit == Str("")
    ensures f == Item && Lookup(items, value).Some? ==> s.unit == Or(Lookup(items, value).value.unit, Str(""))
  {
    match f
    case Quantity => r.(quantity := value)
    case Item =>
      var unit := match Lookup(items, value)
        case None => Str("")
        case Some(it) => Or(it.unit, Str(""));
      r.(itemId := value, unit := unit)
  }

  predicate ValidRow(r: StockRow) {
    r.itemId != "" && Greater(ToNumber(r.quantity), 0.0)
  }

  predicate Filled(r: StockRow) {
    r.itemId != "" && r.quantity != ""
  }

  lemma ValidIsFilled(r: StockRow)
    ensures ValidRow(r) ==> Filled(r)
  {
  }

  datatype Entry = Entry(dt: string, itemId: string, quantity: Num)

  function ToEntry(date: string, r: StockRow): Entry {
    Entry(date, r.itemId, ParseFloat(r.quantity))
  }

  function Entries(date: string, rows: seq<Draft<StockRow>>): seq<Entry> {
    Select(rows, Filled, (r: StockRow) => ToEntry(date, r))
  }

  predicate IsFormValid(date: string, rows: seq<Draft<StockRow>>) {
    date != "" && AnyRow(rows, ValidRow)
  }

  function SubmitRequest(date: string, rows: seq<Draft<StockRow>>): (o: Outcome<seq<Entry>>)
    ensures o.Refused? <==> !IsFormValid(date, rows)
    ensures o.Refused? ==> o.reason == "Please fill all required fields"
    ensures !o.Cancelled?
    ensures o.Sent? ==> o.request == Entries(date, rows) && o.request != []
  {
    if !IsFormValid(date, rows) then Refused("Please fill all required fields")
    else
      forall r | ValidRow(r) ensures Filled(r) {
        ValidIsFilled(r);
      }
      ValidFormSubmitsSomething(rows, ValidRow, Filled, (r: StockRow) => ToEntry(date, r));
      Sent(Entries(date, rows))
  }

  /** Exactly the filled rows are sent, each with the form's date. */
  lemma EntriesOfFilledRows(date: string, rows: seq<Draft<StockRow>>)
    ensures forall k :: 0 <= k < |Entries(date, rows)| ==> Entries(date, rows)[k].dt == date
    ensures forall i :: 0 <= i < |rows| && Filled(rows[i].fields) ==> ToEntry(date, rows[i].fields) in Entries(date, rows)
  {
    forall i | 0 <= i < |rows| && Filled(rows[i].fields)
      ensures ToEntry(date, rows[i].fields) in Entries(date, rows)
    {
      SelectComplete(rows, Filled, (r: StockRow) => ToEntry(date, r), i);
    }
  }

  class Page {
    const items: seq<StockItem>
    var date: string
    var rows: seq<Draft<StockRow>>

    constructor (today: string, items: seq<StockItem>)
      ensures this.items == items && date == today && rows == [Draft(1, Blank)]
      ensures IdsIncreasing(rows)
    {
      this.items := items;
      date := today;
      rows := [Draft(1, Blank)];
    }

    method AddRows()
      modifies this`rows
      ensures rows == old(rows) + Block(LastId(old(rows)) + 1, Blank)
      ensures old(IdsIncreasing(rows)) ==> IdsIncreasing(rows)
    {
      if IdsIncreasing(rows) {
        SequentialKeepsIncreasing(rows, Blank);
      }
      rows := AppendSequential(rows, Blank);
    }

    method UpdateRow(id: int, f: Field, value: string)
      modifies this`rows
      ensures rows == Update(old(rows), id, (r: StockRow) => EditRow(items, r, f, value))
      ensures old(IdsIncreasing(rows)) ==> IdsIncreasing(rows)
    {
      UpdateKeepsIds(rows, id, (r: StockRow) => EditRow(items, r, f, value));
      rows := Update(rows, id, (r: StockRow) => EditRow(items, r, f, value));
    }

    /** `getItemPrice` for a row: the shared `StockItems.ItemPrice` over this
        page's items, its contract restated in the row's terms. */
    function RowPrice(r: StockRow): (p: Preview)
      requires PackSizesNonZero(items)
      reads this
      ensures p.Dash? <==> r.quantity == "" || Lookup(items, r.itemId).None?
      ensures p.Priced? ==> Lookup(items, r.itemId).Some? && PricedFrom(p, ToNumber(r.quantity), Lookup(items, r.itemId).value)
    {
      ItemPrice(items, r.itemId, r.quantity)
    }

    method Submit(count: int, today: string) returns (o: Outcome<seq<Entry>>)
      modifies this`date, this`rows
      ensures o == SubmitRequest(old(date), old(rows))
      ensures o.Sent? && count >= 1 ==> date == today && rows == [Draft(1, Blank)]
      ensures !(o.Sent? && count >= 1) ==> date == old(date) && rows == old(rows)
    {
      o := SubmitRequest(date, rows);
      if o.Sent? && count >= 1 {
        date := today;
        rows := [Draft(1, Blank)];
      }
    }
  }
}
