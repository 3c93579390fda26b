/** The kitchen-consumption entry page: draft rows of department, item and
    quantity numbered 1, 2, 3, …; choosing an item copies its unit; submit sends
    the filled rows with `baseItemId` 0. */
module AddItemConsumption {
  import opened Js
  import opened DraftRows
  import opened StockItems

  datatype ConsumptionRow = ConsumptionRow(departmentId: string, itemId: string, quantity: string, unit: Val)

  const Blank := ConsumptionRow("", "", "", Str(""))

  datatype Field = Department | Item | Quantity

  /** `updateRow`'s edit: choosing an item sets its unit, `''` when the item is
      not found; any other field sets only that field. */
  function EditRow(items: seq<StockItem>, r: ConsumptionRow, f: Field, value: string): (s: ConsumptionRow)
    ensures s.departmentId == (if f == Department then value else r.departmentId)
    ensures s.itemId == (if f == Item then value else r.itemId)
    ensures s.quantity == (if f == Quantity then value else r.quantity)
    ensures f != Item ==> s.unit == r.unit
    ensures f == Item && Lookup(items, value).None? ==> s.unit == Str("")
    ensures f == Item && Lookup(items, value).Some? ==> s.unit == Or(Lookup(items, value).value.unit, Str(""))
  {
    match f
    case Department => r.(departmentId := value)
    case Quantity => r.(quantity := value)
    case Item =>
      var unit := match Lookup(items, value)
        case None => Str("")
        case Some(it) => Or(it.unit, Str(""));
      r.(itemId := value, unit := unit)
  }

  /** The `isFormValid` row test: quantity greater than 0. */
  predicate ValidRow(r: ConsumptionRow) {
    r.departmentId != "" && r.itemId != "" && Greater(ToNumber(r.quantity), 0.0)
  }

  /** The submit filter: a quantity that is merely filled in. */
  predicate Filled(r: ConsumptionRow) {
    r.departmentId != "" && r.itemId != "" && r.quantity != ""
  }

  lemma ValidIsFilled(r: ConsumptionRow)
    ensures ValidRow(r) ==> Filled(r)
  {
  }

  /** A submitted entry. */
  datatype Entry = Entry(dt: string, departmentId: string, itemId: string, baseItemId: int, quantity: Num)

  function ToEntry(date: string, r: ConsumptionRow): Entry {
    Entry(date, r.departmentId, r.itemId, 0, ParseFloat(r.quantity))
  }

  function Entries(date: string, rows: seq<Draft<ConsumptionRow>>): seq<Entry> {
    Select(rows, Filled, (r: ConsumptionRow) => ToEntry(date, r))
  }

  /** `isFormValid` */
  predicate IsFormValid(date: string, rows: seq<Draft<ConsumptionRow>>) {
    date != "" && AnyRow(rows, ValidRow)
  }

  /** `handleSubmit` up to the request. */
  function SubmitRequest(date: string, rows: seq<Draft<ConsumptionRow>>): (o: Outcome<seq<Entry>>)
    ensures o.Refused? <==> !IsFormValid(date, rows)
    ensures o.Refused? ==> o.reason == "Please fill all required fields"
    ensures !o.Cancelled?
    ensures o.Sent? ==> o.request == Entries(date, rows) && o.request != []
  {
    if !IsFormValid(date, rows) then Refused("Please fill all required fields")
    else
      forall r | ValidRow(r) ensures Filled(r) {
        ValidIsFilled(r);
      }
      ValidFormSubmitsSomething(rows, ValidRow, Filled, (r: ConsumptionRow) => ToEntry(date, r));
      Sent(Entries(date, rows))
  }

  /** Every entry carries the form's date and `baseItemId` 0. */
  lemma EntriesCarryDate(date: string, rows: seq<Draft<ConsumptionRow>>)
    ensures forall k :: 0 <= k < |Entries(date, rows)| ==>
      Entries(date, rows)[k].dt == date && Entries(date, rows)[k].baseItemId == 0
  {
  }

  /** The two rows of the example below: a valid one and one with quantity "0". */
  const FilledRows := [Draft(1, ConsumptionRow("2", "7", "3", Str(""))), Draft(2, ConsumptionRow("2", "8", "0", Str("")))]

  /** The filter is weaker than the validity test: next to a valid row, a filled
      row with quantity "0" is sent with quantity 0. */
  lemma ZeroQuantityIsSent(date: string)
    requires date != ""
    ensures SubmitRequest(date, FilledRows).Sent? && !ValidRow(FilledRows[1].fields)
      && Entry(date, "2", "8", 0, Fin(0.0)) in SubmitRequest(date, FilledRows).request
  {
    DigitsToNumber("3");
    DigitsToNumber("0");
    assert ValidRow(FilledRows[0].fields) && !ValidRow(FilledRows[1].fields);
    assert IsFormValid(date, FilledRows);
    ZeroEntrySelected(date);
  }

  /** The row with quantity "0" becomes an entry with quantity 0. */
  lemma ZeroEntrySelected(date: string)
    ensures Entry(date, "2", "8", 0, Fin(0.0)) in Entries(date, FilledRows)
  {
    var r := FilledRows[1].fields;
    assert r == ConsumptionRow("2", "8", "0", Str("")) && Filled(r);
    DigitsParse(r.quantity);
    assert DigitsValue(r.quantity) == 0;
    assert ToEntry(date, r) == Entry(date, "2", "8", 0, Fin(0.0));
    SelectComplete(FilledRows, Filled, (r: ConsumptionRow) => ToEntry(date, r), 1);
  }

  /** The page state. */
  class Page {
    const items: seq<StockItem>
    var date: string
    var rows: seq<Draft<ConsumptionRow>>

    constructor (today: string, items: seq<StockItem>)
      ensures this.items == items && date == today && rows == [Draft(1, Blank)]
      ensures IdsIncreasing(rows)
    {
      this.items := items;
      date := today;
      rows := [Draft(1, Blank)];
    }

    /** `addRows`: three blank rows numbered after the last one. */
    method AddRows()
      modifies this`rows
      ensures rows == old(rows) + Block(LastId(old(rows)) + 1, Blank)
      ensures old(IdsIncreasing(rows)) ==> IdsIncreasing(rows)
    {
      if IdsIncreasing(rows) {
        SequentialKeepsIncreasing(rows, Blank);
      }
      rows := AppendSequential(rows, Blank);
    }

    method UpdateRow(id: int, f: Field, value: string)
      modifies this`rows
      ensures rows == Update(old(rows), id, (r: ConsumptionRow) => EditRow(items, r, f, value))
      ensures old(IdsIncreasing(rows)) ==> IdsIncreasing(rows)
    {
      UpdateKeepsIds(rows, id, (r: ConsumptionRow) => EditRow(items, r, f, value));
      rows := Update(rows, id, (r: ConsumptionRow) => EditRow(items, r, f, value));
    }

    /** `getItemPrice` for a row: the shared `StockItems.ItemPrice` over this
        page's items, its contract restated in the row's terms. */
    function RowPrice(r: ConsumptionRow): (p: Preview)
      requires PackSizesNonZero(items)
      reads this
      ensures p.Dash? <==> r.quantity == "" || Lookup(items, r.itemId).None?
      ensures p.Priced? ==> Lookup(items, r.itemId).Some? && PricedFrom(p, ToNumber(r.quantity), Lookup(items, r.itemId).value)
    {
      ItemPrice(items, r.itemId, r.quantity)
    }

    /** `handleSubmit` with the response's `count` and today's date as inputs;
        success resets to one blank row with id 1. */
    method Submit(count: int, today: string) returns (o: Outcome<seq<Entry>>)
      modifies this`date, this`rows
      ensures o == SubmitRequest(old(date), old(rows))
      ensures o.Sent? && count >= 1 ==> date == today && rows == [Draft(1, Blank)]
      ensures !(o.Sent? && count >= 1) ==> date == old(date) && rows == old(rows)
    {
      o := SubmitRequest(date, rows);
      if o.Sent? && count >= 1 {
        date := today;
        rows := [Draft(1, Blank)];
      }
    }
  }
}
