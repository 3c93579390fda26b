/** The add-store-items page: draft rows of name, unit, measure, price and
    group, numbered by a millisecond clock reading; submit sends the complete
    rows. */
module AddStoreItems {
  import opened Js
  import opened DraftRows

  datatype ItemRow = ItemRow(name: string, unit: string, measure: string, price: string, groupId: string)

  const Blank := ItemRow("", "", "", "", "")

  datatype Field = Name | Unit | Measure | Price | GroupId

  function SetField(r: ItemRow, f: Field, value: string): (s: ItemRow)
    ensures s.name == (if f == Name then value else r.name)
    ensures s.unit == (if f == Unit then value else r.unit)
    ensures s.measure == (if f == Measure then value else r.measure)
    ensures s.price == (if f == Price then value else r.price)
    ensures s.groupId == (if f == GroupId then value else r.groupId)
  {
    match f
    case Name => r.(name := value)
    case Unit => r.(unit := value)
    case Measure => r.(measure := value)
    case Price => r.(price := value)
    case GroupId => r.(groupId := value)
  }

  /** The row test shared by `isFormValid` and submit: a measure or a price that
      does not parse (NaN) fails `>= 0`. */
  predicate ValidRow(r: ItemRow) {
    !IsBlank(r.name) && r.unit != "" && r.groupId != ""
    && AtLeast(ParseFloat(r.measure), 0.0) && AtLeast(ParseFloat(r.price), 0.0)
  }

  /** A submitted store item. */
  datatype NewItem = NewItem(name: string, unit: string, measure: Num, price: Num, groupId: string)

  function ToItem(r: ItemRow): NewItem {
    NewItem(Trim(r.name), r.unit, ParseInt(r.measure), ParseFloat(r.price), r.groupId)
  }

  function Items(rows: seq<Draft<ItemRow>>): seq<NewItem> {
    Select(rows, ValidRow, ToItem)
  }

  function SubmitRequest(rows: seq<Draft<ItemRow>>): (o: Outcome<seq<NewItem>>)
    ensures o.Refused? <==> !AnyRow(rows, ValidRow)
    ensures o.Refused? ==> o.reason == "Please fill all fields before submitting."
    ensures !o.Cancelled?
    ensures o.Sent? ==> o.request == Items(rows)
  {
    var data := Items(rows);
    if |data| == 0 then Refused("Please fill all fields before submitting.")
    else Sent(data)
  }

  /** Every sent item has a name, a unit, a group and a price that is a
      non-negative number. */
  lemma SentItemsPriced(rows: seq<Draft<ItemRow>>)
    ensures forall k :: 0 <= k < |Items(rows)| ==>
      Items(rows)[k].name != "" && Items(rows)[k].unit != "" && Items(rows)[k].groupId != ""
      && AtLeast(Items(rows)[k].price, 0.0)
  {
  }

  class Page {
    var rows: seq<Draft<ItemRow>>

    constructor (now: int)
      ensures rows == [Draft(now, Blank)] && IdsUnique(rows)
    {
      rows := [Draft(now, Blank)];
    }

    method AddRows(now: int)
      modifies this`rows
      ensures rows == old(rows) + Block(now, Blank)
      ensures old(IdsUnique(rows) && IdsBelow(rows, now)) ==> IdsUnique(rows)
    {
      if IdsUnique(rows) && IdsBelow(rows, now) {
        TimedKeepsUnique(rows, now, Blank);
      }
      rows := AppendTimed(rows, now, Blank);
    }

    method DeleteRow(id: int)
      modifies this`rows
      ensures rows == Delete(old(rows), id)
      ensures old(IdsUnique(rows)) ==> IdsUnique(rows) && |rows| >= |old(rows)| - 1
    {
      if IdsUnique(rows) {
        DeleteKeepsUnique(rows, id);
        DeleteUniqueRemovesAtMostOne(rows, id);
      }
      rows := Delete(rows, id);
    }

    method UpdateRow(id: int, f: Field, value: string)
      modifies this`rows
      ensures rows == Update(old(rows), id, (r: ItemRow) => SetField(r, f, value))
      ensures old(IdsUnique(rows)) ==> IdsUnique(rows)
    {
      UpdateKeepsIds(rows, id, (r: ItemRow) => SetField(r, f, value));
      rows := Update(rows, id, (r: ItemRow) => SetField(r, f, value));
    }

    predicate IsFormValid()
      reads this
    {
      AnyRow(rows, ValidRow)
    }

    method Submit(count: int, now: int) returns (o: Outcome<seq<NewItem>>)
      modifies this`rows
      ensures o == SubmitRequest(old(rows))
      ensures o.Sent? <==> old(IsFormValid())
      ensures o.Sent? && count >= 1 ==> rows == [Draft(now, Blank)]
      ensures !(o.Sent? && count >= 1) ==> rows == old(rows)
    {
      o := SubmitRequest(rows);
      if o.Sent? && count >= 1 {
        rows := [Draft(now, Blank)];
      }
    }
  }
}
