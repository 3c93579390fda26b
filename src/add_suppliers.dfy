/** The add-suppliers page: draft rows holding a name, numbered by a
    millisecond clock reading; submit sends the trimmed non-blank names. */
module AddSuppliers {
  import opened Js
  import opened DraftRows

  datatype NameRow = NameRow(name: string)

  const Blank := NameRow("")

  predicate ValidRow(r: NameRow) {
    !IsBlank(r.name)
  }

  function TrimmedName(r: NameRow): string {
    Trim(r.name)
  }

  function Names(rows: seq<Draft<NameRow>>): seq<string> {
    Select(rows, ValidRow, TrimmedName)
  }

  function SubmitRequest(rows: seq<Draft<NameRow>>): (o: Outcome<seq<string>>)
    ensures o.Refused? <==> !AnyRow(rows, ValidRow)
    ensures o.Refused? ==> o.reason == "Please fill all fields before submitting."
    ensures !o.Cancelled?
    ensures o.Sent? ==> o.request == Names(rows)
  {
    var data := Names(rows);
    if |data| == 0 then Refused("Please fill all fields before submitting.")
    else Sent(data)
  }

  /** A trimmed name: non-empty, without white space at either end. */
  predicate CleanName(n: string) {
    n != "" && !IsSpace(n[0]) && !IsSpace(n[|n| - 1])
  }

  /** Every sent name is clean, and the names follow the rows' order: a row's
      name is sent exactly when the row is not blank. */
  lemma {:induction false} NamesInRowOrder(rows: seq<Draft<NameRow>>)
    ensures forall k :: 0 <= k < |Names(rows)| ==> CleanName(Names(rows)[k])
    ensures rows != [] && ValidRow(rows[0].fields) ==> Names(rows) == [Trim(rows[0].fields.name)] + Names(rows[1..])
    ensures rows != [] && !ValidRow(rows[0].fields) ==> Names(rows) == Names(rows[1..])
  {
    forall k | 0 <= k < |Names(rows)|
      ensures CleanName(Names(rows)[k])
    {
      var i :| 0 <= i < |rows| && ValidRow(rows[i].fields) && Names(rows)[k] == TrimmedName(rows[i].fields);
      TrimmedIsClean(rows[i].fields);
    }
  }

  /** A row that is not blank has a clean trimmed name. */
  lemma TrimmedIsClean(r: NameRow)
    requires ValidRow(r)
    ensures CleanName(TrimmedName(r))
  {
    TrimEnds(r.name);
  }

  class Page {
    var rows: seq<Draft<NameRow>>

    constructor (now: int)
      ensures rows == [Draft(now, Blank)] && IdsUnique(rows)
    {
      rows := [Draft(now, Blank)];
    }

    method AddRows(now: int)
      modifies this`rows
      ensures rows == old(rows) + Block(now, Blank)
      ensures old(IdsUnique(rows) && IdsBelow(rows, now)) ==> IdsUnique(rows)
    {
      if IdsUnique(rows) && IdsBelow(rows, now) {
        TimedKeepsUnique(rows, now, Blank);
      }
      rows := AppendTimed(rows, now, Blank);
    }

    method DeleteRow(id: int)
      modifies this`rows
      ensures rows == Delete(old(rows), id)
      ensures old(IdsUnique(rows)) ==> IdsUnique(rows) && |rows| >= |old(rows)| - 1
    {
      if IdsUnique(rows) {
        DeleteKeepsUnique(rows, id);
        DeleteUniqueRemovesAtMostOne(rows, id);
      }
      rows := Delete(rows, id);
    }

    /** `updateRow(id, 'name', value)` */
    method UpdateRow(id: int, value: string)
      modifies this`rows
      ensures rows == Update(old(rows), id, (r: NameRow) => NameRow(value))
      ensures old(IdsUnique(rows)) ==> IdsUnique(rows)
    {
      UpdateKeepsIds(rows, id, (r: NameRow) => NameRow(value));
      rows := Update(rows, id, (r: NameRow) => NameRow(value));
    }

    predicate IsFormValid()
      reads this
    {
      AnyRow(rows, ValidRow)
    }

    method Submit(count: int, now: int) returns (o: Outcome<seq<string>>)
      modifies this`rows
      ensures o == SubmitRequest(old(rows))
      ensures o.Sent? <==> old(IsFormValid())
      ensures o.Sent? && count >= 1 ==> rows == [Draft(now, Blank)]
      ensures !(o.Sent? && count >= 1) ==> rows == old(rows)
    {
      o := SubmitRequest(rows);
      if o.Sent? && count >= 1 {
        rows := [Draft(now, Blank)];
      }
    }
  }
}
