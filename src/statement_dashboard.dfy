/** The bank-statement dashboard: the date guard before loading, the per-column
    text filters over the loaded rows, clearing the filters and the currency
    label. The number formatting of the cells and of the amounts is an input
    function. */
module StatementDashboard {
  import opened Js

  /** A statement row: its properties by column name. */
  type Row = map<string, Val>

  /** `String(row[column] || '')`; `show` is `String()` of a number. */
  function CellText(row: Row, column: string, show: real -> string): (t: string)
    ensures !(column in row && Truthy(row[column])) ==> t == ""
    ensures column in row && row[column].Str? ==> t == row[column].s
    ensures column in row && Truthy(row[column]) && row[column].Number? ==> t == show(row[column].n)
  {
    if column !in row then ""
    else
      match Or(row[column], Str(""))
      case Str(s) => s
      case Number(n) => show(n)
      case Bool(b) => if b then "true" else "false"
      case _ => ""
  }

  /** The filter callback of `filteredData`: every non-empty column filter is
      contained in the lowercased cell. */
  predicate Keep(row: Row, filters: map<string, string>, show: real -> string) {
    forall column :: column in filters && filters[column] != "" ==>
      Includes(ToLower(CellText(row, column, show)), filters[column])
  }

  function Filter(rows: seq<Row>, filters: map<string, string>, show: real -> string): (r: seq<Row>)
    ensures |r| <= |rows|
    ensures forall x :: x in r <==> x in rows && Keep(x, filters, show)
    ensures SubSeq(r, rows)
  {
    if rows == [] then []
    else
      var rest := Filter(rows[1..], filters, show);
      assert forall x :: x in rows <==> x == rows[0] || x in rows[1..];
      if Keep(rows[0], filters, show) then [rows[0]] + rest
      else
        SubSeqSkip(rest, rows);
        rest
  }

  /** Filtering goes row by row and keeps order and repeats: it distributes
      over concatenation, and a single row is kept exactly when it passes. */
  lemma {:induction false} FilterAppend(a: seq<Row>, b: seq<Row>, filters: map<string, string>, show: real -> string)
    ensures Filter(a + b, filters, show) == Filter(a, filters, show) + Filter(b, filters, show)
    ensures |a| == 1 ==> Filter(a, filters, show) == if Keep(a[0], filters, show) then a else []
  {
    if a == [] {
      assert a + b == b;
    } else {
      var ab := a + b;
      assert ab[0] == a[0] && ab[1..] == a[1..] + b;
      FilterAppend(a[1..], b, filters, show);
      FilterCons(ab, filters, show);
      FilterCons(a, filters, show);
      var head := if Keep(a[0], filters, show) then [a[0]] else [];
      var fa, fb := Filter(a[1..], filters, show), Filter(b, filters, show);
      ConcatAssoc(head, fa, fb);
      if |a| == 1 {
        assert a[1..] == [];
      }
    }
  }

  /** One step of `Filter`: the first row, if it passes, then the rest filtered. */
  lemma FilterCons(rows: seq<Row>, filters: map<string, string>, show: real -> string)
    requires rows != []
    ensures Filter(rows, filters, show) == (if Keep(rows[0], filters, show) then [rows[0]] else []) + Filter(rows[1..], filters, show)
  {
  }

  /** `a` is `b` with some elements left out, order kept. */
  predicate SubSeq(a: seq<Row>, b: seq<Row>)
    decreases |b|
  {
    a == [] || (b != [] && ((a[0] == b[0] && SubSeq(a[1..], b[1..])) || SubSeq(a, b[1..])))
  }

  lemma SubSeqSkip(a: seq<Row>, b: seq<Row>)
    requires b != [] && SubSeq(a, b[1..])
    ensures SubSeq(a, b)
  {
  }

  /** With no non-empty filter every row is kept. */
  lemma {:induction false} NoFilterKeepsAll(rows: seq<Row>, filters: map<string, string>, show: real -> string)
    requires forall column :: column in filters ==> filters[column] == ""
    ensures Filter(rows, filters, show) == rows
  {
    if rows != [] {
      NoFilterKeepsAll(rows[1..], filters, show);
      assert rows == [rows[0]] + rows[1..];
    }
  }

  /** `stronger` keeps every active filter of `weaker`, possibly extended to a
      longer text containing it, and may add more. */
  predicate Refines(stronger: map<string, string>, weaker: map<string, string>) {
    forall column :: column in weaker && weaker[column] != "" ==>
      column in stronger && Includes(stronger[column], weaker[column])
  }

  lemma KeepRefines(row: Row, stronger: map<string, string>, weaker: map<string, string>, show: real -> string)
    requires Refines(stronger, weaker) && Keep(row, stronger, show)
    ensures Keep(row, weaker, show)
  {
    forall column | column in weaker && weaker[column] != ""
      ensures Includes(ToLower(CellText(row, column, show)), weaker[column])
    {
      var s := stronger[column];
      if s != "" {
        IncludesTransitive(ToLower(CellText(row, column, show)), s, weaker[column]);
      }
    }
  }

  /** Adding or extending a filter can only remove rows; the rows left keep
      their order. */
  lemma {:induction false} RefiningFilters(rows: seq<Row>, stronger: map<string, string>,
                                           weaker: map<string, string>, show: real -> string)
    requires Refines(stronger, weaker)
    ensures SubSeq(Filter(rows, stronger, show), Filter(rows, weaker, show))
  {
    if rows != [] {
      RefiningFilters(rows[1..], stronger, weaker, show);
      var a := Filter(rows[1..], stronger, show);
      var b := Filter(rows[1..], weaker, show);
      if Keep(rows[0], stronger, show) {
        KeepRefines(rows[0], stronger, weaker, show);
        assert Filter(rows, weaker, show) == [rows[0]] + b;
        assert ([rows[0]] + a)[1..] == a && ([rows[0]] + b)[1..] == b;
      } else if Keep(rows[0], weaker, show) {
        SubSeqSkip(a, [rows[0]] + b);
        assert ([rows[0]] + b)[1..] == b;
      }
    }
  }

  /** The query of a statement load. */
  datatype Params = Params(startdt: string, enddt: string, kind: string, entities: string)

  class Page {
    var startDate: string
    var endDate: string
    var transactionType: string
    var statementData: seq<Row>
    var columnFilters: map<string, string>

    /** The dates and the type come from the URL, else the week up to today. */
    constructor (startParam: string, endParam: string, typeParam: string, weekAgo: string, today: string)
      ensures startDate == (if startParam != "" then startParam else weekAgo)
      ensures endDate == (if endParam != "" then endParam else today)
      ensures transactionType == typeParam && statementData == [] && columnFilters == map[]
    {
      startDate := if startParam != "" then startParam else weekAgo;
      endDate := if endParam != "" then endParam else today;
      transactionType := typeParam;
      statementData := [];
      columnFilters := map[];
    }

    /** The request of `loadStatementData`, refused without both dates. */
    function LoadRequest(entities: string): (o: Outcome<Params>)
      reads this
      ensures o.Refused? <==> startDate == "" || endDate == ""
      ensures o.Refused? ==> o.reason == "Please select both start and end dates"
      ensures o.Sent? ==> o.request == Params(startDate, endDate, transactionType, entities)
    {
      if startDate == "" || endDate == "" then Refused("Please select both start and end dates")
      else Sent(Params(startDate, endDate, transactionType, entities))
    }

    /** `loadStatementData` with the returned list as input. */
    method Load(entities: string, list: seq<Row>) returns (o: Outcome<Params>)
      modifies this`statementData
      ensures o == old(LoadRequest(entities))
      ensures o.Sent? ==> statementData == list
      ensures !o.Sent? ==> statementData == old(statementData)
    {
      o := LoadRequest(entities);
      if o.Sent? {
        statementData := list;
      }
    }

    /** `handleColumnFilter`: the value is stored lowercased and the other
        columns keep their filters. */
    method ColumnFilter(column: string, value: string)
      modifies this`columnFilters
      ensures columnFilters.Keys == old(columnFilters).Keys + {column}
      ensures columnFilters[column] == ToLower(value)
      ensures forall c :: c in old(columnFilters) && c != column ==> columnFilters[c] == old(columnFilters)[c]
    {
      columnFilters := columnFilters[column := ToLower(value)];
    }

    /** `filteredData` */
    function FilteredData(show: real -> string): (r: seq<Row>)
      reads this
      ensures forall x :: x in r <==> x in statementData && Keep(x, columnFilters, show)
      ensures SubSeq(r, statementData)
    {
      Filter(statementData, columnFilters, show)
    }

    /** `clearFilters`: the type and every column filter are reset, then the
        data is reloaded. The reload runs in the same rendering as the click, so
        its query still carries the type from before the reset. */
    method ClearFilters(entities: string, list: seq<Row>) returns (o: Outcome<Params>)
      modifies this`transactionType, this`columnFilters, this`statementData
      ensures transactionType == "" && columnFilters == map[]
      ensures o == old(LoadRequest(entities))
      ensures o.Sent? ==> statementData == list
      ensures !o.Sent? ==> statementData == old(statementData)
    {
      o := LoadRequest(entities);
      transactionType := "";
      columnFilters := map[];
      if o.Sent? {
        statementData := list;
      }
    }
  }

  /** Filtering is case-insensitive: a filter typed in capitals keeps the same
      rows as the same filter in small letters. */
  lemma FilterIgnoresCase(row: Row, filters: map<string, string>, column: string, value: string,
                          show: real -> string)
    ensures Keep(row, filters[column := ToLower(ToUpper(value))], show)
      <==> Keep(row, filters[column := ToLower(value)], show)
  {
    LowerOfUpper(value);
  }

  /** The prefix the page's literal holds: the three characters U+00E2 U+201A
      U+00B9, which are the UTF-8 bytes of the rupee sign U+20B9 read as
      Windows-1252. */
  const CurrencyPrefix := "\U{E2}\U{201A}\U{B9}"

  /** `formatCurrency`: '' for a falsy value, else the literal's prefix and the
      grouped integer part (`grouped` is `toLocaleString('en-IN')`). */
  function FormatCurrency(value: Val, grouped: Num -> string): (s: string)
    ensures s == "" <==> !Truthy(value)
    ensures Truthy(value) ==> s == CurrencyPrefix + grouped(ParseIntVal(value))
  {
    if Truthy(value) then CurrencyPrefix + grouped(ParseIntVal(value)) else ""
  }
}
