/** The sales dashboard: the date guard before loading, the four totals
    summed over the loaded daily sales, and clearing the filters. */
module SalesDashboard {
  import opened Js

  datatype Sales = Sales(netSales: Val, orders: Val, itemsSold: Val, discount: Val)

  /** A daily entry; `sales` is None when the entry has none. */
  datatype Entry = Entry(sales: Option<Sales>)

  /** `entry.sales || {}`: a missing one has every field undefined. */
  function SalesOf(e: Entry): Sales {
    if e.sales.Some? then e.sales.value else Sales(Undefined, Undefined, Undefined, Undefined)
  }

  /** `parseInt(x || 0)` */
  function Count(x: Val): (r: Num)
    ensures !Truthy(x) ==> r == Fin(0.0)
    ensures x.Number? ==> r == Fin(Trunc(x.n) as real)
    ensures r.Fin? ==> r.v.Floor as real == r.v
  {
    ParseIntVal(Or(x, Number(0.0)))
  }

  function NetSales(e: Entry): Num { Count(SalesOf(e).netSales) }
  function Orders(e: Entry): Num { Count(SalesOf(e).orders) }
  function ItemsSold(e: Entry): Num { Count(SalesOf(e).itemsSold) }
  function Discount(e: Entry): Num { Count(SalesOf(e).discount) }

  /** An entry without sales counts 0 in every total. */
  lemma MissingSalesCountZero(e: Entry)
    requires e.sales.None?
    ensures NetSales(e) == Fin(0.0) && Orders(e) == Fin(0.0)
    ensures ItemsSold(e) == Fin(0.0) && Discount(e) == Fin(0.0)
  {
  }

  datatype Summary = Summary(totalSales: Num, totalOrders: Num, totalItemsSold: Num, totalDiscount: Num)

  /** The summary as sums over the list. */
  function Summarize(data: seq<Entry>): Summary {
    Summary(SumNum(data, NetSales), SumNum(data, Orders), SumNum(data, ItemsSold), SumNum(data, Discount))
  }

  /** `calculateSummary`: four running totals, one parsed field each. */
  method CalculateSummary(data: seq<Entry>) returns (s: Summary)
    ensures s == Summarize(data)
  {
    var totalSales, totalOrders, totalItemsSold, totalDiscount := Fin(0.0), Fin(0.0), Fin(0.0), Fin(0.0);
    for i := 0 to |data|
      invariant totalSales == SumNum(data[..i], NetSales)
      invariant totalOrders == SumNum(data[..i], Orders)
      invariant totalItemsSold == SumNum(data[..i], ItemsSold)
      invariant totalDiscount == SumNum(data[..i], Discount)
    {
      assert data[..i + 1][..i] == data[..i];
      var sales := SalesOf(data[i]);
      totalSales := Add(totalSales, Count(sales.netSales));
      totalOrders := Add(totalOrders, Count(sales.orders));
      totalItemsSold := Add(totalItemsSold, Count(sales.itemsSold));
      totalDiscount := Add(totalDiscount, Count(sales.discount));
    }
    assert data[..|data|] == data;
    s := Summary(totalSales, totalOrders, totalItemsSold, totalDiscount);
  }

  /** An empty list gives four zero totals. */
  lemma EmptySummary()
    ensures Summarize([]) == Summary(Fin(0.0), Fin(0.0), Fin(0.0), Fin(0.0))
  {
  }

  /** The summary of two lists together is the sum of their summaries. */
  lemma SummaryAppend(a: seq<Entry>, b: seq<Entry>)
    ensures Summarize(a + b).totalSales == Add(Summarize(a).totalSales, Summarize(b).totalSales)
    ensures Summarize(a + b).totalOrders == Add(Summarize(a).totalOrders, Summarize(b).totalOrders)
    ensures Summarize(a + b).totalItemsSold == Add(Summarize(a).totalItemsSold, Summarize(b).totalItemsSold)
    ensures Summarize(a + b).totalDiscount == Add(Summarize(a).totalDiscount, Summarize(b).totalDiscount)
  {
    SumNumAppend(a, b, NetSales);
    SumNumAppend(a, b, Orders);
    SumNumAppend(a, b, ItemsSold);
    SumNumAppend(a, b, Discount);
  }

  /** The query of a sales load. */
  datatype Params = Params(startdt: string, enddt: string, departments: string,
                           masterproducts: string, products: string)

  class Page {
    var startDate: string
    var endDate: string
    var selectedDepartments: seq<string>
    var selectedMasterItems: seq<string>
    var selectedItems: seq<string>
    var salesData: seq<Entry>
    var summary: Summary

    /** Both dates default to yesterday when the URL has none. */
    constructor (startParam: string, endParam: string, yesterday: string)
      ensures startDate == (if startParam != "" then startParam else yesterday)
      ensures endDate == (if endParam != "" then endParam else yesterday)
      ensures selectedDepartments == [] && selectedMasterItems == [] && selectedItems == []
      ensures salesData == [] && summary == Summarize([])
    {
      startDate := if startParam != "" then startParam else yesterday;
      endDate := if endParam != "" then endParam else yesterday;
      selectedDepartments, selectedMasterItems, selectedItems := [], [], [];
      salesData := [];
      summary := Summary(Fin(0.0), Fin(0.0), Fin(0.0), Fin(0.0));
    }

    /** The request of `loadSalesData`, refused without both dates. */
    function LoadRequest(): (o: Outcome<Params>)
      reads this
      ensures o.Refused? <==> startDate == "" || endDate == ""
      ensures o.Refused? ==> o.reason == "Please select both start and end dates"
      ensures o.Sent? ==> o.request == Params(startDate, endDate, Join(selectedDepartments, ','),
        Join(selectedMasterItems, ','), Join(selectedItems, ','))
    {
      if startDate == "" || endDate == "" then Refused("Please select both start and end dates")
      else Sent(Params(startDate, endDate, Join(selectedDepartments, ','),
        Join(selectedMasterItems, ','), Join(selectedItems, ',')))
    }

    /** `loadSalesData` with the returned list as input: the stored list and the
        summary come from the same list. */
    method Load(list: seq<Entry>) returns (o: Outcome<Params>)
      modifies this`salesData, this`summary
      ensures o == old(LoadRequest())
      ensures o.Sent? ==> salesData == list && summary == Summarize(list)
      ensures !o.Sent? ==> salesData == old(salesData) && summary == old(summary)
    {
      o := LoadRequest();
      if o.Sent? {
        salesData := list;
        summary := CalculateSummary(list);
      }
    }

    /** `clearFilters`: the three selections are emptied, then the data is
        reloaded. The reload runs in the same rendering as the click, so its
        query still carries the selections from before. */
    method ClearFilters(list: seq<Entry>) returns (o: Outcome<Params>)
      modifies this`selectedDepartments, this`selectedMasterItems, this`selectedItems
      modifies this`salesData, this`summary
      ensures selectedDepartments == [] && selectedMasterItems == [] && selectedItems == []
      ensures o == old(LoadRequest())
      ensures o.Sent? ==> salesData == list && summary == Summarize(list)
      ensures !o.Sent? ==> salesData == old(salesData) && summary == old(summary)
    {
      o := LoadRequest();
      selectedDepartments, selectedMasterItems, selectedItems := [], [], [];
      if o.Sent? {
        salesData := list;
        summary := CalculateSummary(list);
      }
    }
  }
}
