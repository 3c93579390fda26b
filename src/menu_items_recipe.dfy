/** The menu-items recipe dashboard: the counters computed over the loaded
    products (how many have a recipe, and how many fall in each efficiency band)
    and the row colour that uses the same bands. */
module MenuItemsRecipe {
  import opened Js

  /** The `product` part of an entry, absent when missing. */
  datatype Product = Product(makingCost: Val, efficiency: Val)
  datatype Entry = Entry(product: Option<Product>)

  /** The efficiency bands, highest first. */
  datatype Band = Red | Orange | Green | Unrated

  /** `entry.product?.efficiency || 0` */
  function Efficiency(e: Entry): Val {
    if e.product.None? then Number(0.0) else Or(e.product.value.efficiency, Number(0.0))
  }

  /** The band of an efficiency value: above 40, above 30, above 0, or none. */
  function BandOf(efficiency: Val): (b: Band)
    ensures b == Red <==> Greater(ToNumberVal(efficiency), 40.0)
    ensures b == Orange <==> Greater(ToNumberVal(efficiency), 30.0) && !Greater(ToNumberVal(efficiency), 40.0)
    ensures b == Green <==> Greater(ToNumberVal(efficiency), 0.0) && !Greater(ToNumberVal(efficiency), 30.0)
    ensures b == Unrated <==> !Greater(ToNumberVal(efficiency), 0.0)
  {
    var n := ToNumberVal(efficiency);
    if Greater(n, 40.0) then Red
    else if Greater(n, 30.0) then Orange
    else if Greater(n, 0.0) then Green
    else Unrated
  }

  /** `entry.product?.makingCost > 0` */
  predicate HasRecipe(e: Entry) {
    e.product.Some? && Greater(ToNumberVal(e.product.value.makingCost), 0.0)
  }

  function CountBand(items: seq<Entry>, b: Band): (n: nat)
    ensures n <= |items|
  {
    if items == [] then 0
    else CountBand(items[..|items| - 1], b) + (if BandOf(Efficiency(items[|items| - 1])) == b then 1 else 0)
  }

  function CountWithRecipe(items: seq<Entry>): (n: nat)
    ensures n <= |items|
  {
    if items == [] then 0
    else CountWithRecipe(items[..|items| - 1]) + (if HasRecipe(items[|items| - 1]) then 1 else 0)
  }

  datatype Stats = Stats(total: nat, green: nat, orange: nat, red: nat, withoutRecipe: int)

  /** The counting loop of `loadMenu`. */
  method ComputeStats(items: seq<Entry>) returns (s: Stats)
    ensures s.total == |items|
    ensures s.red == CountBand(items, Red) && s.orange == CountBand(items, Orange)
    ensures s.green == CountBand(items, Green)
    ensures s.withoutRecipe == |items| - CountWithRecipe(items)
  {
    var total, green, orange, red, withRecipe := 0, 0, 0, 0, 0;
    for i := 0 to |items|
      invariant total == i
      invariant red == CountBand(items[..i], Red) && orange == CountBand(items[..i], Orange)
      invariant green == CountBand(items[..i], Green)
      invariant withRecipe == CountWithRecipe(items[..i])
    {
      assert items[..i + 1][..i] == items[..i];
      var entry := items[i];
      total := total + 1;
      if HasRecipe(entry) {
        withRecipe := withRecipe + 1;
      }
      var efficiency := Efficiency(entry);
      var n := ToNumberVal(efficiency);
      if Greater(n, 40.0) {
        red := red + 1;
      } else if Greater(n, 30.0) {
        orange := orange + 1;
      } else if Greater(n, 0.0) {
        green := green + 1;
      }
    }
    assert items[..|items|] == items;
    s := Stats(total, green, orange, red, total - withRecipe);
  }

  /** Each entry is in at most one band, so the three coloured counters never
      exceed the total, and the entries without a recipe are between 0 and the
      total. */
  lemma {:induction false} BandsPartition(items: seq<Entry>)
    ensures CountBand(items, Red) + CountBand(items, Orange) + CountBand(items, Green)
      + CountBand(items, Unrated) == |items|
    ensures 0 <= |items| - CountWithRecipe(items) <= |items|
  {
    if items != [] {
      BandsPartition(items[..|items| - 1]);
    }
  }

  lemma StatsBounded(items: seq<Entry>, s: Stats)
    requires s.total == |items| && s.red == CountBand(items, Red) && s.orange == CountBand(items, Orange)
    requires s.green == CountBand(items, Green) && s.withoutRecipe == |items| - CountWithRecipe(items)
    ensures s.green + s.orange + s.red <= s.total
    ensures 0 <= s.withoutRecipe <= s.total
  {
    BandsPartition(items);
  }

  /** `getRowClass` */
  function RowClass(efficiency: Val): (c: string)
    ensures c == ClassOf(BandOf(efficiency))
  {
    var n := ToNumberVal(efficiency);
    if Greater(n, 40.0) then "bg-red-50"
    else if Greater(n, 30.0) then "bg-orange-50"
    else if Greater(n, 0.0) then "bg-green-50"
    else "bg-gray-50"
  }

  /** The colour of each band. */
  function ClassOf(b: Band): string {
    match b
    case Red => "bg-red-50"
    case Orange => "bg-orange-50"
    case Green => "bg-green-50"
    case Unrated => "bg-gray-50"
  }
}
