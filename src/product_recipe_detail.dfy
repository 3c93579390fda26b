/** A menu item's recipe detail: the ingredient lines grouped by the base item
    they belong to, the master line of each group and its child lines, the
    collapsed flag of each group and the total price. */
module ProductRecipeDetail {
  import opened Js

  /** An ingredient line; `baseItemName` is None when the line has no base item
      or the base item has no name. */
  datatype Line = Line(baseItemName: Option<string>, baseItemId: Val, itemId: Val, ingredientPrice: Val)

  /** `item.baseItem?.name || 'Unknown'` */
  function Key(l: Line): (k: string)
    ensures k != ""
  {
    if l.baseItemName.None? || l.baseItemName.value == "" then "Unknown" else l.baseItemName.value
  }

  /** The lines with a given key, in input order. */
  function Group(data: seq<Line>, k: string): (g: seq<Line>)
    ensures |g| <= |data|
    ensures forall x :: x in g ==> x in data && Key(x) == k
  {
    if data == [] then []
    else
      var last := data[|data| - 1];
      Group(data[..|data| - 1], k) + (if Key(last) == k then [last] else [])
  }

  function Keys(data: seq<Line>): set<string> {
    set i | 0 <= i < |data| :: Key(data[i])
  }

  lemma {:induction false} GroupOfAbsentKey(data: seq<Line>, k: string)
    requires k !in Keys(data)
    ensures Group(data, k) == []
  {
    if data != [] {
      var init := data[..|data| - 1];
      forall j | 0 <= j < |init| ensures Key(init[j]) != k {
        assert init[j] == data[j];
      }
      assert Key(data[|data| - 1]) in Keys(data);
      GroupOfAbsentKey(init, k);
    }
  }

  /** `groupDataByBaseItem`: one group per key present, holding exactly the lines
      with that key in input order. */
  method GroupByBaseItem(data: seq<Line>) returns (grouped: map<string, seq<Line>>)
    ensures grouped.Keys == Keys(data)
    ensures forall k :: k in grouped ==> grouped[k] == Group(data, k)
  {
    grouped := map[];
    for i := 0 to |data|
      invariant grouped.Keys == Keys(data[..i])
      invariant forall k :: k in grouped ==> grouped[k] == Group(data[..i], k)
    {
      var prefix := data[..i + 1];
      assert prefix[..i] == data[..i];
      assert Keys(prefix) == Keys(data[..i]) + {Key(data[i])};
      var name := Key(data[i]);
      if name !in grouped {
        GroupOfAbsentKey(data[..i], name);
        grouped := grouped[name := []];
      }
      grouped := grouped[name := grouped[name] + [data[i]]];
    }
    assert data[..|data|] == data;
  }

  /** The sum of `f` over the groups of the distinct keys `ks`. */
  function SumOverGroups(ks: seq<string>, data: seq<Line>, f: Line -> real): real {
    if ks == [] then 0.0 else Sum(Group(data, ks[0]), f) + SumOverGroups(ks[1..], data, f)
  }

  predicate Distinct(ks: seq<string>) {
    forall i, j :: 0 <= i < j < |ks| ==> ks[i] != ks[j]
  }

  lemma {:induction false} SumOverGroupsStep(ks: seq<string>, init: seq<Line>, x: Line, f: Line -> real)
    requires Distinct(ks)
    ensures SumOverGroups(ks, init + [x], f) == SumOverGroups(ks, init, f) + (if Key(x) in ks then f(x) else 0.0)
  {
    if ks != [] {
      var data := init + [x];
      assert data[..|data| - 1] == init;
      var g := Group(init, ks[0]);
      if Key(x) == ks[0] {
        assert (g + [x])[..|g|] == g;
        assert Key(x) !in ks[1..];
      } else {
        assert g + [] == g;
      }
      SumOverGroupsStep(ks[1..], init, x, f);
    }
  }

  /** Every line lands in exactly one group: summed over the groups, any
      quantity of the lines adds up to its sum over all lines. */
  lemma {:induction false} GroupsPartition(data: seq<Line>, ks: seq<string>, f: Line -> real)
    requires Distinct(ks)
    requires forall i :: 0 <= i < |data| ==> Key(data[i]) in ks
    ensures SumOverGroups(ks, data, f) == Sum(data, f)
  {
    if data == [] {
      EmptyGroups(ks, f);
    } else {
      var init := data[..|data| - 1];
      assert data == init + [data[|data| - 1]];
      GroupsPartition(init, ks, f);
      SumOverGroupsStep(ks, init, data[|data| - 1], f);
    }
  }

  lemma {:induction false} EmptyGroups(ks: seq<string>, f: Line -> real)
    ensures SumOverGroups(ks, [], f) == 0.0
  {
    if ks != [] {
      EmptyGroups(ks[1..], f);
    }
  }

  lemma {:induction false} SumOfOnes(s: seq<Line>)
    ensures Sum(s, (x: Line) => 1.0) == |s| as real
  {
    if s != [] {
      SumOfOnes(s[..|s| - 1]);
    }
  }

  /** The group sizes add up to the number of lines. */
  lemma GroupSizes(data: seq<Line>, ks: seq<string>)
    requires Distinct(ks)
    requires forall i :: 0 <= i < |data| ==> Key(data[i]) in ks
    ensures SumOverGroups(ks, data, (x: Line) => 1.0) == |data| as real
  {
    GroupsPartition(data, ks, (x: Line) => 1.0);
    SumOfOnes(data);
  }

  /** `item.baseItemId === item.itemId` */
  predicate IsMaster(l: Line) {
    l.baseItemId == l.itemId
  }

  /** `group.find(...)`: the first master line. */
  function MasterRow(g: seq<Line>): (r: Option<Line>)
    ensures r.Some? <==> exists i :: 0 <= i < |g| && IsMaster(g[i])
    ensures r.Some? ==> r.value in g && IsMaster(r.value)
    ensures r.Some? ==>
      exists i :: 0 <= i < |g| && g[i] == r.value && forall j :: 0 <= j < i ==> !IsMaster(g[j])
  {
    if g == [] then None
    else if IsMaster(g[0]) then Some(g[0])
    else
      assert forall i :: 1 <= i < |g| ==> g[1..][i - 1] == g[i];
      MasterRow(g[1..])
  }

  /** `group.filter(...)`: the lines that are not a master line. */
  function ChildRows(g: seq<Line>): (r: seq<Line>)
    ensures forall x :: x in r <==> x in g && !IsMaster(x)
  {
    if g == [] then []
    else
      assert forall x :: x in g <==> x == g[0] || x in g[1..];
      (if IsMaster(g[0]) then [] else [g[0]]) + ChildRows(g[1..])
  }

  /** The children keep the group's order and repeats: the filter distributes
      over concatenation, and a single line is kept exactly when it is not a
      master line. */
  lemma {:induction false} ChildRowsAppend(a: seq<Line>, b: seq<Line>)
    ensures ChildRows(a + b) == ChildRows(a) + ChildRows(b)
    ensures |a| == 1 ==> ChildRows(a) == if IsMaster(a[0]) then [] else a
  {
    if a == [] {
      assert a + b == b;
    } else {
      var ab := a + b;
      assert ab[0] == a[0] && ab[1..] == a[1..] + b;
      ChildRowsAppend(a[1..], b);
      var head := if IsMaster(a[0]) then [] else [a[0]];
      assert ChildRows(ab) == head + ChildRows(ab[1..]);
      ConcatAssoc(head, ChildRows(a[1..]), ChildRows(b));
      if |a| == 1 {
        assert a[1..] == [];
      }
    }
  }

  function CountMasters(g: seq<Line>): nat {
    if g == [] then 0 else (if IsMaster(g[0]) then 1 else 0) + CountMasters(g[1..])
  }

  /** The children and the master lines partition a group; with exactly one
      master line the group is that line plus its children. */
  lemma {:induction false} MasterChildSplit(g: seq<Line>)
    ensures |ChildRows(g)| + CountMasters(g) == |g|
    ensures multiset(ChildRows(g)) + multiset(MasterLines(g)) == multiset(g)
  {
    if g != [] {
      MasterChildSplit(g[1..]);
      assert g == [g[0]] + g[1..];
    }
  }

  function MasterLines(g: seq<Line>): seq<Line> {
    if g == [] then [] else (if IsMaster(g[0]) then [g[0]] else []) + MasterLines(g[1..])
  }

  lemma {:induction false} OneMaster(g: seq<Line>)
    requires CountMasters(g) == 1
    ensures MasterRow(g).Some? && |ChildRows(g)| + 1 == |g|
    ensures multiset(ChildRows(g)) + multiset{MasterRow(g).value} == multiset(g)
  {
    MasterChildSplit(g);
    MastersOfOne(g);
  }

  lemma {:induction false} MastersOfOne(g: seq<Line>)
    requires CountMasters(g) == 1
    ensures MasterRow(g).Some? && MasterLines(g) == [MasterRow(g).value]
  {
    if !IsMaster(g[0]) {
      MastersOfOne(g[1..]);
    } else {
      NoMasters(g[1..]);
    }
  }

  lemma {:induction false} NoMasters(g: seq<Line>)
    requires CountMasters(g) == 0
    ensures MasterLines(g) == []
  {
    if g != [] {
      NoMasters(g[1..]);
    }
  }

  /** `collapsedGroups` after `toggleGroup(name)`: a missing flag counts as
      expanded. */
  function Toggled(collapsed: map<string, bool>, name: string): (m: map<string, bool>)
    ensures m.Keys == collapsed.Keys + {name}
    ensures m[name] == !(name in collapsed && collapsed[name])
    ensures forall k :: k in collapsed && k != name ==> m[k] == collapsed[k]
  {
    collapsed[name := !(name in collapsed && collapsed[name])]
  }

  /** Toggling twice restores the shown state of the group. */
  lemma ToggleTwice(collapsed: map<string, bool>, name: string)
    ensures Toggled(Toggled(collapsed, name), name)[name] == (name in collapsed && collapsed[name])
  {
  }

  /** `parseFloat(item.ingredientPrice)` */
  function PriceOf(l: Line): Num {
    ParseFloatVal(l.ingredientPrice)
  }

  function PriceValue(l: Line): real {
    OrZero(PriceOf(l))
  }

  /** `totalPrice`: the sum over every line, master lines included; NaN when a
      price does not parse. */
  function TotalPrice(lines: seq<Line>): Num {
    SumNum(lines, PriceOf)
  }

  /** With every price a number, the total is the sum of the groups' totals. */
  lemma TotalOverGroups(lines: seq<Line>, ks: seq<string>)
    requires Distinct(ks)
    requires forall i :: 0 <= i < |lines| ==> Key(lines[i]) in ks
    requires forall i :: 0 <= i < |lines| ==> PriceOf(lines[i]).Fin?
    ensures TotalPrice(lines).Fin?
    ensures TotalPrice(lines).v == SumOverGroups(ks, lines, PriceValue)
  {
    TotalIsSum(lines);
    GroupsPartition(lines, ks, PriceValue);
  }

  lemma TotalIsSum(lines: seq<Line>)
    requires forall i :: 0 <= i < |lines| ==> PriceOf(lines[i]).Fin?
    ensures TotalPrice(lines).Fin? && TotalPrice(lines).v == Sum(lines, PriceValue)
  {
    SumNumFinite(lines, PriceOf);
    SumCongruent(lines, x => OrZero(PriceOf(x)), PriceValue);
  }

  class Page {
    var ingredients: seq<Line>
    var groupedData: map<string, seq<Line>>
    var collapsedGroups: map<string, bool>

    constructor ()
      ensures ingredients == [] && groupedData == map[] && collapsedGroups == map[]
    {
      ingredients := [];
      groupedData := map[];
      collapsedGroups := map[];
    }

    /** `loadIngredients` with the returned list as input. */
    method LoadIngredients(list: seq<Line>)
      modifies this`ingredients, this`groupedData
      ensures ingredients == list
      ensures groupedData.Keys == Keys(list)
      ensures forall k :: k in groupedData ==> groupedData[k] == Group(list, k)
    {
      ingredients := list;
      groupedData := GroupByBaseItem(list);
    }

    method ToggleGroup(name: string)
      modifies this`collapsedGroups
      ensures collapsedGroups == Toggled(old(collapsedGroups), name)
    {
      collapsedGroups := collapsedGroups[name := !(name in collapsedGroups && collapsedGroups[name])];
    }
  }
}
