/** Cloning a menu item's recipe into another menu item: the recipe lines can be
    scaled by a multiplier (quarter, half, double) or edited one by one, each
    written line being priced from its unit price, and the quantities are then
    sent for the target item. */
module CloneProductRecipe {
  import opened Js

  /** A recipe line. `itemUnitQuantity` is the line item's own pack size, which
      takes precedence over the line's `unitQuantity` when it is present and not 0.
      Quantities and prices are numbers that an emptied input turns into NaN. */
  datatype Line = Line(
    itemId: Val, ingredientQuantity: Num, ingredientPrice: Num,
    unitPrice: real, itemUnitQuantity: Option<real>, unitQuantity: real)

  /** `ingredient.item?.unitQuantity || ingredient.unitQuantity` */
  function PackSize(l: Line): (u: real)
    ensures l.itemUnitQuantity.Some? && l.itemUnitQuantity.value != 0.0 ==> u == l.itemUnitQuantity.value
    ensures l.itemUnitQuantity.None? || l.itemUnitQuantity.value == 0.0 ==> u == l.unitQuantity
  {
    if l.itemUnitQuantity.Some? && l.itemUnitQuantity.value != 0.0 then l.itemUnitQuantity.value else l.unitQuantity
  }

  /** Lines whose price can be computed (the code divides by the pack size). */
  predicate Priceable(ls: seq<Line>) {
    forall i :: 0 <= i < |ls| ==> PackSize(ls[i]) != 0.0
  }

  /** `(quantity / unitQuantity) * unitPrice` */
  function PriceOf(q: Num, l: Line): (p: Num)
    requires PackSize(l) != 0.0
    ensures p.Fin? <==> q.Fin?
    ensures q.Fin? ==> p.v * PackSize(l) == q.v * l.unitPrice
  {
    if q.NaN? then NaN
    else
      var p := (q.v / PackSize(l)) * l.unitPrice;
      assert p * PackSize(l) == q.v * l.unitPrice by {
        assert (q.v / PackSize(l)) * PackSize(l) == q.v;
      }
      Fin(p)
  }

  /** A line whose price is the one its quantity and unit price give. */
  predicate Priced(l: Line)
    requires PackSize(l) != 0.0
  {
    l.ingredientPrice == PriceOf(l.ingredientQuantity, l)
  }

  /** `quantity * factor` on a number. */
  function Scaled(q: Num, factor: real): (r: Num)
    ensures r.Fin? <==> q.Fin?
    ensures q.Fin? ==> r.v == q.v * factor
  {
    if q.NaN? then NaN else Fin(q.v * factor)
  }

  /** A line with a new quantity and the price recomputed from scratch. */
  function WithQuantity(l: Line, q: Num): (r: Line)
    requires PackSize(l) != 0.0
    ensures r == l.(ingredientQuantity := q, ingredientPrice := r.ingredientPrice)
    ensures PackSize(r) == PackSize(l) && Priced(r)
  {
    l.(ingredientQuantity := q, ingredientPrice := PriceOf(q, l))
  }

  /** `adjustQuantities(factor)`: every quantity multiplied by `factor`, without
      rounding, and every price recomputed. */
  function Adjust(ls: seq<Line>, factor: real): (r: seq<Line>)
    requires Priceable(ls)
    ensures |r| == |ls| && Priceable(r)
    ensures forall i :: 0 <= i < |r| ==>
      r[i] == WithQuantity(ls[i], Scaled(ls[i].ingredientQuantity, factor)) && Priced(r[i])
  {
    seq(|ls|, i requires 0 <= i < |ls| => WithQuantity(ls[i], Scaled(ls[i].ingredientQuantity, factor)))
  }

  /** The price a line gets does not depend on the price it had. */
  lemma WithQuantityForgetsPrice(l: Line, price: Num, q: Num)
    requires PackSize(l) != 0.0
    ensures WithQuantity(l.(ingredientPrice := price), q) == WithQuantity(l, q)
  {
  }

  /** Multipliers compound: scaling by `f` and then by `g` scales by `f * g`. */
  lemma AdjustCompounds(ls: seq<Line>, f: real, g: real)
    requires Priceable(ls)
    ensures Adjust(Adjust(ls, f), g) == Adjust(ls, f * g)
  {
    var a := Adjust(Adjust(ls, f), g);
    var b := Adjust(ls, f * g);
    forall i | 0 <= i < |ls|
      ensures a[i] == b[i]
    {
      var q := ls[i].ingredientQuantity;
      assert Scaled(Scaled(q, f), g) == Scaled(q, f * g) by {
        if q.Fin? {
          assert q.v * f * g == q.v * (f * g);
        }
      }
    }
  }

  /** Scaling by `f` and then by `1/f` restores every quantity, and restores the
      whole list when its lines were priced. */
  lemma AdjustInverse(ls: seq<Line>, f: real)
    requires Priceable(ls) && f != 0.0
    ensures forall i :: 0 <= i < |ls| ==>
      Adjust(Adjust(ls, f), 1.0 / f)[i].ingredientQuantity == ls[i].ingredientQuantity
    ensures (forall i :: 0 <= i < |ls| ==> Priced(ls[i])) ==> Adjust(Adjust(ls, f), 1.0 / f) == ls
  {
    AdjustCompounds(ls, f, 1.0 / f);
    assert f * (1.0 / f) == 1.0;
    forall i | 0 <= i < |ls|
      ensures Adjust(ls, 1.0)[i].ingredientQuantity == ls[i].ingredientQuantity
    {
    }
    if forall i :: 0 <= i < |ls| ==> Priced(ls[i]) {
      assert Adjust(ls, 1.0) == ls;
    }
  }

  /** `handleQuantityChange`: the lines of `itemId` take the parsed quantity and
      its price; every other line is left as it was. */
  function QuantityChanged(ls: seq<Line>, itemId: Val, text: string): (r: seq<Line>)
    requires Priceable(ls)
    ensures |r| == |ls| && Priceable(r)
    ensures forall i :: 0 <= i < |r| && ls[i].itemId == itemId ==>
      r[i] == WithQuantity(ls[i], ParseFloat(text)) && Priced(r[i])
    ensures forall i :: 0 <= i < |r| && ls[i].itemId != itemId ==> r[i] == ls[i]
  {
    seq(|ls|, i requires 0 <= i < |ls| =>
      if ls[i].itemId == itemId then WithQuantity(ls[i], ParseFloat(text)) else ls[i])
  }

  /** After either operation every line they wrote is priced, and a line that
      was priced before stays priced. */
  lemma OperationsKeepPriced(ls: seq<Line>, f: real, itemId: Val, text: string)
    requires Priceable(ls) && forall i :: 0 <= i < |ls| ==> Priced(ls[i])
    ensures forall i :: 0 <= i < |ls| ==> Priced(Adjust(ls, f)[i])
    ensures forall i :: 0 <= i < |ls| ==> Priced(QuantityChanged(ls, itemId, text)[i])
  {
  }

  /** One line of the clone request. */
  datatype CloneLine = CloneLine(itemId: Val, ingredientQuantity: Num)
  datatype CloneRequest = CloneRequest(productId: Val, list: seq<CloneLine>)

  function CloneLines(ls: seq<Line>): (r: seq<CloneLine>)
    ensures |r| == |ls|
    ensures forall i :: 0 <= i < |r| ==> r[i] == CloneLine(ls[i].itemId, ls[i].ingredientQuantity)
  {
    seq(|ls|, i requires 0 <= i < |ls| => CloneLine(ls[i].itemId, ls[i].ingredientQuantity))
  }

  /** `handleClone`: a target product is required, then a non-empty recipe. */
  function CloneRequestOf(selectedProduct: Val, ls: seq<Line>): (o: Outcome<CloneRequest>)
    ensures !Truthy(selectedProduct) ==> o == Refused("Please select a product to clone to")
    ensures Truthy(selectedProduct) && ls == [] ==> o == Refused("No recipe items found to clone")
    ensures o.Sent? <==> Truthy(selectedProduct) && ls != []
    ensures o.Sent? ==> (o.request.productId == selectedProduct && |o.request.list| == |ls|
      && forall i :: 0 <= i < |ls| ==>
           o.request.list[i].itemId == ls[i].itemId && o.request.list[i].ingredientQuantity == ls[i].ingredientQuantity)
  {
    if !Truthy(selectedProduct) then Refused("Please select a product to clone to")
    else if |CloneLines(ls)| == 0 then Refused("No recipe items found to clone")
    else Sent(CloneRequest(selectedProduct, CloneLines(ls)))
  }

  /** Scaling before cloning sends the scaled quantities. */
  lemma CloneSendsScaled(selectedProduct: Val, ls: seq<Line>, f: real)
    requires Priceable(ls) && Truthy(selectedProduct) && ls != []
    ensures CloneRequestOf(selectedProduct, Adjust(ls, f)).Sent?
    ensures forall i :: 0 <= i < |ls| ==>
      CloneRequestOf(selectedProduct, Adjust(ls, f)).request.list[i].ingredientQuantity
        == Scaled(ls[i].ingredientQuantity, f)
  {
  }

  /** `Σ parseFloat(ingredientPrice)` */
  function TotalCost(ls: seq<Line>): Num {
    SumNum(ls, (l: Line) => l.ingredientPrice)
  }

  /** Scaling a priced line with a numeric quantity scales its price. */
  lemma LinePriceScales(l: Line, f: real)
    requires PackSize(l) != 0.0 && l.ingredientQuantity.Fin? && Priced(l)
    ensures WithQuantity(l, Scaled(l.ingredientQuantity, f)).ingredientPrice == Fin(f * l.ingredientPrice.v)
  {
    var a := WithQuantity(l, Scaled(l.ingredientQuantity, f)).ingredientPrice;
    assert a.v * PackSize(l) == f * l.ingredientPrice.v * PackSize(l) by {
      assert a.v * PackSize(l) == l.ingredientQuantity.v * f * l.unitPrice;
      assert l.ingredientPrice.v * PackSize(l) == l.ingredientQuantity.v * l.unitPrice;
    }
    CancelPackSize(a.v, f * l.ingredientPrice.v, PackSize(l));
  }

  /** Scaling a recipe whose quantities are all numbers scales its cost. */
  lemma {:induction false} TotalCostScales(ls: seq<Line>, f: real)
    requires Priceable(ls) && forall i :: 0 <= i < |ls| ==> ls[i].ingredientQuantity.Fin?
    requires forall i :: 0 <= i < |ls| ==> Priced(ls[i])
    ensures TotalCost(Adjust(ls, f)).Fin? && TotalCost(ls).Fin?
    ensures TotalCost(Adjust(ls, f)).v == f * TotalCost(ls).v
    decreases |ls|
  {
    if ls != [] {
      var init := ls[..|ls| - 1];
      TotalCostScales(init, f);
      assert Adjust(ls, f)[..|ls| - 1] == Adjust(init, f);
      LinePriceScales(ls[|ls| - 1], f);
    }
  }

  lemma CancelPackSize(a: real, b: real, q: real)
    requires q != 0.0 && a * q == b * q
    ensures a == b
  {
    assert a == (a * q) / q;
    assert b == (b * q) / q;
  }

  /** The page state. */
  class Page {
    var ingredients: seq<Line>
    var selectedProduct: Val
    var activeMultiplier: Option<string>

    constructor (recipe: seq<Line>)
      ensures ingredients == recipe && selectedProduct == Str("") && activeMultiplier == None
    {
      ingredients := recipe;
      selectedProduct := Str("");
      activeMultiplier := None;
    }

    /** The button of the active multiplier is disabled. */
    predicate MultiplierDisabled(name: string)
      reads this
    {
      activeMultiplier == Some(name)
    }

    method AdjustQuantities(factor: real, name: string)
      requires Priceable(ingredients)
      modifies this`ingredients, this`activeMultiplier
      ensures activeMultiplier == Some(name) && MultiplierDisabled(name)
      ensures ingredients == Adjust(old(ingredients), factor)
    {
      activeMultiplier := Some(name);
      ingredients := Adjust(ingredients, factor);
    }

    /** `handleReset`: no multiplier is active and the recipe is loaded again. */
    method Reset(recipe: seq<Line>)
      modifies this`ingredients, this`activeMultiplier
      ensures activeMultiplier == None && ingredients == recipe
      ensures forall name :: !MultiplierDisabled(name)
    {
      activeMultiplier := None;
      ingredients := recipe;
    }

    method QuantityChange(itemId: Val, text: string)
      requires Priceable(ingredients)
      modifies this`ingredients
      ensures ingredients == QuantityChanged(old(ingredients), itemId, text)
    {
      ingredients := QuantityChanged(ingredients, itemId, text);
    }

    /** `handleClone` with the response's count as an input; success clears the
        target product. */
    method Clone(count: int) returns (o: Outcome<CloneRequest>)
      modifies this`selectedProduct
      ensures o == CloneRequestOf(old(selectedProduct), ingredients)
      ensures o.Sent? && count >= 1 ==> selectedProduct == Str("")
      ensures !(o.Sent? && count >= 1) ==> selectedProduct == old(selectedProduct)
    {
      o := CloneRequestOf(selectedProduct, ingredients);
      if o.Sent? && count >= 1 {
        selectedProduct := Str("");
      }
    }
  }
}
