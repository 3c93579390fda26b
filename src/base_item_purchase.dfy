/** Preparing a batch of a base item: the recipe's ingredient lines are rescaled
    from the recipe's batch size to the size to prepare (weights and volumes
    rounded to whole units, prices following the realised quantity), and the
    preparation is submitted as a purchase of the rescaled ingredients. */
module BaseItemPurchase {
  import opened Js

  /** A recipe line; `unit` is the line item's own unit, the display fields are
      absent until the first rescale. */
  datatype Ingredient = Ingredient(
    itemId: Val, ingredientQuantity: real, ingredientPrice: real, unit: string,
    displayQuantity: Option<real>, displayPrice: Option<real>)

  /** The base item being prepared: its batch size and unit. */
  datatype BaseItem = BaseItem(unitQuantity: real, unit: string)

  /** Weights and volumes are rounded to whole grams and millilitres. */
  predicate Rounded(unit: string) {
    unit == "GM" || unit == "ML"
  }

  /** The rescaled quantity of a line. */
  function NewQuantity(q: real, ratio: real, unit: string): (nq: real)
    ensures Rounded(unit) ==> nq == nq.Floor as real && q * ratio - 0.5 < nq <= q * ratio + 0.5
    ensures !Rounded(unit) ==> nq == q * ratio
  {
    if Rounded(unit) then Round(q * ratio) as real else q * ratio
  }

  /** One line rescaled: the display quantity, and the price scaled by the
      quantity ratio actually realised. */
  function ScaleLine(ing: Ingredient, ratio: real): (r: Ingredient)
    requires ing.ingredientQuantity != 0.0
    ensures r == ing.(displayQuantity := r.displayQuantity, displayPrice := r.displayPrice)
    ensures r.displayQuantity == Some(NewQuantity(ing.ingredientQuantity, ratio, ing.unit))
    ensures r.displayPrice.Some?
    ensures r.displayPrice.value * ing.ingredientQuantity == ing.ingredientPrice * r.displayQuantity.value
  {
    var nq := NewQuantity(ing.ingredientQuantity, ratio, ing.unit);
    var price := ing.ingredientPrice * (nq / ing.ingredientQuantity);
    assert price * ing.ingredientQuantity == ing.ingredientPrice * nq by {
      assert (nq / ing.ingredientQuantity) * ing.ingredientQuantity == nq;
    }
    ing.(displayQuantity := Some(nq), displayPrice := Some(price))
  }

  /** Units that are not rounded scale price by exactly the batch ratio. */
  lemma UnroundedPriceScales(ing: Ingredient, ratio: real)
    requires ing.ingredientQuantity != 0.0 && !Rounded(ing.unit)
    ensures ScaleLine(ing, ratio).displayQuantity == Some(ing.ingredientQuantity * ratio)
    ensures ScaleLine(ing, ratio).displayPrice == Some(ing.ingredientPrice * ratio)
  {
    var r := ScaleLine(ing, ratio);
    var nq := NewQuantity(ing.ingredientQuantity, ratio, ing.unit);
    assert nq == ing.ingredientQuantity * ratio;
    assert r.displayPrice.value * ing.ingredientQuantity == ing.ingredientPrice * ratio * ing.ingredientQuantity;
    Cancel(r.displayPrice.value, ing.ingredientPrice * ratio, ing.ingredientQuantity);
  }

  lemma Cancel(a: real, b: real, q: real)
    requires q != 0.0 && a * q == b * q
    ensures a == b
  {
    assert a == (a * q) / q;
    assert b == (b * q) / q;
  }

  predicate NonZeroQuantities(ings: seq<Ingredient>) {
    forall i :: 0 <= i < |ings| ==> ings[i].ingredientQuantity != 0.0
  }

  /** The rescale of every line, in order. */
  function Rescale(ings: seq<Ingredient>, ratio: real): (r: seq<Ingredient>)
    requires NonZeroQuantities(ings)
    ensures |r| == |ings|
    ensures forall i :: 0 <= i < |r| ==> r[i] == ScaleLine(ings[i], ratio)
  {
    seq(|ings|, i requires 0 <= i < |ings| => ScaleLine(ings[i], ratio))
  }

  /** Rescaling reads only the recipe's own quantities and prices, so doing it again
      with the same ratio changes nothing. */
  lemma RescaleIdempotent(ings: seq<Ingredient>, ratio: real)
    requires NonZeroQuantities(ings)
    ensures NonZeroQuantities(Rescale(ings, ratio))
    ensures Rescale(Rescale(ings, ratio), ratio) == Rescale(ings, ratio)
  {
    RescaleForgetsEarlier(ings, ratio, ratio);
  }

  /** A later rescale overrides an earlier one: only the last ratio counts. */
  lemma RescaleForgetsEarlier(ings: seq<Ingredient>, r1: real, r2: real)
    requires NonZeroQuantities(ings)
    ensures NonZeroQuantities(Rescale(ings, r1))
    ensures Rescale(Rescale(ings, r1), r2) == Rescale(ings, r2)
  {
    forall i | 0 <= i < |ings|
      ensures Rescale(Rescale(ings, r1), r2)[i] == Rescale(ings, r2)[i]
    {
      ScaleLineOverrides(ings[i], r1, r2);
    }
  }

  lemma ScaleLineOverrides(ing: Ingredient, r1: real, r2: real)
    requires ing.ingredientQuantity != 0.0
    ensures ScaleLine(ScaleLine(ing, r1), r2) == ScaleLine(ing, r2)
  {
    var a := ScaleLine(ScaleLine(ing, r1), r2);
    var b := ScaleLine(ing, r2);
    var q := ing.ingredientQuantity;
    assert a.displayQuantity == b.displayQuantity;
    Cancel(a.displayPrice.value, b.displayPrice.value, q);
  }

  /** The request line: `displayX || X` as written, where a display value of 0
      counts as missing. */
  datatype SubmitItem = SubmitItem(itemId: Val, ingredientQuantity: real, ingredientPrice: real)

  /** `d || x` for a number that may be absent. */
  function OrNumber(d: Option<real>, x: real): (r: real)
    ensures d.Some? && d.value != 0.0 ==> r == d.value
    ensures d.None? || d.value == 0.0 ==> r == x
  {
    if d.Some? && d.value != 0.0 then d.value else x
  }

  function ItemsAsWritten(ings: seq<Ingredient>): (r: seq<SubmitItem>)
    ensures |r| == |ings|
    ensures forall i :: 0 <= i < |r| ==> r[i] == SubmitItem(ings[i].itemId,
      OrNumber(ings[i].displayQuantity, ings[i].ingredientQuantity),
      OrNumber(ings[i].displayPrice, ings[i].ingredientPrice))
  {
    seq(|ings|, i requires 0 <= i < |ings| => SubmitItem(ings[i].itemId,
      OrNumber(ings[i].displayQuantity, ings[i].ingredientQuantity),
      OrNumber(ings[i].displayPrice, ings[i].ingredientPrice)))
  }

  /** A line's value as displayed and sent: its rescaled value once it has one. */
  function Shown(d: Option<real>, x: real): (r: real)
    ensures d.Some? ==> r == d.value
    ensures d.None? ==> r == x
  {
    if d.Some? then d.value else x
  }

  /** The request lines, taking a rescaled value whenever one exists. */
  function Items(ings: seq<Ingredient>): (r: seq<SubmitItem>)
    ensures |r| == |ings|
    ensures forall i :: 0 <= i < |r| ==> r[i] == SubmitItem(ings[i].itemId,
      Shown(ings[i].displayQuantity, ings[i].ingredientQuantity),
      Shown(ings[i].displayPrice, ings[i].ingredientPrice))
  {
    seq(|ings|, i requires 0 <= i < |ings| => SubmitItem(ings[i].itemId,
      Shown(ings[i].displayQuantity, ings[i].ingredientQuantity),
      Shown(ings[i].displayPrice, ings[i].ingredientPrice)))
  }

  /** The corrected request differs from the one written only on a line whose
      rescaled quantity or price is 0. */
  lemma ItemsAgreeAwayFromZero(ings: seq<Ingredient>)
    ensures forall i :: 0 <= i < |ings| && Items(ings)[i] != ItemsAsWritten(ings)[i] ==>
      ings[i].displayQuantity == Some(0.0) || ings[i].displayPrice == Some(0.0)
    ensures (forall i :: 0 <= i < |ings| ==>
      ings[i].displayQuantity != Some(0.0) && ings[i].displayPrice != Some(0.0)) ==>
      Items(ings) == ItemsAsWritten(ings)
  {
  }

  /** As written, a 300 GM line scaled by 1/1000 rounds to 0 GM and is then sent
      with its full recipe quantity and price. */
  lemma RoundedToZeroSendsRecipeAmount()
    ensures var ing := Ingredient(Number(7.0), 300.0, 60.0, "GM", None, None);
      var scaled := Rescale([ing], 1.0 / 1000.0);
      scaled[0].displayQuantity == Some(0.0)
      && ItemsAsWritten(scaled) == [SubmitItem(Number(7.0), 300.0, 60.0)]
  {
    var ing := Ingredient(Number(7.0), 300.0, 60.0, "GM", None, None);
    var scaled := Rescale([ing], 1.0 / 1000.0);
    assert NewQuantity(300.0, 1.0 / 1000.0, "GM") == 0.0;
    assert scaled[0].displayPrice.value * 300.0 == 0.0;
  }

  /** The corrected request sends exactly the rescaled lines. */
  lemma ItemsFollowRescale(ings: seq<Ingredient>, ratio: real)
    requires NonZeroQuantities(ings)
    ensures forall i :: 0 <= i < |ings| ==>
      Items(Rescale(ings, ratio))[i].ingredientQuantity == NewQuantity(ings[i].ingredientQuantity, ratio, ings[i].unit)
      && Items(Rescale(ings, ratio))[i].ingredientPrice * ings[i].ingredientQuantity
         == ings[i].ingredientPrice * Items(Rescale(ings, ratio))[i].ingredientQuantity
  {
  }

  /** Before any rescale the request carries the recipe as it is. */
  lemma ItemsOfRecipe(ings: seq<Ingredient>)
    requires forall i :: 0 <= i < |ings| ==> ings[i].displayQuantity.None? && ings[i].displayPrice.None?
    ensures forall i :: 0 <= i < |ings| ==>
      Items(ings)[i] == SubmitItem(ings[i].itemId, ings[i].ingredientQuantity, ings[i].ingredientPrice)
  {
  }

  /** The price total of the request lines. */
  function TotalCost(items: seq<SubmitItem>): real {
    Sum(items, (it: SubmitItem) => it.ingredientPrice)
  }

  /** `totalCost * (baseItem.unitQuantity / purchaseQuantity)` */
  function CostPerUnit(items: seq<SubmitItem>, unitQuantity: real, purchaseQuantity: real): (c: real)
    requires purchaseQuantity != 0.0
    ensures c * purchaseQuantity == TotalCost(items) * unitQuantity
  {
    TotalCost(items) * (unitQuantity / purchaseQuantity)
  }

  /** The page total: `displayPrice || ingredientPrice` as written. */
  function TotalPriceAsWritten(ings: seq<Ingredient>): real {
    Sum(ings, (ing: Ingredient) => OrNumber(ing.displayPrice, ing.ingredientPrice))
  }

  /** The page total over the shown prices. */
  function TotalPrice(ings: seq<Ingredient>): real {
    Sum(ings, (ing: Ingredient) => Shown(ing.displayPrice, ing.ingredientPrice))
  }

  /** The shown total is the total of the request, line by line. */
  lemma {:induction false} TotalPriceIsRequestTotal(ings: seq<Ingredient>)
    ensures TotalPrice(ings) == TotalCost(Items(ings))
    decreases |ings|
  {
    if ings != [] {
      var init := ings[..|ings| - 1];
      TotalPriceIsRequestTotal(init);
      assert Items(ings)[..|ings| - 1] == Items(init);
    }
  }

  /** The written total and the shown total differ only through a rescaled
      price of 0, which the written total replaces by the recipe's price. */
  lemma TotalPricesAgreeAwayFromZero(ings: seq<Ingredient>)
    requires forall i :: 0 <= i < |ings| ==> ings[i].displayPrice != Some(0.0)
    ensures TotalPriceAsWritten(ings) == TotalPrice(ings)
  {
    SumCongruent(ings, (ing: Ingredient) => OrNumber(ing.displayPrice, ing.ingredientPrice),
      (ing: Ingredient) => Shown(ing.displayPrice, ing.ingredientPrice));
  }

  /** Without weights or volumes, rescaling by `ratio` scales the total by it. */
  lemma {:induction false} TotalScales(ings: seq<Ingredient>, ratio: real)
    requires NonZeroQuantities(ings)
    requires forall i :: 0 <= i < |ings| ==> !Rounded(ings[i].unit)
    ensures TotalPrice(Rescale(ings, ratio)) == ratio * Sum(ings, (ing: Ingredient) => ing.ingredientPrice)
    decreases |ings|
  {
    if ings != [] {
      var init := ings[..|ings| - 1];
      TotalScales(init, ratio);
      assert Rescale(ings, ratio)[..|ings| - 1] == Rescale(init, ratio);
      UnroundedPriceScales(ings[|ings| - 1], ratio);
    }
  }

  /** The purchase request of a preparation. */
  datatype Purchase = Purchase(
    dt: string, departmentId: Val, baseItemId: Val, purchaseQuantity: real,
    unitQuantity: real, unit: string, items: seq<SubmitItem>)

  /** `handleSubmit`: department, then date, then quantity are checked in this
      order; then the confirmation dialog. */
  function SubmitRequest(selectedDepartment: Val, purchaseDate: string, measureValue: Val,
                         baseItemId: Val, baseItem: BaseItem, ings: seq<Ingredient>,
                         confirmed: bool): (o: Outcome<Purchase>)
    ensures !Truthy(selectedDepartment) ==> o == Refused("Please select a department")
    ensures Truthy(selectedDepartment) && purchaseDate == "" ==> o == Refused("Please select a date")
    ensures Truthy(selectedDepartment) && purchaseDate != "" && !Greater(ParseFloatVal(measureValue), 0.0)
      ==> o == Refused("Please enter a valid quantity to prepare")
    ensures o.Cancelled? <==> (Truthy(selectedDepartment) && purchaseDate != ""
      && Greater(ParseFloatVal(measureValue), 0.0) && !confirmed)
    ensures o.Sent? ==> o.request == Purchase(purchaseDate, selectedDepartment, baseItemId,
      ParseFloatVal(measureValue).v, baseItem.unitQuantity, baseItem.unit, Items(ings))
    ensures o.Sent? ==> o.request.purchaseQuantity > 0.0
  {
    if !Truthy(selectedDepartment) then Refused("Please select a department")
    else if purchaseDate == "" then Refused("Please select a date")
    else if !Greater(ParseFloatVal(measureValue), 0.0) then Refused("Please enter a valid quantity to prepare")
    else if !confirmed then Cancelled
    else Sent(Purchase(purchaseDate, selectedDepartment, baseItemId,
      ParseFloatVal(measureValue).v, baseItem.unitQuantity, baseItem.unit, Items(ings)))
  }

  /** Submitting an unrescaled recipe at its own batch size costs the recipe's
      price per batch. */
  lemma CostPerUnitOfRecipe(ings: seq<Ingredient>, baseItem: BaseItem)
    requires baseItem.unitQuantity != 0.0
    requires forall i :: 0 <= i < |ings| ==> ings[i].displayQuantity.None? && ings[i].displayPrice.None?
    ensures CostPerUnit(Items(ings), baseItem.unitQuantity, baseItem.unitQuantity)
      == Sum(ings, (ing: Ingredient) => ing.ingredientPrice)
  {
    TotalPriceIsRequestTotal(ings);
    SumCongruent(ings, (ing: Ingredient) => Shown(ing.displayPrice, ing.ingredientPrice),
      (ing: Ingredient) => ing.ingredientPrice);
  }

  /** The page state. */
  class Page {
    const baseItemId: Val
    const baseItem: BaseItem
    var ingredients: seq<Ingredient>
    var measureValue: Val
    var originalMeasureValue: real
    var purchaseDate: string
    var selectedDepartment: Val

    /** The page once the base item and its recipe have loaded. */
    constructor (baseItemId: Val, baseItem: BaseItem, recipe: seq<Ingredient>, today: string)
      ensures this.baseItemId == baseItemId && this.baseItem == baseItem
      ensures ingredients == recipe && measureValue == Number(baseItem.unitQuantity)
      ensures originalMeasureValue == baseItem.unitQuantity
      ensures purchaseDate == today && selectedDepartment == Str("")
    {
      this.baseItemId := baseItemId;
      this.baseItem := baseItem;
      ingredients := recipe;
      measureValue := Number(baseItem.unitQuantity);
      originalMeasureValue := baseItem.unitQuantity;
      purchaseDate := today;
      selectedDepartment := Str("");
    }

    /** `updateAllQuantities`: a measure that is not a positive number is refused
        and the lines stay as they are. */
    method UpdateAllQuantities() returns (ok: bool)
      requires Greater(ParseFloatVal(measureValue), 0.0) ==>
        originalMeasureValue != 0.0 && NonZeroQuantities(ingredients)
      modifies this`ingredients
      ensures ok == Greater(ParseFloatVal(measureValue), 0.0)
      ensures !ok ==> ingredients == old(ingredients)
      ensures ok ==> ingredients == Rescale(old(ingredients), ParseFloatVal(measureValue).v / originalMeasureValue)
    {
      var m := ParseFloatVal(measureValue);
      if m.NaN? || m.v <= 0.0 {
        return false;
      }
      var ratio := m.v / originalMeasureValue;
      ingredients := Rescale(ingredients, ratio);
      return true;
    }

    /** `handleRefresh`: the measure goes back to the recipe's batch size and the
        recipe is loaded again. */
    method Refresh(recipe: seq<Ingredient>)
      modifies this`measureValue, this`ingredients
      ensures measureValue == Number(originalMeasureValue) && ingredients == recipe
    {
      measureValue := Number(originalMeasureValue);
      ingredients := recipe;
    }

    /** `handleSubmit` with the dialog's answer, the response's count and the recipe
        reloaded after success as inputs. A successful preparation becomes the new
        batch size that later rescales start from. */
    method Submit(confirmed: bool, count: int, recipe: seq<Ingredient>) returns (o: Outcome<Purchase>)
      modifies this`originalMeasureValue, this`ingredients
      ensures o == SubmitRequest(selectedDepartment, purchaseDate, measureValue, baseItemId,
        baseItem, old(ingredients), confirmed)
      ensures o.Sent? && count >= 1 ==>
        originalMeasureValue == o.request.purchaseQuantity && ingredients == recipe
      ensures !(o.Sent? && count >= 1) ==>
        originalMeasureValue == old(originalMeasureValue) && ingredients == old(ingredients)
    {
      o := SubmitRequest(selectedDepartment, purchaseDate, measureValue, baseItemId,
        baseItem, ingredients, confirmed);
      if o.Sent? && count >= 1 {
        originalMeasureValue := o.request.purchaseQuantity;
        ingredients := recipe;
      }
    }
  }
}
