/** Editing a menu item's recipe: a list of draft rows for new ingredients
    (item, quantity) submitted together, and one row component per existing
    ingredient whose quantity can be edited and applied on its own. */
module UpdateProductRecipe {
  import opened Js
  import opened DraftRows
  import CloneProductRecipe

  /** The fields of a new-ingredient row, as typed. */
  datatype NewRow = NewRow(itemId: string, quantity: string)

  const Blank := NewRow("", "")

  datatype Field = ItemId | Quantity

  /** `{ ...row, [field]: value }` */
  function SetField(r: NewRow, f: Field, value: string): (s: NewRow)
    ensures f == ItemId ==> s == r.(itemId := value)
    ensures f == Quantity ==> s == r.(quantity := value)
  {
    match f
    case ItemId => r.(itemId := value)
    case Quantity => r.(quantity := value)
  }

  /** `row.itemId && parseFloat(row.quantity) > 0` */
  predicate ValidRow(r: NewRow) {
    r.itemId != "" && Greater(ParseFloat(r.quantity), 0.0)
  }

  /** The submit filter `row.itemId && row.quantity`: truthiness only. */
  predicate Filled(r: NewRow) {
    r.itemId != "" && r.quantity != ""
  }

  /** A submitted line. */
  datatype Line = Line(itemId: string, ingredientQuantity: Num)

  function ToLine(r: NewRow): Line {
    Line(r.itemId, ParseFloat(r.quantity))
  }

  datatype Request = Request(productId: Val, list: seq<Line>)

  /** Every valid row is filled, so a valid form always submits something. */
  lemma ValidIsFilled(r: NewRow)
    ensures ValidRow(r) ==> Filled(r)
  {
  }

  lemma ValidFormSubmits(rows: seq<Draft<NewRow>>)
    requires AnyRow(rows, ValidRow)
    ensures Select(rows, Filled, ToLine) != []
  {
    forall r | ValidRow(r) ensures Filled(r) {
      ValidIsFilled(r);
    }
    ValidFormSubmitsSomething(rows, ValidRow, Filled, ToLine);
  }

  /** The two rows of the example below: a valid one and one with quantity "0". */
  const FilledRows := [Draft(1, NewRow("4", "2")), Draft(2, NewRow("5", "0"))]

  /** The filter is weaker than the validity test: a filled row with quantity "0"
      is sent with quantity 0 next to the valid rows. */
  lemma ZeroQuantityIsSent()
    ensures AnyRow(FilledRows, ValidRow) && !ValidRow(FilledRows[1].fields)
      && Line("5", Fin(0.0)) in Select(FilledRows, Filled, ToLine)
  {
    DigitsParse("2");
    DigitsParse("0");
    assert ValidRow(FilledRows[0].fields) && !ValidRow(FilledRows[1].fields);
    ZeroLineSelected();
  }

  /** The row with quantity "0" becomes a line with quantity 0. */
  lemma ZeroLineSelected()
    ensures Line("5", Fin(0.0)) in Select(FilledRows, Filled, ToLine)
  {
    var r := FilledRows[1].fields;
    assert r == NewRow("5", "0") && Filled(r);
    DigitsParse(r.quantity);
    assert DigitsValue(r.quantity) == 0;
    assert ToLine(r) == Line("5", Fin(0.0));
    SelectComplete(FilledRows, Filled, ToLine, 1);
  }

  /** `handleSubmitNew`: an empty selection is refused. */
  function SubmitRequest(productId: Val, rows: seq<Draft<NewRow>>): (o: Outcome<Request>)
    ensures o.Refused? <==> forall i :: 0 <= i < |rows| ==> !Filled(rows[i].fields)
    ensures o.Refused? ==> o.reason == "Please fill all fields before submitting"
    ensures !o.Cancelled?
    ensures o.Sent? ==> o.request == Request(productId, Select(rows, Filled, ToLine))
  {
    var data := Select(rows, Filled, ToLine);
    if |data| == 0 then Refused("Please fill all fields before submitting")
    else Sent(Request(productId, data))
  }

  /** The page state: the new-ingredient rows and the loaded recipe. */
  class Page {
    const productId: Val
    var newRows: seq<Draft<NewRow>>
    var existing: seq<CloneProductRecipe.Line>

    constructor (productId: Val, recipe: seq<CloneProductRecipe.Line>)
      ensures this.productId == productId && newRows == [Draft(1, Blank)] && existing == recipe
      ensures IdsIncreasing(newRows)
    {
      this.productId := productId;
      newRows := [Draft(1, Blank)];
      existing := recipe;
    }

    /** `addRows`: three blank rows numbered after the last one. */
    method AddRows()
      modifies this`newRows
      ensures newRows == old(newRows) + Block(LastId(old(newRows)) + 1, Blank)
      ensures old(IdsIncreasing(newRows)) ==> IdsIncreasing(newRows)
    {
      if IdsIncreasing(newRows) {
        SequentialKeepsIncreasing(newRows, Blank);
      }
      newRows := AppendSequential(newRows, Blank);
    }

    method UpdateRow(id: int, f: Field, value: string)
      modifies this`newRows
      ensures newRows == Update(old(newRows), id, (r: NewRow) => SetField(r, f, value))
      ensures old(IdsIncreasing(newRows)) ==> IdsIncreasing(newRows)
    {
      UpdateKeepsIds(newRows, id, (r: NewRow) => SetField(r, f, value));
      newRows := Update(newRows, id, (r: NewRow) => SetField(r, f, value));
    }

    /** `isFormValid` */
    predicate IsFormValid()
      reads this
    {
      AnyRow(newRows, ValidRow)
    }

    /** `handleSubmitNew` with the response's count and the reloaded recipe as
        inputs; success resets the form to one blank row with id 1. */
    method SubmitNew(count: int, recipe: seq<CloneProductRecipe.Line>) returns (o: Outcome<Request>)
      modifies this`newRows, this`existing
      ensures o == SubmitRequest(productId, old(newRows))
      ensures o.Sent? && count >= 1 ==> newRows == [Draft(1, Blank)] && existing == recipe
      ensures !(o.Sent? && count >= 1) ==> newRows == old(newRows) && existing == old(existing)
    {
      o := SubmitRequest(productId, newRows);
      if o.Sent? && count >= 1 {
        newRows := [Draft(1, Blank)];
        existing := recipe;
      }
    }

    /** `totalCost`: the sum of the loaded lines' prices. */
    function TotalCost(): Num
      reads this
    {
      CloneProductRecipe.TotalCost(existing)
    }
  }

  /** JavaScript `a !== b` on two numbers: NaN differs from everything. */
  predicate NumbersDiffer(a: Num, b: Num) {
    !(a.Fin? && b.Fin? && a.v == b.v)
  }

  /** The apply request of one existing line: the page's product and a
      one-line list. */
  datatype UpdateLine = UpdateLine(itemId: Val, ingredientQuantity: Num)

  datatype UpdateRequest = UpdateRequest(productId: Val, list: seq<UpdateLine>)

  /** The row component of an existing ingredient. */
  class IngredientRow {
    const ingredient: CloneProductRecipe.Line
    var quantity: Val
    var showApply: bool
    var oldValue: Val

    /** `oldValue` is shown exactly while Apply is. */
    ghost predicate Valid()
      reads this
    {
      ingredient.ingredientQuantity.Fin?
      && (showApply ==> oldValue == Number(ingredient.ingredientQuantity.v))
      && (!showApply ==> oldValue == Null)
    }

    constructor (ingredient: CloneProductRecipe.Line)
      requires ingredient.ingredientQuantity.Fin?
      ensures this.ingredient == ingredient && quantity == Number(ingredient.ingredientQuantity.v)
      ensures !showApply && oldValue == Null && Valid()
    {
      this.ingredient := ingredient;
      quantity := Number(ingredient.ingredientQuantity.v);
      showApply := false;
      oldValue := Null;
    }

    /** Typing: Apply shows exactly when the typed number differs from the
        stored one. */
    method QuantityChange(value: string)
      requires Valid()
      modifies this
      ensures quantity == Str(value)
      ensures showApply == NumbersDiffer(ParseFloat(value), ingredient.ingredientQuantity)
      ensures Valid()
    {
      quantity := Str(value);
      if NumbersDiffer(ParseFloat(value), ingredient.ingredientQuantity) {
        showApply := true;
        oldValue := Number(ingredient.ingredientQuantity.v);
      } else {
        showApply := false;
        oldValue := Null;
      }
    }

    /** `handleApply`, through the page's `handleUpdateQuantity` for the page's
        `productId`: the typed quantity is sent through `parseFloat` as the only
        line, and Apply hides again. */
    method Apply(productId: Val) returns (r: UpdateRequest)
      requires Valid()
      modifies this`showApply, this`oldValue
      ensures r == UpdateRequest(productId, [UpdateLine(ingredient.itemId, ParseFloatVal(quantity))])
      ensures !showApply && oldValue == Null && Valid()
    {
      r := UpdateRequest(productId, [UpdateLine(ingredient.itemId, ParseFloatVal(quantity))]);
      showApply := false;
      oldValue := Null;
    }

    /** The previewed price of the typed quantity. */
    function NewTotalPrice(): (p: Num)
      requires CloneProductRecipe.PackSize(ingredient) != 0.0
      reads this
      ensures p == CloneProductRecipe.PriceOf(ParseFloatVal(quantity), ingredient)
      ensures p.Fin? <==> ParseFloatVal(quantity).Fin?
    {
      CloneProductRecipe.PriceOf(ParseFloatVal(quantity), ingredient)
    }
  }

  /** Typing back the stored number hides Apply; clearing the box shows it (an
      empty box parses to NaN). */
  lemma ApplyVisibility(stored: real, text: string)
    ensures ParseFloat(text) == Fin(stored) ==> !NumbersDiffer(ParseFloat(text), Fin(stored))
    ensures NumbersDiffer(ParseFloat(""), Fin(stored))
  {
  }
}
