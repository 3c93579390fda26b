/** The supplier-expense dashboard: the date-range selector, the add and update
    popups with their form, the status change that fills the payment fields, the
    upsert request built from the form, and the total of the listed expenses.
    "Today" and "yesterday" are inputs (dates as strings). */
module ManageSupplierPurchase {
  import opened Js
  import Carousel

  /** The popup form; fields hold whatever was typed or copied from a row. */
  datatype Form = Form(
    id: Val, purchaseDate: Val, supplierId: Val, notes: Val, invoiceNumber: Val,
    purchaseAmount: Val, purchaseTaxAmount: Val, status: Val,
    paymentDate: Val, paymentAmount: Val, paymentTaxAmount: Val)

  /** A listed expense as the server returns it. */
  datatype ExpenseRecord = ExpenseRecord(
    id: Val, dt: Val, supplierId: Val, notes: Val, invoiceNumber: Val,
    purchaseAmount: Val, taxAmount: Val, status: Val, purchaseTypeId: Val)

  /** The empty form of an add popup, dated `today`. */
  function BlankForm(purchaseDate: Val): (f: Form)
    ensures f.id == Null && f.purchaseDate == purchaseDate && f.status == Str("PENDING")
    ensures f.supplierId == Str("") && f.notes == Str("") && f.invoiceNumber == Str("")
    ensures f.purchaseAmount == Str("") && f.purchaseTaxAmount == Str("")
    ensures f.paymentDate == Str("") && f.paymentAmount == Str("") && f.paymentTaxAmount == Str("")
  {
    Form(Null, purchaseDate, Str(""), Str(""), Str(""), Str(""), Str(""), Str("PENDING"),
      Str(""), Str(""), Str(""))
  }

  /** The add popup's title. */
  function AddTitle(typeId: Val): (t: string)
    ensures t == "Add COGS Expense" <==> typeId == Number(1.0)
    ensures t != "Add COGS Expense" ==> t == "Add Fixed/Other Expense"
  {
    if typeId == Number(1.0) then "Add COGS Expense" else "Add Fixed/Other Expense"
  }

  /** The update popup's form: the row's fields, missing notes and invoice number as
      '', a missing status as 'PENDING', and the payment fields blank. */
  function RowForm(row: ExpenseRecord): (f: Form)
    ensures f.id == row.id && f.purchaseDate == row.dt && f.supplierId == row.supplierId
    ensures f.purchaseAmount == row.purchaseAmount && f.purchaseTaxAmount == row.taxAmount
    ensures Truthy(row.notes) ==> f.notes == row.notes
    ensures !Truthy(row.notes) ==> f.notes == Str("")
    ensures Truthy(row.invoiceNumber) ==> f.invoiceNumber == row.invoiceNumber
    ensures !Truthy(row.invoiceNumber) ==> f.invoiceNumber == Str("")
    ensures Truthy(row.status) ==> f.status == row.status
    ensures !Truthy(row.status) ==> f.status == Str("PENDING")
    ensures f.paymentDate == Str("") && f.paymentAmount == Str("") && f.paymentTaxAmount == Str("")
  {
    Form(row.id, row.dt, row.supplierId, Or(row.notes, Str("")), Or(row.invoiceNumber, Str("")),
      row.purchaseAmount, row.taxAmount, Or(row.status, Str("PENDING")), Str(""), Str(""), Str(""))
  }

  /** Choosing a status: moving into 'COMPLETED' from another status dates the
      payment today and copies the purchase amounts into the payment amounts. */
  function StatusChanged(prev: Form, newStatus: Val, today: Val): (f: Form)
    ensures f.status == newStatus
    ensures newStatus == Str("COMPLETED") && prev.status != Str("COMPLETED") ==>
      f == prev.(status := newStatus, paymentDate := today,
                 paymentAmount := prev.purchaseAmount, paymentTaxAmount := prev.purchaseTaxAmount)
    ensures !(newStatus == Str("COMPLETED") && prev.status != Str("COMPLETED")) ==>
      f == prev.(status := newStatus)
  {
    var updated := prev.(status := newStatus);
    if newStatus == Str("COMPLETED") && prev.status != Str("COMPLETED")
    then updated.(paymentDate := today, paymentAmount := prev.purchaseAmount,
                  paymentTaxAmount := prev.purchaseTaxAmount)
    else updated
  }

  /** Choosing 'COMPLETED' a second time changes nothing more: the payment fields
      are copied only on the transition. */
  lemma CompletingTwice(prev: Form, today: Val, later: Val)
    ensures StatusChanged(StatusChanged(prev, Str("COMPLETED"), today), Str("COMPLETED"), later)
      == StatusChanged(prev, Str("COMPLETED"), today)
  {
  }

  /** After completing, the payment amounts equal the purchase amounts. */
  lemma CompletedPaysPurchase(prev: Form, today: Val)
    requires prev.status != Str("COMPLETED")
    ensures var f := StatusChanged(prev, Str("COMPLETED"), today);
      f.paymentAmount == f.purchaseAmount && f.paymentTaxAmount == f.purchaseTaxAmount
      && f.paymentDate == today
  {
  }

  /** The upsert request. */
  datatype Payload = Payload(
    id: Val, purchaseTypeId: Val, purchaseDate: Val, supplierId: Num, notes: Val,
    invoiceNumber: Val, purchaseAmount: real, purchaseTaxAmount: real, status: Val,
    paymentDate: Val, paymentAmount: real, paymentTaxAmount: real)

  /** `parseFloat(x) || 0` on a form field. */
  function AmountOrZero(x: Val): (r: real)
    ensures ParseFloatVal(x).Fin? ==> r == ParseFloatVal(x).v
    ensures ParseFloatVal(x).NaN? ==> r == 0.0
  {
    OrZero(ParseFloatVal(x))
  }

  /** The request of `handleSubmitPurchase`: amounts through `parseFloat(x) || 0`,
      empty notes, invoice number and payment date as null, the supplier through
      `parseInt`. */
  function SubmitPayload(form: Form, purchaseTypeId: Val): (p: Payload)
    ensures p.id == form.id && p.purchaseTypeId == purchaseTypeId
    ensures p.purchaseDate == form.purchaseDate && p.status == form.status
    ensures p.supplierId == ParseIntVal(form.supplierId)
    ensures Truthy(form.notes) ==> p.notes == form.notes
    ensures !Truthy(form.notes) ==> p.notes == Null
    ensures Truthy(form.invoiceNumber) ==> p.invoiceNumber == form.invoiceNumber
    ensures !Truthy(form.invoiceNumber) ==> p.invoiceNumber == Null
    ensures Truthy(form.paymentDate) ==> p.paymentDate == form.paymentDate
    ensures !Truthy(form.paymentDate) ==> p.paymentDate == Null
    ensures p.purchaseAmount == AmountOrZero(form.purchaseAmount)
    ensures p.purchaseTaxAmount == AmountOrZero(form.purchaseTaxAmount)
    ensures p.paymentAmount == AmountOrZero(form.paymentAmount)
    ensures p.paymentTaxAmount == AmountOrZero(form.paymentTaxAmount)
  {
    Payload(form.id, purchaseTypeId, form.purchaseDate, ParseIntVal(form.supplierId),
      Or(form.notes, Null), Or(form.invoiceNumber, Null),
      AmountOrZero(form.purchaseAmount), AmountOrZero(form.purchaseTaxAmount), form.status,
      Or(form.paymentDate, Null), AmountOrZero(form.paymentAmount), AmountOrZero(form.paymentTaxAmount))
  }

  /** Submitting an untouched add form: no supplier (`parseInt('')` is NaN), all
      amounts 0, and null notes, invoice number and payment date. */
  lemma BlankFormPayload(today: Val, typeId: Val)
    ensures var p := SubmitPayload(BlankForm(today), typeId);
      p.supplierId.NaN? && p.notes == Null && p.invoiceNumber == Null && p.paymentDate == Null
      && p.purchaseAmount == 0.0 && p.purchaseTaxAmount == 0.0
      && p.paymentAmount == 0.0 && p.paymentTaxAmount == 0.0
      && p.status == Str("PENDING") && p.id == Null
  {
  }

  /** Completing an expense and submitting sends the purchase amounts as the
      payment amounts. */
  lemma CompletedSubmitPaysPurchase(prev: Form, today: Val, typeId: Val)
    requires prev.status != Str("COMPLETED")
    ensures var p := SubmitPayload(StatusChanged(prev, Str("COMPLETED"), today), typeId);
      p.paymentAmount == p.purchaseAmount && p.paymentTaxAmount == p.purchaseTaxAmount
  {
  }

  /** `(parseFloat(purchaseAmount) || 0) + (parseFloat(taxAmount) || 0)` summed. */
  function TotalCost(rows: seq<ExpenseRecord>): real {
    Sum(rows, (r: ExpenseRecord) => AmountOrZero(r.purchaseAmount) + AmountOrZero(r.taxAmount))
  }

  /** The total splits into the purchase total plus the tax total. */
  lemma {:induction false} TotalCostSplits(rows: seq<ExpenseRecord>)
    ensures TotalCost(rows) == Sum(rows, (r: ExpenseRecord) => AmountOrZero(r.purchaseAmount))
                             + Sum(rows, (r: ExpenseRecord) => AmountOrZero(r.taxAmount))
    decreases |rows|
  {
    if rows != [] {
      TotalCostSplits(rows[..|rows| - 1]);
    }
  }

  /** Non-negative amounts (unparseable ones count 0) give a non-negative total. */
  lemma TotalCostNonNegative(rows: seq<ExpenseRecord>)
    requires forall i :: 0 <= i < |rows| ==>
      AmountOrZero(rows[i].purchaseAmount) >= 0.0 && AmountOrZero(rows[i].taxAmount) >= 0.0
    ensures TotalCost(rows) >= 0.0
  {
    SumNonNegative(rows, (r: ExpenseRecord) => AmountOrZero(r.purchaseAmount) + AmountOrZero(r.taxAmount));
  }

  /** The date range after choosing a filter: 'today' and 'yesterday' set both ends,
      any other choice ('custom') keeps the range. */
  function FilteredDates(value: string, startDate: string, endDate: string,
                         today: string, yesterday: string): (r: (string, string))
    ensures value == "today" ==> r == (today, today)
    ensures value == "yesterday" ==> r == (yesterday, yesterday)
    ensures value != "today" && value != "yesterday" ==> r == (startDate, endDate)
  {
    if value == "today" then (today, today)
    else if value == "yesterday" then (yesterday, yesterday)
    else (startDate, endDate)
  }

  /** The page's state. */
  class Page {
    var dateFilter: string
    var startDate: string
    var endDate: string
    var purchaseTypeId: Val
    var popupMode: string
    var popupTitle: string
    var form: Form
    var position: int

    constructor ()
      ensures dateFilter == "today" && startDate == "" && endDate == ""
      ensures purchaseTypeId == Number(1.0) && popupMode == "add" && popupTitle == "Add Purchase"
      ensures form == BlankForm(Str("")) && position == 0
    {
      dateFilter := "today";
      startDate := "";
      endDate := "";
      purchaseTypeId := Number(1.0);
      popupMode := "add";
      popupTitle := "Add Purchase";
      form := BlankForm(Str(""));
      position := 0;
    }

    method DateFilterChange(value: string, today: string, yesterday: string)
      modifies this`dateFilter, this`startDate, this`endDate
      ensures dateFilter == value
      ensures (startDate, endDate) == FilteredDates(value, old(startDate), old(endDate), today, yesterday)
    {
      dateFilter := value;
      if value == "today" {
        startDate, endDate := today, today;
      } else if value == "yesterday" {
        startDate, endDate := yesterday, yesterday;
      }
    }

    method OpenAdd(typeId: Val, today: string)
      modifies this`purchaseTypeId, this`popupMode, this`popupTitle, this`form
      ensures purchaseTypeId == typeId && popupMode == "add"
      ensures popupTitle == AddTitle(typeId) && form == BlankForm(Str(today))
    {
      purchaseTypeId := typeId;
      popupMode := "add";
      popupTitle := AddTitle(typeId);
      form := BlankForm(Str(today));
    }

    method OpenUpdate(row: ExpenseRecord)
      modifies this`purchaseTypeId, this`popupMode, this`popupTitle, this`form
      ensures purchaseTypeId == row.purchaseTypeId && popupMode == "update"
      ensures popupTitle == "Update Expense" && form == RowForm(row)
    {
      purchaseTypeId := row.purchaseTypeId;
      popupMode := "update";
      popupTitle := "Update Expense";
      form := RowForm(row);
    }

    method StatusChange(newStatus: Val, today: string)
      modifies this`form
      ensures form == StatusChanged(old(form), newStatus, Str(today))
    {
      form := StatusChanged(form, newStatus, Str(today));
    }

    /** The request sent on submit; the page does not look at the response. */
    method Submit() returns (p: Payload)
      ensures p == SubmitPayload(form, purchaseTypeId)
    {
      p := SubmitPayload(form, purchaseTypeId);
    }

    /** `moveCarousel`, with the card count and cards per view as inputs. */
    method MoveCarousel(dir: int, count: nat, perView: int)
      modifies this`position
      ensures position == Carousel.Move(old(position), dir, count, perView)
    {
      if count > 0 {
        position := Carousel.Clamp(position, dir, count, perView);
      }
    }
  }
}
