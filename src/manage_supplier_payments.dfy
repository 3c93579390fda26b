/** The supplier-payment dashboard: each payment row holds its own edited payment
    and tax amounts, recomputes `hasChanges` against the row it was rendered from,
    and offers Apply exactly while the amounts differ. */
module ManageSupplierPayments {
  import opened Js

  datatype PaymentRecord = PaymentRecord(
    id: int, supplier: Option<string>, purchaseTypeId: Val,
    paymentAmount: Val, taxAmount: Val, totalPaymentAmount: Val)

  /** `row.purchaseTypeId === 2 ? 'Fixed/Other Expense' : 'COGS Expense'` */
  function PurchaseTypeLabel(purchaseTypeId: Val): (name: string)
    ensures name == "Fixed/Other Expense" <==> purchaseTypeId == Number(2.0)
    ensures name != "Fixed/Other Expense" ==> name == "COGS Expense"
  {
    if purchaseTypeId == Number(2.0) then "Fixed/Other Expense" else "COGS Expense"
  }

  /** `parseFloat(text) || 0`: what an amount box stores. */
  function Amount(text: string): (v: Val)
    ensures v.Number?
    ensures ParseFloat(text).Fin? ==> v == Number(ParseFloat(text).v)
    ensures ParseFloat(text).NaN? ==> v == Number(0.0)
  {
    Number(OrZero(ParseFloat(text)))
  }

  /** The row component. */
  class PaymentRow {
    const row: PaymentRecord
    var paymentAmount: Val
    var taxAmount: Val
    var hasChanges: bool

    /** The state after the change effect has run. */
    ghost predicate Valid()
      reads this
    {
      hasChanges == (paymentAmount != row.paymentAmount || taxAmount != row.taxAmount)
    }

    constructor (row: PaymentRecord)
      ensures this.row == row && paymentAmount == row.paymentAmount && taxAmount == row.taxAmount
      ensures !hasChanges && Valid()
    {
      this.row := row;
      paymentAmount := row.paymentAmount;
      taxAmount := row.taxAmount;
      hasChanges := false;
    }

    /** A row without a supplier renders nothing. */
    predicate Rendered()
    {
      row.supplier.Some?
    }

    /** The Apply button is shown exactly while the amounts differ. */
    predicate ShowsApply()
      reads this
    {
      hasChanges
    }

    method EditPayment(text: string)
      modifies this
      ensures paymentAmount == Amount(text) && taxAmount == old(taxAmount)
      ensures Valid()
    {
      paymentAmount := Amount(text);
      hasChanges := paymentAmount != row.paymentAmount || taxAmount != row.taxAmount;
    }

    method EditTax(text: string)
      modifies this
      ensures taxAmount == Amount(text) && paymentAmount == old(paymentAmount)
      ensures Valid()
    {
      taxAmount := Amount(text);
      hasChanges := paymentAmount != row.paymentAmount || taxAmount != row.taxAmount;
    }

    /** `onApply(row.id, taxAmount, paymentAmount)` */
    method Apply() returns (p: Upsert)
      requires Valid() && hasChanges
      ensures p == ApplyPayload(row.id, taxAmount, paymentAmount)
    {
      p := ApplyPayload(row.id, taxAmount, paymentAmount);
    }
  }

  datatype Upsert = Upsert(id: int, taxAmount: Num, paymentAmount: Num)

  /** The page's apply request: both amounts through `parseFloat`. */
  function ApplyPayload(id: int, tax: Val, payment: Val): (p: Upsert)
    ensures p.id == id
    ensures tax.Number? ==> p.taxAmount == Fin(tax.n)
    ensures payment.Number? ==> p.paymentAmount == Fin(payment.n)
    ensures tax.Str? ==> p.taxAmount == ParseFloat(tax.s)
    ensures payment.Str? ==> p.paymentAmount == ParseFloat(payment.s)
    ensures !tax.Number? && !tax.Str? ==> p.taxAmount == NaN
    ensures !payment.Number? && !payment.Str? ==> p.paymentAmount == NaN
  {
    Upsert(id, ParseFloatVal(tax), ParseFloatVal(payment))
  }

  /** Amounts typed into a row are numbers already, so the request carries them
      unchanged and never carries NaN. */
  lemma EditedAmountsSentExactly(id: int, taxText: string, paymentText: string)
    ensures ApplyPayload(id, Amount(taxText), Amount(paymentText))
      == Upsert(id, Fin(OrZero(ParseFloat(taxText))), Fin(OrZero(ParseFloat(paymentText))))
  {
  }

  /** `sum + (parseFloat(row.totalPaymentAmount) || 0)` */
  function TotalCost(rows: seq<PaymentRecord>): real {
    Sum(rows, (r: PaymentRecord) => OrZero(ParseFloatVal(r.totalPaymentAmount)))
  }

  /** Non-negative payments give a non-negative total; unparseable ones count 0. */
  lemma TotalCostNonNegative(rows: seq<PaymentRecord>)
    requires forall i :: 0 <= i < |rows| ==>
      ParseFloatVal(rows[i].totalPaymentAmount).NaN? || ParseFloatVal(rows[i].totalPaymentAmount).v >= 0.0
    ensures TotalCost(rows) >= 0.0
  {
    SumNonNegative(rows, (r: PaymentRecord) => OrZero(ParseFloatVal(r.totalPaymentAmount)));
  }
}
