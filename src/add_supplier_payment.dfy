/** The supplier-payment entry page: draft rows of supplier, payment and tax
    numbered 1, 2, 3, …; submit sends the rows with a supplier and a payment. */
module AddSupplierPayment {
  import opened Js
  import opened DraftRows

  datatype PaymentRow = PaymentRow(supplierId: string, payment: string, tax: string)

  const Blank := PaymentRow("", "", "")

  datatype Field = Supplier | Payment | Tax

  function SetField(r: PaymentRow, f: Field, value: string): (s: PaymentRow)
    ensures s.supplierId == (if f == Supplier then value else r.supplierId)
    ensures s.payment == (if f == Payment then value else r.payment)
    ensures s.tax == (if f == Tax then value else r.tax)
  {
    match f
    case Supplier => r.(supplierId := value)
    case Payment => r.(payment := value)
    case Tax => r.(tax := value)
  }

  /** The `isFormValid` row test: a payment greater than 0. */
  predicate ValidRow(r: PaymentRow) {
    r.supplierId != "" && Greater(ToNumber(r.payment), 0.0)
  }

  /** The submit filter: a payment that is merely filled in. */
  predicate Filled(r: PaymentRow) {
    r.supplierId != "" && r.payment != ""
  }

  datatype SentPayment = SentPayment(dt: string, supplierId: string, taxAmount: real, paymentAmount: Num)

  /** `taxAmount` is `parseFloat(tax) || 0`, so a missing or unreadable tax is 0;
      the payment goes through `parseFloat` alone. */
  function ToPayment(date: string, r: PaymentRow): SentPayment {
    SentPayment(date, r.supplierId, OrZero(ParseFloat(r.tax)), ParseFloat(r.payment))
  }

  function Payments(date: string, rows: seq<Draft<PaymentRow>>): seq<SentPayment> {
    Select(rows, Filled, (r: PaymentRow) => ToPayment(date, r))
  }

  predicate IsFormValid(date: string, rows: seq<Draft<PaymentRow>>) {
    date != "" && AnyRow(rows, ValidRow)
  }

  function SubmitRequest(date: string, rows: seq<Draft<PaymentRow>>): (o: Outcome<seq<SentPayment>>)
    ensures o.Refused? <==> !IsFormValid(date, rows)
    ensures o.Refused? ==> o.reason == "Please fill all required fields"
    ensures !o.Cancelled?
    ensures o.Sent? ==> o.request == Payments(date, rows) && o.request != []
  {
    if !IsFormValid(date, rows) then Refused("Please fill all required fields")
    else
      forall r | ValidRow(r) ensures Filled(r) {
        ValidIsFilled(r);
      }
      ValidFormSubmitsSomething(rows, ValidRow, Filled, (r: PaymentRow) => ToPayment(date, r));
      Sent(Payments(date, rows))
  }

  lemma ValidIsFilled(r: PaymentRow)
    ensures ValidRow(r) ==> Filled(r)
  {
  }

  /** A row without a tax is sent with tax 0, and every row with a supplier and a
      payment is sent. */
  lemma MissingTaxIsZero(date: string, rows: seq<Draft<PaymentRow>>)
    ensures forall i :: 0 <= i < |rows| && Filled(rows[i].fields) ==>
      ToPayment(date, rows[i].fields) in Payments(date, rows)
    ensures forall i :: 0 <= i < |rows| && rows[i].fields.tax == "" ==> ToPayment(date, rows[i].fields).taxAmount == 0.0
  {
    forall i | 0 <= i < |rows| && Filled(rows[i].fields)
      ensures ToPayment(date, rows[i].fields) in Payments(date, rows)
    {
      SelectComplete(rows, Filled, (r: PaymentRow) => ToPayment(date, r), i);
    }
  }

  class Page {
    var date: string
    var rows: seq<Draft<PaymentRow>>

    constructor (today: string)
      ensures date == today && rows == [Draft(1, Blank)] && IdsIncreasing(rows)
    {
      date := today;
      rows := [Draft(1, Blank)];
    }

    method AddRows()
      modifies this`rows
      ensures rows == old(rows) + Block(LastId(old(rows)) + 1, Blank)
      ensures old(IdsIncreasing(rows)) ==> IdsIncreasing(rows)
    {
      if IdsIncreasing(rows) {
        SequentialKeepsIncreasing(rows, Blank);
      }
      rows := AppendSequential(rows, Blank);
    }

    method UpdateRow(id: int, f: Field, value: string)
      modifies this`rows
      ensures rows == Update(old(rows), id, (r: PaymentRow) => SetField(r, f, value))
      ensures old(IdsIncreasing(rows)) ==> IdsIncreasing(rows)
    {
      UpdateKeepsIds(rows, id, (r: PaymentRow) => SetField(r, f, value));
      rows := Update(rows, id, (r: PaymentRow) => SetField(r, f, value));
    }

    method Submit(count: int, today: string) returns (o: Outcome<seq<SentPayment>>)
      modifies this`date, this`rows
      ensures o == SubmitRequest(old(date), old(rows))
      ensures o.Sent? && count >= 1 ==> date == today && rows == [Draft(1, Blank)]
      ensures !(o.Sent? && count >= 1) ==> date == old(date) && rows == old(rows)
    {
      o := SubmitRequest(date, rows);
      if o.Sent? && count >= 1 {
        date := today;
        rows := [Draft(1, Blank)];
      }
    }
  }
}
