/** Creating an outgoing invoice: a list of line items (description, quantity,
    price, line total) edited in place, the subtotal and the two GST amounts, the
    invoice number generated when a customer is chosen, the checks before
    generation and the record that is saved. The clock reading and the random
    digits of the invoice number are inputs. */
module CreateInvoice {
  import opened Js
  import opened DraftRows
  import ManageOutgoingInvoices

  /** A line item; quantity and price hold what was typed (numbers at first). */
  datatype LineFields = LineFields(description: string, quantity: Val, price: Val, total: Num)

  type Item = Draft<LineFields>

  /** The line a new item starts with: quantity 1, price 0, total 0. */
  const NewLine := LineFields("", Number(1.0), Number(0.0), Fin(0.0))

  /** `Math.max(...ids, 0)` */
  function MaxId(items: seq<Item>): (m: int)
    ensures m >= 0
    ensures forall i :: 0 <= i < |items| ==> items[i].id <= m
    ensures m == 0 || exists i :: 0 <= i < |items| && items[i].id == m
  {
    if items == [] then 0
    else
      var rest := MaxId(items[..|items| - 1]);
      var last := items[|items| - 1].id;
      assert forall i :: 0 <= i < |items| - 1 ==> items[..|items| - 1][i] == items[i];
      if last > rest then last else rest
  }

  /** `addItem`: one new line with an id above every present id. */
  function WithNewItem(items: seq<Item>): (r: seq<Item>)
    ensures r == items + [Draft(MaxId(items) + 1, NewLine)]
    ensures IdsUnique(items) ==> IdsUnique(r)
  {
    items + [Draft(MaxId(items) + 1, NewLine)]
  }

  datatype Field = Description | Quantity | Price

  /** `parseFloat(a || 0) * parseFloat(b || 0)` */
  function LineTotal(quantity: Val, price: Val): (t: Num)
    ensures t.Fin? <==> ParseFloatVal(Or(quantity, Number(0.0))).Fin? && ParseFloatVal(Or(price, Number(0.0))).Fin?
    ensures t.Fin? ==> t.v == ParseFloatVal(Or(quantity, Number(0.0))).v * ParseFloatVal(Or(price, Number(0.0))).v
  {
    var q := ParseFloatVal(Or(quantity, Number(0.0)));
    var p := ParseFloatVal(Or(price, Number(0.0)));
    if q.Fin? && p.Fin? then Fin(q.v * p.v) else NaN
  }

  /** One line after `updateItem`: the field set, and the total recomputed only
      when quantity or price changed. */
  function EditLine(l: LineFields, f: Field, value: string): (r: LineFields)
    ensures f == Description ==> r == l.(description := value)
    ensures f == Quantity ==> r == l.(quantity := Str(value), total := LineTotal(Str(value), l.price))
    ensures f == Price ==> r == l.(price := Str(value), total := LineTotal(l.quantity, Str(value)))
  {
    match f
    case Description => l.(description := value)
    case Quantity => l.(quantity := Str(value), total := LineTotal(Str(value), l.price))
    case Price => l.(price := Str(value), total := LineTotal(l.quantity, Str(value)))
  }

  /** A line whose total is its quantity times its price. */
  predicate Totalled(l: LineFields) {
    l.total == LineTotal(l.quantity, l.price)
  }

  /** Editing quantity or price leaves the line totalled, and editing the
      description keeps it as it was. */
  lemma EditKeepsTotalled(l: LineFields, f: Field, value: string)
    requires Totalled(l)
    ensures Totalled(EditLine(l, f, value))
  {
  }

  /** The invoice totals. */
  datatype Totals = Totals(subtotal: real, sgstAmount: Num, cgstAmount: Num, total: Num)

  function Percent(amount: real, rate: Num): (r: Num)
    ensures r.Fin? <==> rate.Fin?
    ensures rate.Fin? ==> r.v * 100.0 == amount * rate.v
  {
    if rate.Fin? then Fin(amount * (rate.v / 100.0)) else NaN
  }

  /** The sum of the line totals, a NaN total counting 0. */
  function Subtotal(items: seq<Item>): real {
    Sum(items, (it: Item) => OrZero(it.fields.total))
  }

  /** `calculateTotals`; a rate box that does not parse makes its amount NaN. */
  function CalculateTotals(items: seq<Item>, sgstRate: Num, cgstRate: Num): (t: Totals)
    ensures t.subtotal == Subtotal(items)
    ensures t.sgstAmount == Percent(t.subtotal, sgstRate) && t.cgstAmount == Percent(t.subtotal, cgstRate)
    ensures t.total.Fin? <==> sgstRate.Fin? && cgstRate.Fin?
    ensures t.total.Fin? ==> t.total.v * 100.0 == t.subtotal * (100.0 + sgstRate.v + cgstRate.v)
  {
    var subtotal := Subtotal(items);
    var sgst := Percent(subtotal, sgstRate);
    var cgst := Percent(subtotal, cgstRate);
    Totals(subtotal, sgst, cgst, Add(Add(Fin(subtotal), sgst), cgst))
  }

  /** Non-negative line totals give a non-negative subtotal; NaN lines add 0. */
  lemma SubtotalNonNegative(items: seq<Item>)
    requires forall i :: 0 <= i < |items| ==> OrZero(items[i].fields.total) >= 0.0
    ensures Subtotal(items) >= 0.0
  {
    SumNonNegative(items, (it: Item) => OrZero(it.fields.total));
  }

  /** A new line has total 0, so adding it leaves the subtotal unchanged. */
  lemma SubtotalAfterAdd(items: seq<Item>)
    ensures Subtotal(WithNewItem(items)) == Subtotal(items)
  {
    SumAppend(items, [Draft(MaxId(items) + 1, NewLine)], (it: Item) => OrZero(it.fields.total));
    assert [Draft(MaxId(items) + 1, NewLine)][..0] == [];
  }

  /** The generation checks, in their order. */
  predicate HasDescribedItem(items: seq<Item>) {
    exists i :: 0 <= i < |items| && Trim(items[i].fields.description) != ""
  }

  /** `items.some(item => parseFloat(item.price) <= 0)` as written: a price that
      does not parse (an emptied box) is not `<= 0`. */
  predicate HasInvalidPriceAsWritten(items: seq<Item>) {
    exists i :: 0 <= i < |items| &&
      ParseFloatVal(items[i].fields.price).Fin? && ParseFloatVal(items[i].fields.price).v <= 0.0
  }

  /** The check its message describes: every price must be a number above 0. */
  predicate HasInvalidPrice(items: seq<Item>) {
    exists i :: 0 <= i < |items| && !Greater(ParseFloatVal(items[i].fields.price), 0.0)
  }

  /** As written, a line whose price box was emptied passes the price check, and
      its line total is 0. */
  lemma EmptiedPricePasses()
    ensures var items := [Draft(1, EditLine(NewLine.(description := "Catering"), Price, ""))];
      !HasInvalidPriceAsWritten(items) && HasInvalidPrice(items)
      && items[0].fields.total == Fin(0.0)
  {
    var items := [Draft(1, EditLine(NewLine.(description := "Catering"), Price, ""))];
    assert items[0].fields.price == Str("");
    assert ParseFloatVal(Str("")) == NaN;
    assert !Greater(ParseFloatVal(items[0].fields.price), 0.0);
    assert ParseFloatVal(Or(Str(""), Number(0.0))) == Fin(0.0);
  }

  /** The corrected check accepts exactly the lists whose prices are all positive
      numbers. */
  lemma PriceCheckIff(items: seq<Item>)
    ensures !HasInvalidPrice(items) <==>
      forall i :: 0 <= i < |items| ==> Greater(ParseFloatVal(items[i].fields.price), 0.0)
    ensures HasInvalidPriceAsWritten(items) ==> HasInvalidPrice(items)
  {
  }

  /** The two checks differ only on a price that is not a number: when every
      price parses, they reject the same lists. */
  lemma PriceChecksAgreeOnNumbers(items: seq<Item>)
    ensures (forall i :: 0 <= i < |items| ==> ParseFloatVal(items[i].fields.price).Fin?) ==>
      (HasInvalidPrice(items) <==> HasInvalidPriceAsWritten(items))
    ensures HasInvalidPrice(items) && !HasInvalidPriceAsWritten(items) ==>
      exists i :: 0 <= i < |items| && ParseFloatVal(items[i].fields.price) == NaN
  {
  }

  /** The customer fields shown on the invoice. */
  datatype Details = Details(name: Val, address: Val, email: Val, phone: Val, gst: Val)

  const NoDetails := Details(Str(""), Str(""), Str(""), Str(""), Str(""))

  datatype Customer = Customer(id: Val, name: Val, billingAddress: Val, email: Val, phone: Val, gstnumber: Val)

  function DetailsOf(c: Customer): (d: Details)
    ensures d.name == Or(c.name, Str("")) && d.address == Or(c.billingAddress, Str(""))
    ensures d.email == Or(c.email, Str("")) && d.phone == Or(c.phone, Str("")) && d.gst == Or(c.gstnumber, Str(""))
  {
    Details(Or(c.name, Str("")), Or(c.billingAddress, Str("")), Or(c.email, Str("")),
      Or(c.phone, Str("")), Or(c.gstnumber, Str("")))
  }

  /** No customer before position `i` has the id. */
  predicate FirstWith(customers: seq<Customer>, i: int, id: Val)
    requires 0 <= i <= |customers|
  {
    forall j :: 0 <= j < i ==> customers[j].id != id
  }

  /** `customers.find(c => c.id === customerId)` */
  function Find(customers: seq<Customer>, id: Val): (r: Option<Customer>)
    ensures r.Some? ==> r.value in customers && r.value.id == id
    ensures r.None? ==> forall i :: 0 <= i < |customers| ==> customers[i].id != id
    ensures r.Some? ==>
      exists i :: 0 <= i < |customers| && customers[i] == r.value && FirstWith(customers, i, id)
  {
    if customers == [] then None
    else if customers[0].id == id then Some(customers[0])
    else
      var r := Find(customers[1..], id);
      assert forall i :: 1 <= i < |customers| ==> customers[1..][i - 1] == customers[i];
      if r.Some? then
        var k :| 0 <= k < |customers[1..]| && customers[1..][k] == r.value
          && FirstWith(customers[1..], k, id);
        assert customers[k + 1] == r.value;
        r
      else r
  }

  /** The last two characters of `String(year)`: `substr(-2)`. */
  function YearDigits(year: nat): (s: string)
    ensures |s| <= 2 && AllDigits(s)
    ensures year >= 10 ==> |s| == 2
  {
    NatToStringLength(year);
    SliceLast(NatToString(year), 2)
  }

  /** `String(n).padStart(width, '0')` */
  function Padded(n: nat, width: nat): (s: string)
    requires width >= 1
    ensures AllDigits(s) && |s| >= width
    ensures n < Pow10(width) ==> |s| == width
  {
    NatToStringBound(n, width);
    PadStart(NatToString(n), width, '0')
  }

  /** `INV-{customerId}-{yy}{mm}{dd}-{rrr}` */
  function InvoiceNumber(customerId: string, year: nat, month: nat, day: nat, r: nat): (s: string)
    requires r < 1000
    ensures s == "INV-" + customerId + "-" + YearDigits(year) + Padded(month, 2) + Padded(day, 2) + "-" + Padded(r, 3)
    ensures |Padded(r, 3)| == 3
  {
    assert Pow10(3) == 1000;
    "INV-" + customerId + "-" + YearDigits(year) + Padded(month, 2) + Padded(day, 2) + "-" + Padded(r, 3)
  }

  /** For a calendar date of a year from 10 on, the date part has six digits and
      the random part three digits that read back as `r`. */
  lemma InvoiceNumberParts(year: nat, month: nat, day: nat, r: nat)
    requires year >= 10 && 1 <= month <= 12 && 1 <= day <= 31 && r < 1000
    ensures |YearDigits(year) + Padded(month, 2) + Padded(day, 2)| == 6
    ensures |Padded(r, 3)| == 3 && ParseInt(Padded(r, 3)) == Fin(r as real)
  {
    assert Pow10(2) == 100 by { assert Pow10(1) == 10; }
    assert Pow10(3) == 1000;
    PaddedParses(r, 3);
  }

  /** A zero-padded number reads back as itself. */
  lemma PaddedParses(n: nat, width: nat)
    requires width >= 1
    ensures ParseInt(Padded(n, width)) == Fin(n as real)
  {
    var d := NatToString(n);
    NatToStringValue(n);
    ZeroPadValue(d, width);
    var p := PadStart(d, width, '0');
    assert |p| >= 1;
    DigitsParse(p);
    assert Padded(n, width) == p;
  }

  /** Padding a digit string with zeros keeps its value. */
  lemma ZeroPadValue(d: string, width: nat)
    requires AllDigits(d)
    ensures AllDigits(PadStart(d, width, '0'))
    ensures DigitsValue(PadStart(d, width, '0')) == DigitsValue(d)
  {
    var p := PadStart(d, width, '0');
    var zeros := p[..|p| - |d|];
    assert p == zeros + d;
    LeadingZeros(zeros, d);
  }

  lemma {:induction false} NatToStringLength(n: nat)
    ensures n >= 10 ==> |NatToString(n)| >= 2
  {
  }

  lemma {:induction false} NatToStringBound(n: nat, width: nat)
    requires width >= 1
    ensures n < Pow10(width) ==> |NatToString(n)| <= width
    decreases width
  {
    if n >= 10 && width > 1 && n < Pow10(width) {
      assert n / 10 < Pow10(width - 1);
      NatToStringBound(n / 10, width - 1);
    }
  }

  lemma {:induction false} LeadingZeros(zeros: string, d: string)
    requires forall i :: 0 <= i < |zeros| ==> zeros[i] == '0'
    requires AllDigits(d)
    ensures AllDigits(zeros + d) && DigitsValue(zeros + d) == DigitsValue(d)
    decreases |d|
  {
    if d == [] {
      assert zeros + d == zeros;
      AllZeros(zeros);
    } else {
      var s := zeros + d;
      assert s[..|s| - 1] == zeros + d[..|d| - 1];
      LeadingZeros(zeros, d[..|d| - 1]);
    }
  }

  lemma {:induction false} AllZeros(zeros: string)
    requires forall i :: 0 <= i < |zeros| ==> zeros[i] == '0'
    ensures AllDigits(zeros) && DigitsValue(zeros) == 0
    decreases |zeros|
  {
    if zeros != [] {
      AllZeros(zeros[..|zeros| - 1]);
    }
  }

  /** The saved record. */
  datatype SavedLine = SavedLine(description: string, quantity: Val, price: Val, total: Num)
  datatype InvoiceData = InvoiceData(
    customerId: string, invoiceNumber: string, dt: string, dueDate: string,
    items: seq<SavedLine>, totalAmount: real, taxAmount: Num, finalAmount: Num,
    paymentStatus: Val, googleDriveLink: string)

  function SavedLines(items: seq<Item>): (r: seq<SavedLine>)
    ensures |r| == |items|
    ensures forall i :: 0 <= i < |r| ==> r[i] == SavedLine(items[i].fields.description,
      items[i].fields.quantity, items[i].fields.price, items[i].fields.total)
  {
    seq(|items|, i requires 0 <= i < |items| => SavedLine(items[i].fields.description,
      items[i].fields.quantity, items[i].fields.price, items[i].fields.total))
  }

  /** `invoiceData`: the totals as total, tax (both GST amounts) and final
      amounts, and the 'NONE' status as null. */
  function InvoiceDataOf(customerId: string, invoiceNumber: string, dt: string, dueDate: string,
                         items: seq<Item>, sgstRate: Num, cgstRate: Num, paymentStatus: Val,
                         link: string): (d: InvoiceData)
    ensures d.totalAmount == CalculateTotals(items, sgstRate, cgstRate).subtotal
    ensures d.taxAmount == Add(CalculateTotals(items, sgstRate, cgstRate).sgstAmount,
                               CalculateTotals(items, sgstRate, cgstRate).cgstAmount)
    ensures d.finalAmount == CalculateTotals(items, sgstRate, cgstRate).total
    ensures d.finalAmount.Fin? ==> d.taxAmount.Fin? && d.finalAmount.v == d.totalAmount + d.taxAmount.v
    ensures paymentStatus == Str("NONE") ==> d.paymentStatus == Null
    ensures paymentStatus != Str("NONE") ==> d.paymentStatus == paymentStatus
    ensures d.items == SavedLines(items)
  {
    var t := CalculateTotals(items, sgstRate, cgstRate);
    InvoiceData(customerId, invoiceNumber, dt, dueDate, SavedLines(items), t.subtotal,
      Add(t.sgstAmount, t.cgstAmount), t.total, ManageOutgoingInvoices.StatusOrNull(paymentStatus), link)
  }

  /** The page state. */
  class Page {
    var items: seq<Item>
    var selectedCustomer: string
    var details: Details
    var invoiceNumber: string
    var invoiceDate: string
    var dueDate: string
    var sgstRate: Num
    var cgstRate: Num
    var paymentStatus: Val

    /** At least one line, with distinct ids. */
    ghost predicate Valid()
      reads this
    {
      |items| >= 1 && IdsUnique(items)
    }

    constructor (today: string, due: string)
      ensures items == [Draft(1, NewLine)] && selectedCustomer == "" && details == NoDetails
      ensures invoiceNumber == "" && invoiceDate == today && dueDate == due
      ensures sgstRate == Fin(5.0) && cgstRate == Fin(5.0) && paymentStatus == Str("PENDING")
      ensures Valid()
    {
      items := [Draft(1, NewLine)];
      selectedCustomer := "";
      details := NoDetails;
      invoiceNumber := "";
      invoiceDate := today;
      dueDate := due;
      sgstRate := Fin(5.0);
      cgstRate := Fin(5.0);
      paymentStatus := Str("PENDING");
    }

    method AddItem()
      requires Valid()
      modifies this`items
      ensures items == WithNewItem(old(items)) && Valid()
    {
      items := WithNewItem(items);
    }

    /** `deleteItem`: the last remaining line cannot be deleted. */
    method DeleteItem(id: int) returns (o: Outcome<int>)
      requires Valid()
      modifies this`items
      ensures |old(items)| == 1 ==> o == Refused("You need at least one item") && items == old(items)
      ensures |old(items)| != 1 ==> o == Sent(id) && items == Delete(old(items), id)
      ensures Valid()
    {
      if |items| == 1 {
        return Refused("You need at least one item");
      }
      DeleteUniqueRemovesAtMostOne(items, id);
      DeleteKeepsUnique(items, id);
      items := Delete(items, id);
      return Sent(id);
    }

    method UpdateItem(id: int, f: Field, value: string)
      requires Valid()
      modifies this`items
      ensures items == Update(old(items), id, (l: LineFields) => EditLine(l, f, value)) && Valid()
    {
      UpdateKeepsIds(items, id, (l: LineFields) => EditLine(l, f, value));
      items := Update(items, id, (l: LineFields) => EditLine(l, f, value));
    }

    /** `handleCustomerChange` with the date and the random digits as inputs;
        clearing the customer clears the details and the number. */
    method CustomerChange(customerId: string, customers: seq<Customer>,
                          year: nat, month: nat, day: nat, r: nat)
      requires r < 1000
      modifies this`selectedCustomer, this`details, this`invoiceNumber
      ensures selectedCustomer == customerId
      ensures customerId == "" ==> details == NoDetails && invoiceNumber == ""
      ensures customerId != "" && Find(customers, Str(customerId)).Some? ==>
        details == DetailsOf(Find(customers, Str(customerId)).value)
        && invoiceNumber == InvoiceNumber(customerId, year, month, day, r)
      ensures customerId != "" && Find(customers, Str(customerId)).None? ==>
        details == old(details) && invoiceNumber == old(invoiceNumber)
    {
      selectedCustomer := customerId;
      if customerId != "" {
        var c := Find(customers, Str(customerId));
        if c.Some? {
          details := DetailsOf(c.value);
          invoiceNumber := InvoiceNumber(customerId, year, month, day, r);
        }
      } else {
        details := NoDetails;
        invoiceNumber := "";
      }
    }

    /** The rate boxes store `parseFloat` of what was typed. */
    method SetRates(sgstText: string, cgstText: string)
      modifies this`sgstRate, this`cgstRate
      ensures sgstRate == ParseFloat(sgstText) && cgstRate == ParseFloat(cgstText)
    {
      sgstRate := ParseFloat(sgstText);
      cgstRate := ParseFloat(cgstText);
    }

    function Totals(): Totals
      reads this
    {
      CalculateTotals(items, sgstRate, cgstRate)
    }

    /** The checks of `handleGenerateInvoice` in order, then the PDF step, then
        the record to save (the drive link is an input). Whether the PDF step
        completes is an input too; as written it never does, since the list
        given to `Promise.all` is empty, so reading `default` off its missing
        first entry throws, which the catch reports as a failure. */
    method Generate(pdfMade: bool, link: string) returns (o: Outcome<InvoiceData>)
      ensures selectedCustomer == "" ==> o == Refused("Please select a customer")
      ensures selectedCustomer != "" && !HasDescribedItem(items) ==>
        o == Refused("Please add at least one item with a description")
      ensures selectedCustomer != "" && HasDescribedItem(items) && HasInvalidPrice(items) ==>
        o == Refused("All items must have a price greater than 0")
      ensures selectedCustomer != "" && HasDescribedItem(items) && !HasInvalidPrice(items) && !pdfMade ==>
        o == Refused("Failed to generate invoice")
      ensures o.Sent? <==> selectedCustomer != "" && HasDescribedItem(items) && !HasInvalidPrice(items) && pdfMade
      ensures o.Sent? ==> o.request == InvoiceDataOf(selectedCustomer, invoiceNumber, invoiceDate,
        dueDate, items, sgstRate, cgstRate, paymentStatus, link)
    {
      if selectedCustomer == "" {
        return Refused("Please select a customer");
      }
      if !HasDescribedItem(items) {
        return Refused("Please add at least one item with a description");
      }
      if HasInvalidPrice(items) {
        return Refused("All items must have a price greater than 0");
      }
      if !pdfMade {
        return Refused("Failed to generate invoice");
      }
      o := Sent(InvoiceDataOf(selectedCustomer, invoiceNumber, invoiceDate, dueDate, items,
        sgstRate, cgstRate, paymentStatus, link));
    }
  }
}
