/** The outgoing-invoice table. Unlike the metadata tables there is no snapshot:
    every edit marks the invoice `hasChanges` and adds its id to `changedRows`
    unconditionally, and a successful apply clears both. */
module ManageOutgoingInvoices {
  import opened Js

  datatype Invoice = Invoice(
    id: int, dt: Val, customerId: Val, totalAmount: Val, taxAmount: Val,
    discountAmount: Val, finalAmount: Val, paymentStatus: Val, invoiceNumber: Val,
    dueDate: Val, hasChanges: bool)

  /** The editable columns. */
  datatype Field = TotalAmount | TaxAmount | DiscountAmount | FinalAmount | PaymentStatus

  function Get(inv: Invoice, f: Field): Val {
    match f
    case TotalAmount => inv.totalAmount
    case TaxAmount => inv.taxAmount
    case DiscountAmount => inv.discountAmount
    case FinalAmount => inv.finalAmount
    case PaymentStatus => inv.paymentStatus
  }

  /** `{...inv, [field]: value, hasChanges: true}` */
  function Edit(inv: Invoice, f: Field, value: Val): (r: Invoice)
    ensures Get(r, f) == value && r.hasChanges
    ensures forall g :: g != f ==> Get(r, g) == Get(inv, g)
    ensures r.id == inv.id && r.dt == inv.dt && r.customerId == inv.customerId
    ensures r.invoiceNumber == inv.invoiceNumber && r.dueDate == inv.dueDate
  {
    var m := inv.(hasChanges := true);
    match f
    case TotalAmount => m.(totalAmount := value)
    case TaxAmount => m.(taxAmount := value)
    case DiscountAmount => m.(discountAmount := value)
    case FinalAmount => m.(finalAmount := value)
    case PaymentStatus => m.(paymentStatus := value)
  }

  /** `paymentStatus === 'NONE' ? null : paymentStatus` */
  function StatusOrNull(status: Val): (r: Val)
    ensures status == Str("NONE") ==> r == Null
    ensures status != Str("NONE") ==> r == status
  {
    if status == Str("NONE") then Null else status
  }

  datatype Upsert = Upsert(
    id: int, dt: Val, customerId: Val, totalAmount: Val, taxAmount: Val,
    discountAmount: Val, finalAmount: Val, paymentStatus: Val, invoiceNumber: Val, dueDate: Val)

  /** The apply request: the invoice's fields, a missing discount sent as 0 and the
      'NONE' status as null. */
  function ApplyPayload(inv: Invoice): (p: Upsert)
    ensures p.id == inv.id && p.totalAmount == inv.totalAmount && p.taxAmount == inv.taxAmount
    ensures p.finalAmount == inv.finalAmount && p.dt == inv.dt && p.customerId == inv.customerId
    ensures p.discountAmount == if Truthy(inv.discountAmount) then inv.discountAmount else Number(0.0)
    ensures Truthy(p.discountAmount) ==> p.discountAmount == inv.discountAmount
    ensures p.invoiceNumber == inv.invoiceNumber && p.dueDate == inv.dueDate
    ensures inv.paymentStatus == Str("NONE") ==> p.paymentStatus == Null
    ensures inv.paymentStatus != Str("NONE") ==> p.paymentStatus == inv.paymentStatus
    ensures p.paymentStatus != Str("NONE")
  {
    Upsert(inv.id, inv.dt, inv.customerId, inv.totalAmount, inv.taxAmount,
      Or(inv.discountAmount, Number(0.0)), inv.finalAmount, StatusOrNull(inv.paymentStatus),
      inv.invoiceNumber, inv.dueDate)
  }

  /** `invoices.reduce((sum, inv) => sum + parseFloat(inv.finalAmount || 0), 0)` */
  function TotalPrice(invoices: seq<Invoice>): Num {
    SumNum(invoices, (inv: Invoice) => ParseFloatVal(Or(inv.finalAmount, Number(0.0))))
  }

  /** A missing or zero final amount adds nothing, so the total is finite when
      every present final amount is a number. */
  lemma TotalPriceFinite(invoices: seq<Invoice>)
    requires forall i :: 0 <= i < |invoices| ==>
      !Truthy(invoices[i].finalAmount) || invoices[i].finalAmount.Number?
    ensures TotalPrice(invoices).Fin?
  {
    SumNumFinite(invoices, (inv: Invoice) => ParseFloatVal(Or(inv.finalAmount, Number(0.0))));
  }

  function ClearMark(invoices: seq<Invoice>, id: int): (r: seq<Invoice>)
    ensures |r| == |invoices|
    ensures forall i :: 0 <= i < |r| ==>
      r[i] == if invoices[i].id == id then invoices[i].(hasChanges := false) else invoices[i]
  {
    seq(|invoices|, i requires 0 <= i < |invoices| =>
      if invoices[i].id == id then invoices[i].(hasChanges := false) else invoices[i])
  }

  function EditAll(invoices: seq<Invoice>, id: int, f: Field, value: Val): (r: seq<Invoice>)
    ensures |r| == |invoices|
    ensures forall i :: 0 <= i < |r| ==>
      r[i] == if invoices[i].id == id then Edit(invoices[i], f, value) else invoices[i]
  {
    seq(|invoices|, i requires 0 <= i < |invoices| =>
      if invoices[i].id == id then Edit(invoices[i], f, value) else invoices[i])
  }

  /** `invoices.filter(inv => inv.id !== id)`. This is the filter of
      `SnapshotTable.Without`, stated again because an invoice carries its own
      changed flag and is not a snapshot row. */
  function Without(invoices: seq<Invoice>, id: int): (r: seq<Invoice>)
    ensures |r| <= |invoices|
    ensures forall k :: 0 <= k < |r| ==> r[k] in invoices && r[k].id != id
    ensures forall i :: 0 <= i < |invoices| && invoices[i].id != id ==> invoices[i] in r
  {
    if invoices == [] then []
    else
      var rest := Without(invoices[1..], id);
      assert forall i :: 1 <= i < |invoices| ==> invoices[1..][i - 1] == invoices[i];
      if invoices[0].id == id then rest else [invoices[0]] + rest
  }

  /** The filter keeps the order of the invoices it keeps: it distributes over
      concatenation, and a single invoice stays exactly when its id is not the
      one deleted. */
  lemma {:induction false} WithoutAppend(a: seq<Invoice>, b: seq<Invoice>, id: int)
    ensures Without(a + b, id) == Without(a, id) + Without(b, id)
    ensures |a| == 1 ==> Without(a, id) == if a[0].id == id then [] else a
  {
    if a == [] {
      assert a + b == b;
    } else {
      assert (a + b)[0] == a[0] && (a + b)[1..] == a[1..] + b;
      WithoutAppend(a[1..], b, id);
      if |a| == 1 {
        assert a[1..] == [];
      }
    }
  }

  class Page {
    var invoices: seq<Invoice>
    var changed: set<int>

    /** Every invoice showing an Apply button (`hasChanges`) is in `changedRows`. */
    ghost predicate Marked()
      reads this
    {
      forall i :: 0 <= i < |invoices| && invoices[i].hasChanges ==> invoices[i].id in changed
    }

    constructor ()
      ensures invoices == [] && changed == {} && Marked()
    {
      invoices := [];
      changed := {};
    }

    /** Loading replaces the list; fetched invoices carry no `hasChanges` flag. */
    method Load(fetched: seq<Invoice>)
      modifies this`invoices
      ensures invoices == seq(|fetched|, i requires 0 <= i < |fetched| => fetched[i].(hasChanges := false))
      ensures Marked()
    {
      invoices := seq(|fetched|, i requires 0 <= i < |fetched| => fetched[i].(hasChanges := false));
    }

    method Change(id: int, f: Field, value: Val)
      modifies this
      ensures invoices == EditAll(old(invoices), id, f, value)
      ensures changed == old(changed) + {id}
      ensures old(Marked()) ==> Marked()
    {
      invoices := EditAll(invoices, id, f, value);
      changed := changed + {id};
    }

    /** Apply for the invoice as rendered; the request is sent whatever the state,
        and only an accepted one clears the mark. */
    method Apply(inv: Invoice, accepted: bool) returns (sent: Upsert)
      modifies this
      ensures sent == ApplyPayload(inv)
      ensures accepted ==> invoices == ClearMark(old(invoices), inv.id) && changed == old(changed) - {inv.id}
      ensures !accepted ==> invoices == old(invoices) && changed == old(changed)
      ensures old(Marked()) ==> Marked()
      ensures accepted ==> forall i :: 0 <= i < |invoices| && invoices[i].id == inv.id ==> !invoices[i].hasChanges
    {
      sent := ApplyPayload(inv);
      if accepted {
        invoices := ClearMark(invoices, inv.id);
        changed := changed - {inv.id};
      }
    }

    method Delete(id: int, confirmed: bool, accepted: bool)
      modifies this`invoices
      ensures invoices == if confirmed && accepted then Without(old(invoices), id) else old(invoices)
      ensures old(Marked()) ==> Marked()
    {
      if confirmed && accepted {
        ghost var before := invoices;
        invoices := Without(invoices, id);
        forall k | 0 <= k < |invoices| && invoices[k].hasChanges && old(Marked())
          ensures invoices[k].id in changed
        {
          var i :| 0 <= i < |before| && before[i] == invoices[k];
        }
      }
    }
  }
}
