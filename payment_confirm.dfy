/**
 * Confirmation of a payment: the payment document is updated with the
 * settled fields and the same field set is written into the `payment` of
 * every invoice the payment lists.
 */
module PaymentConfirm {
  import opened Wrappers
  import opened JsValues
  import opened Records

  /** The request body `confirm` destructures. */
  datatype ConfirmBody = ConfirmBody(paymentDate: Value, paymentType: Value, numCheque: Value)

  /**
   * No payment has the requested id: the update resolves to null and
   * reading its `invoices` throws before any invoice is touched.
   */
  datatype ConfirmError = PaymentNotFound

  /** The two stores `confirm` works on. */
  datatype Stores = Stores(payments: map<Id, Payment>, invoices: map<Id, Invoice>)

  /** The update document `confirm` builds from the request body. */
  function PaymentData(body: ConfirmBody): (d: PaymentInfo)
    ensures d.paid == Boolean(true)
    ensures d.paymentDate == body.paymentDate && d.paymentType == body.paymentType
    ensures d.numCheque != Undefined <==> Truthy(body.numCheque)
    ensures d.numCheque != Undefined ==> d.numCheque == body.numCheque
  {
    PaymentInfo(body.paymentDate, body.paymentType, IfTruthy(body.numCheque), Boolean(true))
  }

  /**
   * `findOneAndUpdate` of a payment with an update document: the keys the
   * document carries overwrite, every other field keeps its stored value.
   * `paymentDate`, `type` and `paid` are always keys of the document;
   * `numCheque` is one only when it is present.
   */
  function Merge(p: Payment, d: PaymentInfo): (q: Payment)
    ensures q.invoices == p.invoices
    ensures q.paymentDate == d.paymentDate && q.paymentType == d.paymentType && q.paid == d.paid
    ensures d.numCheque != Undefined ==> q.numCheque == d.numCheque
    ensures d.numCheque == Undefined ==> q.numCheque == p.numCheque
  {
    p.(paymentDate := d.paymentDate,
       paymentType := d.paymentType,
       paid := d.paid,
       numCheque := if d.numCheque == Undefined then p.numCheque else d.numCheque)
  }

  /** `findOneAndUpdate({ _id: id }, { payment })` on the invoice store: no upsert. */
  function SetPayment(m: map<Id, Invoice>, id: Id, d: PaymentInfo): (r: map<Id, Invoice>)
    ensures r.Keys == m.Keys
    ensures id in m ==> r[id] == m[id].(payment := d)
    ensures forall k :: k in m && k != id ==> r[k] == m[k]
  {
    if id in m then m[id := m[id].(payment := d)] else m
  }

  /** The invoice store after the loop of `_updateInvoices` has run over `ids`, in order. */
  function Propagate(m: map<Id, Invoice>, ids: seq<Id>, d: PaymentInfo): (r: map<Id, Invoice>)
    ensures r.Keys == m.Keys
    ensures forall k :: k in m && k in ids ==> r[k] == m[k].(payment := d)
    ensures forall k :: k in m && k !in ids ==> r[k] == m[k]
    decreases |ids|
  {
    if ids == [] then m else SetPayment(Propagate(m, ids[..|ids| - 1], d), ids[|ids| - 1], d)
  }

  /**
   * The order-free description of the fan-out: exactly the stored invoices
   * whose id is in `ids` get `d` as their payment; nothing is added.
   */
  function Stamped(m: map<Id, Invoice>, ids: set<Id>, d: PaymentInfo): (m': map<Id, Invoice>)
    ensures m'.Keys == m.Keys
  {
    map k | k in m :: if k in ids then m[k].(payment := d) else m[k]
  }

  /** Running the loop over a list is stamping the set of its elements. */
  lemma {:induction false} PropagateIsStamped(m: map<Id, Invoice>, ids: seq<Id>, d: PaymentInfo)
    ensures Propagate(m, ids, d) == Stamped(m, (set k | k in ids), d)
    decreases |ids|
  {
    if ids != [] {
      var front, last := ids[..|ids| - 1], ids[|ids| - 1];
      PropagateIsStamped(m, front, d);
      assert ids == front + [last];
      assert (set k | k in ids) == (set k | k in front) + {last};
    }
  }

  /** After the loop, each listed invoice carries `d`; every other invoice is as before. */
  lemma PropagateTouchesExactlyListed(m: map<Id, Invoice>, ids: seq<Id>, d: PaymentInfo, k: Id)
    ensures k in Propagate(m, ids, d) <==> k in m
    ensures k in m && k in ids ==> Propagate(m, ids, d)[k] == m[k].(payment := d)
    ensures k in m && k !in ids ==> Propagate(m, ids, d)[k] == m[k]
  {
    PropagateIsStamped(m, ids, d);
  }

  /** Listing an invoice twice changes nothing: the second assignment writes the same value. */
  lemma PropagateRepeatedId(m: map<Id, Invoice>, ids: seq<Id>, d: PaymentInfo, j: nat)
    requires j < |ids|
    ensures Propagate(m, ids + [ids[j]], d) == Propagate(m, ids, d)
  {
    PropagateIsStamped(m, ids, d);
    PropagateIsStamped(m, ids + [ids[j]], d);
    assert (set k | k in ids + [ids[j]]) == (set k | k in ids);
  }

  /** Running the loop a second time over the same list leaves the store as the first run did. */
  lemma PropagateIdempotent(m: map<Id, Invoice>, ids: seq<Id>, d: PaymentInfo)
    ensures Propagate(Propagate(m, ids, d), ids, d) == Propagate(m, ids, d)
  {
    PropagateIsStamped(m, ids, d);
    PropagateIsStamped(Propagate(m, ids, d), ids, d);
  }

  /** The whole of `confirm` on the two stores. */
  function ConfirmSpec(s: Stores, id: Id, body: ConfirmBody): (r: Result<Stores, ConfirmError>)
    ensures r.Failure? <==> id !in s.payments
    ensures r.Failure? ==> r.error == PaymentNotFound
    ensures r.Success? ==> r.value.payments == s.payments[id := Merge(s.payments[id], PaymentData(body))]
  {
    if id !in s.payments then
      Failure(PaymentNotFound)
    else
      var d := PaymentData(body);
      var p := Merge(s.payments[id], d);
      Success(Stores(s.payments[id := p], Propagate(s.invoices, p.invoices, d)))
  }

  /**
   * After a successful `confirm`, every stored invoice that the payment lists
   * carries the payment data, and every other invoice is unchanged.
   */
  lemma ConfirmFansOut(s: Stores, id: Id, body: ConfirmBody, k: Id)
    requires id in s.payments
    ensures var s' := ConfirmSpec(s, id, body).value;
      && (k in s'.invoices <==> k in s.invoices)
      && (k in s.invoices && k in s.payments[id].invoices ==> s'.invoices[k] == s.invoices[k].(payment := PaymentData(body)))
      && (k in s.invoices && k !in s.payments[id].invoices ==> s'.invoices[k] == s.invoices[k])
  {
    PropagateTouchesExactlyListed(s.invoices, s.payments[id].invoices, PaymentData(body), k);
  }

  /** Confirming twice with the same body leaves the stores as confirming once. */
  lemma ConfirmIdempotent(s: Stores, id: Id, body: ConfirmBody)
    requires id in s.payments
    ensures ConfirmSpec(ConfirmSpec(s, id, body).value, id, body) == ConfirmSpec(s, id, body)
  {
    var d := PaymentData(body);
    var p := Merge(s.payments[id], d);
    var once := ConfirmSpec(s, id, body).value;
    assert once == Stores(s.payments[id := p], Propagate(s.invoices, p.invoices, d));
    assert Merge(p, d) == p;
    assert once.payments[id := Merge(once.payments[id], d)] == once.payments;
    PropagateIdempotent(s.invoices, p.invoices, d);
  }

  /** The payment and invoice collections, updated in place by `confirm`. */
  class PaymentStore {
    var payments: map<Id, Payment>
    var invoices: map<Id, Invoice>

    constructor (payments: map<Id, Payment>, invoices: map<Id, Invoice>)
      ensures this.payments == payments && this.invoices == invoices
    {
      this.payments := payments;
      this.invoices := invoices;
    }

    function State(): Stores
      reads this
    {
      Stores(payments, invoices)
    }

    /** `_updatePayment`: the update with `{ new: true }`; `None` is the null a missing id yields. */
    method UpdatePayment(id: Id, d: PaymentInfo) returns (p: Option<Payment>)
      modifies this`payments
      ensures id in old(payments) ==> p == Some(Merge(old(payments)[id], d)) && payments == old(payments)[id := p.value]
      ensures id !in old(payments) ==> p == None && payments == old(payments)
    {
      if id in payments {
        var updated := Merge(payments[id], d);
        payments := payments[id := updated];
        p := Some(updated);
      } else {
        p := None;
      }
    }

    /** `_updateInvoices`: one update of `payment` per listed id, in list order. */
    method UpdateInvoices(ids: seq<Id>, d: PaymentInfo)
      modifies this`invoices
      ensures invoices == Propagate(old(invoices), ids, d)
    {
      for i := 0 to |ids|
        invariant invoices == Propagate(old(invoices), ids[..i], d)
      {
        assert ids[..i + 1][..i] == ids[..i];
        var invoiceId := ids[i];
        if invoiceId in invoices {
          invoices := invoices[invoiceId := invoices[invoiceId].(payment := d)];
        }
      }
      assert ids[..|ids|] == ids;
    }

    /** `confirm`: update the payment, then fan its data out to the invoices it lists. */
    method Confirm(id: Id, body: ConfirmBody) returns (r: Outcome<ConfirmError>)
      modifies this
      ensures var spec := ConfirmSpec(old(State()), id, body);
        && (spec.Success? ==> r == Pass && State() == spec.value)
        && (spec.Failure? ==> r == Fail(spec.error) && State() == old(State()))
    {
      var paymentData := PaymentData(body);
      var payment := UpdatePayment(id, paymentData);
      if payment.None? {
        return Fail(PaymentNotFound);
      }
      UpdateInvoices(payment.value.invoices, paymentData);
      return Pass;
    }
  }
}
