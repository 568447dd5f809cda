/**
 * The fulfilment service shared by payment verification and the payment webhook:
 * the payment record's compare-and-swap, the placeholder-id upgrade, the guard
 * against fulfilling twice, and the order update with its QR token.
 */
module Fulfillment {
  import opened Wrappers
  import opened OrderModel
  import opened PaymentModel
  import opened StoreModel

  /** The placeholder payment id of an `order.paid` event without payment details. */
  const Placeholder := "N/A"

  /** A payment id that is present and not the placeholder. */
  predicate RealId(id: string) {
    id != [] && id != Placeholder
  }

  /**
   * The payment id the order ends up with: a real incoming id wins; otherwise a real
   * id the order already has is kept; otherwise the record's id, or the placeholder.
   */
  function BestPaymentId(incoming: string, current: string, recorded: string): (r: string)
    ensures r != []
    ensures RealId(incoming) ==> r == incoming
    ensures !RealId(incoming) && RealId(current) ==> r == current
    ensures !RealId(incoming) && !RealId(current) ==> r == (if recorded != [] then recorded else Placeholder)
  {
    if RealId(incoming) then incoming
    else if !RealId(current) then (if recorded != [] then recorded else Placeholder)
    else current
  }

  /** A real id on the order is never replaced by the placeholder or by nothing. */
  lemma BestPaymentIdNeverDowngrades(incoming: string, current: string, recorded: string)
    requires RealId(current)
    ensures RealId(BestPaymentId(incoming, current, recorded))
    ensures BestPaymentId(incoming, current, recorded) == current || BestPaymentId(incoming, current, recorded) == incoming
  {
  }

  /**
   * The payment records after the first step: the compare-and-swap on an initiated
   * record, else the placeholder upgrade on a succeeded one, else no change.
   */
  function PaymentsAfter(payments: map<string, Payment>, ref: string, paymentId: string, paymentMethod: string): map<string, Payment>
    requires ref in payments
  {
    var p := payments[ref];
    if p.status == Initiated then payments[ref := p.(status := Succeeded, paymentId := paymentId, paymentMethod := paymentMethod)]
    else if p.status == Succeeded && p.paymentId == Placeholder && paymentId != Placeholder then
      payments[ref := p.(paymentId := paymentId, paymentMethod := paymentMethod)]
    else payments
  }

  /** The safety check: paid for and already past `pending` without having been cancelled. */
  predicate AlreadyFulfilled(o: Order) {
    o.paymentStatus == PaymentSuccess && o.status != Pending && o.status != Cancelled
  }

  /** The order update: paid, payment success, the best payment id, a QR token only where none was. */
  function FulfilledOrder(o: Order, paymentId: string, recorded: string, qrToken: Option<string>): Order {
    o.(paymentStatus := PaymentSuccess, status := Paid,
       paymentId := BestPaymentId(paymentId, o.paymentId, recorded),
       qrCode := if o.qrCode == [] && qrToken.Some? then qrToken.value else o.qrCode)
  }

  /** How a call ends: the order saved, the order returned untouched, or one of the two errors thrown. */
  datatype Result = Fulfilled(order: Order) | Skipped(order: Order) | RecordMissing | OrderMissing

  /** Orders and payment records: the documents fulfilment reads and writes. */
  datatype Books = Books(orders: map<string, Order>, payments: map<string, Payment>)

  /** What one call does: the documents afterwards, its result, and the canteen whose menu cache it drops. */
  datatype Fulfilment = Fulfilment(books: Books, result: Result, invalidate: Option<string>)

  /**
   * fulfillOrder(ref, paymentId, method) as a function of the documents. `qrToken` is
   * what the QR generator returns for the order, None when it fails.
   */
  function Fulfil(b: Books, ref: string, paymentId: string, paymentMethod: string, qrToken: Option<string>): (f: Fulfilment)
    ensures f.result == RecordMissing <==> ref !in b.payments
    ensures f.result == RecordMissing ==> f.books == b
    ensures ref in b.payments ==> f.books.payments == PaymentsAfter(b.payments, ref, paymentId, paymentMethod)
    ensures f.result.OrderMissing? || f.result.Skipped? ==> f.books.orders == b.orders
    ensures f.invalidate.Some? <==> f.result.Fulfilled?
    ensures ref in b.payments ==> (f.result.OrderMissing? <==> b.payments[ref].orderKey !in b.orders)
    ensures f.result.Skipped? ==>
      var key := b.payments[ref].orderKey;
      key in b.orders && AlreadyFulfilled(b.orders[key]) && f.result.order == b.orders[key]
    ensures f.result.Fulfilled? ==>
      var key := b.payments[ref].orderKey;
      && key in b.orders && !AlreadyFulfilled(b.orders[key])
      && f.result.order == FulfilledOrder(b.orders[key], paymentId, f.books.payments[ref].paymentId, qrToken)
      && f.books.orders == b.orders[key := f.result.order]
      && f.invalidate == Some(b.orders[key].canteenId)
  {
    if ref !in b.payments then Fulfilment(b, RecordMissing, None)
    else
      var payments := PaymentsAfter(b.payments, ref, paymentId, paymentMethod);
      var p := payments[ref];
      if p.orderKey !in b.orders then Fulfilment(Books(b.orders, payments), OrderMissing, None)
      else
        var o := b.orders[p.orderKey];
        if AlreadyFulfilled(o) then Fulfilment(Books(b.orders, payments), Skipped(o), None)
        else
          var o' := FulfilledOrder(o, paymentId, p.paymentId, qrToken);
          Fulfilment(Books(b.orders[p.orderKey := o'], payments), Fulfilled(o'), Some(o.canteenId))
  }

  /** A record id stays put under the payment step, and so does the order it references. */
  lemma PaymentsAfterKeepsReference(payments: map<string, Payment>, ref: string, paymentId: string, paymentMethod: string)
    requires ref in payments
    ensures PaymentsAfter(payments, ref, paymentId, paymentMethod).Keys == payments.Keys
    ensures PaymentsAfter(payments, ref, paymentId, paymentMethod)[ref].orderKey == payments[ref].orderKey
    ensures PaymentsAfter(payments, ref, paymentId, paymentMethod)[ref].amount == payments[ref].amount
    ensures forall r | r in payments && r != ref :: PaymentsAfter(payments, ref, paymentId, paymentMethod)[r] == payments[r]
  {
  }

  /**
   * Fulfilment is idempotent: a repeated call with the same arguments changes no
   * document, saves nothing and drops no cache entry.
   */
  lemma FulfilTwiceIsFulfilOnce(b: Books, ref: string, paymentId: string, paymentMethod: string, qrToken: Option<string>)
    ensures var f1 := Fulfil(b, ref, paymentId, paymentMethod, qrToken);
      var f2 := Fulfil(f1.books, ref, paymentId, paymentMethod, qrToken);
      f2.books == f1.books && !f2.result.Fulfilled? && f2.invalidate.None?
  {
    var f1 := Fulfil(b, ref, paymentId, paymentMethod, qrToken);
    if ref in b.payments {
      var p1 := f1.books.payments;
      assert p1[ref].status != Initiated;
      assert PaymentsAfter(p1, ref, paymentId, paymentMethod) == p1;
    }
  }

  /**
   * Two deliveries for one initiated record, with different payment ids: the first
   * claims the record with its id and method; the second replaces them only when the
   * first carried the placeholder and the second a different id.
   */
  lemma FirstClaimWins(b: Books, ref: string, id1: string, m1: string, id2: string, m2: string, qr: Option<string>)
    requires ref in b.payments && b.payments[ref].status == Initiated
    ensures var f1 := Fulfil(b, ref, id1, m1, qr);
      var f2 := Fulfil(f1.books, ref, id2, m2, qr);
      && f1.books.payments[ref].status == Succeeded
      && f1.books.payments[ref].paymentId == id1 && f1.books.payments[ref].paymentMethod == m1
      && f2.books.payments[ref] == (if id1 == Placeholder && id2 != Placeholder
                                    then f1.books.payments[ref].(paymentId := id2, paymentMethod := m2)
                                    else f1.books.payments[ref])
  {
  }

  /**
   * An order that the sweep already cancelled is revived as paid when its payment
   * arrives; nothing is reserved again (stock is not part of the documents touched).
   */
  lemma RevivesCancelledOrder(b: Books, ref: string, paymentId: string, paymentMethod: string, qrToken: Option<string>)
    requires ref in b.payments
    requires b.payments[ref].orderKey in b.orders
    requires b.orders[b.payments[ref].orderKey].status == Cancelled
    ensures var f := Fulfil(b, ref, paymentId, paymentMethod, qrToken);
      && f.result.Fulfilled? && f.result.order.status == Paid && f.result.order.paymentStatus == PaymentSuccess
      && f.books.orders[b.payments[ref].orderKey] == f.result.order
  {
  }

  /** A record already marked failed does not stop fulfilment: the order is still marked paid, the record stays failed. */
  lemma FailedRecordStillFulfils(b: Books, ref: string, paymentId: string, paymentMethod: string, qrToken: Option<string>)
    requires ref in b.payments && b.payments[ref].status == Failed
    requires b.payments[ref].orderKey in b.orders
    requires !AlreadyFulfilled(b.orders[b.payments[ref].orderKey])
    ensures var f := Fulfil(b, ref, paymentId, paymentMethod, qrToken);
      && f.books.payments == b.payments
      && f.result.Fulfilled? && f.result.order.status == Paid && f.result.order.paymentStatus == PaymentSuccess
  {
  }

  /** An existing QR token is never replaced; a failed generation leaves the order paid without one. */
  lemma QrTokenKept(o: Order, paymentId: string, recorded: string, qrToken: Option<string>)
    ensures o.qrCode != [] ==> FulfilledOrder(o, paymentId, recorded, qrToken).qrCode == o.qrCode
    ensures o.qrCode == [] && qrToken.None? ==> FulfilledOrder(o, paymentId, recorded, qrToken).qrCode == []
    ensures FulfilledOrder(o, paymentId, recorded, qrToken).status == Paid
  {
  }

  /** Fulfilment touches only payment bookkeeping: items, totals, owner, canteen and order id are kept. */
  lemma FulfilledOrderKeepsContents(o: Order, paymentId: string, recorded: string, qrToken: Option<string>)
    ensures var o' := FulfilledOrder(o, paymentId, recorded, qrToken);
      && o'.items == o.items && o'.totalAmount == o.totalAmount && o'.orderId == o.orderId
      && o'.userId == o.userId && o'.canteenId == o.canteenId && o'.createdAt == o.createdAt
      && (WellFormed(o) ==> WellFormed(o'))
  {
  }

  /**
   * The payment step: the compare-and-swap, else a reread of the record and the
   * placeholder upgrade. Returns the record as it now stands, None when there is none.
   */
  method SettlePayment(s: Store, ref: string, paymentId: string, paymentMethod: string) returns (payment: Option<Payment>)
    requires s.Valid()
    modifies s
    ensures s.Valid()
    ensures ref !in old(s.payments) ==> payment.None? && s.payments == old(s.payments)
    ensures ref in old(s.payments) ==>
      && s.payments == PaymentsAfter(old(s.payments), ref, paymentId, paymentMethod)
      && payment == Some(s.payments[ref])
      && payment.value.orderKey == old(s.payments)[ref].orderKey
    ensures s.canteens == old(s.canteens) && s.items == old(s.items) && s.orders == old(s.orders)
    ensures s.invalidated == old(s.invalidated)
  {
    payment := s.ClaimPayment(ref, paymentId, paymentMethod);
    if payment.None? && ref in s.payments {
      var p := s.payments[ref];
      if p.status == Succeeded && p.paymentId == Placeholder && paymentId != Placeholder {
        p := p.(paymentId := paymentId, paymentMethod := paymentMethod);
        s.payments := s.payments[ref := p];
      }
      payment := Some(p);
    }
  }

  /** The order step: the safety check, then the update and its save. */
  method SettleOrder(s: Store, key: string, paymentId: string, recorded: string, qrToken: Option<string>) returns (r: Result)
    requires s.Valid() && key in s.orders
    modifies s
    ensures s.Valid()
    ensures var o := old(s.orders)[key];
      if AlreadyFulfilled(o) then r == Skipped(o) && s.orders == old(s.orders) && s.invalidated == old(s.invalidated)
      else
        var o' := FulfilledOrder(o, paymentId, recorded, qrToken);
        r == Fulfilled(o') && s.orders == old(s.orders)[key := o'] && s.invalidated == old(s.invalidated) + [o.canteenId]
    ensures s.canteens == old(s.canteens) && s.items == old(s.items) && s.payments == old(s.payments)
  {
    var order := s.orders[key];
    if AlreadyFulfilled(order) {
      return Skipped(order);
    }
    ghost var before := order;
    order := order.(paymentStatus := PaymentSuccess, status := Paid);
    if paymentId != [] && paymentId != Placeholder {
      order := order.(paymentId := paymentId);
    } else if order.paymentId == [] || order.paymentId == Placeholder {
      order := order.(paymentId := if recorded != [] then recorded else Placeholder);
    }
    if order.qrCode == [] {
      if qrToken.Some? {
        order := order.(qrCode := qrToken.value);
      }
    }
    assert order == FulfilledOrder(before, paymentId, recorded, qrToken);
    FulfilledOrderKeepsContents(before, paymentId, recorded, qrToken);
    ReplaceOrderKeepsValid(s.orders, s.payments, key, order);
    s.orders := s.orders[key := order];
    s.Invalidate(order.canteenId);
    r := Fulfilled(order);
  }

  /**
   * fulfillOrder on the shared store. The payment record is updated (and committed)
   * before the order is looked up, so a missing order still leaves the record claimed.
   * On a saved order, the order's canteen menu cache is dropped.
   */
  method FulfillOrder(s: Store, ref: string, paymentId: string, paymentMethod: string, qrToken: Option<string>) returns (r: Result)
    requires s.Valid()
    modifies s
    ensures s.Valid()
    ensures var f := Fulfil(Books(old(s.orders), old(s.payments)), ref, paymentId, paymentMethod, qrToken);
      && Books(s.orders, s.payments) == f.books && r == f.result
      && s.invalidated == old(s.invalidated) + (if f.invalidate.Some? then [f.invalidate.value] else [])
    ensures s.canteens == old(s.canteens) && s.items == old(s.items)
  {
    var payment := SettlePayment(s, ref, paymentId, paymentMethod);
    if payment.None? {
      return RecordMissing;
    }
    if payment.value.orderKey !in s.orders {
      return OrderMissing;
    }
    r := SettleOrder(s, payment.value.orderKey, paymentId, payment.value.paymentId, qrToken);
  }
}
