/**
 * The payment handlers: opening (or reopening) a gateway order for an order,
 * verifying a checkout, and the gateway's webhook with its three events.
 */
module PaymentController {
  import opened Wrappers
  import opened DocumentIds
  import opened OrderModel
  import opened PaymentModel
  import opened CanteenModel
  import opened StoreModel
  import opened Fulfillment

  // ---------------------------------------------------------------------------
  // initiatePayment

  /** What the client needs to open the gateway's checkout; the amount is in paise. */
  datatype Checkout = Checkout(ref: string, amount: int, currency: string)

  /** The currency of every gateway order. */
  const Currency := "INR"

  /**
   * What opening a payment for the order `key` with total `total` answers and leaves in
   * the payment records: a live record found for the order is reused unchanged; a failed
   * one is moved to the new gateway reference and initiated again; without a record a new
   * one is initiated under the reference; a failed gateway call or insert answers 500 and
   * changes nothing.
   */
  predicate PaymentOpened(before: map<string, Payment>, after: map<string, Payment>, key: string, total: int,
                          found: Option<string>, gatewayRef: Option<string>, code: int, checkout: Option<Checkout>)
    requires found.Some? ==> found.value in before
  {
    && (code == 200 <==> checkout.Some?)
    && (code != 200 ==> code == 500 && after == before)
    && (checkout.Some? ==> checkout.value.amount == total * 100 && checkout.value.currency == Currency)
    && (found.Some? && before[found.value].status != Failed ==>
          code == 200 && checkout.value.ref == found.value && after == before)
    && ((found.None? || before[found.value].status == Failed) && gatewayRef.None? ==> code == 500)
    && (found.None? && gatewayRef.Some? ==>
          var p := Initiate(key, total);
          if !PaymentModel.SchemaValid(p) || gatewayRef.value in before then code == 500
          else code == 200 && checkout.value.ref == gatewayRef.value && after == before[gatewayRef.value := p])
    && (found.Some? && before[found.value].status == Failed && gatewayRef.Some? ==>
          var moved := before[found.value].(status := Initiated);
          if gatewayRef.value != found.value && gatewayRef.value in before then code == 500
          else code == 200 && checkout.value.ref == gatewayRef.value && after == (before - {found.value})[gatewayRef.value := moved])
  }

  /**
   * The payment step of initiatePayment for an order the caller may pay for.
   * `found` is the record the lookup by order returned, if any; `gatewayRef` is the
   * reference of the gateway order created, None when the gateway call fails. The
   * amount asked of the gateway is the total in paise, and the reply echoes it.
   */
  method OpenPayment(s: Store, key: string, found: Option<string>, gatewayRef: Option<string>) returns (code: int, checkout: Option<Checkout>)
    requires s.Valid() && key in s.orders
    requires found.Some? ==> found.value in s.payments && s.payments[found.value].orderKey == key
    modifies s
    ensures s.Valid()
    ensures s.canteens == old(s.canteens) && s.items == old(s.items) && s.orders == old(s.orders) && s.invalidated == old(s.invalidated)
    ensures PaymentOpened(old(s.payments), s.payments, key, old(s.orders)[key].totalAmount, found, gatewayRef, code, checkout)
  {
    var total := s.orders[key].totalAmount;
    if found.Some? && s.payments[found.value].status != Failed {
      return 200, Some(Checkout(found.value, s.payments[found.value].amount * 100, Currency));
    }
    if gatewayRef.None? {
      return 500, None;
    }
    var ref := gatewayRef.value;
    if found.Some? {
      // The failed record is moved to the new reference and initiated again.
      if ref != found.value && ref in s.payments {
        return 500, None;
      }
      var moved := s.payments[found.value].(status := Initiated);
      s.payments := (s.payments - {found.value})[ref := moved];
    } else {
      var p := Initiate(key, total);
      if !PaymentModel.SchemaValid(p) || ref in s.payments {
        return 500, None;
      }
      s.payments := s.payments[ref := p];
    }
    checkout := Some(Checkout(ref, total * 100, Currency));
    code := 200;
  }

  /** The lookup of a payment record by the order it references; several may match, any one is returned. */
  method RecordOf(payments: map<string, Payment>, key: string) returns (found: Option<string>)
    ensures found.Some? ==> found.value in payments && payments[found.value].orderKey == key
    ensures found.None? ==> forall r | r in payments :: payments[r].orderKey != key
  {
    if exists r | r in payments :: payments[r].orderKey == key {
      var r :| r in payments && payments[r].orderKey == key;
      found := Some(r);
    } else {
      found := None;
    }
  }

  /**
   * initiatePayment: an id, an order it names, the owner as caller, an order neither
   * paid nor cancelled; then a live record is reused, and otherwise a gateway order is
   * opened and recorded. Whatever path answers 200 reports the order's total in paise.
   * `found` is the payment record the lookup by order returned on the payable path.
   */
  method InitiatePayment(s: Store, user: User, id: string, gatewayRef: Option<string>)
    returns (code: int, key: Option<string>, found: Option<string>, checkout: Option<Checkout>)
    requires s.Valid()
    modifies s
    ensures s.Valid()
    ensures s.canteens == old(s.canteens) && s.items == old(s.items) && s.orders == old(s.orders) && s.invalidated == old(s.invalidated)
    ensures code != 200 ==> s.payments == old(s.payments) && checkout.None?
    ensures id == [] ==> code == 400 && key.None?
    ensures id != [] && key.None? ==> code == 404 && NoneNamed(old(s.orders), id)
    ensures key.Some? ==> id != [] && Names(old(s.orders), id, key.value)
    ensures key.Some? ==>
      var o := old(s.orders)[key.value];
      && (o.userId != user.id ==> code == 403)
      && (o.userId == user.id && o.paymentStatus == PaymentSuccess ==> code == 400)
      && (o.userId == user.id && o.paymentStatus != PaymentSuccess && o.status == Cancelled ==> code == 400)
    ensures checkout.Some? ==>
      && code == 200 && key.Some?
      && old(s.orders)[key.value].userId == user.id
      && old(s.orders)[key.value].paymentStatus != PaymentSuccess && old(s.orders)[key.value].status != Cancelled
      && checkout.value.amount == old(s.orders)[key.value].totalAmount * 100
    ensures found.Some? ==>
      && key.Some? && found.value in old(s.payments) && old(s.payments)[found.value].orderKey == key.value
    ensures key.Some? ==>
      var o := old(s.orders)[key.value];
      o.userId == user.id && o.paymentStatus != PaymentSuccess && o.status != Cancelled ==>
        && (found.None? ==> forall r | r in old(s.payments) :: old(s.payments)[r].orderKey != key.value)
        && PaymentOpened(old(s.payments), s.payments, key.value, o.totalAmount, found, gatewayRef, code, checkout)
  {
    if id == [] {
      return 400, None, None, None;
    }
    key := LookupOrder(s.orders, id);
    if key.None? {
      return 404, None, None, None;
    }
    var o := s.orders[key.value];
    if o.userId != user.id {
      return 403, key, None, None;
    }
    if o.paymentStatus == PaymentSuccess {
      return 400, key, None, None;
    }
    if o.status == Cancelled {
      return 400, key, None, None;
    }
    found := RecordOf(s.payments, key.value);
    code, checkout := OpenPayment(s, key.value, found, gatewayRef);
  }

  // ---------------------------------------------------------------------------
  // verifyPayment

  /** The three ids present and the signature over them valid. */
  predicate Signed(ref: string, paymentId: string, signature: string, signatureValid: bool) {
    ref != [] && paymentId != [] && signature != [] && signatureValid
  }

  /**
   * The precondition chain of verifyPayment: the three ids present, the signature
   * valid, a record for the reference, its order, the caller owning it, and the
   * gateway's payment details fetched (`details` is None when that call fails).
   */
  predicate MayVerify(orders: map<string, Order>, payments: map<string, Payment>, user: User,
                      ref: string, paymentId: string, signature: string, signatureValid: bool, details: Option<string>) {
    && Signed(ref, paymentId, signature, signatureValid)
    && ref in payments && payments[ref].orderKey in orders
    && orders[payments[ref].orderKey].userId == user.id
    && details.Some?
  }

  /**
   * verifyPayment: fulfilment runs exactly when the whole chain holds; every earlier
   * exit changes nothing. `signatureValid` is the HMAC check's verdict.
   */
  method VerifyPayment(s: Store, user: User, ref: string, paymentId: string, signature: string, signatureValid: bool,
                       details: Option<string>, qrToken: Option<string>) returns (code: int)
    requires s.Valid()
    modifies s
    ensures s.Valid()
    ensures s.canteens == old(s.canteens) && s.items == old(s.items)
    ensures !Signed(ref, paymentId, signature, signatureValid) ==> code == 400
    ensures Signed(ref, paymentId, signature, signatureValid) && ref !in old(s.payments) ==> code == 404
    ensures Signed(ref, paymentId, signature, signatureValid) && ref in old(s.payments) ==>
      var key := old(s.payments)[ref].orderKey;
      && (key !in old(s.orders) ==> code == 404)
      && (key in old(s.orders) && old(s.orders)[key].userId != user.id ==> code == 403)
    ensures !MayVerify(old(s.orders), old(s.payments), user, ref, paymentId, signature, signatureValid, details) ==>
      code != 200 && s.orders == old(s.orders) && s.payments == old(s.payments) && s.invalidated == old(s.invalidated)
    ensures MayVerify(old(s.orders), old(s.payments), user, ref, paymentId, signature, signatureValid, details) ==>
      var f := Fulfil(Books(old(s.orders), old(s.payments)), ref, paymentId, details.value, qrToken);
      && code == 200 && (f.result.Fulfilled? || f.result.Skipped?)
      && Books(s.orders, s.payments) == f.books
      && s.invalidated == old(s.invalidated) + (if f.invalidate.Some? then [f.invalidate.value] else [])
  {
    if ref == [] || paymentId == [] || signature == [] {
      return 400;
    }
    if !signatureValid {
      return 400;
    }
    if ref !in s.payments {
      return 404;
    }
    var payment := s.payments[ref];
    if payment.orderKey !in s.orders {
      return 404;
    }
    if s.orders[payment.orderKey].userId != user.id {
      return 403;
    }
    if details.None? {
      return 500;
    }
    var r := FulfillOrder(s, ref, paymentId, details.value, qrToken);
    code := if r.Fulfilled? || r.Skipped? then 200 else 500;
  }

  // ---------------------------------------------------------------------------
  // handleWebhook

  /** The `payload.payment.entity` of an event: payment id, gateway order reference, method ("" when absent). */
  datatype PaymentEntity = PaymentEntity(id: string, orderRef: string, paymentMethod: string)

  /** The parts of an event payload the handler reads; `order` is `payload.order.entity.id`. */
  datatype Payload = Payload(payment: Option<PaymentEntity>, order: Option<string>)

  /** What an event asks of the handler. */
  datatype Action = FulfilPayment(ref: string, paymentId: string, paymentMethod: string) | MarkFailed(ref: string) | BadPayload | Ignore

  const Unknown := "unknown"

  /**
   * The webhook's dispatch: `payment.captured` and `order.paid` become one
   * fulfilment request, `payment.failed` a failure for the referenced record.
   */
  function Normalize(event: string, payload: Payload): (a: Action)
    ensures event == "payment.captured" ==>
      a == (if payload.payment.None? then BadPayload
            else FulfilPayment(payload.payment.value.orderRef, payload.payment.value.id, payload.payment.value.paymentMethod))
    ensures event == "order.paid" ==>
      && (payload.order.None? <==> a == BadPayload)
      && (payload.order.Some? ==> a.FulfilPayment? && a.ref == payload.order.value)
      && (payload.order.Some? && payload.payment.None? ==> a.paymentId == Placeholder && a.paymentMethod == Unknown)
      && (payload.order.Some? && payload.payment.Some? ==>
            && a.paymentId == payload.payment.value.id
            && a.paymentMethod == (if payload.payment.value.paymentMethod != [] then payload.payment.value.paymentMethod else Unknown))
    ensures event == "payment.failed" ==>
      a == (if payload.payment.Some? && payload.payment.value.orderRef != [] then MarkFailed(payload.payment.value.orderRef) else Ignore)
    ensures event != "payment.captured" && event != "order.paid" && event != "payment.failed" ==> a == Ignore
  {
    if event == "payment.captured" then
      if payload.payment.None? then BadPayload
      else FulfilPayment(payload.payment.value.orderRef, payload.payment.value.id, payload.payment.value.paymentMethod)
    else if event == "order.paid" then
      if payload.order.None? then BadPayload
      else if payload.payment.None? then FulfilPayment(payload.order.value, Placeholder, Unknown)
      else
        var m := payload.payment.value.paymentMethod;
        FulfilPayment(payload.order.value, payload.payment.value.id, if m != [] then m else Unknown)
    else if event == "payment.failed" then
      if payload.payment.Some? && payload.payment.value.orderRef != [] then MarkFailed(payload.payment.value.orderRef) else Ignore
    else Ignore
  }

  /**
   * The `payment.failed` branch on the documents: the record becomes failed and its
   * order's payment status failed, whatever either was before.
   */
  function AfterFailure(b: Books, ref: string): (r: Books)
    ensures ref !in b.payments ==> r == b
    ensures ref in b.payments ==> r.payments == b.payments[ref := b.payments[ref].(status := Failed)]
    ensures ref in b.payments && b.payments[ref].orderKey !in b.orders ==> r.orders == b.orders
    ensures ref in b.payments && b.payments[ref].orderKey in b.orders ==>
      r.orders == b.orders[b.payments[ref].orderKey := b.orders[b.payments[ref].orderKey].(paymentStatus := PaymentFailed)]
  {
    if ref !in b.payments then b
    else
      var p := b.payments[ref];
      var payments := b.payments[ref := p.(status := Failed)];
      if p.orderKey !in b.orders then Books(b.orders, payments)
      else Books(b.orders[p.orderKey := b.orders[p.orderKey].(paymentStatus := PaymentFailed)], payments)
  }

  /**
   * A failure event that arrives after fulfilment undoes the payment record's success
   * and leaves a paid order whose payment status is failed.
   */
  lemma FailureAfterFulfilment(b: Books, ref: string, paymentId: string, paymentMethod: string, qrToken: Option<string>)
    requires ref in b.payments && b.payments[ref].status == Initiated && b.payments[ref].orderKey in b.orders
    requires !AlreadyFulfilled(b.orders[b.payments[ref].orderKey])
    ensures var f := Fulfil(b, ref, paymentId, paymentMethod, qrToken);
      var a := AfterFailure(f.books, ref);
      var key := b.payments[ref].orderKey;
      && f.books.payments[ref].status == Succeeded && f.books.orders[key].paymentStatus == PaymentSuccess
      && a.payments[ref].status == Failed
      && a.orders[key].status == Paid && a.orders[key].paymentStatus == PaymentFailed
  {
    PaymentsAfterKeepsReference(b.payments, ref, paymentId, paymentMethod);
  }

  /** handleWebhook. `signatureValid` is the HMAC check's verdict on the raw body. */
  method HandleWebhook(s: Store, signatureValid: bool, event: string, payload: Payload, qrToken: Option<string>) returns (code: int)
    requires s.Valid()
    modifies s
    ensures s.Valid()
    ensures s.canteens == old(s.canteens) && s.items == old(s.items)
    ensures !signatureValid ==> code == 400 && s.orders == old(s.orders) && s.payments == old(s.payments) && s.invalidated == old(s.invalidated)
    ensures signatureValid ==>
      var a := Normalize(event, payload);
      && (a == BadPayload || a == Ignore ==>
            code == (if a == BadPayload then 400 else 200)
            && s.orders == old(s.orders) && s.payments == old(s.payments) && s.invalidated == old(s.invalidated))
      && (a.MarkFailed? ==>
            code == 200 && Books(s.orders, s.payments) == AfterFailure(Books(old(s.orders), old(s.payments)), a.ref)
            && s.invalidated == old(s.invalidated))
      && (a.FulfilPayment? ==>
            var f := Fulfil(Books(old(s.orders), old(s.payments)), a.ref, a.paymentId, a.paymentMethod, qrToken);
            && Books(s.orders, s.payments) == f.books
            && s.invalidated == old(s.invalidated) + (if f.invalidate.Some? then [f.invalidate.value] else [])
            && code == (if f.result.Fulfilled? || f.result.Skipped? then 200 else 500))
  {
    if !signatureValid {
      return 400;
    }
    var action := Normalize(event, payload);
    match action
    case BadPayload =>
      code := 400;
    case Ignore =>
      code := 200;
    case FulfilPayment(ref, paymentId, paymentMethod) =>
      var r := FulfillOrder(s, ref, paymentId, paymentMethod, qrToken);
      code := if r.Fulfilled? || r.Skipped? then 200 else 500;
    case MarkFailed(ref) =>
      MarkPaymentFailed(s, ref);
      code := 200;
  }

  /** The `payment.failed` branch on the store: two saves, record first. */
  method MarkPaymentFailed(s: Store, ref: string)
    requires s.Valid()
    modifies s
    ensures s.Valid()
    ensures Books(s.orders, s.payments) == AfterFailure(Books(old(s.orders), old(s.payments)), ref)
    ensures s.canteens == old(s.canteens) && s.items == old(s.items) && s.invalidated == old(s.invalidated)
  {
    if ref !in s.payments {
      return;
    }
    var p := s.payments[ref].(status := Failed);
    s.payments := s.payments[ref := p];
    if p.orderKey in s.orders {
      var o := s.orders[p.orderKey].(paymentStatus := PaymentFailed);
      ReplaceOrderKeepsValid(s.orders, s.payments, p.orderKey, o);
      s.orders := s.orders[p.orderKey := o];
    }
  }
}
