/**
 * The database the handlers share: canteens, menu items, orders (by document id) and
 * payment records (by gateway order reference), plus the log of menu-cache entries
 * dropped. The conditional updates the handlers rely on for mutual exclusion are
 * methods of their own, each one atomic step.
 */
module StoreModel {
  import opened Wrappers
  import opened CanteenModel
  import opened MenuItemModel
  import opened OrderModel
  import opened PaymentModel
  import opened Inventory
  import opened DocumentIds

  class Store {
    var canteens: map<string, Canteen>
    var items: Stock
    var orders: map<string, Order>
    var payments: map<string, Payment>
    /** Canteen ids whose cached menu was dropped, in the order the deletes were issued. */
    var invalidated: seq<string>

    /** What every handler keeps: see the three predicates below. */
    ghost predicate Valid()
      reads this
    {
      StockValid(items) && OrdersValid(orders) && PaymentsValid(orders, payments)
    }

    constructor ()
      ensures Valid()
      ensures canteens == map[] && items == map[] && orders == map[] && payments == map[] && invalidated == []
    {
      canteens := map[];
      items := map[];
      orders := map[];
      payments := map[];
      invalidated := [];
    }

    /**
     * The conditional decrement: one atomic find-and-update that takes `quantity` off the
     * item only when it exists, belongs to the canteen and has that much stock, and then
     * returns the updated item; otherwise nothing matches and nothing changes.
     */
    method Reserve(id: string, canteenId: string, quantity: int) returns (r: Option<MenuItem>)
      modifies this
      ensures CanReserve(old(items), canteenId, id, quantity) ==>
        items == Take(old(items), id, quantity) && r == Some(items[id])
      ensures !CanReserve(old(items), canteenId, id, quantity) ==> items == old(items) && r == None
      ensures canteens == old(canteens) && orders == old(orders) && payments == old(payments) && invalidated == old(invalidated)
    {
      if id in items && items[id].canteenId == canteenId && items[id].availableQuantity >= quantity {
        items := Take(items, id, quantity);
        r := Some(items[id]);
      } else {
        r := None;
      }
    }

    /** The unconditional increment by id; an id with no item matches nothing. */
    method Release(id: string, quantity: int)
      modifies this
      ensures items == Restock(old(items), id, quantity)
      ensures canteens == old(canteens) && orders == old(orders) && payments == old(payments) && invalidated == old(invalidated)
    {
      items := Restock(items, id, quantity);
    }

    /**
     * The payment compare-and-swap: a record with this reference still `initiated`
     * becomes `success` with the payment id and method, all in one step; the updated
     * record is returned, and nothing changes when no record matches.
     */
    method ClaimPayment(ref: string, paymentId: string, paymentMethod: string) returns (r: Option<Payment>)
      modifies this
      ensures ref in old(payments) && old(payments)[ref].status == Initiated ==>
        var p := old(payments)[ref].(status := Succeeded, paymentId := paymentId, paymentMethod := paymentMethod);
        payments == old(payments)[ref := p] && r == Some(p)
      ensures !(ref in old(payments) && old(payments)[ref].status == Initiated) ==> payments == old(payments) && r == None
      ensures canteens == old(canteens) && items == old(items) && orders == old(orders) && invalidated == old(invalidated)
    {
      if ref in payments && payments[ref].status == Initiated {
        var p := payments[ref].(status := Succeeded, paymentId := paymentId, paymentMethod := paymentMethod);
        payments := payments[ref := p];
        r := Some(p);
      } else {
        r := None;
      }
    }

    /**
     * The sweep's claim: an order still `pending` becomes `cancelled` with payment status
     * `failed` in one step and is returned; an order in any other state is left alone.
     */
    method CancelIfPending(key: string) returns (r: Option<Order>)
      modifies this
      ensures key in old(orders) && old(orders)[key].status == Pending ==>
        var o := old(orders)[key].(status := Cancelled, paymentStatus := PaymentFailed);
        orders == old(orders)[key := o] && r == Some(o)
      ensures !(key in old(orders) && old(orders)[key].status == Pending) ==> orders == old(orders) && r == None
      ensures canteens == old(canteens) && items == old(items) && payments == old(payments) && invalidated == old(invalidated)
    {
      if key in orders && orders[key].status == Pending {
        var o := orders[key].(status := Cancelled, paymentStatus := PaymentFailed);
        orders := orders[key := o];
        r := Some(o);
      } else {
        r := None;
      }
    }

    /** Drops the cached menu of a canteen. */
    method Invalidate(canteenId: string)
      modifies this
      ensures invalidated == old(invalidated) + [canteenId]
      ensures canteens == old(canteens) && items == old(items) && orders == old(orders) && payments == old(payments)
    {
      invalidated := invalidated + [canteenId];
    }
  }

  /** Payment received is only ever recorded together with a move out of `pending`. */
  predicate PaidLeftPending(o: Order) {
    o.paymentStatus == PaymentSuccess ==> o.status != Pending
  }

  /**
   * Every stored order carries an id and the total of its lines, and has left
   * `pending` if paid; order ids are unique.
   */
  predicate OrdersValid(orders: map<string, Order>) {
    && (forall k | k in orders :: WellFormed(orders[k]) && PaidLeftPending(orders[k]))
    && (forall k1, k2 | k1 in orders && k2 in orders && orders[k1].orderId == orders[k2].orderId :: k1 == k2)
  }

  /**
   * Each payment record satisfies its schema and asks for the total of the order it
   * references (a reference that dangles is allowed).
   */
  predicate PaymentsValid(orders: map<string, Order>, payments: map<string, Payment>) {
    && (forall r | r in payments :: PaymentModel.SchemaValid(payments[r]))
    && (forall r | r in payments && payments[r].orderKey in orders :: payments[r].amount == orders[payments[r].orderKey].totalAmount)
  }

  /** Replacing an order by a well-formed one with the same order id and total keeps both invariants. */
  lemma ReplaceOrderKeepsValid(orders: map<string, Order>, payments: map<string, Payment>, key: string, o: Order)
    requires OrdersValid(orders) && PaymentsValid(orders, payments)
    requires key in orders && WellFormed(o) && PaidLeftPending(o)
    requires o.orderId == orders[key].orderId && o.totalAmount == orders[key].totalAmount
    ensures OrdersValid(orders[key := o]) && PaymentsValid(orders[key := o], payments)
  {
  }

  /** Adds each reserved quantity back to its item, in the order reserved. */
  method ReleaseLines(s: Store, reserved: seq<Reservation>)
    modifies s
    ensures s.items == ReleaseAll(old(s.items), reserved)
    ensures s.canteens == old(s.canteens) && s.orders == old(s.orders) && s.payments == old(s.payments)
    ensures s.invalidated == old(s.invalidated)
  {
    var j := 0;
    while j < |reserved|
      invariant 0 <= j <= |reserved|
      invariant s.items == ReleaseAll(old(s.items), reserved[..j])
      invariant s.canteens == old(s.canteens) && s.orders == old(s.orders) && s.payments == old(s.payments)
      invariant s.invalidated == old(s.invalidated)
    {
      s.Release(reserved[j].id, reserved[j].quantity);
      assert reserved[..j + 1][..j] == reserved[..j];
      j := j + 1;
    }
    assert reserved[..|reserved|] == reserved;
  }

  /** The order with this order id, if any (order ids are unique in a valid store). */
  method FindByOrderId(orders: map<string, Order>, orderId: string) returns (k: Option<string>)
    ensures k.Some? ==> k.value in orders && orders[k.value].orderId == orderId
    ensures k.None? ==> forall key | key in orders :: orders[key].orderId != orderId
  {
    if exists key | key in orders :: orders[key].orderId == orderId {
      var key :| key in orders && orders[key].orderId == orderId;
      k := Some(key);
    } else {
      k := None;
    }
  }

  /** `key` is the order that `id` designates: the document cast from `id` when it is 24 hex digits, its order id otherwise. */
  predicate Names(orders: map<string, Order>, id: string, key: string) {
    key in orders && if IsObjectIdHex(id) then key == ObjectIdOf(id) else orders[key].orderId == id
  }

  /** No order is designated by `id`. */
  predicate NoneNamed(orders: map<string, Order>, id: string) {
    if IsObjectIdHex(id) then ObjectIdOf(id) !in orders else forall key | key in orders :: orders[key].orderId != id
  }

  /**
   * The handlers' order lookup: a 24-hex id, in either case, is cast to a document id,
   * anything else (the empty id included) is matched against the order ids.
   */
  method LookupOrder(orders: map<string, Order>, id: string) returns (k: Option<string>)
    ensures k.Some? ==> Names(orders, id, k.value)
    ensures k.None? ==> NoneNamed(orders, id)
  {
    if id != [] && IsObjectIdHex(id) {
      var doc := ObjectIdOf(id);
      k := if doc in orders then Some(doc) else None;
    } else {
      k := FindByOrderId(orders, id);
    }
  }

  /** The canteen with this id, if any. */
  function CanteenOf(canteens: map<string, Canteen>, id: string): (c: Option<Canteen>)
    ensures c.Some? <==> id in canteens
    ensures c.Some? ==> c.value == canteens[id]
  {
    if id in canteens then Some(canteens[id]) else None
  }
}
