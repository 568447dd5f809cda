/**
 * Stock bookkeeping of order creation: the conditional decrement that reserves one
 * cart line, the reservation of a whole cart in order, and the increments that give
 * reserved stock back (rollback, cancellation, the stale-order sweep).
 */
module Inventory {
  import opened Wrappers
  import opened DocumentIds
  import opened MenuItemModel
  import opened OrderModel

  /** The menu-item collection, by item id. */
  type Stock = map<string, MenuItem>

  /** A cart line as the client sends it: "" for a missing id, 0 for a missing quantity. */
  datatype CartLine = CartLine(menuItemId: string, quantity: int)

  /** A line taken from stock, remembered so that it can be given back. */
  datatype Reservation = Reservation(id: string, quantity: int)

  /** Every stored item satisfies the item schema (in particular, stock is never below 0). */
  predicate StockValid(items: Stock) {
    forall id | id in items :: MenuItemModel.SchemaValid(items[id])
  }

  /** The filter of the conditional decrement: the item exists, belongs to the canteen and has enough stock. */
  predicate CanReserve(items: Stock, canteenId: string, id: string, quantity: int) {
    id in items && items[id].canteenId == canteenId && items[id].availableQuantity >= quantity
  }

  /** The decrement `$inc: -quantity` on one item. */
  function Take(items: Stock, id: string, quantity: int): Stock
    requires id in items
  {
    items[id := items[id].(availableQuantity := items[id].availableQuantity - quantity)]
  }

  /** The increment `$inc: quantity` by id; an id with no item matches nothing and changes nothing. */
  function Restock(items: Stock, id: string, quantity: int): Stock {
    if id in items then items[id := items[id].(availableQuantity := items[id].availableQuantity + quantity)] else items
  }

  /** Why a cart line could not be reserved, in the order the handler tells the cases apart. */
  datatype LineError =
    | InvalidFormat
    | CastFailed(id: string)
    | NotFound(id: string)
    | WrongCanteen(name: string)
    | Insufficient(name: string, available: int)
    | CouldNotAdd(id: string)

  /** A line the handler accepts for reservation: an id and a quantity of at least 1. */
  predicate WellFormedLine(l: CartLine) {
    l.menuItemId != [] && l.quantity >= 1
  }

  /** The document a line's id designates once the query has cast it. */
  function ItemKey(l: CartLine): string {
    ObjectIdOf(l.menuItemId)
  }

  /**
   * One turn of the reservation loop: the format check, the conditional decrement (whose
   * query throws when the line's id does not cast, and which casts the canteen id) and,
   * when the decrement matched nothing, the re-read that names the reason. The re-read
   * compares the stored canteen id with `canteenId` as the client wrote it, without the cast.
   */
  function TryLine(items: Stock, canteenId: string, l: CartLine): (r: Result<MenuItem, LineError>)
    ensures r.Ok? <==>
      WellFormedLine(l) && IsObjectIdHex(l.menuItemId) && CanReserve(items, ObjectIdOf(canteenId), ItemKey(l), l.quantity)
    ensures r.Ok? ==> r.value == items[ItemKey(l)]
    ensures r == Err(InvalidFormat) <==> !WellFormedLine(l)
    ensures r == Err(CastFailed(l.menuItemId)) <==> WellFormedLine(l) && !IsObjectIdHex(l.menuItemId)
    ensures WellFormedLine(l) && IsObjectIdHex(l.menuItemId) && ItemKey(l) !in items ==> r == Err(NotFound(l.menuItemId))
    ensures WellFormedLine(l) && IsObjectIdHex(l.menuItemId) && !CanReserve(items, ObjectIdOf(canteenId), ItemKey(l), l.quantity)
      && ItemKey(l) in items && items[ItemKey(l)].canteenId != canteenId
      ==> r == Err(WrongCanteen(items[ItemKey(l)].name))
    ensures WellFormedLine(l) && IsObjectIdHex(l.menuItemId) && ItemKey(l) in items && items[ItemKey(l)].canteenId == canteenId
      && items[ItemKey(l)].availableQuantity < l.quantity
      ==> r == Err(Insufficient(items[ItemKey(l)].name, items[ItemKey(l)].availableQuantity))
    ensures r.Err? && r.error.CouldNotAdd? ==>
      && ItemKey(l) in items && items[ItemKey(l)].canteenId == canteenId && canteenId != ObjectIdOf(canteenId)
      && items[ItemKey(l)].availableQuantity >= l.quantity
  {
    var k := ItemKey(l);
    if !WellFormedLine(l) then Err(InvalidFormat)
    else if !IsObjectIdHex(l.menuItemId) then Err(CastFailed(l.menuItemId))
    else if CanReserve(items, ObjectIdOf(canteenId), k, l.quantity) then Ok(items[k])
    else if k !in items then Err(NotFound(l.menuItemId))
    else if items[k].canteenId != canteenId then Err(WrongCanteen(items[k].name))
    else if items[k].availableQuantity < l.quantity then Err(Insufficient(items[k].name, items[k].availableQuantity))
    else Err(CouldNotAdd(l.menuItemId))
  }

  /**
   * What the reservation loop leaves behind: the stock, the lines reserved so far and
   * either the order lines (every line reserved) or the error of the first refused line.
   */
  datatype Outcome =
    | Reserved(stock: Stock, reservations: seq<Reservation>, lines: seq<OrderItem>)
    | Refused(stock: Stock, reservations: seq<Reservation>, error: LineError)

  /** Records a reservation (and its order line) taken before the rest of the loop. */
  function Prepend(r: Reservation, l: OrderItem, o: Outcome): Outcome {
    match o
    case Reserved(s, rs, ls) => Reserved(s, [r] + rs, [l] + ls)
    case Refused(s, rs, e) => Refused(s, [r] + rs, e)
  }

  /** Records the reservations (and order lines) of a loop prefix before the rest of the loop. */
  function PrependAll(rs: seq<Reservation>, ls: seq<OrderItem>, o: Outcome): Outcome {
    match o
    case Reserved(s, rs2, ls2) => Reserved(s, rs + rs2, ls + ls2)
    case Refused(s, rs2, e) => Refused(s, rs + rs2, e)
  }

  /** The reservation loop over a cart, line by line, stopping at the first refused line. */
  function ReserveAll(items: Stock, canteenId: string, cart: seq<CartLine>): Outcome
    decreases |cart|
  {
    if cart == [] then Reserved(items, [], [])
    else
      match TryLine(items, canteenId, cart[0])
      case Err(e) => Refused(items, [], e)
      case Ok(m) =>
        var l := cart[0];
        Prepend(Reservation(ItemKey(l), l.quantity), OrderItem(ItemKey(l), m.name, m.price, l.quantity),
                ReserveAll(Take(items, ItemKey(l), l.quantity), canteenId, cart[1..]))
  }

  /** One more reserved line moves from the rest of the loop to its prefix. */
  lemma PrependAllStep(rs: seq<Reservation>, ls: seq<OrderItem>, r: Reservation, l: OrderItem, o: Outcome)
    ensures PrependAll(rs, ls, Prepend(r, l, o)) == PrependAll(rs + [r], ls + [l], o)
  {
    match o
    case Reserved(s, rs2, ls2) =>
      assert rs + ([r] + rs2) == rs + [r] + rs2;
      assert ls + ([l] + ls2) == ls + [l] + ls2;
    case Refused(s, rs2, e) =>
      assert rs + ([r] + rs2) == rs + [r] + rs2;
  }

  /** Giving reserved lines back, in the order they were reserved. */
  function ReleaseAll(items: Stock, rs: seq<Reservation>): Stock {
    if rs == [] then items else Restock(ReleaseAll(items, rs[..|rs| - 1]), rs[|rs| - 1].id, rs[|rs| - 1].quantity)
  }

  /** The reservations that give back the lines of an order. */
  function AsReservations(lines: seq<OrderItem>): (rs: seq<Reservation>)
    ensures |rs| == |lines|
    ensures forall i :: 0 <= i < |lines| ==> rs[i] == Reservation(lines[i].menuItemId, lines[i].quantity)
  {
    if lines == [] then [] else AsReservations(lines[..|lines| - 1]) + [Reservation(lines[|lines| - 1].menuItemId, lines[|lines| - 1].quantity)]
  }

  /** Total quantity that the reservations hold of one item. */
  function Withdrawn(rs: seq<Reservation>, id: string): int {
    if rs == [] then 0
    else Withdrawn(rs[..|rs| - 1], id) + (if rs[|rs| - 1].id == id then rs[|rs| - 1].quantity else 0)
  }

  /** Increments on two items, or two increments on one, commute. */
  lemma RestockCommutes(items: Stock, a: string, p: int, b: string, q: int)
    ensures Restock(Restock(items, a, p), b, q) == Restock(Restock(items, b, q), a, p)
  {
    if a == b && a in items {
      assert items[a].availableQuantity + p + q == items[a].availableQuantity + q + p;
    }
  }

  /** Giving back a list headed by `r` is giving back the rest and then `r`. */
  lemma {:induction false} ReleaseFirst(items: Stock, r: Reservation, rs: seq<Reservation>)
    ensures ReleaseAll(items, [r] + rs) == Restock(ReleaseAll(items, rs), r.id, r.quantity)
  {
    if rs == [] {
      assert ([r] + rs)[..0] == [];
    } else {
      var init := rs[..|rs| - 1];
      var last := rs[|rs| - 1];
      assert ([r] + rs)[..|[r] + rs| - 1] == [r] + init;
      ReleaseFirst(items, r, init);
      RestockCommutes(ReleaseAll(items, init), r.id, r.quantity, last.id, last.quantity);
    }
  }

  /** Giving back a list is giving back its two halves one after the other. */
  lemma {:induction false} ReleaseAppend(items: Stock, rs: seq<Reservation>, more: seq<Reservation>)
    ensures ReleaseAll(items, rs + more) == ReleaseAll(ReleaseAll(items, rs), more)
  {
    if more == [] {
      assert rs + more == rs;
    } else {
      assert (rs + more)[..|rs + more| - 1] == rs + more[..|more| - 1];
      ReleaseAppend(items, rs, more[..|more| - 1]);
    }
  }

  /** Giving back adds exactly the quantities held of each item and changes nothing else. */
  lemma {:induction false} ReleaseAllEffect(items: Stock, rs: seq<Reservation>)
    ensures ReleaseAll(items, rs).Keys == items.Keys
    ensures forall id | id in items ::
      ReleaseAll(items, rs)[id] == items[id].(availableQuantity := items[id].availableQuantity + Withdrawn(rs, id))
  {
    if rs != [] {
      ReleaseAllEffect(items, rs[..|rs| - 1]);
    }
  }

  /** Giving back non-negative quantities keeps every item within its schema. */
  lemma {:induction false} ReleaseKeepsStockValid(items: Stock, rs: seq<Reservation>)
    requires StockValid(items)
    requires forall i :: 0 <= i < |rs| ==> rs[i].quantity >= 0
    ensures StockValid(ReleaseAll(items, rs))
  {
    if rs != [] {
      ReleaseKeepsStockValid(items, rs[..|rs| - 1]);
    }
  }

  /**
   * Rollback completeness: whatever the loop ends with, giving back the lines it
   * reserved restores the stock it started from exactly.
   */
  lemma {:induction false} RollbackRestores(items: Stock, canteenId: string, cart: seq<CartLine>)
    ensures ReleaseAll(ReserveAll(items, canteenId, cart).stock, ReserveAll(items, canteenId, cart).reservations) == items
    decreases |cart|
  {
    if cart != [] && TryLine(items, canteenId, cart[0]).Ok? {
      var l := cart[0];
      var taken := Take(items, ItemKey(l), l.quantity);
      var rest := ReserveAll(taken, canteenId, cart[1..]);
      RollbackRestores(taken, canteenId, cart[1..]);
      ReleaseFirst(rest.stock, Reservation(ItemKey(l), l.quantity), rest.reservations);
      assert Restock(taken, ItemKey(l), l.quantity) == items;
    }
  }

  /**
   * Conservation: after the loop each item holds its stock before the call minus what
   * the reservations took of it; no item is added, removed or otherwise changed.
   */
  lemma Conservation(items: Stock, canteenId: string, cart: seq<CartLine>)
    ensures var o := ReserveAll(items, canteenId, cart);
      && o.stock.Keys == items.Keys
      && forall id | id in items ::
           o.stock[id] == items[id].(availableQuantity := items[id].availableQuantity - Withdrawn(o.reservations, id))
  {
    var o := ReserveAll(items, canteenId, cart);
    RollbackRestores(items, canteenId, cart);
    ReleaseAllEffect(o.stock, o.reservations);
  }

  /** The loop never takes an item below 0, so a valid stock stays valid. */
  lemma {:induction false} ReserveKeepsStockValid(items: Stock, canteenId: string, cart: seq<CartLine>)
    requires StockValid(items)
    ensures StockValid(ReserveAll(items, canteenId, cart).stock)
    decreases |cart|
  {
    if cart != [] && TryLine(items, canteenId, cart[0]).Ok? {
      var l := cart[0];
      ReserveKeepsStockValid(Take(items, ItemKey(l), l.quantity), canteenId, cart[1..]);
    }
  }

  /**
   * What the loop reserves: on success one reservation and one order line per cart line,
   * priced and named as the item was before the call; on failure the lines before the
   * refused one, and the refused line's own error against the stock it met.
   */
  lemma {:induction false} ReservedLines(items: Stock, canteenId: string, cart: seq<CartLine>)
    ensures var o := ReserveAll(items, canteenId, cart);
      && (o.Reserved? ==>
            && |o.reservations| == |cart| && |o.lines| == |cart|
            && forall i :: 0 <= i < |cart| ==>
                 && WellFormedLine(cart[i]) && IsObjectIdHex(cart[i].menuItemId) && ItemKey(cart[i]) in items
                 && items[ItemKey(cart[i])].canteenId == ObjectIdOf(canteenId)
                 && o.reservations[i] == Reservation(ItemKey(cart[i]), cart[i].quantity)
                 && o.lines[i] == OrderItem(ItemKey(cart[i]), items[ItemKey(cart[i])].name,
                                            items[ItemKey(cart[i])].price, cart[i].quantity))
      && (o.Refused? ==>
            && |o.reservations| < |cart|
            && (forall i :: 0 <= i < |o.reservations| ==> o.reservations[i] == Reservation(ItemKey(cart[i]), cart[i].quantity))
            && TryLine(o.stock, canteenId, cart[|o.reservations|]) == Err(o.error))
    decreases |cart|
  {
    if cart != [] && TryLine(items, canteenId, cart[0]).Ok? {
      var l := cart[0];
      var k := ItemKey(l);
      var taken := Take(items, k, l.quantity);
      ReservedLines(taken, canteenId, cart[1..]);
      var rest := ReserveAll(taken, canteenId, cart[1..]);
      var o := ReserveAll(items, canteenId, cart);
      assert o == Prepend(Reservation(k, l.quantity), OrderItem(k, items[k].name, items[k].price, l.quantity), rest);
      if o.Refused? {
        assert cart[|o.reservations|] == cart[1..][|rest.reservations|];
      }
    }
  }

  /**
   * A canteen id sent with upper-case digits still reserves the canteen's items (the
   * decrement casts it), but a line it cannot reserve is reported as another canteen's
   * item, never as short of stock (the re-read compares the uncast string).
   */
  lemma CaseVariantCanteenId(items: Stock, canteenId: string, l: CartLine)
    requires WellFormedLine(l) && IsObjectIdHex(l.menuItemId) && ItemKey(l) in items
    requires items[ItemKey(l)].canteenId == ObjectIdOf(canteenId) && canteenId != ObjectIdOf(canteenId)
    ensures TryLine(items, canteenId, l).Ok? <==> items[ItemKey(l)].availableQuantity >= l.quantity
    ensures TryLine(items, canteenId, l).Err? ==> TryLine(items, canteenId, l) == Err(WrongCanteen(items[ItemKey(l)].name))
  {
  }

  /**
   * Of two carts asking for the last unit of an item (its id written in either case),
   * the first gets it and the second is refused naming a stock of 0.
   */
  lemma LastUnitGoesOnce(items: Stock, canteenId: string, id: string)
    requires IsObjectIdHex(id) && ObjectIdOf(id) in items && ObjectIdOf(canteenId) == canteenId
    requires items[ObjectIdOf(id)].canteenId == canteenId && items[ObjectIdOf(id)].availableQuantity == 1
    ensures var k := ObjectIdOf(id);
      ReserveAll(items, canteenId, [CartLine(id, 1)])
      == Reserved(Take(items, k, 1), [Reservation(k, 1)], [OrderItem(k, items[k].name, items[k].price, 1)])
    ensures var k := ObjectIdOf(id);
      ReserveAll(Take(items, k, 1), canteenId, [CartLine(id, 1)])
      == Refused(Take(items, k, 1), [], Insufficient(items[k].name, 0))
  {
    var k := ObjectIdOf(id);
    var cart := [CartLine(id, 1)];
    assert cart[0] == CartLine(id, 1) && cart[1..] == [];
    assert ItemKey(cart[0]) == k;
    assert TryLine(items, canteenId, cart[0]) == Ok(items[k]);
    assert ReserveAll(Take(items, k, 1), canteenId, []) == Reserved(Take(items, k, 1), [], []);
  }
}
