/**
 * The order handlers: creation with stock reservation and rollback, the staff status
 * update, the customer's cancellation and the pickup at the counter.
 */
module OrderController {
  import opened Wrappers
  import opened DocumentIds
  import opened Text
  import opened CanteenModel
  import opened MenuItemModel
  import opened OrderModel
  import opened Inventory
  import opened Time
  import opened StoreModel

  /** An error reply: HTTP status and message. */
  datatype Reply = Reply(code: int, message: string)

  // ---------------------------------------------------------------------------
  // Error messages and the status code derived from them

  const InvalidFormatText := "Invalid item format." + " " + "Provide menuItemId and quantity"
  const ValidationFailedText := "Order validation failed"
  const DuplicateKeyText := "E11000 duplicate key error"

  /** The message of the error thrown for a refused cart line. */
  function LineMessage(e: LineError): string {
    match e
    case InvalidFormat => InvalidFormatText
    case CastFailed(id) => CastMessage(id, "MenuItem")
    case NotFound(id) => "Menu item " + id + " not " + "found"
    case WrongCanteen(name) => "Item" + " " + name + " " + "does not belong to this canteen"
    case Insufficient(name, available) => "Insufficient" + " quantity for " + name + ". Available: " + IntToString(available)
    case CouldNotAdd(id) => CouldNotAddText + " " + id
  }

  const CouldNotAddText := "Could not add item"
  const CastFailedText := "Cast to ObjectId failed for value"
  const CastPathText := "(type string) at path \"_id\" for model"

  /** The message of the error a query by `_id` throws when the value `v` does not cast, for the collection of `model`. */
  function CastMessage(v: string, model: string): string {
    CastFailedText + " " + ("\"" + v + "\"") + " " + CastPathText + " " + ("\"" + model + "\"")
  }

  /** The creation handler's catch block: 400 when the message mentions "found" or "Insufficient", 500 otherwise. */
  function StatusCode(message: string): (code: int)
    ensures code == 400 || code == 500
  {
    if Contains(message, "found") || Contains(message, "Insufficient") then 400 else 500
  }

  /** A word without spaces occurs in neither half of "a b" when each half lacks one of its characters. */
  lemma AbsentFromBothWords(a: string, b: string, w: string, c: char, d: char)
    requires ' ' !in w && c in w && c !in a && d in w && d !in b
    ensures !Contains(a + " " + b, w)
  {
    CharAbsent(a, w, c);
    CharAbsent(b, w, d);
    ContainsAcross(a, ' ', b, w);
  }

  /** A word without spaces occurs in "a name b" exactly when it occurs in `name`, when `a` and `b` each lack one of its characters. */
  lemma OnlyInMiddleWord(a: string, name: string, b: string, w: string, c: char, d: char)
    requires ' ' !in w && c in w && c !in a && d in w && d !in b
    ensures Contains(a + " " + name + " " + b, w) <==> Contains(name, w)
  {
    CharAbsent(a, w, c);
    CharAbsent(b, w, d);
    assert a + " " + name + " " + b == a + " " + (name + " " + b);
    ContainsAcross(a, ' ', name + " " + b, w);
    ContainsAcross(name, ' ', b, w);
  }

  lemma InvalidFormatLacksKeywords()
    ensures !Contains(InvalidFormatText, "found")
    ensures !Contains(InvalidFormatText, "Insufficient")
  {
    assert !Contains(InvalidFormatText, "found") by {
      AbsentFromBothWords("Invalid item format.", "Provide menuItemId and quantity", "found", 'u', 'f');
    }
    assert !Contains(InvalidFormatText, "Insufficient") by {
      AbsentFromBothWords("Invalid item format.", "Provide menuItemId and quantity", "Insufficient", 's', 's');
    }
  }

  /** A malformed cart line is answered 500, not 400. */
  lemma InvalidFormatIsServerError()
    ensures StatusCode(LineMessage(InvalidFormat)) == 500
  {
    InvalidFormatLacksKeywords();
  }

  /** A missing item is answered 400. */
  lemma NotFoundIsClientError(id: string)
    ensures StatusCode(LineMessage(NotFound(id))) == 400
  {
    ContainsInfix("Menu item " + id + " not ", "found", "");
    assert "Menu item " + id + " not " + "found" + "" == LineMessage(NotFound(id));
  }

  /** Too little stock is answered 400. */
  lemma InsufficientIsClientError(name: string, available: int)
    ensures StatusCode(LineMessage(Insufficient(name, available))) == 400
  {
    var rest := " quantity for " + name + ". Available: " + IntToString(available);
    ContainsInfix("", "Insufficient", rest);
    assert "" + "Insufficient" + rest == LineMessage(Insufficient(name, available));
  }

  /**
   * An item of another canteen is answered 500, unless its name happens to contain
   * "found" or "Insufficient", in which case it is answered 400.
   */
  lemma WrongCanteenCode(name: string)
    ensures StatusCode(LineMessage(WrongCanteen(name))) == 400 <==> Contains(name, "found") || Contains(name, "Insufficient")
  {
    OnlyInMiddleWord("Item", name, "does not belong to this canteen", "found", 'f', 'f');
    OnlyInMiddleWord("Item", name, "does not belong to this canteen", "Insufficient", 's', 'I');
  }

  /** A cast message contains a word with 'f', 'n' and 'u' but no space or quote exactly when the quoted value does. */
  lemma CastMessageContains(v: string, model: string, w: string)
    requires 'f' !in model
    requires ' ' !in w && '"' !in w && 'f' in w && 'n' in w && 'u' in w
    ensures Contains(CastMessage(v, model), w) <==> Contains(v, w)
  {
    var quoted := "\"" + v + "\"";
    var tail := "\"" + model + "\"";
    var head := CastFailedText + [' '] + quoted;
    var body := head + [' '] + CastPathText;
    assert CastMessage(v, model) == body + [' '] + tail;
    assert Contains(body + [' '] + tail, w) <==> Contains(body, w) by {
      ContainsAcross(body, ' ', tail, w);
      CharAbsent(tail, w, 'f');
    }
    assert Contains(body, w) <==> Contains(head, w) by {
      ContainsAcross(head, ' ', CastPathText, w);
      CharAbsent(CastPathText, w, 'u');
    }
    assert Contains(head, w) <==> Contains(quoted, w) by {
      ContainsAcross(CastFailedText, ' ', quoted, w);
      CharAbsent(CastFailedText, w, 'n');
    }
    ContainsQuoted(v, w);
  }

  /**
   * An id that does not cast is answered 500, unless the id itself contains "found" or
   * "Insufficient", in which case it is answered 400 (the message quotes it).
   */
  lemma CastFailureCode(v: string, model: string)
    requires 'f' !in model
    ensures StatusCode(CastMessage(v, model)) == 400 <==> Contains(v, "found") || Contains(v, "Insufficient")
  {
    CastMessageContains(v, model, "found");
    CastMessageContains(v, model, "Insufficient");
  }

  /** The last-resort refusal names a cast id, which spells neither keyword, so it is answered 500. */
  lemma CouldNotAddIsServerError(id: string)
    requires IsObjectIdHex(id)
    ensures StatusCode(LineMessage(CouldNotAdd(id))) == 500
  {
    AbsentFromBothWords(CouldNotAddText, id, "found", 'f', 'u');
    AbsentFromBothWords(CouldNotAddText, id, "Insufficient", 's', 'u');
  }

  /** Failures of the order insert itself are answered 500. */
  lemma InsertFailuresAreServerErrors()
    ensures StatusCode(ValidationFailedText) == 500
    ensures StatusCode(DuplicateKeyText) == 500
  {
    CharAbsent(ValidationFailedText, "found", 'u');
    CharAbsent(ValidationFailedText, "Insufficient", 's');
    CharAbsent(DuplicateKeyText, "found", 'f');
    CharAbsent(DuplicateKeyText, "Insufficient", 's');
  }

  // ---------------------------------------------------------------------------
  // The admission checks of order creation

  /** `isOpen === false`: only a stored false closes the canteen here; an absent flag does not. */
  predicate ManuallyClosed(c: Canteen) {
    c.isOpen == Flag(false)
  }

  /** `now < t`; a comparison with NaN is false. */
  predicate Before(now: int, t: JsNumber) {
    t.Finite? && now < t.v
  }

  /** `now > t`; a comparison with NaN is false. */
  predicate After(now: int, t: JsNumber) {
    t.Finite? && now > t.v
  }

  /** Both hours set and the current minute before the opening minute or after the closing minute. */
  predicate OutsideHours(c: Canteen, minute: int) {
    && c.openingTime != [] && c.closingTime != []
    && (Before(minute, ClockMinutes(c.openingTime)) || After(minute, ClockMinutes(c.closingTime)))
  }

  /** Request shape present: a canteen id and a non-empty cart. */
  predicate ShapeOk(canteenId: string, cart: Option<seq<CartLine>>) {
    canteenId != [] && cart.Some? && cart.value != []
  }

  /**
   * The checks before any stock is touched: request shape, canteen found (the lookup
   * throws when the id does not cast, and the catch block answers), manual close, hours.
   */
  function Screen(canteens: map<string, Canteen>, canteenId: string, cart: Option<seq<CartLine>>, minute: int): (r: Option<Reply>)
    ensures r.None? <==>
      && ShapeOk(canteenId, cart) && IsObjectIdHex(canteenId) && ObjectIdOf(canteenId) in canteens
      && !ManuallyClosed(canteens[ObjectIdOf(canteenId)]) && !OutsideHours(canteens[ObjectIdOf(canteenId)], minute)
    ensures !ShapeOk(canteenId, cart) ==> r == Some(Reply(400, "Please provide canteenId and items array"))
    ensures ShapeOk(canteenId, cart) && !IsObjectIdHex(canteenId) ==>
      r == Some(Reply(StatusCode(CastMessage(canteenId, "Canteen")), CastMessage(canteenId, "Canteen")))
    ensures r.Some? ==> (r.value.code == 404 <==> ShapeOk(canteenId, cart) && IsObjectIdHex(canteenId) && ObjectIdOf(canteenId) !in canteens)
    ensures r.Some? ==> r.value.code == 400 || r.value.code == 404 || r.value.code == 500
  {
    if !ShapeOk(canteenId, cart) then Some(Reply(400, "Please provide canteenId and items array"))
    else if !IsObjectIdHex(canteenId) then Some(Reply(StatusCode(CastMessage(canteenId, "Canteen")), CastMessage(canteenId, "Canteen")))
    else
      var id := ObjectIdOf(canteenId);
      if id !in canteens then Some(Reply(404, "Canteen not found"))
      else if ManuallyClosed(canteens[id]) then Some(Reply(400, "Canteen is currently closed (Manually Closed)"))
      else if OutsideHours(canteens[id], minute) then
        Some(Reply(400, "Canteen is closed. Operating hours: " + canteens[id].openingTime + " - " + canteens[id].closingTime))
      else None
  }

  /**
   * Where the flag is a stored boolean and the hours are either missing or readable,
   * creation admits an order exactly when the opening-hours predicate says open.
   */
  lemma HoursCheckAgrees(c: Canteen, minute: int)
    requires c.isOpen.Flag?
    requires c.openingTime == [] || c.closingTime == [] || (ClockMinutes(c.openingTime).Finite? && ClockMinutes(c.closingTime).Finite?)
    ensures !ManuallyClosed(c) && !OutsideHours(c, minute) <==> IsCanteenOpen(c, minute)
  {
  }

  /** A canteen without a stored flag takes orders (hours permitting) although the opening-hours predicate calls it closed. */
  lemma UnsetFlagDiverges(c: Canteen, minute: int)
    requires c.isOpen == Unset
    ensures !ManuallyClosed(c) && !IsCanteenOpen(c, minute)
  {
  }

  /** Unreadable hours admit orders at every minute, while the opening-hours predicate calls the canteen closed. */
  lemma UnreadableHoursDiverge(c: Canteen, minute: int)
    requires c.openingTime != [] && c.closingTime != []
    requires ClockMinutes(c.openingTime).NaN? && ClockMinutes(c.closingTime).NaN?
    ensures !OutsideHours(c, minute) && !IsCanteenOpen(c, minute)
  {
  }

  /** The window admits its opening and its closing minute and rejects the minute before and the minute after. */
  lemma WindowBoundsOfCreation(c: Canteen)
    requires c.openingTime != [] && c.closingTime != []
    requires ClockMinutes(c.openingTime).Finite? && ClockMinutes(c.closingTime).Finite?
    requires ClockMinutes(c.openingTime).v <= ClockMinutes(c.closingTime).v
    ensures !OutsideHours(c, ClockMinutes(c.openingTime).v) && !OutsideHours(c, ClockMinutes(c.closingTime).v)
    ensures OutsideHours(c, ClockMinutes(c.openingTime).v - 1) && OutsideHours(c, ClockMinutes(c.closingTime).v + 1)
  {
  }

  // ---------------------------------------------------------------------------
  // Order creation

  /** The order id the save hook generates from its time-and-random stamp. */
  function OrderIdFor(stamp: string): (id: string)
    ensures |id| >= 4 && id[..4] == "ORD-"
  {
    "ORD-" + stamp
  }

  /** The order the handler creates from the reserved lines: pending, unpaid, its total the lines' total. */
  function NewOrder(user: User, canteenId: string, lines: seq<OrderItem>, nowMs: int, stamp: string): Order {
    AssignOrderId(Order("", user.id, canteenId, lines, LinesTotal(lines), Pending, PaymentPending, "", "", nowMs), OrderIdFor(stamp))
  }

  predicate OrderIdTaken(orders: map<string, Order>, orderId: string) {
    exists k | k in orders :: orders[k].orderId == orderId
  }

  /** Price of an item before the call, 0 for an unknown id. */
  function PriceOf(items: Stock, id: string): int {
    if id in items then items[id].price else 0
  }

  /** Σ price × quantity over the cart at the prices before the call. */
  function CartTotal(items: Stock, cart: seq<CartLine>): int {
    if cart == [] then 0
    else CartTotal(items, cart[..|cart| - 1]) + PriceOf(items, ItemKey(cart[|cart| - 1])) * cart[|cart| - 1].quantity
  }

  lemma {:induction false} LinesTotalIsCartTotal(items: Stock, cart: seq<CartLine>, lines: seq<OrderItem>)
    requires |lines| == |cart|
    requires forall i :: 0 <= i < |cart| ==>
      lines[i].price == PriceOf(items, ItemKey(cart[i])) && lines[i].quantity == cart[i].quantity
    ensures LinesTotal(lines) == CartTotal(items, cart)
  {
    if cart != [] {
      LinesTotalIsCartTotal(items, cart[..|cart| - 1], lines[..|lines| - 1]);
    }
  }

  /**
   * What a successful reservation makes of the order: pending and unpaid, one line per
   * cart line at the item's price before the call, a total equal to Σ price × quantity,
   * and satisfying the order schema whenever no price is negative. The order stores the
   * cast canteen id.
   */
  lemma CreatedOrder(items: Stock, user: User, canteenId: string, cart: seq<CartLine>, nowMs: int, stamp: string)
    requires StockValid(items) && cart != [] && canteenId != [] && user.id != []
    requires ReserveAll(items, canteenId, cart).Reserved?
    ensures var o := NewOrder(user, ObjectIdOf(canteenId), ReserveAll(items, canteenId, cart).lines, nowMs, stamp);
      && o.status == Pending && o.paymentStatus == PaymentPending
      && o.orderId == OrderIdFor(stamp) && o.paymentId == [] && o.qrCode == []
      && |o.items| == |cart|
      && o.totalAmount == CartTotal(items, cart)
      && ((forall i :: 0 <= i < |cart| ==> PriceOf(items, ItemKey(cart[i])) >= 0) ==> WellFormed(o))
  {
    var r := ReserveAll(items, canteenId, cart);
    ReservedLines(items, canteenId, cart);
    LinesTotalIsCartTotal(items, cart, r.lines);
    var o := NewOrder(user, ObjectIdOf(canteenId), r.lines, nowMs, stamp);
    assert |ObjectIdOf(canteenId)| == |canteenId|;
    assert forall i :: 0 <= i < |r.lines| ==> LineValid(r.lines[i]) by {
      forall i | 0 <= i < |r.lines| ensures LineValid(r.lines[i]) {
        assert MenuItemModel.SchemaValid(items[ItemKey(cart[i])]);
      }
    }
    if forall i :: 0 <= i < |cart| ==> PriceOf(items, ItemKey(cart[i])) >= 0 {
      LinesTotalNonNegative(r.lines);
    }
  }

  /** Cancelling a freshly created order gives back exactly the stock its creation took. */
  lemma CreateThenCancelRestores(items: Stock, canteenId: string, cart: seq<CartLine>)
    requires ReserveAll(items, canteenId, cart).Reserved?
    ensures var r := ReserveAll(items, canteenId, cart);
      ReleaseAll(r.stock, AsReservations(r.lines)) == items
  {
    var r := ReserveAll(items, canteenId, cart);
    ReservedLines(items, canteenId, cart);
    assert AsReservations(r.lines) == r.reservations;
    RollbackRestores(items, canteenId, cart);
  }

  /**
   * One pass of the reservation loop: a malformed line is refused without touching
   * stock, an id that does not cast makes the query throw; otherwise the conditional
   * decrement runs and, when it matches nothing, the item is read again to tell a
   * missing item, another canteen's item and too little stock apart. A reserved line
   * yields the updated item.
   */
  method ReserveLine(s: Store, canteenId: string, line: CartLine) returns (r: Result<MenuItem, LineError>)
    modifies s
    ensures r.Ok? <==> TryLine(old(s.items), canteenId, line).Ok?
    ensures r.Err? ==> r == TryLine(old(s.items), canteenId, line)
    ensures r.Ok? ==>
      var k := ItemKey(line);
      && k in old(s.items) && k in s.items && r.value == s.items[k]
      && r.value.name == old(s.items)[k].name && r.value.price == old(s.items)[k].price
    ensures s.items == if r.Ok? then Take(old(s.items), ItemKey(line), line.quantity) else old(s.items)
    ensures s.canteens == old(s.canteens) && s.orders == old(s.orders) && s.payments == old(s.payments)
    ensures s.invalidated == old(s.invalidated)
  {
    if line.menuItemId == [] || line.quantity < 1 {
      return Err(InvalidFormat);
    }
    if !IsObjectIdHex(line.menuItemId) {
      return Err(CastFailed(line.menuItemId));
    }
    var k := ObjectIdOf(line.menuItemId);
    var menuItem := s.Reserve(k, ObjectIdOf(canteenId), line.quantity);
    if menuItem.Some? {
      return Ok(menuItem.value);
    }
    if k !in s.items {
      r := Err(NotFound(line.menuItemId));
    } else if s.items[k].canteenId != canteenId {
      r := Err(WrongCanteen(s.items[k].name));
    } else if s.items[k].availableQuantity < line.quantity {
      r := Err(Insufficient(s.items[k].name, s.items[k].availableQuantity));
    } else {
      r := Err(CouldNotAdd(line.menuItemId));
    }
  }

  /**
   * The reservation loop of createOrder: every line in turn, stopping at the first one
   * refused. It computes what the specification function describes, and the running
   * total is the total of the order lines built so far.
   */
  method ReserveLines(s: Store, canteenId: string, lines: seq<CartLine>)
    returns (reserved: seq<Reservation>, orderItems: seq<OrderItem>, totalAmount: int, failure: Option<LineError>)
    modifies s
    ensures failure.None? ==> ReserveAll(old(s.items), canteenId, lines) == Reserved(s.items, reserved, orderItems)
    ensures failure.Some? ==> ReserveAll(old(s.items), canteenId, lines) == Refused(s.items, reserved, failure.value)
    ensures totalAmount == LinesTotal(orderItems)
    ensures s.canteens == old(s.canteens) && s.orders == old(s.orders) && s.payments == old(s.payments)
    ensures s.invalidated == old(s.invalidated)
  {
    reserved, orderItems, totalAmount, failure := [], [], 0, None;
    var i := 0;
    while i < |lines| && failure.None?
      invariant 0 <= i <= |lines|
      invariant failure.None? ==>
        ReserveAll(old(s.items), canteenId, lines) == PrependAll(reserved, orderItems, ReserveAll(s.items, canteenId, lines[i..]))
      invariant failure.Some? ==> ReserveAll(old(s.items), canteenId, lines) == Refused(s.items, reserved, failure.value)
      invariant totalAmount == LinesTotal(orderItems)
      invariant s.canteens == old(s.canteens) && s.orders == old(s.orders) && s.payments == old(s.payments)
      invariant s.invalidated == old(s.invalidated)
      decreases |lines| - i, if failure.None? then 1 else 0
    {
      var line := lines[i];
      assert lines[i..][0] == line && lines[i..][1..] == lines[i + 1..];
      var r := ReserveLine(s, canteenId, line);
      if r.Err? {
        failure := Some(r.error);
      } else {
        var rv := Reservation(ItemKey(line), line.quantity);
        var l := OrderItem(ItemKey(line), r.value.name, r.value.price, line.quantity);
        PrependAllStep(reserved, orderItems, rv, l, ReserveAll(s.items, canteenId, lines[i + 1..]));
        assert (orderItems + [l])[..|orderItems|] == orderItems;
        reserved := reserved + [rv];
        orderItems := orderItems + [l];
        totalAmount := totalAmount + r.value.price * line.quantity;
        i := i + 1;
      }
    }
    if failure.None? {
      assert lines[i..] == [];
    }
  }

  /**
   * createOrder. `minute` is the current minute of the day in India Standard Time,
   * `nowMs` the creation time, `key` the fresh document id and `stamp` the random
   * part of the generated order id. Every failure after the first reservation gives
   * the reserved lines back, so a failed call leaves stock as it found it.
   */
  method CreateOrder(s: Store, user: User, canteenId: string, cart: Option<seq<CartLine>>, minute: int, nowMs: int, key: string, stamp: string)
    returns (code: int, message: string)
    requires s.Valid()
    requires key !in s.orders && forall r | r in s.payments :: s.payments[r].orderKey != key
    modifies s
    ensures s.Valid()
    ensures s.canteens == old(s.canteens) && s.payments == old(s.payments) && s.invalidated == old(s.invalidated)
    ensures code != 201 ==> s.items == old(s.items) && s.orders == old(s.orders)
    ensures Screen(old(s.canteens), canteenId, cart, minute).Some? ==>
      Reply(code, message) == Screen(old(s.canteens), canteenId, cart, minute).value
    ensures Screen(old(s.canteens), canteenId, cart, minute).None? ==>
      var r := ReserveAll(old(s.items), canteenId, cart.value);
      && (r.Refused? ==> message == LineMessage(r.error) && code == StatusCode(message))
      && (r.Reserved? ==>
            var o := NewOrder(user, ObjectIdOf(canteenId), r.lines, nowMs, stamp);
            if !OrderModel.SchemaValid(o) then code == 500 && message == ValidationFailedText
            else if OrderIdTaken(old(s.orders), o.orderId) then code == 500 && message == DuplicateKeyText
            else code == 201 && s.items == r.stock && s.orders == old(s.orders)[key := o])
  {
    var screen := Screen(s.canteens, canteenId, cart, minute);
    if screen.Some? {
      return screen.value.code, screen.value.message;
    }
    ghost var items0 := s.items;
    var reserved, orderItems, totalAmount, failure := ReserveLines(s, canteenId, cart.value);
    var failMessage := "";
    if failure.Some? {
      failMessage := LineMessage(failure.value);
    } else {
      var order := AssignOrderId(Order("", user.id, ObjectIdOf(canteenId), orderItems, totalAmount, Pending, PaymentPending, "", "", nowMs), OrderIdFor(stamp));
      if !OrderModel.SchemaValid(order) {
        failMessage := ValidationFailedText;
      } else if exists k | k in s.orders :: s.orders[k].orderId == order.orderId {
        failMessage := DuplicateKeyText;
      } else {
        ReserveKeepsStockValid(items0, canteenId, cart.value);
        s.orders := s.orders[key := order];
        return 201, "";
      }
      InsertFailuresAreServerErrors();
    }
    ReleaseLines(s, reserved);
    RollbackRestores(items0, canteenId, cart.value);
    code, message := StatusCode(failMessage), failMessage;
  }

  // ---------------------------------------------------------------------------
  // Status changes

  /** The statuses staff may set. */
  function TargetStatus(name: string): (r: Option<OrderStatus>)
    ensures r.Some? <==> name == "preparing" || name == "ready" || name == "completed" || name == "cancelled"
    ensures r.Some? ==> StatusNamed(name) == r && r.value != Pending && r.value != Paid
  {
    if name == "preparing" then Some(Preparing)
    else if name == "ready" then Some(Ready)
    else if name == "completed" then Some(Completed)
    else if name == "cancelled" then Some(Cancelled)
    else None
  }

  /**
   * updateOrderStatus: a valid target, an order, a staff caller, and payment received
   * unless the target is `cancelled`; then only `status` changes, whatever it was.
   * The returned key is the order the id designated.
   */
  method UpdateOrderStatus(s: Store, user: User, id: string, statusName: string) returns (code: int, key: Option<string>)
    requires s.Valid()
    modifies s
    ensures s.Valid()
    ensures s.canteens == old(s.canteens) && s.items == old(s.items) && s.payments == old(s.payments) && s.invalidated == old(s.invalidated)
    ensures code != 200 ==> s.orders == old(s.orders)
    ensures TargetStatus(statusName).None? ==> code == 400 && key.None?
    ensures TargetStatus(statusName).Some? && key.None? ==> code == 404 && NoneNamed(old(s.orders), id)
    ensures key.Some? ==> TargetStatus(statusName).Some? && Names(old(s.orders), id, key.value)
    ensures key.Some? ==>
      var o := old(s.orders)[key.value];
      var t := TargetStatus(statusName).value;
      && (!MayManage(user, CanteenOf(s.canteens, o.canteenId)) ==> code == 403)
      && (MayManage(user, CanteenOf(s.canteens, o.canteenId)) && o.paymentStatus != PaymentSuccess && t != Cancelled ==> code == 400)
      && (MayManage(user, CanteenOf(s.canteens, o.canteenId)) && (o.paymentStatus == PaymentSuccess || t == Cancelled) ==>
            code == 200 && s.orders == old(s.orders)[key.value := o.(status := t)])
  {
    var target := TargetStatus(statusName);
    if target.None? {
      return 400, None;
    }
    key := LookupOrder(s.orders, id);
    if key.None? {
      return 404, None;
    }
    var o := s.orders[key.value];
    if !MayManage(user, CanteenOf(s.canteens, o.canteenId)) {
      return 403, key;
    }
    if o.paymentStatus != PaymentSuccess && target.value != Cancelled {
      return 400, key;
    }
    s.orders := s.orders[key.value := o.(status := target.value)];
    code := 200;
  }

  /**
   * cancelOrder: the owner may cancel an order that is pending or paid; the order
   * becomes `cancelled` and each of its lines is added back to stock once.
   */
  method CancelOrder(s: Store, user: User, id: string) returns (code: int, key: Option<string>)
    requires s.Valid()
    modifies s
    ensures s.Valid()
    ensures s.canteens == old(s.canteens) && s.payments == old(s.payments) && s.invalidated == old(s.invalidated)
    ensures code != 200 ==> s.orders == old(s.orders) && s.items == old(s.items)
    ensures key.None? ==> code == 404 && NoneNamed(old(s.orders), id)
    ensures key.Some? ==> Names(old(s.orders), id, key.value)
    ensures key.Some? ==>
      var o := old(s.orders)[key.value];
      && (o.userId != user.id ==> code == 403)
      && (o.userId == user.id && o.status != Pending && o.status != Paid ==> code == 400)
      && (o.userId == user.id && (o.status == Pending || o.status == Paid) ==>
            && code == 200
            && s.orders == old(s.orders)[key.value := o.(status := Cancelled)]
            && s.items == ReleaseAll(old(s.items), AsReservations(o.items)))
  {
    key := LookupOrder(s.orders, id);
    if key.None? {
      return 404, None;
    }
    var o := s.orders[key.value];
    if o.userId != user.id {
      return 403, key;
    }
    if o.status != Pending && o.status != Paid {
      return 400, key;
    }
    s.orders := s.orders[key.value := o.(status := Cancelled)];
    var rs := AsReservations(o.items);
    ghost var items0 := s.items;
    ReleaseLines(s, rs);
    assert forall i :: 0 <= i < |rs| ==> rs[i].quantity >= 0 by {
      assert WellFormed(o);
      forall i | 0 <= i < |rs| ensures rs[i].quantity >= 0 {
        assert LineValid(o.items[i]);
      }
    }
    ReleaseKeepsStockValid(items0, rs);
    code := 200;
  }

  /**
   * completeOrderPickup: `verified` is the order id read from a valid QR token (None
   * for an invalid or expired one). A staff caller completes a paid order that is
   * neither completed nor cancelled; only `status` changes.
   */
  method CompleteOrderPickup(s: Store, user: User, qrData: string, verified: Option<string>) returns (code: int, key: Option<string>)
    requires s.Valid()
    modifies s
    ensures s.Valid()
    ensures s.canteens == old(s.canteens) && s.items == old(s.items) && s.payments == old(s.payments) && s.invalidated == old(s.invalidated)
    ensures code != 200 ==> s.orders == old(s.orders)
    ensures qrData == [] || verified.None? ==> code == 400 && key.None?
    ensures qrData != [] && verified.Some? && key.None? ==> code == 404 && forall k | k in old(s.orders) :: old(s.orders)[k].orderId != verified.value
    ensures key.Some? ==> qrData != [] && verified.Some? && key.value in old(s.orders) && old(s.orders)[key.value].orderId == verified.value
    ensures key.Some? ==>
      var o := old(s.orders)[key.value];
      && (!MayManage(user, CanteenOf(s.canteens, o.canteenId)) ==> code == 403)
      && (MayManage(user, CanteenOf(s.canteens, o.canteenId)) && (o.status == Completed || o.status == Cancelled || o.paymentStatus != PaymentSuccess) ==> code == 400)
      && (MayManage(user, CanteenOf(s.canteens, o.canteenId)) && o.status != Completed && o.status != Cancelled && o.paymentStatus == PaymentSuccess ==>
            code == 200 && s.orders == old(s.orders)[key.value := o.(status := Completed)])
  {
    if qrData == [] || verified.None? {
      return 400, None;
    }
    key := FindByOrderId(s.orders, verified.value);
    if key.None? {
      return 404, None;
    }
    var o := s.orders[key.value];
    if !MayManage(user, CanteenOf(s.canteens, o.canteenId)) {
      return 403, key;
    }
    if o.status == Completed {
      return 400, key;
    }
    if o.status == Cancelled {
      return 400, key;
    }
    if o.paymentStatus != PaymentSuccess {
      return 400, key;
    }
    s.orders := s.orders[key.value := o.(status := Completed)];
    code := 200;
  }
}
