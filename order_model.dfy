/** The order aggregate: its two status enums, its lines and the schema's constraints. */
module OrderModel {
  import opened Wrappers

  /** The lifecycle state operators see. */
  datatype OrderStatus = Pending | Paid | Preparing | Ready | Completed | Cancelled

  /** The gateway-facing payment state of an order. */
  datatype PaymentStatus = PaymentPending | PaymentSuccess | PaymentFailed

  /** A cart line frozen at creation: the item's name and price are snapshots. */
  datatype OrderItem = OrderItem(menuItemId: string, name: string, price: int, quantity: int)

  /**
   * An order. `orderId` is the human-readable id ("" until the save hook assigns it);
   * `paymentId` and `qrCode` are "" while absent; `createdAt` is in milliseconds.
   */
  datatype Order = Order(
    orderId: string,
    userId: string,
    canteenId: string,
    items: seq<OrderItem>,
    totalAmount: int,
    status: OrderStatus,
    paymentStatus: PaymentStatus,
    paymentId: string,
    qrCode: string,
    createdAt: int)

  /** The status names accepted by the schema's enum, each to its status. */
  function StatusNamed(name: string): (r: Option<OrderStatus>)
    ensures r == Some(Pending) <==> name == "pending"
    ensures r == Some(Paid) <==> name == "paid"
    ensures r == Some(Preparing) <==> name == "preparing"
    ensures r == Some(Ready) <==> name == "ready"
    ensures r == Some(Completed) <==> name == "completed"
    ensures r == Some(Cancelled) <==> name == "cancelled"
  {
    if name == "pending" then Some(Pending)
    else if name == "paid" then Some(Paid)
    else if name == "preparing" then Some(Preparing)
    else if name == "ready" then Some(Ready)
    else if name == "completed" then Some(Completed)
    else if name == "cancelled" then Some(Cancelled)
    else None
  }

  /** Σ price × quantity over the lines. */
  function LinesTotal(items: seq<OrderItem>): int {
    if items == [] then 0 else LinesTotal(items[..|items| - 1]) + items[|items| - 1].price * items[|items| - 1].quantity
  }

  lemma {:induction false} LinesTotalAppend(a: seq<OrderItem>, b: seq<OrderItem>)
    ensures LinesTotal(a + b) == LinesTotal(a) + LinesTotal(b)
  {
    if b != [] {
      assert (a + b)[..|a + b| - 1] == a + b[..|b| - 1];
      LinesTotalAppend(a, b[..|b| - 1]);
    } else {
      assert a + b == a;
    }
  }

  /** Lines with non-negative prices have a non-negative total. */
  lemma {:induction false} LinesTotalNonNegative(items: seq<OrderItem>)
    requires forall i :: 0 <= i < |items| ==> items[i].price >= 0 && items[i].quantity >= 1
    ensures LinesTotal(items) >= 0
  {
    if items != [] {
      LinesTotalNonNegative(items[..|items| - 1]);
    }
  }

  predicate LineValid(l: OrderItem) {
    l.menuItemId != [] && l.name != [] && l.quantity >= 1
  }

  /** The schema's constraints: at least one line, every quantity at least 1, total not below 0. */
  predicate SchemaValid(o: Order) {
    && o.userId != []
    && o.canteenId != []
    && |o.items| > 0
    && (forall i :: 0 <= i < |o.items| ==> LineValid(o.items[i]))
    && o.totalAmount >= 0
  }

  /** A stored order: valid, its id assigned, its total the sum of its frozen lines. */
  predicate WellFormed(o: Order) {
    SchemaValid(o) && o.orderId != [] && o.totalAmount == LinesTotal(o.items)
  }

  /** The save hook: an id is generated only for an order that has none. */
  function AssignOrderId(o: Order, generated: string): (r: Order)
    ensures o.orderId != [] ==> r == o
    ensures o.orderId == [] ==> r == o.(orderId := generated)
  {
    if o.orderId == [] then o.(orderId := generated) else o
  }

  /** Saving `o` once per generated candidate id, in order. */
  function SaveRepeatedly(o: Order, generated: seq<string>): Order {
    if generated == [] then o else AssignOrderId(SaveRepeatedly(o, generated[..|generated| - 1]), generated[|generated| - 1])
  }

  /** Once an order has an id, no number of later saves changes it; a first save with a non-empty candidate fixes it. */
  lemma {:induction false} OrderIdAssignedOnce(o: Order, generated: seq<string>)
    requires o.orderId != [] || (|generated| > 0 && generated[0] != [])
    ensures SaveRepeatedly(o, generated).orderId == if o.orderId != [] then o.orderId else generated[0]
  {
    if |generated| > 1 {
      OrderIdAssignedOnce(o, generated[..|generated| - 1]);
      assert generated[..|generated| - 1][0] == generated[0];
    } else if |generated| == 1 {
      assert generated[..0] == [];
    }
  }
}
