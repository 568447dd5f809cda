# Canteen ordering back end: order lifecycle and inventory, in Dafny

This project models the core of a campus-canteen ordering service: how an order is
created against a menu whose stock is reserved line by line, how it is paid through
a payment gateway and fulfilled, cancelled by its owner or by a sweep of stale
orders, picked up, and counted by the analytics. The document stores (canteens, menu
items, orders, payment records) live in one `Store` class (`store.dfy`). Its
methods are the atomic conditional updates the code relies on:
- `Reserve`: a conditional decrement of stock;
- `Release`: an increment;
- `ClaimPayment`: initiated → success;
- `CancelIfPending`: pending → cancelled.

Each controller and service is a method over the store, proved against a pure
function that says what it computes. Races are modelled as sequences of whole calls.

Several things are parameters: the clock, the gateway's replies, signature verdicts,
QR tokens, generated ids, and the point where a store call throws.

An empty string stands for a JavaScript value that is falsy or absent (a missing
payment id, QR code, method or opening time). Money is an integer.

The invariant the store keeps is `Store.Valid`:
- every menu item satisfies its schema;
- every order is well formed (non-empty lines, quantity ≥ 1, total ≥ 0);
- order ids are unique;
- a paid order is never left pending;
- every payment record satisfies its schema and asks for its order's total.

Modules follow the source files:
- `MenuItemModel`, `OrderModel`, `PaymentModel` and `CanteenModel` hold the schemas;
- `Time` is the opening-hours helper;
- `Inventory` is the reservation and release arithmetic;
- `OrderController`, `Fulfillment`, `Cleanup`, `PaymentController`, `MenuController`
  and `Analytics` are the handlers and services;
- `Text` holds the string functions the code uses (trim, split, includes, `Number`).

Behaviour is modelled as the code has it, including these points:
- Fulfilment revives an order the sweep already cancelled, without reserving stock
  again.
- Fulfilment marks an order paid even when its payment record is `failed`.
- A `payment.failed` event can turn a succeeded record back to failed.
- The sweep never reads payment records. It cancels every pending order older than
  five minutes, even one whose payment has succeeded but whose fulfilment has not run
  yet (`Cleanup.SweepOrders`). Fulfilment then revives the cancelled order, the case
  the comment at `src/services/orderFulfillment.service.ts:62` anticipates
  (`Fulfillment.RevivesCancelledOrder`).
- Creation rejects only `isOpen === false`, so a canteen with no stored flag takes
  orders. `isCanteenOpen` (`src/utils/time.ts:2`) calls such a canteen closed. This is
  `OrderController.UnsetFlagDiverges`.
- Creation also lets hours that do not parse as numbers through, because comparisons
  with NaN are false. `isCanteenOpen` calls that canteen closed too. This is
  `OrderController.UnreadableHoursDiverge`.
- Document ids arrive as strings and are cast before every query by id (`DocumentIds`).
  24 hex digits in either case designate the document whose id is those digits in
  lower case. Any other string makes the query throw.
- In creation the catch block answers such a cast failure 500, unless the quoted id
  contains "found" or "Insufficient" (`OrderController.CastFailureCode`). The menu
  handlers, the menu listing and the analytics handlers answer it 500.
- Creation's stock decrement casts the canteen id, but the re-read after a refusal
  compares the stored canteen id with the id as the client wrote it. A canteen id
  with upper-case digits therefore reports a short item as another canteen's item
  (`Inventory.CaseVariantCanteenId`).
- In the model the refused decrement and the re-read are one step, so the last-resort
  "Could not add item" error arises only for a stock whose stored canteen id is not in
  the lower-case form a cast leaves, which the stored documents never hold.
- Whitespace, for `trim` and for `Number`, is ECMAScript's set: the WhiteSpace and
  LineTerminator characters (`Text.IsWhitespace`).

## Model

| member | source | states |
|---|---|---|
| Text.TrimSpec | src/models/MenuItem.ts:12-16 | the stored name is a contiguous piece of the given one with no ECMAScript whitespace or line terminator at either end |
| Text.TrimEmpty | src/models/MenuItem.ts:12-16 | a name trims to nothing exactly when it is all ECMAScript whitespace and line terminators, so only such names fail `required` after trimming |
| Text.TrimIdempotent | src/models/MenuItem.ts:15 | trimming a stored name again changes nothing |
| Text.SplitAtFirstSeparator | src/utils/time.ts:23 | splitting at the separator yields the part before it followed by the split of the rest |
| Text.ContainsAcross | src/controllers/order.controller.ts:138 | a word without the character c occurs in a + c + b iff it occurs in a or in b |
| Text.ContainsQuoted | src/controllers/order.controller.ts:138 | a non-empty word without a double quote occurs in a quoted value iff it occurs in the value |
| Text.ToNumberOfNatToString | src/utils/time.ts:23 | `Number` of a decimal rendering of n is n |
| MenuItemModel.Saved | src/models/MenuItem.ts:11-30 | a save succeeds iff the name trims to something non-empty, price and stock are given, stock ≥ 0 and the canteen is set; the item saved has the trimmed name and satisfies the schema |
| MenuItemModel.WhitespaceNameRefused | src/models/MenuItem.ts:12-16 | a name made only of whitespace, of any ECMAScript kind, is refused |
| DocumentIds.CastCanonical | src/controllers/order.controller.ts:24 | a cast id is 24 lower-case hex digits that cast to themselves, so every spelling of an id designates one document |
| OrderModel.StatusNamed | src/models/Order.ts:74-78 | exactly the six status names are accepted, each to its own status |
| OrderModel.LinesTotalAppend | src/controllers/order.controller.ts:108 | the running total of a concatenation of lines is the sum of the two totals |
| OrderModel.LinesTotalNonNegative | src/models/Order.ts:38-73 | lines with non-negative prices and quantity ≥ 1 have a non-negative total |
| OrderModel.AssignOrderId | src/models/Order.ts:97-103 | the save hook keeps an order id that is set and fills in the generated one otherwise |
| OrderModel.OrderIdAssignedOnce | src/models/Order.ts:97-103 | over any number of saves the order id is the first one assigned, never overwritten |
| PaymentModel.Initiate | src/controllers/payment.controller.ts:66-71 | a new record is initiated, references its order, asks for the order's total, and satisfies the schema when the order key is set and the total is ≥ 0 |
| Time.IsCanteenOpen | src/utils/time.ts:1-30 | closed whenever the open flag is falsy; open when a bound is missing; otherwise open iff open ≤ now ≤ close |
| Time.ClockOfDigits | src/utils/time.ts:23-27 | "H:M" in digits is read as H × 60 + M minutes |
| Time.ClockOfHourOnly | src/utils/time.ts:23-27 | a time with no minute part is read with minute 0 |
| Time.ClockRoundTrip | src/utils/time.ts:23-27 | writing h and m as "h:m" and reading it back gives h × 60 + m |
| Time.OvernightWindowNeverOpen | src/utils/time.ts:29 | when closing is before opening the canteen is closed at every minute |
| Time.WindowIncludesBothEnds | src/utils/time.ts:29 | an open canteen is open at its opening and at its closing minute |
| Inventory.TryLine | src/controllers/order.controller.ts:60-95 | a line reserves iff it is well formed, its id casts, and the item exists, is in the cast canteen and has enough stock; otherwise bad format, then cast failure, then missing item; an unreserved existing item is another canteen's when its canteen differs from the id as written, short of stock (with the stock seen) when it equals it, and otherwise "could not add", which in the model needs a stored canteen id not in lower case |
| Inventory.CaseVariantCanteenId | src/controllers/order.controller.ts:69-92 | a canteen id with upper-case digits reserves the canteen's items, but a line it cannot reserve is reported as another canteen's item |
| Inventory.AsReservations | src/controllers/order.controller.ts:309-313 | an order's lines give back one reservation per line, with that line's item and quantity |
| Inventory.RestockCommutes | src/controllers/order.controller.ts:131-135 | two increments give the same stock in either order |
| Inventory.ReleaseAllEffect | src/controllers/order.controller.ts:131-135 | releasing keeps the set of items and raises each item by the sum of its reservations, nothing else changing |
| Inventory.ReleaseKeepsStockValid | src/controllers/order.controller.ts:128-136 | giving back non-negative quantities keeps every item schema-valid |
| Inventory.RollbackRestores | src/controllers/order.controller.ts:128-136 | releasing what the reservation loop recorded (on success or after a refusal) restores stock exactly as it was before the call |
| Inventory.Conservation | src/controllers/order.controller.ts:60-109 | after the loop each item holds its old stock less what was reserved of it; no item is added, removed or otherwise changed |
| Inventory.ReserveKeepsStockValid | src/controllers/order.controller.ts:69-77 | the conditional decrement never takes stock below 0 |
| Inventory.ReservedLines | src/controllers/order.controller.ts:98-106 | on success one reservation and one order line per cart line, priced and named as the item was; on refusal the reservations of the lines before the refused one, and that line's error |
| Inventory.LastUnitGoesOnce | src/controllers/order.controller.ts:67-93 | of two carts for the last unit, the item id written in either case, the first gets it and the second is refused with stock 0 |
| StoreModel.Store.Reserve | src/controllers/order.controller.ts:69-77 | decrements stock and returns the updated item iff the item exists, is in the canteen and has enough stock; otherwise nothing changes |
| StoreModel.Store.Release | src/controllers/order.controller.ts:132-134 | increments an item's stock; a missing item is left missing |
| StoreModel.Store.ClaimPayment | src/services/orderFulfillment.service.ts:16-27 | an initiated record becomes success with the payment id and method, in one step; any other record is left alone |
| StoreModel.Store.CancelIfPending | src/services/orderCleanup.service.ts:35-42 | a pending order becomes cancelled with payment failed, in one step; any other order is left alone |
| StoreModel.Store.Invalidate | src/services/orderFulfillment.service.ts:96-101 | records one dropped menu-cache entry |
| StoreModel.ReplaceOrderKeepsValid | src/models/Order.ts:45-94 | replacing an order by a well-formed one with the same order id and total keeps the order and payment invariants |
| StoreModel.ReleaseLines | src/controllers/order.controller.ts:128-136 | the rollback loop leaves stock equal to the release of every recorded reservation |
| StoreModel.FindByOrderId | src/controllers/order.controller.ts:234 | finds an order with the given order id, or none exists |
| StoreModel.LookupOrder | src/controllers/order.controller.ts:231-235 | a 24-hex id in either case is looked up as the lower-case document key, anything else as an order id |
| StoreModel.CanteenOf | src/controllers/order.controller.ts:24 | the canteen is found iff it exists |
| OrderController.StatusCode | src/controllers/order.controller.ts:138 | a failure is answered 400 or 500 |
| OrderController.InvalidFormatIsServerError | src/controllers/order.controller.ts:64 | the bad-format message contains neither "found" nor "Insufficient", so it is answered 500 |
| OrderController.NotFoundIsClientError | src/controllers/order.controller.ts:87 | a missing item is answered 400 |
| OrderController.InsufficientIsClientError | src/controllers/order.controller.ts:93 | too little stock is answered 400 |
| OrderController.WrongCanteenCode | src/controllers/order.controller.ts:89-90 | another canteen's item is answered 400 iff its name contains "found" or "Insufficient", else 500 |
| OrderController.CastMessageContains | src/controllers/order.controller.ts:138 | a keyword with no space or quote occurs in a cast-failure message iff it occurs in the quoted id |
| OrderController.CastFailureCode | src/controllers/order.controller.ts:138 | a query by an id that does not cast is answered 400 iff the id contains "found" or "Insufficient", else 500 |
| OrderController.CouldNotAddIsServerError | src/controllers/order.controller.ts:95 | the last-resort refusal names a cast id, which spells neither keyword, so it is answered 500 |
| OrderController.InsertFailuresAreServerErrors | src/controllers/order.controller.ts:112-119 | a rejected insert (schema or duplicate order id) is answered 500 |
| OrderController.Screen | src/controllers/order.controller.ts:16-54 | the checks before reservation, in order: cart shape (400), a canteen id that does not cast (the cast failure's message and code), canteen missing (404), manually closed (400), outside set hours (400); passing iff none applies |
| OrderController.HoursCheckAgrees | src/controllers/order.controller.ts:29-53 | with a boolean flag and readable hours, creation's check admits exactly when `isCanteenOpen` says open |
| OrderController.UnsetFlagDiverges | src/controllers/order.controller.ts:30 | with no open flag creation proceeds while `isCanteenOpen` says closed |
| OrderController.UnreadableHoursDiverge | src/controllers/order.controller.ts:42-48 | hours that read as NaN never reject creation, while `isCanteenOpen` says closed |
| OrderController.WindowBoundsOfCreation | src/controllers/order.controller.ts:48 | creation admits the opening and the closing minute and rejects the minute before and the minute after |
| OrderController.OrderIdFor | src/models/Order.ts:99-101 | a generated order id starts with "ORD-" |
| OrderController.LinesTotalIsCartTotal | src/controllers/order.controller.ts:101-108 | the order total is Σ price × quantity over the cart, at the prices the reservations returned |
| OrderController.CreatedOrder | src/controllers/order.controller.ts:111-119 | a created order is pending and unpaid, has one line per cart line, total Σ price × quantity, and is well formed when no price is negative |
| OrderController.CreateThenCancelRestores | src/controllers/order.controller.ts:305-313 | cancelling a freshly created order gives back exactly the stock its creation took |
| OrderController.ReserveLine | src/controllers/order.controller.ts:60-96 | one pass: the stock changes iff the line reserves; a refusal carries the classified error |
| OrderController.ReserveLines | src/controllers/order.controller.ts:57-109 | the loop computes the reservation outcome of the whole cart and the running total of its lines |
| OrderController.CreateOrder | src/controllers/order.controller.ts:10-141 | a screened-out request answers the screen's reply; a refused line or a rejected insert gives all reserved stock back and answers the message's code; otherwise 201 with the reservations taken and the new order stored under the cast canteen id; store invariant kept |
| OrderController.TargetStatus | src/controllers/order.controller.ts:219-226 | only preparing, ready, completed and cancelled are accepted |
| OrderController.UpdateOrderStatus | src/controllers/order.controller.ts:216-272 | 400 for other names, 404, 403 unless admin or owner, 400 for an unpaid order unless cancelling; otherwise only the status changes, whatever it was |
| OrderController.CancelOrder | src/controllers/order.controller.ts:277-313 | 404, 403 unless the order's owner, 400 unless pending or paid; otherwise cancelled and each line's quantity added back once |
| OrderController.CompleteOrderPickup | src/controllers/order.controller.ts:423-497 | 400 without valid QR data, 404, 403, 400 for completed, cancelled or unpaid orders; otherwise only the status becomes completed |
| Fulfillment.BestPaymentId | src/services/orderFulfillment.service.ts:73-78 | a real incoming id wins; else a real current id is kept; else the record's id, else "N/A" |
| Fulfillment.BestPaymentIdNeverDowngrades | src/services/orderFulfillment.service.ts:73-78 | a real payment id is never replaced by a placeholder |
| Fulfillment.Fulfil | src/services/orderFulfillment.service.ts:11-104 | fails with nothing changed iff no record has the ref; the records become the payment step's; the order is missing iff the record's order key names none; an already fulfilled order is returned as it was, with orders unchanged; otherwise the record's order is replaced by its fulfilled form (paid, payment success, best payment id, QR kept or set) and its canteen's cache is dropped, the cache being dropped only then |
| Fulfillment.PaymentsAfterKeepsReference | src/services/orderFulfillment.service.ts:14-47 | the payment step keeps every record's key, order reference and amount, and touches only the given record |
| Fulfillment.FulfilTwiceIsFulfilOnce | src/services/orderFulfillment.service.ts:61-66 | a second identical call changes nothing and saves nothing |
| Fulfillment.FirstClaimWins | src/services/orderFulfillment.service.ts:16-47 | of two deliveries the first claims the record; the second only upgrades a placeholder id |
| Fulfillment.RevivesCancelledOrder | src/services/orderFulfillment.service.ts:61-71 | a cancelled order is saved as paid with payment success |
| Fulfillment.FailedRecordStillFulfils | src/services/orderFulfillment.service.ts:29-71 | a failed record is left failed while its order is marked paid |
| Fulfillment.QrTokenKept | src/services/orderFulfillment.service.ts:80-90 | an existing QR token is kept; a failed generation leaves the order paid without one |
| Fulfillment.FulfilledOrderKeepsContents | src/services/orderFulfillment.service.ts:68-78 | fulfilment keeps the lines, total, order id, owner, canteen and creation time, and a well-formed order stays well formed |
| Fulfillment.SettlePayment | src/services/orderFulfillment.service.ts:14-50 | the records become the payment step's; returns the record as it now stands |
| Fulfillment.SettleOrder | src/services/orderFulfillment.service.ts:52-92 | an already fulfilled order is returned untouched; otherwise it is saved as fulfilled |
| Fulfillment.FulfillOrder | src/services/orderFulfillment.service.ts:11-104 | the store ends as `Fulfil` says, the cache log grows iff the order was saved, stock is untouched |
| Cleanup.AddOnce | src/services/orderCleanup.service.ts:50 | adding to the set of canteens keeps each once |
| Cleanup.Restored | src/services/orderCleanup.service.ts:52-63 | the restores that complete are a prefix of the order's lines, all of them when no call throws |
| Cleanup.SweepOrders | src/services/orderCleanup.service.ts:31-64 | exactly the candidates still pending whose claim does not throw become cancelled with payment failed; every other order is unchanged; one failure does not stop the rest |
| Cleanup.SweepWithoutClaims | src/services/orderCleanup.service.ts:22-24 | with nothing to claim the sweep has no effect |
| Cleanup.SweepTwiceRestoresOnce | src/services/orderCleanup.service.ts:33-48 | a second sweep over the same candidates claims nothing, restores nothing, invalidates nothing |
| Cleanup.SweepLeavesNothingExpired | src/services/orderCleanup.service.ts:14-48 | with no failures, no expired pending order is left |
| Cleanup.SweepRestores | src/services/orderCleanup.service.ts:46-58 | stock afterwards is stock before plus the lines of the claimed orders; unclaimed orders restore nothing |
| Cleanup.SweepAffected | src/services/orderCleanup.service.ts:29-74 | the canteens invalidated are exactly those of claimed orders, each once |
| Cleanup.ExpiredOrders | src/services/orderCleanup.service.ts:14-20 | the candidates are exactly the pending orders created strictly before now − 5 minutes, each once |
| Cleanup.SweepOne | src/services/orderCleanup.service.ts:32-63 | one pass of the loop does what the sweep's step says |
| Cleanup.CleanupPendingOrders | src/services/orderCleanup.service.ts:9-78 | the store ends as the sweep over the candidates says, and each affected canteen's cache is dropped once |
| PaymentController.OpenPayment | src/controllers/payment.controller.ts:49-96 | as `PaymentOpened` says: a live record is reused unchanged; otherwise a new initiated record for the total is created, or the failed record moves to the new ref as initiated; a gateway or store failure is 500 and changes nothing; the amount reported is total × 100 |
| PaymentController.RecordOf | src/controllers/payment.controller.ts:50 | finds a record referencing the order, or none exists |
| PaymentController.InitiatePayment | src/controllers/payment.controller.ts:12-101 | 400 without an id, 404, 403 unless the owner, 400 if paid or cancelled; on the payable path the record found references the order (or no record does) and the code, checkout and payment records are as `PaymentOpened` says; a checkout is only ever opened for an unpaid, uncancelled order of the caller, for total × 100 |
| PaymentController.VerifyPayment | src/controllers/payment.controller.ts:106-173 | 400 without all three ids or with a bad signature, 404 for a missing record or order, 403 unless the owner; only when all hold does fulfilment run, and the store ends as `Fulfil` says |
| PaymentController.Normalize | src/controllers/payment.controller.ts:196-234 | `payment.captured` yields (order ref, payment id, method); `order.paid` yields (order id, payment id or "N/A", method or "unknown"); `payment.failed` a failure for the referenced record; other events nothing |
| PaymentController.AfterFailure | src/controllers/payment.controller.ts:233-249 | the record becomes failed and its order's payment status failed, whatever they were |
| PaymentController.FailureAfterFulfilment | src/controllers/payment.controller.ts:233-249 | a failure after fulfilment turns a succeeded record back to failed and leaves a paid order with payment failed |
| PaymentController.HandleWebhook | src/controllers/payment.controller.ts:178-258 | a bad signature is 400 before anything is read; otherwise the store ends as the normalised action says and other events are acknowledged with 200 |
| PaymentController.MarkPaymentFailed | src/controllers/payment.controller.ts:237-248 | the store ends as `AfterFailure` says |
| MenuController.Edited | src/controllers/menu.controller.ts:60-66 | the name is replaced only by a non-empty one, price and stock whenever given; the rest is kept and the result satisfies the schema |
| MenuController.EmptyEditKeepsItem | src/controllers/menu.controller.ts:60-66 | an edit that gives nothing saves the item as it was |
| MenuController.EditFailure | src/controllers/menu.controller.ts:60-66 | an edit fails iff the name left trims to nothing or the stock given is negative |
| MenuController.WithQuantity | src/controllers/menu.controller.ts:92-95 | the overwrite sets one item's stock and changes nothing else |
| MenuController.OverwriteForgetsReservation | src/controllers/menu.controller.ts:92-95 | an overwrite erases a reservation taken just before, and releasing that reservation later raises stock above the value set |
| MenuController.CanteenMenu | src/controllers/menu.controller.ts:136-148 | none (answered 500) iff the id does not cast; otherwise exactly the items whose canteen is the cast id, unchanged |
| MenuController.MenusPartitionStock | src/controllers/menu.controller.ts:139 | two spellings of one canteen id list the same menu, and menus of different canteens share no item |
| MenuController.MenusCoverStock | src/controllers/menu.controller.ts:139 | with stored canteen ids in cast form, every item is on the menu of the canteen it names |
| MenuController.AddMenuItem | src/controllers/menu.controller.ts:8-38 | 500 for a canteen id that does not cast, 404 without the canteen, 403 unless admin or owner, 500 on a schema failure; otherwise the item is stored under the cast canteen id; nothing changes on failure |
| MenuController.UpdateMenuItem | src/controllers/menu.controller.ts:43-76 | 500 for an id that does not cast and 404 for a missing item, with no change; otherwise the item becomes the edit, or 500 and no change |
| MenuController.UpdateItemQuantity | src/controllers/menu.controller.ts:81-105 | 500 for an id that does not cast and 404 for a missing item, with no change; no quantity, no change; a negative one is 500; otherwise the overwrite |
| MenuController.DeleteMenuItem | src/controllers/menu.controller.ts:110-130 | 500 for an id that does not cast and 404 for a missing item, with no change; otherwise exactly that item is removed |
| MenuController.ReleaseAfterDelete | src/controllers/menu.controller.ts:120 | giving stock back to a deleted item changes nothing |
| Analytics.StatusCountsPartition | src/controllers/analytics.controller.ts:63-69 | the six per-status counts add up to the number of orders |
| Analytics.NoPendingAmongPaid | src/controllers/analytics.controller.ts:52-56 | no counted order is pending |
| Analytics.StatusCountsCoverPaidOrders | src/controllers/analytics.controller.ts:52-69 | the five reported counts account for every counted order |
| Analytics.TallyCorrect | src/controllers/analytics.controller.ts:72-87 | one entry per item that occurs; its quantity is Σ quantity and its revenue Σ price × quantity over that item's lines |
| Analytics.ItemSales | src/controllers/analytics.controller.ts:72-87 | the nested loop builds the tally of all lines of the counted orders |
| Analytics.SortByCorrect | src/controllers/analytics.controller.ts:90-91 | the sort orders by key and is a permutation |
| Analytics.SumBySort | src/controllers/analytics.controller.ts:178-189 | sorting does not change a sum |
| Analytics.TopSelling | src/controllers/analytics.controller.ts:89-92 | at most ten entries |
| Analytics.TopSellingOrdered | src/controllers/analytics.controller.ts:89-92 | the list is in non-increasing quantity and holds min(10, entries) entries |
| Analytics.TopSellingBest | src/controllers/analytics.controller.ts:89-92 | the list is drawn from the tally and no entry left out sold more than one kept |
| Analytics.TopSellingSums | src/controllers/analytics.controller.ts:72-92 | each listed entry carries its item's summed quantity and revenue |
| Analytics.GroupByDayCorrect | src/controllers/analytics.controller.ts:162-175 | exactly one entry for each day on which an order was created; each entry's earnings are Σ total and its count the number of orders of that day; the earnings add up to Σ total and the counts to the number of orders |
| Analytics.EarningsByDay | src/controllers/analytics.controller.ts:162-175 | the loop builds the grouping by day |
| Analytics.BreakdownCorrect | src/controllers/analytics.controller.ts:177-190 | the breakdown is in strictly ascending days, has an entry for every order's day and only for such days, each holding that day's Σ total and order count, and its totals are Σ total and the number of orders |
| Analytics.CountedOrders | src/controllers/analytics.controller.ts:52-56 | exactly this canteen's paid orders created at or after the start, each once |
| Analytics.CanteenAnalytics | src/controllers/analytics.controller.ts:8-122 | 500 for a canteen id that does not cast, 404 without the canteen, 403 unless admin or owner; otherwise count, earnings, the five status counts (summing to the count) and the top ten over the counted orders |
| Analytics.EarningsBreakdown | src/controllers/analytics.controller.ts:127-197 | the same checks, the cast first; then the per-day breakdown in ascending days, one entry per day of a counted order holding that day's earnings and count, whose totals are Σ total and the number of counted orders |

## Left out

- Wall-clock time and India Standard Time: the current minute of the day, "now" and the analytics day's local midnight are parameters.
- The date key of the breakdown is the UTC day number of `createdAt`, which orders the same as the "YYYY-MM-DD" string.
- Number forms other than plain decimal digits (signs, fractions, exponents, hex) in opening and closing times are read as NaN; `Number` is modelled only on trimmed digit strings and the empty string.
- Non-integer prices and quantities, and JavaScript's coercion of request fields, are not modelled; a cart line has a string id and an integer quantity.
- The difference between `null` and a missing field is not modelled: both are the empty string or `None`.
- Of the forms that cast to an ObjectId, only 24 hex digits are modelled. Some driver versions also cast a 12-character string (its characters become the id's bytes); the model treats it as a cast failure.
- The cast-failure message quotes the value as given; the escaping Node applies to quotes and control characters inside it is not modelled.
- Concurrency: every conditional store update is one atomic method, and interleavings are sequences of whole calls.
- OrderController.ReserveLine: the refused decrement and the re-read that classifies the refusal are one step, so the race that reaches "Could not add item" in the code (an increment by a cancellation, a sweep, another request's rollback or a quantity overwrite landing between the two queries) is not modelled.
- HMAC signature checks, QR encoding and verification, and the payment-gateway SDK are parameters: a signature verdict, a QR token or verified order id, a gateway reference, and payment details.
- PaymentController.OpenPayment: the gateway's reply amount is taken to echo the total in paise (total × 100).
- The redis cache: each invalidation is recorded in `Store.invalidated`; redis failures are caught in the source and have no effect on the documents.
- `averageOrderValue` and `Math.round` in the analytics are floating point.
- Analytics.CanteenAnalytics: the order in which the store returns the counted orders is arbitrary, so ties in quantity and which name an item shows first depend on that order.
- The cron schedule of the sweep, the database connection, e-mail, authentication, JWT middleware, canteen CRUD, routes and admin scripts are I/O or plumbing.
- `getMenuItem`, `getMyOrders`, `getOrderById`, `getCanteenOrders` and `verifyOrderQR` only read.
- The compiled `dist/` tree is an older revision of the code.
- A webhook that arrives before its payment record exists only fails; no recovery path exists in the code.
- Field names: the payment schema names the gateway reference `cashfreeOrderId` while the services use `razorpayOrderId`, and the canteen schema lacks the hours and open flag the code reads; the model uses one gateway reference and a canteen with those fields.
