/**
 * The canteen analytics: the paid orders of a canteen since a start time, their
 * count and earnings, the count per status, the sales of each item with the top ten
 * by quantity, and the earnings per calendar day.
 */
module Analytics {
  import opened Wrappers
  import opened DocumentIds
  import opened CanteenModel
  import opened OrderModel
  import opened StoreModel

  /** The query of both handlers: this canteen, payment received, created at or after `startMs`. */
  predicate Counted(o: Order, canteenId: string, startMs: int) {
    o.canteenId == canteenId && o.paymentStatus == PaymentSuccess && o.createdAt >= startMs
  }

  /** Σ totalAmount. */
  function SumTotals(os: seq<Order>): int {
    if os == [] then 0 else SumTotals(os[..|os| - 1]) + os[|os| - 1].totalAmount
  }

  /** The number of orders in a status. */
  function CountStatus(os: seq<Order>, st: OrderStatus): (n: nat)
    ensures n <= |os|
  {
    if os == [] then 0 else CountStatus(os[..|os| - 1], st) + (if os[|os| - 1].status == st then 1 else 0)
  }

  /** The six per-status counts add up to the number of orders. */
  lemma {:induction false} StatusCountsPartition(os: seq<Order>)
    ensures CountStatus(os, Pending) + CountStatus(os, Paid) + CountStatus(os, Preparing) + CountStatus(os, Ready)
      + CountStatus(os, Completed) + CountStatus(os, Cancelled) == |os|
  {
    if os != [] {
      StatusCountsPartition(os[..|os| - 1]);
    }
  }

  /** No pending order among paid ones. */
  lemma {:induction false} NoPendingAmongPaid(os: seq<Order>)
    requires forall i :: 0 <= i < |os| ==> PaidLeftPending(os[i]) && os[i].paymentStatus == PaymentSuccess
    ensures CountStatus(os, Pending) == 0
  {
    if os != [] {
      NoPendingAmongPaid(os[..|os| - 1]);
    }
  }

  /**
   * The five counts of `ordersByStatus` account for every counted order, since a
   * paid order is never pending.
   */
  lemma StatusCountsCoverPaidOrders(os: seq<Order>)
    requires forall i :: 0 <= i < |os| ==> PaidLeftPending(os[i]) && os[i].paymentStatus == PaymentSuccess
    ensures CountStatus(os, Paid) + CountStatus(os, Preparing) + CountStatus(os, Ready)
      + CountStatus(os, Completed) + CountStatus(os, Cancelled) == |os|
  {
    StatusCountsPartition(os);
    NoPendingAmongPaid(os);
  }

  // ---------------------------------------------------------------------------
  // Per-item sales

  /** One entry of `itemSales`: the item id, the name first seen, quantity and revenue. */
  datatype Sale = Sale(id: string, name: string, quantity: int, revenue: int)

  /** All lines of the orders, order after order. */
  function Flatten(os: seq<Order>): seq<OrderItem> {
    if os == [] then [] else Flatten(os[..|os| - 1]) + os[|os| - 1].items
  }

  /** What one line adds to an item's quantity. */
  function LineQty(l: OrderItem, id: string): int {
    if l.menuItemId == id then l.quantity else 0
  }

  /** What one line adds to an item's revenue. */
  function LineRevenue(l: OrderItem, id: string): int {
    if l.menuItemId == id then l.price * l.quantity else 0
  }

  /** Σ quantity over the lines of an item. */
  function QtyOf(lines: seq<OrderItem>, id: string): int {
    if lines == [] then 0 else QtyOf(lines[..|lines| - 1], id) + LineQty(lines[|lines| - 1], id)
  }

  /** Σ price × quantity over the lines of an item. */
  function RevenueOf(lines: seq<OrderItem>, id: string): int {
    if lines == [] then 0 else RevenueOf(lines[..|lines| - 1], id) + LineRevenue(lines[|lines| - 1], id)
  }

  /** Where the first entry with key `k` sits, |t| when there is none (the lookup `acc[key]` of a grouping). */
  function IndexBy<T, K(==)>(t: seq<T>, key: T -> K, k: K): (i: nat)
    ensures i <= |t|
    ensures i < |t| ==> key(t[i]) == k
    ensures i == |t| ==> forall j :: 0 <= j < |t| ==> key(t[j]) != k
  {
    if t == [] then 0 else if key(t[0]) == k then 0 else 1 + IndexBy(t[1..], key, k)
  }

  function SaleId(x: Sale): string {
    x.id
  }

  /** Where the entry of an item sits, |t| when it has none. */
  function IndexOf(t: seq<Sale>, id: string): nat {
    IndexBy(t, SaleId, id)
  }

  /** One line of the forEach: create the entry on first sight, then add quantity and revenue. */
  function AddLine(t: seq<Sale>, l: OrderItem): seq<Sale> {
    var i := IndexOf(t, l.menuItemId);
    if i == |t| then t + [Sale(l.menuItemId, l.name, l.quantity, l.price * l.quantity)]
    else t[i := t[i].(quantity := t[i].quantity + l.quantity, revenue := t[i].revenue + l.price * l.quantity)]
  }

  /** `itemSales`, as an insertion-ordered dictionary, after every line. */
  function Tally(lines: seq<OrderItem>): seq<Sale> {
    if lines == [] then [] else AddLine(Tally(lines[..|lines| - 1]), lines[|lines| - 1])
  }

  predicate DistinctIds(t: seq<Sale>) {
    forall i, j :: 0 <= i < j < |t| ==> t[i].id != t[j].id
  }

  /**
   * The tally has one entry per item that occurs, and each entry's quantity and
   * revenue are the sums over that item's lines.
   */
  lemma {:induction false} TallyCorrect(lines: seq<OrderItem>)
    ensures DistinctIds(Tally(lines))
    ensures forall k :: 0 <= k < |Tally(lines)| ==>
      Tally(lines)[k].quantity == QtyOf(lines, Tally(lines)[k].id) && Tally(lines)[k].revenue == RevenueOf(lines, Tally(lines)[k].id)
    ensures forall id :: IndexOf(Tally(lines), id) < |Tally(lines)| <==> exists j :: 0 <= j < |lines| && lines[j].menuItemId == id
  {
    if lines != [] {
      var init := lines[..|lines| - 1];
      var l := lines[|lines| - 1];
      TallyCorrect(init);
      var t := Tally(init);
      var i := IndexOf(t, l.menuItemId);
      forall id ensures IndexOf(Tally(lines), id) < |Tally(lines)| <==> exists j :: 0 <= j < |lines| && lines[j].menuItemId == id {
        if exists j :: 0 <= j < |lines| && lines[j].menuItemId == id {
          var j :| 0 <= j < |lines| && lines[j].menuItemId == id;
          if j < |init| {
            assert init[j].menuItemId == id;
            var k := IndexOf(t, id);
            assert Tally(lines)[k].id == id;
          } else {
            assert Tally(lines)[IndexOf(t, id)].id == id;
          }
        }
        if IndexOf(Tally(lines), id) < |Tally(lines)| {
          var k := IndexOf(Tally(lines), id);
          if k < |t| && t[k].id == id {
            assert IndexOf(t, id) < |t|;
            var j :| 0 <= j < |init| && init[j].menuItemId == id;
            assert lines[j].menuItemId == id;
          } else {
            assert lines[|lines| - 1].menuItemId == id;
          }
        }
      }
      forall k | 0 <= k < |Tally(lines)|
        ensures Tally(lines)[k].quantity == QtyOf(lines, Tally(lines)[k].id)
        ensures Tally(lines)[k].revenue == RevenueOf(lines, Tally(lines)[k].id)
      {
        if k == |t| {
          QtyOfAbsent(init, l.menuItemId);
        } else if k != i {
          assert Tally(lines)[k] == t[k];
        }
      }
    }
  }

  /** An item no line names has sold nothing. */
  lemma {:induction false} QtyOfAbsent(lines: seq<OrderItem>, id: string)
    requires forall j :: 0 <= j < |lines| ==> lines[j].menuItemId != id
    ensures QtyOf(lines, id) == 0 && RevenueOf(lines, id) == 0
  {
    if lines != [] {
      QtyOfAbsent(lines[..|lines| - 1], id);
    }
  }

  /** One more line of the same order extends the tally by that line. */
  lemma TallyStep(done: seq<OrderItem>, items: seq<OrderItem>, j: nat)
    requires j < |items|
    ensures Tally(done + items[..j + 1]) == AddLine(Tally(done + items[..j]), items[j])
  {
    assert (done + items[..j + 1])[..|done + items[..j]|] == done + items[..j];
  }

  /** One more order appends its lines. */
  lemma FlattenStep(os: seq<Order>, i: nat)
    requires i < |os|
    ensures Flatten(os[..i + 1]) == Flatten(os[..i]) + os[i].items
  {
    assert os[..i + 1][..i] == os[..i];
  }

  /**
   * The nested forEach over the counted orders and their lines, building the
   * dictionary in place.
   */
  method ItemSales(os: seq<Order>) returns (sales: seq<Sale>)
    ensures sales == Tally(Flatten(os))
  {
    sales := [];
    var i := 0;
    while i < |os|
      invariant 0 <= i <= |os|
      invariant sales == Tally(Flatten(os[..i]))
    {
      var items := os[i].items;
      var j := 0;
      assert Flatten(os[..i]) + items[..0] == Flatten(os[..i]);
      while j < |items|
        invariant 0 <= j <= |items|
        invariant sales == Tally(Flatten(os[..i]) + items[..j])
      {
        var l := items[j];
        ghost var before := sales;
        var k := IndexOf(sales, l.menuItemId);
        if k == |sales| {
          sales := sales + [Sale(l.menuItemId, l.name, 0, 0)];
        }
        sales := sales[k := sales[k].(quantity := sales[k].quantity + l.quantity, revenue := sales[k].revenue + l.price * l.quantity)];
        assert sales == AddLine(before, l);
        TallyStep(Flatten(os[..i]), items, j);
        j := j + 1;
      }
      assert items[..j] == items;
      FlattenStep(os, i);
      i := i + 1;
    }
    assert os[..i] == os;
  }

  // ---------------------------------------------------------------------------
  // Sorting (Array.prototype.sort, stable)

  /** Places `x` before the first element whose key is not smaller. */
  function Insert<T>(x: T, s: seq<T>, key: T -> int): (r: seq<T>)
    ensures |r| == |s| + 1
  {
    if s == [] || key(x) <= key(s[0]) then [x] + s else [s[0]] + Insert(x, s[1..], key)
  }

  /** The sort, ascending by key; elements with equal keys keep their order. */
  function SortBy<T>(s: seq<T>, key: T -> int): (r: seq<T>)
    ensures |r| == |s|
  {
    if s == [] then [] else Insert(s[0], SortBy(s[1..], key), key)
  }

  predicate SortedBy<T>(s: seq<T>, key: T -> int) {
    forall i, j :: 0 <= i < j < |s| ==> key(s[i]) <= key(s[j])
  }

  /** Inserting adds exactly one element. */
  lemma {:induction false} InsertMultiset<T>(x: T, s: seq<T>, key: T -> int)
    ensures multiset(Insert(x, s, key)) == multiset(s) + multiset{x}
  {
    if s != [] {
      assert s == [s[0]] + s[1..];
      if key(x) > key(s[0]) {
        InsertMultiset(x, s[1..], key);
      }
    }
  }

  /** A bound on every key of the input and on `x` bounds every key of the result. */
  lemma {:induction false} InsertLowerBound<T>(x: T, s: seq<T>, key: T -> int, b: int)
    requires b <= key(x)
    requires forall k :: 0 <= k < |s| ==> b <= key(s[k])
    ensures forall k :: 0 <= k < |Insert(x, s, key)| ==> b <= key(Insert(x, s, key)[k])
  {
    if s != [] && key(x) > key(s[0]) {
      InsertLowerBound(x, s[1..], key, b);
    }
  }

  lemma {:induction false} InsertSorted<T>(x: T, s: seq<T>, key: T -> int)
    requires SortedBy(s, key)
    ensures SortedBy(Insert(x, s, key), key)
  {
    if s != [] && key(x) > key(s[0]) {
      InsertSorted(x, s[1..], key);
      InsertLowerBound(x, s[1..], key, key(s[0]));
    }
  }

  /** The sort orders by key and is a permutation. */
  lemma {:induction false} SortByCorrect<T>(s: seq<T>, key: T -> int)
    ensures SortedBy(SortBy(s, key), key)
    ensures multiset(SortBy(s, key)) == multiset(s)
  {
    if s != [] {
      SortByCorrect(s[1..], key);
      InsertSorted(s[0], SortBy(s[1..], key), key);
      InsertMultiset(s[0], SortBy(s[1..], key), key);
      assert s == [s[0]] + s[1..];
    }
  }

  /** Σ f over a sequence. */
  function SumBy<T>(s: seq<T>, f: T -> int): int {
    if s == [] then 0 else f(s[0]) + SumBy(s[1..], f)
  }

  lemma {:induction false} SumByInsert<T>(x: T, s: seq<T>, key: T -> int, f: T -> int)
    ensures SumBy(Insert(x, s, key), f) == f(x) + SumBy(s, f)
  {
    if s != [] && key(x) > key(s[0]) {
      SumByInsert(x, s[1..], key, f);
      assert Insert(x, s, key)[1..] == Insert(x, s[1..], key);
    } else {
      assert ([x] + s)[1..] == s;
    }
  }

  /** Sorting does not change a sum. */
  lemma {:induction false} SumBySort<T>(s: seq<T>, key: T -> int, f: T -> int)
    ensures SumBy(SortBy(s, key), f) == SumBy(s, f)
  {
    if s != [] {
      SumBySort(s[1..], key, f);
      SumByInsert(s[0], SortBy(s[1..], key), key, f);
    }
  }

  /** `(a, b) => b.quantity - a.quantity`: descending by quantity. */
  function ByQuantityDesc(x: Sale): int {
    -x.quantity
  }

  /** `topSellingItems`: the sales sorted by quantity, largest first, cut to ten. */
  function TopSelling(sales: seq<Sale>): (r: seq<Sale>)
    ensures |r| <= 10
  {
    var sorted := SortBy(sales, ByQuantityDesc);
    if |sorted| <= 10 then sorted else sorted[..10]
  }

  /** The top list is in non-increasing quantity and as long as it can be. */
  lemma TopSellingOrdered(sales: seq<Sale>)
    ensures forall i, j :: 0 <= i < j < |TopSelling(sales)| ==> TopSelling(sales)[i].quantity >= TopSelling(sales)[j].quantity
    ensures |TopSelling(sales)| == if |sales| < 10 then |sales| else 10
  {
    var sorted := SortBy(sales, ByQuantityDesc);
    SortByCorrect(sales, ByQuantityDesc);
    var r := TopSelling(sales);
    forall i, j | 0 <= i < j < |r| ensures r[i].quantity >= r[j].quantity {
      assert ByQuantityDesc(sorted[i]) <= ByQuantityDesc(sorted[j]);
    }
  }

  /** In a sorted sequence nothing after a cut has a smaller key than anything before it. */
  lemma PrefixDominates<T>(sorted: seq<T>, n: nat, key: T -> int)
    requires SortedBy(sorted, key) && n <= |sorted|
    ensures forall x, i :: x in multiset(sorted[n..]) && 0 <= i < n ==> key(sorted[i]) <= key(x)
  {
    forall x, i | x in multiset(sorted[n..]) && 0 <= i < n ensures key(sorted[i]) <= key(x) {
      var m :| 0 <= m < |sorted[n..]| && sorted[n..][m] == x;
      assert sorted[n + m] == x;
    }
  }

  /** What a cut leaves out is what the whole has beyond the kept prefix. */
  lemma CutRemainder<T>(whole: seq<T>, n: nat)
    requires n <= |whole|
    ensures multiset(whole[..n]) <= multiset(whole)
    ensures multiset(whole) - multiset(whole[..n]) == multiset(whole[n..])
  {
    assert whole == whole[..n] + whole[n..];
  }

  /**
   * The top list is the tally with some entries left out, and no entry left out sold
   * more than one kept.
   */
  lemma TopSellingBest(sales: seq<Sale>)
    ensures multiset(TopSelling(sales)) <= multiset(sales)
    ensures forall x, i :: x in multiset(sales) - multiset(TopSelling(sales)) && 0 <= i < |TopSelling(sales)| ==>
      x.quantity <= TopSelling(sales)[i].quantity
  {
    var sorted := SortBy(sales, ByQuantityDesc);
    SortByCorrect(sales, ByQuantityDesc);
    var n := |TopSelling(sales)|;
    assert TopSelling(sales) == sorted[..n];
    CutRemainder(sorted, n);
    PrefixDominates(sorted, n, ByQuantityDesc);
  }

  /** Every entry of the top list carries the sums over its item's lines. */
  lemma TopSellingSums(lines: seq<OrderItem>)
    ensures forall x | x in TopSelling(Tally(lines)) :: x.quantity == QtyOf(lines, x.id) && x.revenue == RevenueOf(lines, x.id)
  {
    TallyCorrect(lines);
    TopSellingBest(Tally(lines));
    forall x | x in TopSelling(Tally(lines)) ensures x.quantity == QtyOf(lines, x.id) && x.revenue == RevenueOf(lines, x.id) {
      assert x in multiset(Tally(lines));
      var k :| 0 <= k < |Tally(lines)| && Tally(lines)[k] == x;
    }
  }

  // ---------------------------------------------------------------------------
  // Earnings by day

  /** One day's entry of the breakdown: the UTC day number, earnings and order count. */
  datatype DayTotal = DayTotal(day: int, earnings: int, orders: int)

  const MsPerDay := 24 * 60 * 60 * 1000

  /** The date key of `toISOString().split('T')[0]`, as the number of the UTC day. */
  function DayOf(createdAt: int): int {
    createdAt / MsPerDay
  }

  /** Where the entry of a day sits, |t| when it has none. */
  function DayIndex(t: seq<DayTotal>, day: int): nat {
    IndexBy(t, Day, day)
  }

  /** One order of the forEach: create its day's entry on first sight, then add its total and one. */
  function AddOrder(t: seq<DayTotal>, o: Order): seq<DayTotal> {
    var d := DayOf(o.createdAt);
    var i := DayIndex(t, d);
    if i == |t| then t + [DayTotal(d, o.totalAmount, 1)]
    else t[i := t[i].(earnings := t[i].earnings + o.totalAmount, orders := t[i].orders + 1)]
  }

  /** `earningsByDate` after every order. */
  function GroupByDay(os: seq<Order>): seq<DayTotal> {
    if os == [] then [] else AddOrder(GroupByDay(os[..|os| - 1]), os[|os| - 1])
  }

  function Earnings(d: DayTotal): int {
    d.earnings
  }

  function OrderCount(d: DayTotal): int {
    d.orders
  }

  function Day(d: DayTotal): int {
    d.day
  }

  lemma {:induction false} SumByUpdate<T>(t: seq<T>, i: nat, x: T, f: T -> int)
    requires i < |t|
    ensures SumBy(t[i := x], f) == SumBy(t, f) - f(t[i]) + f(x)
  {
    if i > 0 {
      SumByUpdate(t[1..], i - 1, x, f);
      assert t[i := x][1..] == t[1..][i - 1 := x];
    }
  }

  lemma {:induction false} SumByAppend<T>(t: seq<T>, x: T, f: T -> int)
    ensures SumBy(t + [x], f) == SumBy(t, f) + f(x)
  {
    if t != [] {
      SumByAppend(t[1..], x, f);
      assert (t + [x])[1..] == t[1..] + [x];
    }
  }

  /** Σ totalAmount over the orders created on day `d`. */
  function EarningsOn(os: seq<Order>, d: int): int {
    if os == [] then 0
    else EarningsOn(os[..|os| - 1], d) + (if DayOf(os[|os| - 1].createdAt) == d then os[|os| - 1].totalAmount else 0)
  }

  /** The number of orders created on day `d`. */
  function OrdersOn(os: seq<Order>, d: int): int {
    if os == [] then 0
    else OrdersOn(os[..|os| - 1], d) + (if DayOf(os[|os| - 1].createdAt) == d then 1 else 0)
  }

  /** A day on which no order was created has earned nothing and counts no order. */
  lemma {:induction false} DayAbsent(os: seq<Order>, d: int)
    requires forall j :: 0 <= j < |os| ==> DayOf(os[j].createdAt) != d
    ensures EarningsOn(os, d) == 0 && OrdersOn(os, d) == 0
  {
    if os != [] {
      DayAbsent(os[..|os| - 1], d);
    }
  }

  /**
   * The grouping has one entry per day on which an order was created and no other;
   * each entry holds Σ totalAmount and the number of orders of its day; and over all
   * days the earnings add up to Σ totalAmount and the counts to the number of orders.
   */
  lemma {:induction false} GroupByDayCorrect(os: seq<Order>)
    ensures forall i, j :: 0 <= i < j < |GroupByDay(os)| ==> GroupByDay(os)[i].day != GroupByDay(os)[j].day
    ensures forall d :: DayIndex(GroupByDay(os), d) < |GroupByDay(os)| <==> exists j :: 0 <= j < |os| && DayOf(os[j].createdAt) == d
    ensures forall k :: 0 <= k < |GroupByDay(os)| ==>
      GroupByDay(os)[k].earnings == EarningsOn(os, GroupByDay(os)[k].day) && GroupByDay(os)[k].orders == OrdersOn(os, GroupByDay(os)[k].day)
    ensures SumBy(GroupByDay(os), Earnings) == SumTotals(os)
    ensures SumBy(GroupByDay(os), OrderCount) == |os|
  {
    if os != [] {
      var init := os[..|os| - 1];
      var t := GroupByDay(init);
      var o := os[|os| - 1];
      var g := GroupByDay(os);
      GroupByDayCorrect(init);
      var dO := DayOf(o.createdAt);
      var i := DayIndex(t, dO);
      if i == |t| {
        SumByAppend(t, DayTotal(dO, o.totalAmount, 1), Earnings);
        SumByAppend(t, DayTotal(dO, o.totalAmount, 1), OrderCount);
      } else {
        var x := t[i].(earnings := t[i].earnings + o.totalAmount, orders := t[i].orders + 1);
        SumByUpdate(t, i, x, Earnings);
        SumByUpdate(t, i, x, OrderCount);
      }
      forall d ensures DayIndex(g, d) < |g| <==> exists j :: 0 <= j < |os| && DayOf(os[j].createdAt) == d {
        if exists j :: 0 <= j < |os| && DayOf(os[j].createdAt) == d {
          var j :| 0 <= j < |os| && DayOf(os[j].createdAt) == d;
          if j < |init| {
            assert DayOf(init[j].createdAt) == d;
            var k := DayIndex(t, d);
            assert g[k].day == d;
          } else {
            assert g[i].day == d;
          }
        }
        if DayIndex(g, d) < |g| {
          var k := DayIndex(g, d);
          if k < |t| && t[k].day == d {
            assert DayIndex(t, d) < |t|;
            var j :| 0 <= j < |init| && DayOf(init[j].createdAt) == d;
            assert os[j] == init[j];
          } else {
            assert DayOf(os[|os| - 1].createdAt) == d;
          }
        }
      }
      forall k | 0 <= k < |g|
        ensures g[k].earnings == EarningsOn(os, g[k].day) && g[k].orders == OrdersOn(os, g[k].day)
      {
        if k == |t| {
          assert forall j :: 0 <= j < |init| ==> DayOf(init[j].createdAt) != dO;
          DayAbsent(init, dO);
        } else if k != i {
          assert g[k] == t[k];
        }
      }
    }
  }

  /** The forEach that groups the orders by day, updating the dictionary in place. */
  method EarningsByDay(os: seq<Order>) returns (byDay: seq<DayTotal>)
    ensures byDay == GroupByDay(os)
  {
    byDay := [];
    var i := 0;
    while i < |os|
      invariant 0 <= i <= |os|
      invariant byDay == GroupByDay(os[..i])
    {
      var d := DayOf(os[i].createdAt);
      var k := DayIndex(byDay, d);
      if k == |byDay| {
        byDay := byDay + [DayTotal(d, 0, 0)];
      }
      byDay := byDay[k := byDay[k].(earnings := byDay[k].earnings + os[i].totalAmount, orders := byDay[k].orders + 1)];
      assert os[..i + 1][..i] == os[..i];
      i := i + 1;
    }
    assert os[..i] == os;
  }

  predicate DistinctBy<T>(s: seq<T>, key: T -> int) {
    forall i, j :: 0 <= i < j < |s| ==> key(s[i]) != key(s[j])
  }

  /** An element that occurs at two positions is counted twice. */
  lemma CountsTwice<T>(s: seq<T>, i: nat, j: nat)
    requires i < j < |s| && s[i] == s[j]
    ensures multiset(s)[s[i]] >= 2
  {
    assert s == s[..j] + [s[j]] + s[j + 1..];
    assert s[..j][i] == s[i];
    assert s[i] in multiset(s[..j]);
  }

  /** With distinct keys every element is counted once. */
  lemma CountsOnce<T>(s: seq<T>, p: nat, key: T -> int)
    requires p < |s| && DistinctBy(s, key)
    ensures multiset(s)[s[p]] == 1
  {
    assert s == s[..p] + [s[p]] + s[p + 1..];
    assert s[p] !in s[..p];
    assert s[p] !in s[p + 1..];
  }

  /** A permutation of a sequence with distinct keys has distinct keys. */
  lemma DistinctByPermutation<T>(a: seq<T>, b: seq<T>, key: T -> int)
    requires multiset(a) == multiset(b) && DistinctBy(a, key)
    ensures DistinctBy(b, key)
  {
    forall i, j | 0 <= i < j < |b| ensures key(b[i]) != key(b[j]) {
      assert b[i] in multiset(a) && b[j] in multiset(a);
      var p :| 0 <= p < |a| && a[p] == b[i];
      var q :| 0 <= q < |a| && a[q] == b[j];
      if key(b[i]) == key(b[j]) {
        assert p == q;
        CountsTwice(b, i, j);
        CountsOnce(a, p, key);
      }
    }
  }

  /** Each entry of a permutation is an entry of the original, at some position. */
  lemma EntryOfPermutation<T>(a: seq<T>, b: seq<T>, k: nat)
    requires multiset(a) == multiset(b) && k < |b|
    ensures exists p :: 0 <= p < |a| && a[p] == b[k]
  {
    assert b[k] in multiset(b);
    assert b[k] in a;
  }

  /**
   * A per-day breakdown of `os`: ascending days, one entry for each day on which an
   * order was created and for no other, each holding that day's Σ totalAmount and
   * order count.
   */
  predicate DayBreakdown(os: seq<Order>, b: seq<DayTotal>) {
    && (forall i, j :: 0 <= i < j < |b| ==> b[i].day < b[j].day)
    && (forall k :: 0 <= k < |b| ==> b[k].earnings == EarningsOn(os, b[k].day) && b[k].orders == OrdersOn(os, b[k].day))
    && (forall k :: 0 <= k < |b| ==> exists j :: 0 <= j < |os| && DayOf(os[j].createdAt) == b[k].day)
    && (forall j :: 0 <= j < |os| ==> exists k :: 0 <= k < |b| && b[k].day == DayOf(os[j].createdAt))
  }

  /**
   * The breakdown, sorted by date, is a per-day breakdown of the orders, and its totals
   * equal Σ totalAmount and the number of orders.
   */
  lemma BreakdownCorrect(os: seq<Order>)
    ensures var b := SortBy(GroupByDay(os), Day);
      && DayBreakdown(os, b)
      && SumBy(b, Earnings) == SumTotals(os)
      && SumBy(b, OrderCount) == |os|
  {
    var g := GroupByDay(os);
    var b := SortBy(g, Day);
    assert SumBy(g, Earnings) == SumTotals(os) && SumBy(g, OrderCount) == |os| && DistinctBy(g, Day) by {
      GroupByDayCorrect(os);
    }
    SumBySort(g, Day, Earnings);
    SumBySort(g, Day, OrderCount);
    assert DayBreakdown(os, b) by {
      SortedDaysAscending(g);
      SortByCorrect(g, Day);
      DayEntriesPermuted(os, b);
    }
  }

  /** Sorting entries of distinct days by day puts the days in strictly ascending order. */
  lemma SortedDaysAscending(g: seq<DayTotal>)
    requires DistinctBy(g, Day)
    ensures var b := SortBy(g, Day); forall i, j :: 0 <= i < j < |b| ==> b[i].day < b[j].day
  {
    var b := SortBy(g, Day);
    SortByCorrect(g, Day);
    DistinctByPermutation(g, b, Day);
    forall i, j | 0 <= i < j < |b| ensures b[i].day < b[j].day {
      assert Day(b[i]) <= Day(b[j]) && Day(b[i]) != Day(b[j]);
    }
  }

  /** An entry of the grouping holds its day's values, and some order was created on that day. */
  lemma DayEntryValues(os: seq<Order>, p: nat)
    requires p < |GroupByDay(os)|
    ensures var e := GroupByDay(os)[p];
      && e.earnings == EarningsOn(os, e.day) && e.orders == OrdersOn(os, e.day)
      && exists j :: 0 <= j < |os| && DayOf(os[j].createdAt) == e.day
  {
    GroupByDayCorrect(os);
    assert DayIndex(GroupByDay(os), GroupByDay(os)[p].day) < |GroupByDay(os)|;
  }

  /** Reordering the grouping keeps each entry's per-day values and the days it covers. */
  lemma DayEntriesPermuted(os: seq<Order>, b: seq<DayTotal>)
    requires multiset(b) == multiset(GroupByDay(os))
    ensures forall k :: 0 <= k < |b| ==> b[k].earnings == EarningsOn(os, b[k].day) && b[k].orders == OrdersOn(os, b[k].day)
    ensures forall k :: 0 <= k < |b| ==> exists j :: 0 <= j < |os| && DayOf(os[j].createdAt) == b[k].day
    ensures forall j :: 0 <= j < |os| ==> exists k :: 0 <= k < |b| && b[k].day == DayOf(os[j].createdAt)
  {
    var g := GroupByDay(os);
    forall k | 0 <= k < |b|
      ensures b[k].earnings == EarningsOn(os, b[k].day) && b[k].orders == OrdersOn(os, b[k].day)
      ensures exists j :: 0 <= j < |os| && DayOf(os[j].createdAt) == b[k].day
    {
      EntryOfPermutation(g, b, k);
      var p :| 0 <= p < |g| && g[p] == b[k];
      DayEntryValues(os, p);
    }
    GroupByDayCorrect(os);
    forall j | 0 <= j < |os| ensures exists k :: 0 <= k < |b| && b[k].day == DayOf(os[j].createdAt) {
      var p := DayIndex(g, DayOf(os[j].createdAt));
      EntryOfPermutation(b, g, p);
      var k :| 0 <= k < |b| && b[k] == g[p];
    }
  }

  // ---------------------------------------------------------------------------
  // The handlers

  /**
   * The start of getCanteenAnalytics' window: now less 7 or 30 days for "week" and
   * "month", the local midnight of today for "day" and for any other period.
   */
  function AnalyticsStart(period: string, nowMs: int, midnightMs: int): int {
    if period == "week" then nowMs - 7 * MsPerDay
    else if period == "month" then nowMs - 30 * MsPerDay
    else midnightMs
  }

  /** The start of getEarningsBreakdown's window: 30 days for "month", 7 for any other period. */
  function BreakdownStart(period: string, nowMs: int): int {
    nowMs - (if period == "month" then 30 else 7) * MsPerDay
  }

  /** The figures of getCanteenAnalytics that are integers. */
  datatype Summary = Summary(totalOrders: int, totalEarnings: int, byStatus: seq<int>, topSellingItems: seq<Sale>)

  /** The orders of the query, in some order, each once. */
  method CountedOrders(orders: map<string, Order>, canteenId: string, startMs: int) returns (keys: seq<string>)
    ensures forall i, j :: 0 <= i < j < |keys| ==> keys[i] != keys[j]
    ensures forall k :: k in keys <==> k in orders && Counted(orders[k], canteenId, startMs)
  {
    var rest := set k | k in orders && Counted(orders[k], canteenId, startMs);
    keys := [];
    while rest != {}
      invariant forall i, j :: 0 <= i < j < |keys| ==> keys[i] != keys[j]
      invariant forall k :: k in keys ==> k !in rest
      invariant forall k :: k in keys || k in rest <==> k in orders && Counted(orders[k], canteenId, startMs)
      decreases |rest|
    {
      var k :| k in rest;
      keys := keys + [k];
      rest := rest - {k};
    }
  }

  /** The counted orders themselves, in the order of their keys. */
  function OrdersAt(orders: map<string, Order>, keys: seq<string>): (os: seq<Order>)
    requires forall k | k in keys :: k in orders
    ensures |os| == |keys| && forall i :: 0 <= i < |keys| ==> os[i] == orders[keys[i]]
  {
    if keys == [] then [] else OrdersAt(orders, keys[..|keys| - 1]) + [orders[keys[|keys| - 1]]]
  }

  /**
   * getCanteenAnalytics over the window of `period`: 500 for an id that is not 24 hex digits
   * (the lookup throws), 404 without the canteen, 403 unless admin or owner, and otherwise
   * the figures over the counted orders `keys`.
   */
  method CanteenAnalytics(s: Store, user: User, canteenId: string, period: string, nowMs: int, midnightMs: int) returns (code: int, keys: seq<string>, summary: Option<Summary>)
    requires s.Valid()
    ensures !IsObjectIdHex(canteenId) ==> code == 500 && summary.None?
    ensures IsObjectIdHex(canteenId) && ObjectIdOf(canteenId) !in s.canteens ==> code == 404 && summary.None?
    ensures (IsObjectIdHex(canteenId) && ObjectIdOf(canteenId) in s.canteens
             && !MayManage(user, Some(s.canteens[ObjectIdOf(canteenId)]))) ==> code == 403 && summary.None?
    ensures (IsObjectIdHex(canteenId) && ObjectIdOf(canteenId) in s.canteens
             && MayManage(user, Some(s.canteens[ObjectIdOf(canteenId)]))) ==>
      && code == 200 && summary.Some?
      && (forall i, j :: 0 <= i < j < |keys| ==> keys[i] != keys[j])
      && (forall k :: k in keys <==> k in s.orders && Counted(s.orders[k], ObjectIdOf(canteenId), AnalyticsStart(period, nowMs, midnightMs)))
      && var os := OrdersAt(s.orders, keys);
         && summary.value.totalOrders == |os|
         && summary.value.totalEarnings == SumTotals(os)
         && summary.value.byStatus == [CountStatus(os, Paid), CountStatus(os, Preparing), CountStatus(os, Ready),
                                       CountStatus(os, Completed), CountStatus(os, Cancelled)]
         && summary.value.byStatus[0] + summary.value.byStatus[1] + summary.value.byStatus[2]
            + summary.value.byStatus[3] + summary.value.byStatus[4] == |os|
         && summary.value.topSellingItems == TopSelling(Tally(Flatten(os)))
         && forall x | x in summary.value.topSellingItems ::
              x.quantity == QtyOf(Flatten(os), x.id) && x.revenue == RevenueOf(Flatten(os), x.id)
  {
    keys := [];
    if !IsObjectIdHex(canteenId) {
      return 500, keys, None;
    }
    var id := ObjectIdOf(canteenId);
    var canteen := CanteenOf(s.canteens, id);
    if canteen.None? {
      return 404, keys, None;
    }
    if !MayManage(user, canteen) {
      return 403, keys, None;
    }
    keys := CountedOrders(s.orders, id, AnalyticsStart(period, nowMs, midnightMs));
    var os := OrdersAt(s.orders, keys);
    StatusCountsCoverPaidOrders(os);
    var sales := ItemSales(os);
    TopSellingSums(Flatten(os));
    summary := Some(Summary(|os|, SumTotals(os),
      [CountStatus(os, Paid), CountStatus(os, Preparing), CountStatus(os, Ready), CountStatus(os, Completed), CountStatus(os, Cancelled)],
      TopSelling(sales)));
    code := 200;
  }

  /**
   * getEarningsBreakdown over the window of `period`: the same checks, then the per-day entries
   * sorted by date and their totals.
   */
  method EarningsBreakdown(s: Store, user: User, canteenId: string, period: string, nowMs: int)
    returns (code: int, keys: seq<string>, breakdown: seq<DayTotal>, earnings: int, orderCount: int)
    requires s.Valid()
    ensures !IsObjectIdHex(canteenId) ==> code == 500
    ensures IsObjectIdHex(canteenId) && ObjectIdOf(canteenId) !in s.canteens ==> code == 404
    ensures (IsObjectIdHex(canteenId) && ObjectIdOf(canteenId) in s.canteens
             && !MayManage(user, Some(s.canteens[ObjectIdOf(canteenId)]))) ==> code == 403
    ensures (IsObjectIdHex(canteenId) && ObjectIdOf(canteenId) in s.canteens
             && MayManage(user, Some(s.canteens[ObjectIdOf(canteenId)]))) ==>
      && code == 200
      && (forall i, j :: 0 <= i < j < |keys| ==> keys[i] != keys[j])
      && (forall k :: k in keys <==> k in s.orders && Counted(s.orders[k], ObjectIdOf(canteenId), BreakdownStart(period, nowMs)))
      && var os := OrdersAt(s.orders, keys);
         && breakdown == SortBy(GroupByDay(os), Day)
         && DayBreakdown(os, breakdown)
         && earnings == SumTotals(os) && orderCount == |os|
  {
    keys, breakdown, earnings, orderCount := [], [], 0, 0;
    if !IsObjectIdHex(canteenId) {
      return 500, keys, breakdown, earnings, orderCount;
    }
    var id := ObjectIdOf(canteenId);
    var canteen := CanteenOf(s.canteens, id);
    if canteen.None? {
      return 404, keys, breakdown, earnings, orderCount;
    }
    if !MayManage(user, canteen) {
      return 403, keys, breakdown, earnings, orderCount;
    }
    keys := CountedOrders(s.orders, id, BreakdownStart(period, nowMs));
    var os := OrdersAt(s.orders, keys);
    var byDay := EarningsByDay(os);
    breakdown := SortBy(byDay, Day);
    assert DayBreakdown(os, breakdown) && SumBy(breakdown, Earnings) == SumTotals(os) && SumBy(breakdown, OrderCount) == |os| by {
      BreakdownCorrect(os);
    }
    earnings, orderCount := SumBy(breakdown, Earnings), SumBy(breakdown, OrderCount);
    code := 200;
  }
}
