/**
 * The stale-order sweep, run every minute: pending orders older than five minutes
 * are claimed one by one with a conditional pending → cancelled update, the stock
 * of each claimed order is added back, and the menu cache of every canteen touched
 * is dropped once. Payment records are never consulted.
 */
module Cleanup {
  import opened Wrappers
  import opened OrderModel
  import opened Inventory
  import opened StoreModel

  /** Five minutes, in milliseconds. */
  const MaxPendingAge := 5 * 60 * 1000

  /** A candidate of the sweep: still pending and created strictly before now − 5 min. */
  predicate IsExpired(o: Order, nowMs: int) {
    o.status == Pending && o.createdAt < nowMs - MaxPendingAge
  }

  predicate Distinct<T(==)>(s: seq<T>) {
    forall i, j :: 0 <= i < j < |s| ==> s[i] != s[j]
  }

  /** What the claim makes of an order. */
  function Cancel(o: Order): Order {
    o.(status := Cancelled, paymentStatus := PaymentFailed)
  }

  /** Set.prototype.add on a set kept in insertion order. */
  function AddOnce(s: seq<string>, c: string): (r: seq<string>)
    ensures forall x :: x in r <==> x in s || x == c
    ensures Distinct(s) ==> Distinct(r)
  {
    if c in s then s else s + [c]
  }

  /**
   * Where the work on an order is cut short by a failing store call: `faults[k] == 0`
   * means the claim of `k` throws; `faults[k] == n > 0` means the claim and the first
   * n − 1 restores succeed and the next one throws. Keys absent from the map run through.
   */
  type Faults = map<string, nat>

  /** The sweep claims `k`: it is still pending when the claim runs, and the claim does not throw. */
  predicate Claims(orders: map<string, Order>, faults: Faults, k: string) {
    k in orders && orders[k].status == Pending && !(k in faults && faults[k] == 0)
  }

  /** The restores that complete for a claimed order. */
  function Restored(o: Order, k: string, faults: Faults): (rs: seq<Reservation>)
    ensures |rs| <= |o.items|
    ensures k !in faults ==> rs == AsReservations(o.items)
    ensures rs == AsReservations(o.items)[..|rs|]
  {
    var all := AsReservations(o.items);
    if k !in faults then all
    else if faults[k] == 0 then []
    else if faults[k] - 1 < |all| then all[..faults[k] - 1]
    else all
  }

  /** Orders, stock and the canteens to invalidate, as the sweep loop leaves them. */
  datatype Sweeping = Sweeping(orders: map<string, Order>, items: Stock, affected: seq<string>)

  /** One pass of the loop: claim, record the canteen, then restore each line. */
  function Step(st: Sweeping, k: string, faults: Faults): Sweeping {
    if !Claims(st.orders, faults, k) then st
    else
      var o := st.orders[k];
      Sweeping(st.orders[k := Cancel(o)], ReleaseAll(st.items, Restored(o, k, faults)), AddOnce(st.affected, o.canteenId))
  }

  /** The loop over the candidates, in the order the query returned them. */
  function Sweep(st: Sweeping, ks: seq<string>, faults: Faults): Sweeping {
    if ks == [] then st else Step(Sweep(st, ks[..|ks| - 1], faults), ks[|ks| - 1], faults)
  }

  /**
   * The sweep cancels exactly the candidates that were pending (and whose claim did
   * not throw), with payment status failed; every other order is left as it was. A
   * failure on one candidate does not keep the others from being claimed.
   */
  lemma {:induction false} SweepOrders(st: Sweeping, ks: seq<string>, faults: Faults)
    ensures Sweep(st, ks, faults).orders.Keys == st.orders.Keys
    ensures forall k | k in st.orders ::
      Sweep(st, ks, faults).orders[k] == if k in ks && Claims(st.orders, faults, k) then Cancel(st.orders[k]) else st.orders[k]
  {
    if ks != [] {
      var init := ks[..|ks| - 1];
      var last := ks[|ks| - 1];
      SweepOrders(st, init, faults);
      assert forall k :: k in ks <==> k in init || k == last by {
        assert ks == init + [last];
      }
    }
  }

  /** A pass over candidates none of which can be claimed changes nothing. */
  lemma {:induction false} SweepWithoutClaims(st: Sweeping, ks: seq<string>, faults: Faults)
    requires forall k | k in ks :: !Claims(st.orders, faults, k)
    ensures Sweep(st, ks, faults) == st
  {
    if ks != [] {
      SweepWithoutClaims(st, ks[..|ks| - 1], faults);
    }
  }

  /**
   * Running the sweep again over the same candidates claims nothing: no stock is
   * restored a second time and no canteen is invalidated.
   */
  lemma SweepTwiceRestoresOnce(st: Sweeping, ks: seq<string>, faults: Faults)
    ensures var r := Sweep(st, ks, faults);
      Sweep(Sweeping(r.orders, r.items, []), ks, faults) == Sweeping(r.orders, r.items, [])
  {
    var r := Sweep(st, ks, faults);
    SweepOrders(st, ks, faults);
    forall k | k in ks ensures !Claims(r.orders, faults, k) {
      if k in st.orders && Claims(st.orders, faults, k) {
        assert r.orders[k].status == Cancelled;
      }
    }
    SweepWithoutClaims(Sweeping(r.orders, r.items, []), ks, faults);
  }

  /** When the candidates are every expired order and no call fails, nothing expired is left. */
  lemma SweepLeavesNothingExpired(st: Sweeping, ks: seq<string>, nowMs: int)
    requires forall k | k in st.orders && IsExpired(st.orders[k], nowMs) :: k in ks
    ensures forall k | k in Sweep(st, ks, map[]).orders :: !IsExpired(Sweep(st, ks, map[]).orders[k], nowMs)
  {
    SweepOrders(st, ks, map[]);
  }

  /** The restores of the whole sweep, claimed order after claimed order. */
  function Restores(orders: map<string, Order>, ks: seq<string>, faults: Faults): seq<Reservation> {
    if ks == [] then []
    else
      var k := ks[|ks| - 1];
      Restores(orders, ks[..|ks| - 1], faults) + (if Claims(orders, faults, k) then Restored(orders[k], k, faults) else [])
  }

  /**
   * Stock after the sweep is stock before it with the lines of each claimed order
   * added back (all of them when nothing fails); unclaimed orders restore nothing.
   */
  lemma {:induction false} SweepRestores(st: Sweeping, ks: seq<string>, faults: Faults)
    requires Distinct(ks)
    ensures Sweep(st, ks, faults).items == ReleaseAll(st.items, Restores(st.orders, ks, faults))
  {
    if ks != [] {
      var init := ks[..|ks| - 1];
      var k := ks[|ks| - 1];
      SweepRestores(st, init, faults);
      SweepOrders(st, init, faults);
      assert k !in init;
      var more := if Claims(st.orders, faults, k) then Restored(st.orders[k], k, faults) else [];
      ReleaseAppend(st.items, Restores(st.orders, init, faults), more);
    }
  }

  /**
   * The canteens invalidated are those of the claimed orders, each once, in the order
   * first claimed.
   */
  lemma {:induction false} SweepAffected(st: Sweeping, ks: seq<string>, faults: Faults)
    requires Distinct(st.affected)
    ensures Distinct(Sweep(st, ks, faults).affected)
    ensures forall c :: c in Sweep(st, ks, faults).affected <==>
      c in st.affected || exists k | k in ks && Claims(st.orders, faults, k) :: st.orders[k].canteenId == c
  {
    if ks != [] {
      var init := ks[..|ks| - 1];
      var last := ks[|ks| - 1];
      SweepAffected(st, init, faults);
      SweepOrders(st, init, faults);
      assert forall k :: k in ks <==> k in init || k == last by {
        assert ks == init + [last];
      }
      var p := Sweep(st, init, faults);
      if Claims(p.orders, faults, last) {
        assert last !in init || !Claims(st.orders, faults, last);
        assert p.orders[last] == st.orders[last];
      } else if last in st.orders && Claims(st.orders, faults, last) {
        assert last in init;
      }
    }
  }

  /** The expired orders, in some order, each once: what the sweep's query returns. */
  method ExpiredOrders(orders: map<string, Order>, nowMs: int) returns (keys: seq<string>)
    ensures Distinct(keys)
    ensures forall k :: k in keys <==> k in orders && IsExpired(orders[k], nowMs)
  {
    var rest := set k | k in orders && IsExpired(orders[k], nowMs);
    keys := [];
    while rest != {}
      invariant Distinct(keys)
      invariant forall k :: k in keys ==> k !in rest
      invariant forall k :: k in keys || k in rest <==> k in orders && IsExpired(orders[k], nowMs)
      decreases |rest|
    {
      var k :| k in rest;
      keys := keys + [k];
      rest := rest - {k};
    }
  }

  /** One candidate: the claim, the canteen recorded, then the restores until one fails. */
  method SweepOne(s: Store, k: string, faults: Faults, affected: seq<string>) returns (affected': seq<string>)
    requires s.Valid()
    modifies s
    ensures s.Valid()
    ensures Step(Sweeping(old(s.orders), old(s.items), affected), k, faults) == Sweeping(s.orders, s.items, affected')
    ensures s.canteens == old(s.canteens) && s.payments == old(s.payments) && s.invalidated == old(s.invalidated)
  {
    if k in faults && faults[k] == 0 {
      return affected;
    }
    var locked := s.CancelIfPending(k);
    if locked.None? {
      return affected;
    }
    ghost var o := old(s.orders)[k];
    ReplaceOrderKeepsValid(old(s.orders), s.payments, k, locked.value);
    affected' := AddOnce(affected, locked.value.canteenId);
    var rs := AsReservations(locked.value.items);
    var n := if k in faults && faults[k] - 1 < |rs| then faults[k] - 1 else |rs|;
    assert rs[..n] == Restored(o, k, faults);
    assert forall i :: 0 <= i < n ==> rs[..n][i].quantity >= 0 by {
      forall i | 0 <= i < n ensures rs[..n][i].quantity >= 0 {
        assert LineValid(o.items[i]);
      }
    }
    ghost var itemsBefore := s.items;
    ReleaseLines(s, rs[..n]);
    ReleaseKeepsStockValid(itemsBefore, rs[..n]);
  }

  /**
   * cleanupPendingOrders at time `nowMs`. Returns the candidates in the order the
   * query returned them; the state is what the sweep specification gives for them,
   * and the canteens affected are invalidated after the loop, each once.
   */
  method CleanupPendingOrders(s: Store, nowMs: int, faults: Faults) returns (candidates: seq<string>)
    requires s.Valid()
    modifies s
    ensures s.Valid()
    ensures Distinct(candidates)
    ensures forall k :: k in candidates <==> k in old(s.orders) && IsExpired(old(s.orders)[k], nowMs)
    ensures var r := Sweep(Sweeping(old(s.orders), old(s.items), []), candidates, faults);
      s.orders == r.orders && s.items == r.items && s.invalidated == old(s.invalidated) + r.affected
    ensures s.canteens == old(s.canteens) && s.payments == old(s.payments)
  {
    candidates := ExpiredOrders(s.orders, nowMs);
    if |candidates| == 0 {
      return;
    }
    ghost var start := Sweeping(s.orders, s.items, []);
    var affected: seq<string> := [];
    var i := 0;
    while i < |candidates|
      invariant 0 <= i <= |candidates|
      invariant s.Valid()
      invariant Sweep(start, candidates[..i], faults) == Sweeping(s.orders, s.items, affected)
      invariant s.canteens == old(s.canteens) && s.payments == old(s.payments) && s.invalidated == old(s.invalidated)
    {
      assert candidates[..i + 1][..i] == candidates[..i];
      affected := SweepOne(s, candidates[i], faults, affected);
      i := i + 1;
    }
    assert candidates[..i] == candidates;
    var j := 0;
    while j < |affected|
      invariant 0 <= j <= |affected|
      invariant s.invalidated == old(s.invalidated) + affected[..j]
      invariant s.Valid()
      invariant Sweep(start, candidates, faults) == Sweeping(s.orders, s.items, affected)
      invariant s.canteens == old(s.canteens) && s.payments == old(s.payments)
    {
      s.Invalidate(affected[j]);
      assert affected[..j + 1] == affected[..j] + [affected[j]];
      j := j + 1;
    }
    assert affected[..j] == affected;
  }
}
