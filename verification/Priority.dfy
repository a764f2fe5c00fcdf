/** What matching guarantees: the rescanning loop equals one sweep, price-time priority,
    price monotonicity and maximality. */
module Priority {
  import opened Types
  import opened Matching

  // ---------------------------------------------------------------- rescan refines sweep

  ghost predicate Distinct<T(!new)>(s: seq<T>) {
    forall i, j :: 0 <= i < j < |s| ==> s[i] != s[j]
  }

  /** The orders of a book half without the stale ones. */
  function Fresh(orders: seq<Order>): seq<Order> {
    if orders == [] then []
    else (if Stale(orders[0]) then [] else [orders[0]]) + Fresh(orders[1..])
  }

  predicate NoneStale(orders: seq<Order>) { forall i :: 0 <= i < |orders| ==> !Stale(orders[i]) }

  lemma {:induction false} FreshConcat(a: seq<Order>, b: seq<Order>)
    ensures Fresh(a + b) == Fresh(a) + Fresh(b)
  {
    if a == [] {
      assert a + b == b;
    } else {
      assert (a + b)[1..] == a[1..] + b;
      FreshConcat(a[1..], b);
    }
  }

  /** Orders the taker cannot trade with are passed over unchanged. */
  lemma {:induction false} SweepSkips(taker: Order, pre: seq<Order>, rest: seq<Order>)
    requires forall i :: 0 <= i < |pre| ==> !Eligible(taker, pre[i])
    ensures var s := Sweep(taker, rest);
            Sweep(taker, pre + rest) == Swept(s.taker, pre + s.left, s.trades)
  {
    if pre == [] {
      assert pre + rest == rest;
      assert pre + Sweep(taker, rest).left == Sweep(taker, rest).left;
    } else if taker.remaining > 0 {
      assert (pre + rest)[1..] == pre[1..] + rest;
      SweepSkips(taker, pre[1..], rest);
      var s := Sweep(taker, rest);
      assert [pre[0]] + (pre[1..] + s.left) == pre + s.left;
    }
  }

  /** Dropping stale orders from the front removes a prefix the taker could not use. */
  lemma {:induction false} DropStaleSplits(orders: map<Id, Order>, ids: seq<Id>) returns (n: nat)
    ensures n <= |ids| && DropStale(orders, ids) == ids[n..]
    ensures forall i :: 0 <= i < n ==> Stale(Lookup(orders, ids[i]))
    ensures Fresh(Resolve(orders, ids[n..])) == Fresh(Resolve(orders, ids))
    ensures NoneStale(Resolve(orders, ids)) ==> n == 0
  {
    if ids != [] && Stale(Lookup(orders, ids[0])) {
      var k := DropStaleSplits(orders, ids[1..]);
      n := k + 1;
      assert ids[1..][k..] == ids[n..];
      assert Resolve(orders, ids)[1..] == Resolve(orders, ids[1..]);
      assert Stale(Resolve(orders, ids)[0]);
    } else {
      n := 0;
      assert ids[0..] == ids;
    }
  }

  lemma ResolveSplit(orders: map<Id, Order>, a: seq<Id>, b: seq<Id>)
    ensures Resolve(orders, a + b) == Resolve(orders, a) + Resolve(orders, b)
  {
  }

  /** After one execution the untouched part of the book still resolves to the same orders. */
  lemma ExecuteResolves(orders: map<Id, Order>, ids: seq<Id>, taker: Id, i: nat)
    requires taker in orders && taker !in ids && Distinct(ids) && i < |ids|
    ensures var one := Execute(orders, ids, taker, i);
            var m' := one.orders[ids[i]];
            && Resolve(one.orders, ids[..i]) == Resolve(orders, ids[..i])
            && Resolve(one.orders, ids[i + 1..]) == Resolve(orders, ids[i + 1..])
            && Resolve(one.orders, one.ids)
               == Resolve(orders, ids[..i]) + (if m'.remaining == 0 then [] else [m']) + Resolve(orders, ids[i + 1..])
  {
    var one := Execute(orders, ids, taker, i);
    var pre, post := ids[..i], ids[i + 1..];
    forall k | 0 <= k < |pre| ensures Lookup(one.orders, pre[k]) == Lookup(orders, pre[k]) {}
    forall k | 0 <= k < |post| ensures Lookup(one.orders, post[k]) == Lookup(orders, post[k]) {
      assert post[k] == ids[i + 1 + k];
    }
    if one.orders[ids[i]].remaining == 0 {
      ResolveSplit(one.orders, pre, post);
    } else {
      assert ids == pre + [ids[i]] + post;
      ResolveSplit(one.orders, pre + [ids[i]], post);
      ResolveSplit(one.orders, pre, [ids[i]]);
    }
  }

  /** A sweep whose first eligible order is `m` equals its execution followed by a sweep of
      what the execution leaves, started again from the front. */
  lemma SweepRestarts(t: Order, pre: seq<Order>, m: Order, post: seq<Order>)
    requires t.remaining > 0 && Eligible(t, m)
    requires forall j :: 0 <= j < |pre| ==> !Eligible(t, pre[j])
    ensures var q := Min(t.remaining, m.remaining);
            var m' := FillMaker(m, q);
            var s := Sweep(t, pre + [m] + post);
            var s' := Sweep(FillTaker(t, q), pre + (if m'.remaining == 0 then [] else [m']) + post);
            s == Swept(s'.taker, s'.left, [BuildTrade(t, m, q)] + s'.trades)
  {
    var q := Min(t.remaining, m.remaining);
    var t', m' := FillTaker(t, q), FillMaker(m, q);
    var mid := if m'.remaining == 0 then [] else [m'];
    assert pre + [m] + post == pre + ([m] + post);
    assert pre + mid + post == pre + (mid + post);
    SweepSkips(t, pre, [m] + post);
    SweepSkips(t', pre, mid + post);
    assert ([m] + post)[1..] == post;
    if m'.remaining == 0 {
      assert mid + post == post;
    } else {
      assert t'.remaining == 0;
    }
  }

  /** The same, for the book half in which the loop found a counterparty at index `i`. */
  lemma SweepExecutes(orders: map<Id, Order>, front: seq<Id>, taker: Id, i: nat)
    requires taker in orders && taker !in front && Distinct(front) && i < |front|
    requires orders[taker].remaining > 0
    requires Eligible(orders[taker], Lookup(orders, front[i]))
    requires forall j :: 0 <= j < i ==> !Eligible(orders[taker], Lookup(orders, front[j]))
    ensures var one := Execute(orders, front, taker, i);
            var s := Sweep(orders[taker], Resolve(orders, front));
            var s' := Sweep(one.orders[taker], Resolve(one.orders, one.ids));
            s == Swept(s'.taker, s'.left, one.trades + s'.trades)
  {
    var pre, post := front[..i], front[i + 1..];
    ExecuteResolves(orders, front, taker, i);
    ResolveSplit(orders, pre + [front[i]], post);
    ResolveSplit(orders, pre, [front[i]]);
    assert front == pre + [front[i]] + post;
    assert Resolve(orders, [front[i]]) == [Lookup(orders, front[i])];
    SweepRestarts(orders[taker], Resolve(orders, pre), Lookup(orders, front[i]), Resolve(orders, post));
  }

  /** The loop and the sweep agree. Stale orders deeper in the book are left in place by both,
      so books are compared without them; a book without stale orders is matched exactly. */
  predicate Agrees(r: Matched, taker: Id, s: Swept, exact: bool) {
    && r.trades == s.trades
    && taker in r.orders && r.orders[taker] == s.taker
    && Fresh(Resolve(r.orders, r.ids)) == Fresh(s.left)
    && (exact ==> Resolve(r.orders, r.ids) == s.left)
  }

  /** Stale orders at the front make no difference to the sweep either. */
  lemma SweepDropsStale(orders: map<Id, Order>, ids: seq<Id>, t: Order) returns (n: nat)
    ensures n <= |ids| && DropStale(orders, ids) == ids[n..]
    ensures var s, s' := Sweep(t, Resolve(orders, ids)), Sweep(t, Resolve(orders, ids[n..]));
            s.taker == s'.taker && s.trades == s'.trades && Fresh(s.left) == Fresh(s'.left)
    ensures NoneStale(Resolve(orders, ids)) ==> n == 0
  {
    n := DropStaleSplits(orders, ids);
    var stale, rest := Resolve(orders, ids[..n]), Resolve(orders, ids[n..]);
    ResolveSplit(orders, ids[..n], ids[n..]);
    assert ids == ids[..n] + ids[n..];
    SweepSkips(t, stale, rest);
    FreshConcat(stale, Sweep(t, rest).left);
    AllStale(stale);
  }

  /** One execution keeps the entries distinct and creates no stale order. */
  lemma ExecuteKeepsDistinct(orders: map<Id, Order>, ids: seq<Id>, taker: Id, i: nat)
    requires taker in orders && taker !in ids && Distinct(ids) && i < |ids|
    requires orders[taker].remaining > 0 && Eligible(orders[taker], Lookup(orders, ids[i]))
    ensures var one := Execute(orders, ids, taker, i);
            && Distinct(one.ids) && taker !in one.ids && taker in one.orders
            && one.orders[taker].remaining < orders[taker].remaining
            && (NoneStale(Resolve(orders, ids)) ==> NoneStale(Resolve(one.orders, one.ids)))
  {
    ExecuteResolves(orders, ids, taker, i);
    assert Resolve(orders, ids[..i]) == Resolve(orders, ids)[..i];
    assert Resolve(orders, ids[i + 1..]) == Resolve(orders, ids)[i + 1..];
  }

  /** The rescanning loop produces the trades, fills and remaining book of one sweep, for every
      book whose entries are distinct and do not include the incoming order. */
  lemma {:induction false} RescanIsSweep(orders: map<Id, Order>, ids: seq<Id>, taker: Id)
    requires taker in orders && taker !in ids && Distinct(ids)
    ensures Agrees(Rescan(orders, ids, taker), taker, Sweep(orders[taker], Resolve(orders, ids)),
                   NoneStale(Resolve(orders, ids)))
    decreases Max(orders[taker].remaining, 0)
  {
    var t := orders[taker];
    if t.remaining > 0 {
      var n := SweepDropsStale(orders, ids, t);
      var front := ids[n..];
      var i := FirstEligible(orders, front, t);
      if i < 0 {
        SweepSkips(t, Resolve(orders, front), []);
        assert Resolve(orders, front) + [] == Resolve(orders, front);
      } else {
        SweepExecutes(orders, front, taker, i);
        ExecuteKeepsDistinct(orders, front, taker, i);
        var one := Execute(orders, front, taker, i);
        RescanIsSweep(one.orders, one.ids, taker);
      }
    }
  }

  lemma {:induction false} AllStale(orders: seq<Order>)
    requires forall i :: 0 <= i < |orders| ==> Stale(orders[i])
    ensures Fresh(orders) == []
  {
    if orders != [] {
      AllStale(orders[1..]);
    }
  }

  // ---------------------------------------------------------------- the waterfall

  /** Quantity on offer from the resting orders the taker can trade with. */
  function OnOffer(taker: Order, resting: seq<Order>): (n: int)
    ensures n >= 0
  {
    if resting == [] then 0
    else (if Eligible(taker, resting[0]) then resting[0].remaining else 0) + OnOffer(taker, resting[1..])
  }

  /** Quantity traded with the given maker. */
  function Bought(trades: seq<Trade>, maker: Id): int {
    if trades == [] then 0
    else (if trades[0].maker == maker then trades[0].quantity else 0) + Bought(trades[1..], maker)
  }

  function Volume(trades: seq<Trade>): int {
    if trades == [] then 0 else trades[0].quantity + Volume(trades[1..])
  }

  ghost predicate DistinctIds(resting: seq<Order>) {
    forall i, j :: 0 <= i < j < |resting| ==> resting[i].id != resting[j].id
  }

  /** Filling part of the taker does not change whom it can trade with. */
  lemma {:induction false} OnOfferStable(taker: Order, q: int, resting: seq<Order>)
    ensures OnOffer(FillTaker(taker, q), resting) == OnOffer(taker, resting)
  {
    if resting != [] {
      assert Eligible(FillTaker(taker, q), resting[0]) == Eligible(taker, resting[0]);
      OnOfferStable(taker, q, resting[1..]);
    }
  }

  /** Only resting orders become makers. */
  lemma {:induction false} SweepMakers(taker: Order, resting: seq<Order>, id: Id)
    requires forall i :: 0 <= i < |resting| ==> resting[i].id != id
    ensures Bought(Sweep(taker, resting).trades, id) == 0
    decreases |resting|
  {
    if resting != [] && taker.remaining > 0 {
      var m := resting[0];
      if Eligible(taker, m) {
        var q := Min(taker.remaining, m.remaining);
        SweepMakers(FillTaker(taker, q), resting[1..], id);
        var rest := Sweep(FillTaker(taker, q), resting[1..]);
        assert ([BuildTrade(taker, m, q)] + rest.trades)[1..] == rest.trades;
      } else {
        SweepMakers(taker, resting[1..], id);
      }
    }
  }

  /** Quantity falls from the front of the book like water: the i-th eligible order receives
      what the eligible orders ahead of it leave over, up to its own remaining quantity, and
      no other order receives anything. */
  lemma {:induction false} Waterfall(taker: Order, resting: seq<Order>, i: nat)
    requires i < |resting| && DistinctIds(resting)
    ensures Bought(Sweep(taker, resting).trades, resting[i].id)
            == if Eligible(taker, resting[i])
               then Min(resting[i].remaining, Max(taker.remaining - OnOffer(taker, resting[..i]), 0))
               else 0
    decreases |resting|
  {
    if taker.remaining > 0 {
      var m := resting[0];
      var q := if Eligible(taker, m) then Min(taker.remaining, m.remaining) else 0;
      var taker' := FillTaker(taker, q);
      var rest := Sweep(taker', resting[1..]);
      if Eligible(taker, m) {
        assert ([BuildTrade(taker, m, q)] + rest.trades)[1..] == rest.trades;
      } else {
        assert taker' == taker;
      }
      if i == 0 {
        SweepMakers(taker', resting[1..], m.id);
      } else {
        Waterfall(taker', resting[1..], i - 1);
        assert resting[..i][1..] == resting[1..][..i - 1];
        OnOfferStable(taker, q, resting[1..][..i - 1]);
        assert Eligible(taker', resting[i]) == Eligible(taker, resting[i]);
      }
    }
  }

  /** Nothing that could have traded is left: the volume is the smaller of demand and offer. */
  lemma {:induction false} SweepMaximal(taker: Order, resting: seq<Order>)
    requires taker.remaining >= 0
    ensures var s := Sweep(taker, resting);
            && Volume(s.trades) == Min(taker.remaining, OnOffer(taker, resting))
            && s.taker == FillTaker(taker, Volume(s.trades))
    decreases |resting|
  {
    if resting != [] && taker.remaining > 0 {
      var m := resting[0];
      if Eligible(taker, m) {
        var q := Min(taker.remaining, m.remaining);
        var rest := Sweep(FillTaker(taker, q), resting[1..]);
        assert ([BuildTrade(taker, m, q)] + rest.trades)[1..] == rest.trades;
        SweepMaximal(FillTaker(taker, q), resting[1..]);
        OnOfferStable(taker, q, resting[1..]);
      } else {
        SweepMaximal(taker, resting[1..]);
      }
    }
  }

  // ---------------------------------------------------------------- prices

  /** `a` is at least as good a price as `b` for a taker on the given side. */
  predicate NoWorse(side: Side, a: int, b: int) { if side.Buy? then a <= b else a >= b }

  /** Whom an incoming order may trade with, in the terms of the two orders: a live order of
      another user for the same outcome, at any price for a market order and at a price within
      the limit for a limit order. */
  predicate Tradable(incoming: Order, resting: Order) {
    && (resting.status.Pending? || resting.status.Partial?) && resting.remaining > 0
    && resting.user != incoming.user && resting.outcome == incoming.outcome
    && (incoming.kind.MarketOrder? || NoWorse(incoming.side, resting.price, incoming.price))
  }

  /** The search looks for exactly these. */
  lemma EligibleIffTradable(incoming: Order, resting: Order)
    ensures Eligible(incoming, resting) <==> Tradable(incoming, resting)
  {
  }

  ghost predicate PriceSorted(side: Side, resting: seq<Order>) {
    forall i, j :: 0 <= i < j < |resting| ==> NoWorse(side, resting[i].price, resting[j].price)
  }

  ghost predicate TradesSorted(side: Side, trades: seq<Trade>) {
    forall i, j :: 0 <= i < j < |trades| ==> NoWorse(side, trades[i].price, trades[j].price)
  }

  /** The trade executes at the price of a resting order and within the taker's limit. */
  ghost predicate FairPrice(taker: Order, resting: seq<Order>, t: Trade) {
    && (exists i :: 0 <= i < |resting| && resting[i].id == t.maker && resting[i].price == t.price)
    && (taker.kind.LimitOrder? ==> NoWorse(taker.side, t.price, taker.price))
  }

  lemma FairPriceTail(taker: Order, resting: seq<Order>, q: int, t: Trade)
    requires resting != [] && FairPrice(FillTaker(taker, q), resting[1..], t)
    ensures FairPrice(taker, resting, t)
    ensures PriceSorted(taker.side, resting) ==> NoWorse(taker.side, resting[0].price, t.price)
  {
    var i :| 0 <= i < |resting[1..]| && resting[1..][i].id == t.maker && resting[1..][i].price == t.price;
    assert resting[i + 1] == resting[1..][i];
  }

  /** Every trade executes at the price of a resting order, within the taker's limit, and
      prices only get worse for the taker from one trade to the next. */
  lemma {:induction false} SweepPrices(taker: Order, resting: seq<Order>)
    requires PriceSorted(taker.side, resting)
    ensures var trades := Sweep(taker, resting).trades;
            && TradesSorted(taker.side, trades)
            && (forall k :: 0 <= k < |trades| ==> FairPrice(taker, resting, trades[k]))
    decreases |resting|
  {
    if resting != [] && taker.remaining > 0 {
      var m := resting[0];
      var q := if Eligible(taker, m) then Min(taker.remaining, m.remaining) else 0;
      var taker' := FillTaker(taker, q);
      assert Eligible(taker, m) || taker' == taker;
      SweepPrices(taker', resting[1..]);
      var rest := Sweep(taker', resting[1..]).trades;
      forall k | 0 <= k < |rest|
        ensures FairPrice(taker, resting, rest[k]) && NoWorse(taker.side, m.price, rest[k].price)
      {
        FairPriceTail(taker, resting, q, rest[k]);
      }
      if Eligible(taker, m) {
        assert FairPrice(taker, resting, BuildTrade(taker, m, q));
      }
    }
  }

  // ---------------------------------------------------------------- the engine's loop

  ghost predicate TableOk(orders: map<Id, Order>, ids: seq<Id>) {
    forall i :: 0 <= i < |ids| ==> ids[i] in orders && orders[ids[i]].id == ids[i]
  }

  /** A later order receives anything only if every eligible order ahead was filled. */
  lemma SweepPriority(t: Order, resting: seq<Order>, j: nat, i: nat)
    requires DistinctIds(resting) && j < i < |resting|
    requires Eligible(t, resting[j]) && Bought(Sweep(t, resting).trades, resting[i].id) > 0
    ensures Bought(Sweep(t, resting).trades, resting[j].id) == resting[j].remaining
  {
    Waterfall(t, resting, i);
    Waterfall(t, resting, j);
    OnOfferPrefix(t, resting, j, i);
  }

  /** What the source promises of `trades` for a taker meeting the given resting orders. */
  ghost predicate PriceTimeFair(t: Order, resting: seq<Order>, trades: seq<Trade>) {
    // nobody is served before an eligible order ahead of it is filled completely
    && (forall j, i :: 0 <= j < i < |resting| && Eligible(t, resting[j]) && Bought(trades, resting[i].id) > 0
                       ==> Bought(trades, resting[j].id) == resting[j].remaining)
    // nobody is served who is dead, the taker's own user, or priced beyond the limit
    && (forall i :: 0 <= i < |resting| && !Eligible(t, resting[i]) ==> Bought(trades, resting[i].id) == 0)
    // nothing that could trade is left over
    && Volume(trades) == Min(t.remaining, OnOffer(t, resting))
    // maker prices, within the limit, getting worse for the taker
    && (forall k :: 0 <= k < |trades| ==> FairPrice(t, resting, trades[k]))
    && TradesSorted(t.side, trades)
  }

  lemma SweepIsFair(t: Order, resting: seq<Order>)
    requires DistinctIds(resting) && PriceSorted(t.side, resting) && t.remaining >= 0
    ensures PriceTimeFair(t, resting, Sweep(t, resting).trades)
  {
    var trades := Sweep(t, resting).trades;
    forall j, i | 0 <= j < i < |resting| && Eligible(t, resting[j]) && Bought(trades, resting[i].id) > 0
      ensures Bought(trades, resting[j].id) == resting[j].remaining
    {
      SweepPriority(t, resting, j, i);
    }
    forall i | 0 <= i < |resting| && !Eligible(t, resting[i])
      ensures Bought(trades, resting[i].id) == 0
    {
      Waterfall(t, resting, i);
    }
    SweepMaximal(t, resting);
    SweepPrices(t, resting);
  }

  /** The engine's loop respects price-time priority and trades as much as possible. */
  lemma PriceTimePriority(orders: map<Id, Order>, ids: seq<Id>, taker: Id)
    requires taker in orders && taker !in ids && Distinct(ids) && TableOk(orders, ids)
    requires orders[taker].remaining >= 0 && PriceSorted(orders[taker].side, Resolve(orders, ids))
    ensures PriceTimeFair(orders[taker], Resolve(orders, ids), Rescan(orders, ids, taker).trades)
  {
    var t, resting := orders[taker], Resolve(orders, ids);
    RescanIsSweep(orders, ids, taker);
    forall a, b | 0 <= a < b < |resting| ensures resting[a].id != resting[b].id {
      assert resting[a].id == ids[a] && resting[b].id == ids[b];
    }
    SweepIsFair(t, resting);
  }

  /** The offer ahead of a later order includes everything up to and with an earlier one. */
  lemma {:induction false} OnOfferPrefix(taker: Order, resting: seq<Order>, j: nat, i: nat)
    requires j < i <= |resting|
    ensures OnOffer(taker, resting[..i])
            >= OnOffer(taker, resting[..j]) + (if Eligible(taker, resting[j]) then resting[j].remaining else 0)
    decreases j
  {
    assert resting[..i][1..] == resting[1..][..i - 1];
    if j > 0 {
      assert resting[..j][1..] == resting[1..][..j - 1];
      OnOfferPrefix(taker, resting[1..], j - 1, i - 1);
    }
  }
}
