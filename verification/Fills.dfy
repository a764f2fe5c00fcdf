/** A matching section as a sequence of single trades.

    The engine first executes every pairing and settles the trades afterwards. Executing and
    settling touch different fields, so the section equals one that settles each trade as it
    happens. The invariants are proved trade by trade on that form. */
module Fills {
  import opened Types
  import opened Ledger
  import opened Matching
  import opened Priority
  import opened Books
  import opened Machine

  // ---------------------------------------------------------------- trades of a search

  predicate Known(orders: map<Id, Order>, t: Trade) { t.taker in orders && t.maker in orders }

  /** Order `id` after its part in the trade. */
  function FillOf(id: Id, o: Order, t: Trade): Order {
    if id == t.maker then FillMaker(o, t.quantity)
    else if id == t.taker then FillTaker(o, t.quantity)
    else o
  }

  function ApplyFill(orders: map<Id, Order>, t: Trade): map<Id, Order> {
    map x | x in orders :: FillOf(x, orders[x], t)
  }

  /** A trade between two live orders of different users on opposite sides of the same book,
      for as much as both still want, at the maker's price and within the taker's limit. */
  ghost predicate ValidTrade(orders: map<Id, Order>, t: Trade) {
    Known(orders, t) && (
      var a, m := orders[t.taker], orders[t.maker];
      && a.id == t.taker && m.id == t.maker
      && t == BuildTrade(a, m, t.quantity)
      && t.quantity == Min(a.remaining, m.remaining) > 0
      && m.side == Opposite(a.side) && m.event == a.event && m.outcome == a.outcome
      && m.user != a.user && m.Active()
      && m.kind.LimitOrder? && m.price > 0
      && (a.kind.LimitOrder? ==> NoWorse(a.side, m.price, a.price)))
  }

  ghost predicate ValidTrades(orders: map<Id, Order>, taker: Id, trades: seq<Trade>)
    decreases |trades|
  {
    trades == [] || (
      && trades[0].taker == taker
      && ValidTrade(orders, trades[0])
      && ValidTrades(ApplyFill(orders, trades[0]), taker, trades[1..]))
  }

  function ApplyFills(orders: map<Id, Order>, trades: seq<Trade>): (r: map<Id, Order>)
    ensures r.Keys == orders.Keys
    decreases |trades|
  {
    if trades == [] then orders else ApplyFills(ApplyFill(orders, trades[0]), trades[1..])
  }

  /** Two different users, and something changes hands. */
  predicate Proper(t: Trade) { t.buyer != t.seller && t.quantity > 0 && t.price > 0 }

  lemma {:induction false} ValidAreKnown(orders: map<Id, Order>, taker: Id, trades: seq<Trade>)
    requires ValidTrades(orders, taker, trades)
    ensures forall i :: 0 <= i < |trades| ==> Known(orders, trades[i]) && trades[i].taker == taker != trades[i].maker
    ensures forall i :: 0 <= i < |trades| ==> Proper(trades[i])
    decreases |trades|
  {
    if trades != [] {
      ValidAreKnown(ApplyFill(orders, trades[0]), taker, trades[1..]);
      assert forall i :: 0 < i < |trades| ==> trades[i] == trades[1..][i - 1];
    }
  }

  /** A resting order on the half the taker searches. */
  predicate Fits(a: Order, m: Order) {
    && m.side == Opposite(a.side) && m.event == a.event && m.outcome == a.outcome
    && m.kind.LimitOrder? && m.price > 0
  }

  ghost predicate HalfFits(orders: map<Id, Order>, ids: seq<Id>, taker: Id) {
    && taker in orders && orders[taker].id == taker
    && (forall x :: x in ids ==> x in orders && orders[x].id == x && Fits(orders[taker], orders[x]))
  }

  lemma ExecuteIsFill(orders: map<Id, Order>, ids: seq<Id>, taker: Id, i: nat)
    requires HalfFits(orders, ids, taker) && i < |ids| && orders[taker].remaining > 0
    requires Eligible(orders[taker], Lookup(orders, ids[i]))
    ensures var one := Execute(orders, ids, taker, i);
            && |one.trades| == 1 && one.trades[0].taker == taker
            && ValidTrade(orders, one.trades[0])
            && one.orders == ApplyFill(orders, one.trades[0])
            && HalfFits(one.orders, one.ids, taker)
  {
    var one := Execute(orders, ids, taker, i);
    forall x | x in one.ids ensures x in ids {}
  }

  lemma DropStaleKeepsFits(orders: map<Id, Order>, ids: seq<Id>, taker: Id)
    requires HalfFits(orders, ids, taker)
    ensures HalfFits(orders, DropStale(orders, ids), taker)
  {
    var n := DropStaleSplits(orders, ids);
  }

  /** The search is fully described by its trades, and each of them is valid when it happens. */
  lemma {:induction false} RescanFills(orders: map<Id, Order>, ids: seq<Id>, taker: Id)
    requires HalfFits(orders, ids, taker)
    ensures var r := Rescan(orders, ids, taker);
            && ValidTrades(orders, taker, r.trades)
            && r.orders == ApplyFills(orders, r.trades)
    decreases Max(orders[taker].remaining, 0)
  {
    if orders[taker].remaining > 0 {
      DropStaleKeepsFits(orders, ids, taker);
      var front := DropStale(orders, ids);
      var i := FirstEligible(orders, front, orders[taker]);
      if i >= 0 {
        var one := Execute(orders, front, taker, i);
        ExecuteIsFill(orders, front, taker, i);
        RescanFills(one.orders, one.ids, taker);
        var rest := Rescan(one.orders, one.ids, taker);
        assert (one.trades + rest.trades)[1..] == rest.trades;
        assert (one.trades + rest.trades)[0] == one.trades[0];
      }
    }
  }

  lemma SearchShrinks(orders: map<Id, Order>, ids: seq<Id>, taker: Id, i: nat)
    requires taker in orders && i < |DropStale(orders, ids)|
    ensures forall x :: x in Execute(orders, DropStale(orders, ids), taker, i).ids ==> x in ids
    ensures DropStale(orders, ids)[i] in ids
  {
    var n := DropStaleSplits(orders, ids);
  }

  /** Only resting orders become makers. */
  lemma {:induction false} RescanMakers(orders: map<Id, Order>, ids: seq<Id>, taker: Id)
    requires HalfFits(orders, ids, taker)
    ensures forall t :: t in Rescan(orders, ids, taker).trades ==> t.maker in ids
    decreases Max(orders[taker].remaining, 0)
  {
    if orders[taker].remaining > 0 {
      DropStaleKeepsFits(orders, ids, taker);
      var front := DropStale(orders, ids);
      var i := FirstEligible(orders, front, orders[taker]);
      if i >= 0 {
        var one := Execute(orders, front, taker, i);
        ExecuteIsFill(orders, front, taker, i);
        RescanMakers(one.orders, one.ids, taker);
        SearchShrinks(orders, ids, taker, i);
        assert one.trades[0].maker == front[i];
        hide HalfFits;
        hide Eligible;
      }
    }
  }

  /** The same order but for its lock. */
  predicate SameButLock(a: Order, b: Order) { b == a.(locked := b.locked) }

  ghost predicate SameButLocks(orders: map<Id, Order>, orders': map<Id, Order>) {
    orders.Keys == orders'.Keys && forall x :: x in orders ==> SameButLock(orders[x], orders'[x])
  }

  /** Locks do not decide which trades are valid. */
  lemma {:induction false} ValidIgnoresLocks(
    orders: map<Id, Order>, orders': map<Id, Order>, taker: Id, trades: seq<Trade>)
    requires SameButLocks(orders, orders') && ValidTrades(orders, taker, trades)
    ensures ValidTrades(orders', taker, trades)
    decreases |trades|
  {
    if trades != [] {
      var t := trades[0];
      assert SameButLock(orders[t.taker], orders'[t.taker]) && SameButLock(orders[t.maker], orders'[t.maker]);
      assert SameButLocks(ApplyFill(orders, t), ApplyFill(orders', t));
      ValidIgnoresLocks(ApplyFill(orders, t), ApplyFill(orders', t), taker, trades[1..]);
    }
  }

  // ---------------------------------------------------------------- trade by trade

  /** Both orders after executing and settling one trade. */
  function TradeOrders(orders: map<Id, Order>, t: Trade): map<Id, Order> {
    PayLocks(ApplyFill(orders, t), t)
  }

  function TradeOrdersAll(orders: map<Id, Order>, trades: seq<Trade>): (r: map<Id, Order>)
    ensures r.Keys == orders.Keys
    decreases |trades|
  {
    if trades == [] then orders else TradeOrdersAll(TradeOrders(orders, trades[0]), trades[1..])
  }

  /** Executes and settles one trade. */
  function TradeStep(s: State, t: Trade): State {
    State(s.markets, TradeOrders(s.orders, t), SettleCash(s.balances, t), SettleShares(s.positions, t))
  }

  lemma NextTradesValid(orders: map<Id, Order>, taker: Id, trades: seq<Trade>)
    requires trades != [] && ValidTrades(orders, taker, trades)
    ensures ValidTrades(TradeOrders(orders, trades[0]), taker, trades[1..])
  {
    var f := ApplyFill(orders, trades[0]);
    assert SameButLocks(f, PayLocks(f, trades[0]));
    ValidIgnoresLocks(f, PayLocks(f, trades[0]), taker, trades[1..]);
  }

  function TradeAll(s: State, trades: seq<Trade>): State
    decreases |trades|
  {
    if trades == [] then s else TradeAll(TradeStep(s, trades[0]), trades[1..])
  }

  lemma {:induction false} TradeAllParts(s: State, trades: seq<Trade>)
    ensures TradeAll(s, trades)
            == State(s.markets, TradeOrdersAll(s.orders, trades), CashAll(s.balances, trades),
               SharesAll(s.positions, trades))
    decreases |trades|
  {
    if trades != [] {
      TradeAllParts(TradeStep(s, trades[0]), trades[1..]);
    }
  }

  lemma PayCommutesFillOf(x: Id, o: Order, t: Trade, u: Trade)
    ensures var f := FillOf(x, o, u);
            f.(locked := LockAfter(x, f, t)) == FillOf(x, o.(locked := LockAfter(x, o, t)), u)
  {
  }

  lemma PayCommutesFill(orders: map<Id, Order>, t: Trade, u: Trade)
    ensures PayLocks(ApplyFill(orders, u), t) == ApplyFill(PayLocks(orders, t), u)
  {
    hide FillOf;
    hide LockAfter;
    forall x | x in orders
      ensures PayLocks(ApplyFill(orders, u), t)[x] == ApplyFill(PayLocks(orders, t), u)[x]
    {
      PayCommutesFillOf(x, orders[x], t, u);
    }
  }

  lemma {:induction false} PayCommutesFills(orders: map<Id, Order>, t: Trade, trades: seq<Trade>)
    ensures PayLocks(ApplyFills(orders, trades), t) == ApplyFills(PayLocks(orders, t), trades)
    decreases |trades|
  {
    if trades != [] {
      PayCommutesFill(orders, t, trades[0]);
      PayCommutesFills(ApplyFill(orders, trades[0]), t, trades[1..]);
    }
  }

  /** Settling after all executions equals settling each trade as it is executed. */
  lemma {:induction false} SettleLaterIsSettleNow(orders: map<Id, Order>, trades: seq<Trade>)
    ensures PayAll(ApplyFills(orders, trades), trades) == TradeOrdersAll(orders, trades)
    decreases |trades|
  {
    if trades != [] {
      var t, rest := trades[0], trades[1..];
      PayCommutesFills(ApplyFill(orders, t), t, rest);
      SettleLaterIsSettleNow(TradeOrders(orders, t), rest);
    }
  }

  // ---------------------------------------------------------------- concluding

  lemma {:induction false} PayAllKeepsOrders(orders: map<Id, Order>, trades: seq<Trade>)
    ensures SameButLocks(orders, PayAll(orders, trades))
    decreases |trades|
  {
    if trades != [] {
      PayAllKeepsOrders(PayLocks(orders, trades[0]), trades[1..]);
    }
  }

  function WithStatus(orders: map<Id, Order>, id: Id, status: Status): map<Id, Order>
    requires id in orders
  {
    orders[id := orders[id].(status := status)]
  }

  lemma {:induction false} PayAllCommutesStatus(orders: map<Id, Order>, id: Id, status: Status, trades: seq<Trade>)
    requires id in orders
    ensures PayAll(WithStatus(orders, id, status), trades) == WithStatus(PayAll(orders, trades), id, status)
    decreases |trades|
  {
    if trades != [] {
      var t := trades[0];
      assert PayLocks(WithStatus(orders, id, status), t) == WithStatus(PayLocks(orders, t), id, status);
      PayAllCommutesStatus(PayLocks(orders, t), id, status, trades[1..]);
    }
  }

  lemma {:induction false} InsertSamePrices(
    orders: map<Id, Order>, orders': map<Id, Order>, side: Side, ids: seq<Id>, id: Id)
    requires forall x :: PriceOf(orders, x) == PriceOf(orders', x)
    ensures Insert(orders, side, ids, id) == Insert(orders', side, ids, id)
  {
    if ids != [] {
      InsertSamePrices(orders, orders', side, ids[1..], id);
    }
  }

  lemma SamePrices(orders: map<Id, Order>, orders': map<Id, Order>)
    requires orders.Keys == orders'.Keys && forall x :: x in orders ==> SameButLock(orders[x], orders'[x])
    ensures forall x :: PriceOf(orders, x) == PriceOf(orders', x)
  {
    forall x ensures PriceOf(orders, x) == PriceOf(orders', x) {
      if x in orders {
        assert SameButLock(orders[x], orders'[x]);
      }
    }
  }

  /** Locks do not decide where an order rests. */
  lemma RestingIgnoresLocks(s: State, s': State, id: Id)
    requires SameButLocks(s.orders, s'.orders) && s.markets == s'.markets
    requires id in s.orders && s.orders[id].event in s.markets
    ensures s'.orders[id].event in s'.markets && ConcludedStatus(s'.orders[id]) == ConcludedStatus(s.orders[id])
    ensures Conclude(s', id).markets == Conclude(s, id).markets
  {
    var o := s.orders[id];
    assert SameButLock(o, s'.orders[id]);
    SamePrices(s.orders, s'.orders);
    InsertSamePrices(s.orders, s'.orders, o.side, HalfOf(s, o.event, o.outcome, o.side), id);
  }

  lemma ConcludeParts(s: State, id: Id)
    requires id in s.orders && s.orders[id].event in s.markets
    ensures var r := Conclude(s, id);
            && r.orders == WithStatus(s.orders, id, ConcludedStatus(s.orders[id]))
            && r.balances == s.balances && r.positions == s.positions
  {
  }

  /** Concluding before settling, as the engine does, equals concluding afterwards. */
  lemma ConcludeCommutes(s: State, id: Id, trades: seq<Trade>)
    requires id in s.orders && s.orders[id].event in s.markets
    ensures var s' := SettleAll(s, trades);
            && s'.orders[id].event in s'.markets
            && SettleAll(Conclude(s, id), trades) == Conclude(s', id)
  {
    PayAllKeepsOrders(s.orders, trades);
    RestingIgnoresLocks(s, SettleAll(s, trades), id);
    PayAllCommutesStatus(s.orders, id, ConcludedStatus(s.orders[id]), trades);
    ConcludeParts(s, id);
    ConcludeParts(SettleAll(s, trades), id);
    hide Conclude;
  }

  /** State after the trades of a search, before the taker is concluded. */
  function Traded(s: State, id: Id): (r: State)
    requires Matchable(s, id)
  {
    var o := s.orders[id];
    var mid := TradeAll(s, TradesOf(s, id));
    TradeAllParts(s, TradesOf(s, id));
    PutHalf(mid, o.event, o.outcome, Opposite(o.side), Search(s, id).ids)
  }

  /** The half of the book the order searches fits it. */
  ghost predicate SearchFits(s: State, id: Id) {
    && Matchable(s, id)
    && HalfFits(s.orders, HalfOf(s, s.orders[id].event, s.orders[id].outcome, Opposite(s.orders[id].side)), id)
  }

  /** The matching section, trade by trade. */
  lemma MatchIsTradeByTrade(s: State, id: Id)
    requires SearchFits(s, id)
    ensures ValidTrades(s.orders, id, TradesOf(s, id))
    ensures var mid := Traded(s, id);
            && id in mid.orders && mid.orders[id].event in mid.markets
            && Settled(s, id) == Conclude(mid, id)
            && MatchSection(s, id) == ReleaseIfFinished(Conclude(mid, id), id)
  {
    var o := s.orders[id];
    var half := HalfOf(s, o.event, o.outcome, Opposite(o.side));
    var trades := TradesOf(s, id);
    RescanFills(s.orders, half, id);
    SettleLaterIsSettleNow(s.orders, trades);
    TradeAllParts(s, trades);
    assert SettleAll(Searched(s, id), trades) == Traded(s, id);
    ConcludeCommutes(Searched(s, id), id, trades);
  }
}
