/** What the engine guarantees about single orders, in every reachable state. */
module Guarantees {
  import opened Types
  import opened Ledger
  import opened Matching
  import opened Machine
  import opened Fills
  import opened Lifecycle
  import opened BookSafety
  import opened Accounts
  import opened Priority
  import opened Progress
  import opened Books

  /** Quantities, fills and status of every order agree, whatever the interleaving. */
  lemma OrderLifecycle(w: World, steps: seq<Step>, id: Id)
    requires Seeded(w) && id in Run(w, steps).state.orders
    ensures var r := Run(w, steps);
            var o := r.state.orders[id];
            && o.filled + o.remaining == o.quantity && 0 <= o.filled && 0 <= o.remaining
            && o.filled == FilledBy(r.log.trades, id)
            && (o.status.Filled? <==> o.remaining == 0)
            && (o.status.Pending? ==> o.filled == 0)
            && (o.status.Partial? ==> 0 < o.filled < o.quantity)
            && !o.status.Rejected?
            && (o.Active() && id !in r.inflight ==>
                  o.event in r.state.markets && id in HalfOf(r.state, o.event, o.outcome, o.side))
  {
    RunIsSafe(w, steps);
    var r := Run(w, steps);
    hide Run;
    assert Sound(id, r.state.orders[id], r.log.trades, id in r.log.closed);
    assert StatusOk(r.state.orders[id], id in r.inflight);
  }

  /** No trade ever has the same buyer and seller. */
  lemma NoSelfTrades(w: World, steps: seq<Step>)
    requires Seeded(w)
    ensures forall t :: t in Run(w, steps).log.trades ==> t.buyer != t.seller && t.quantity > 0 && t.price > 0
  {
    RunIsSafe(w, steps);
  }

  lemma SoundLimitBuy(id: Id, o: Order, trades: seq<Trade>, closed: bool)
    requires Sound(id, o, trades, closed) && o.side.Buy? && o.kind.LimitOrder?
      && (o.status.Filled? ==> o.remaining == 0)
    ensures if closed then Finished(o.status) && o.locked == 0
            else
              && !o.status.Canceled?
              && o.locked == o.quantity * o.price - Spent(trades, id)
              && o.locked >= o.remaining * o.price
              && (o.status.Filled? ==> o.locked == Gain(trades, id, o.price))
  {
    hide Spent;
    hide Gain;
    hide FilledBy;
  }

  /** The lock of a limit BUY, by whether it was released. `Roles` says when that is. Until then
      it is the limit value of the order less what its trades cost, and covers what the order
      still wants; a filled order that was not released keeps exactly what it saved as a taker. */
  lemma ReleasedLimitBuyLock(w: World, steps: seq<Step>, id: Id)
    requires Seeded(w) && id in Run(w, steps).state.orders
    requires var o := Run(w, steps).state.orders[id]; o.side.Buy? && o.kind.LimitOrder?
    ensures var r := Run(w, steps);
            var o := r.state.orders[id];
            if id in r.log.closed then Finished(o.status) && o.locked == 0
            else
              && !o.status.Canceled?
              && o.locked == o.quantity * o.price - Spent(r.log.trades, id)
              && o.locked >= o.remaining * o.price
              && (o.status.Filled? ==> o.locked == Gain(r.log.trades, id, o.price))
  {
    RunIsSafe(w, steps);
    var r := Run(w, steps);
    hide Run;
    hide Spent;
    hide Gain;
    assert StatusOk(r.state.orders[id], id in r.inflight);
    SoundLimitBuy(id, r.state.orders[id], r.log.trades, id in r.log.closed);
  }

  /** Canceling a limit BUY gives back exactly the unspent part of its reservation. */
  lemma CancelReturnsUnspent(w: World, id: Id, event: Id)
    requires Safe(w) && ExactOn(w, Buy) && CancelReply(w.state, id, event).Accepted?
    requires w.state.orders[id].side.Buy? && w.state.orders[id].kind.LimitOrder?
    ensures var o, s' := w.state.orders[id], CancelSection(w.state, id, event);
            var unspent := o.quantity * o.price - Spent(w.log.trades, id);
            BalanceOf(s', o.user) == Holding(BalanceOf(w.state, o.user).available + unspent,
                                             BalanceOf(w.state, o.user).reserved - unspent)
  {
    assert Sound(id, w.state.orders[id], w.log.trades, id in w.log.closed);
    ReserveCovers(w.state, w.log.dropped, id);
  }

  lemma {:induction false} BuyingLeavesAvailable(
    orders: map<Id, Order>, taker: Id, ts: seq<Trade>, balances: map<Id, Holding>)
    requires taker in orders && orders[taker].side.Buy? && ValidTrades(orders, taker, ts)
    ensures Held(CashAll(balances, ts), orders[taker].user).available == Held(balances, orders[taker].user).available
    decreases |ts|
  {
    if ts != [] {
      BuyingLeavesAvailable(ApplyFill(orders, ts[0]), taker, ts[1..], SettleCash(balances, ts[0]));
    }
  }

  /** What the taker still has locked once its trades are settled. */
  lemma SettledLock(w: World, id: Id)
    requires Safe(w) && id in w.inflight && Matchable(w.state, id)
    requires w.state.orders[id].side.Buy? && w.state.orders[id].kind.LimitOrder?
    ensures var o, done := w.state.orders[id], Settled(w.state, id).orders[id];
            && done.user == o.user && done.side.Buy? && done.locked >= 0
            && done.locked == o.quantity * o.price - Spent(w.log.trades + TradesOf(w.state, id), id)
  {
    var ts := TradesOf(w.state, id);
    SearchIsFit(w, id);
    MatchReachesMid(w, id);
    var mid := TradeOrdersAll(w.state.orders, ts);
    assert Sound(id, mid[id], w.log.trades + ts, id in w.log.closed);
    TakerKeepsTerms(w.state.orders, id, ts);
    SettledTaker(w.state, id);
    hide *;
  }

  /** A limit BUY on its way to its match has its whole limit value locked. */
  lemma StartingLock(w: World, id: Id)
    requires Safe(w) && id in w.inflight && Matchable(w.state, id)
    requires w.state.orders[id].side.Buy? && w.state.orders[id].kind.LimitOrder?
    ensures id in w.state.orders
    ensures w.state.orders[id].locked == w.state.orders[id].quantity * w.state.orders[id].price >= 0
  {
    var o := w.state.orders[id];
    MatchStartsMid(w, id);
    NoHistory(w.log.trades, id, o.price);
    assert Sound(id, o, w.log.trades, id in w.log.closed);
  }

  /** Lock and reserve once the trades are settled, when reserves are exact. */
  lemma SettledReserve(w: World, id: Id)
    requires Safe(w) && ExactOn(w, Buy) && id in w.inflight && Matchable(w.state, id)
    requires w.state.orders[id].side.Buy? && w.state.orders[id].kind.LimitOrder?
    ensures var o, cost, done := w.state.orders[id], TotalCost(TradesOf(w.state, id)), Settled(w.state, id);
            && id in w.state.orders && done.orders[id].locked == o.locked - cost
            && Held(done.balances, o.user).reserved == Held(w.state.balances, o.user).reserved - cost
            && Held(w.state.balances, o.user).reserved >= o.locked >= 0
  {
    hide *;
    StartingReserve(w, id);
    StartingLock(w, id);
    MatchCovered(w, id);
    LimitIsFunded(w, id);
    CoveredCost(w.state.orders, id, TradesOf(w.state, id));
    BuyingShortfall(w.state.orders, id, TradesOf(w.state, id), w.state.balances);
    BuyingLock(w.state.orders, id, TradesOf(w.state, id));
    MatchedState(w.state, id);
    SettledTaker(w.state, id);
    NoClamp(w.state.orders[id].locked, TotalCost(TradesOf(w.state, id)));
    NoClamp(Held(w.state.balances, w.state.orders[id].user).reserved, TotalCost(TradesOf(w.state, id)));
  }

  lemma NoClamp(a: int, b: int)
    requires b <= a
    ensures Max(a - b, 0) == a - b
  {
  }

  lemma LimitIsFunded(w: World, id: Id)
    requires id in w.state.orders && w.state.orders[id].kind.LimitOrder?
    ensures Funded(w.state, id)
  {
  }

  lemma StartingReserve(w: World, id: Id)
    requires Safe(w) && ExactOn(w, Buy) && id in w.inflight && Matchable(w.state, id) && w.state.orders[id].side.Buy?
    ensures id in w.state.orders
    ensures Held(w.state.balances, w.state.orders[id].user).reserved >= w.state.orders[id].locked
  {
    ReserveCovers(w.state, w.log.dropped, id);
  }

  lemma FinishingAvailable(w: World, id: Id)
    requires Safe(w) && id in w.inflight && Matchable(w.state, id)
    requires w.state.orders[id].side.Buy? && w.state.orders[id].kind.LimitOrder?
    requires Finished(Settled(w.state, id).orders[id].status)
    ensures var o, w' := w.state.orders[id], AfterMatch(w, id);
            BalanceOf(w'.state, o.user).available
            == BalanceOf(w.state, o.user).available + o.quantity * o.price - Spent(w'.log.trades, id)
  {
    hide AfterMatch;
    hide MatchSection;
    hide Settled;
    hide TradesOf;
    hide ValidTrades;
    hide Safe;
    hide Spent;
    hide Release;
    hide CashAll;
    SettledLock(w, id);
    MatchCovered(w, id);
    MatchedWorld(w, id);
    BuyingLeavesAvailable(w.state.orders, id, TradesOf(w.state, id), w.state.balances);
    ReleaseGives(Settled(w.state, id), id);
  }

  /** A limit BUY that finishes as a taker gets back exactly what it did not spend. With exact
      reserves its whole limit value leaves the reserve. */
  lemma FinishingReturnsUnspent(w: World, id: Id)
    requires Safe(w) && id in w.inflight && Matchable(w.state, id)
    requires w.state.orders[id].side.Buy? && w.state.orders[id].kind.LimitOrder?
    requires Finished(Settled(w.state, id).orders[id].status)
    ensures var o, w' := w.state.orders[id], AfterMatch(w, id);
            BalanceOf(w'.state, o.user).available
            == BalanceOf(w.state, o.user).available + o.quantity * o.price - Spent(w'.log.trades, id)
    ensures var o, w' := w.state.orders[id], AfterMatch(w, id);
            ExactOn(w, Buy) ==>
              BalanceOf(w'.state, o.user).reserved == BalanceOf(w.state, o.user).reserved - o.quantity * o.price
  {
    hide *;
    FinishingAvailable(w, id);
    if ExactOn(w, Buy) {
      FinishingReserve(w, id);
    }
  }

  lemma FinishingReserve(w: World, id: Id)
    requires Safe(w) && ExactOn(w, Buy) && id in w.inflight && Matchable(w.state, id)
    requires w.state.orders[id].side.Buy? && w.state.orders[id].kind.LimitOrder?
    requires Finished(Settled(w.state, id).orders[id].status)
    ensures var o, w' := w.state.orders[id], AfterMatch(w, id);
            BalanceOf(w'.state, o.user).reserved == BalanceOf(w.state, o.user).reserved - o.quantity * o.price
  {
    hide AfterMatch;
    hide MatchSection;
    hide Settled;
    hide TradesOf;
    hide Safe;
    hide ExactOn;
    hide Spent;
    hide Release;
    hide CashAll;
    hide TotalCost;
    StartingLock(w, id);
    SettledLock(w, id);
    SettledReserve(w, id);
    MatchedWorld(w, id);
    ReleaseGives(Settled(w.state, id), id);
  }

  lemma ReleaseGives(s: State, id: Id)
    requires id in s.orders && s.orders[id].side.Buy? && s.orders[id].locked >= 0
    ensures var o, r := s.orders[id], Release(s, id);
            && r.orders[id].locked == 0
            && BalanceOf(r, o.user).available == BalanceOf(s, o.user).available + o.locked
            && (BalanceOf(s, o.user).reserved >= o.locked ==>
                  BalanceOf(r, o.user).reserved == BalanceOf(s, o.user).reserved - o.locked)
  {
  }

  // ---------------------------------------------------------------- terms of every trade

  /** The trade respects what its two orders ask for: the maker's price, within the taker's
      limit, at most the quantity of either, and between their users. */
  ghost predicate OnTerms(orders: map<Id, Order>, t: Trade) {
    Known(orders, t) && (
      var a, m := orders[t.taker], orders[t.maker];
      && t == BuildTrade(a, m, t.quantity)
      && 0 < t.quantity <= a.quantity && t.quantity <= m.quantity
      && m.side == Opposite(a.side) && m.event == a.event && m.outcome == a.outcome && m.user != a.user
      && m.kind.LimitOrder? && (a.kind.LimitOrder? ==> NoWorse(a.side, m.price, a.price)))
  }

  ghost predicate WithinQuantity(orders: map<Id, Order>) {
    forall x :: x in orders ==> orders[x].id == x && orders[x].quantity > 0 && orders[x].remaining <= orders[x].quantity
  }

  lemma OnTermsLater(orders: map<Id, Order>, orders': map<Id, Order>, t: Trade)
    requires OnTerms(orders, t) && Known(orders', t)
    requires SameTerms(orders[t.taker], orders'[t.taker]) && SameTerms(orders[t.maker], orders'[t.maker])
    ensures OnTerms(orders', t)
  {
  }

  lemma FillKeepsQuantity(orders: map<Id, Order>, t: Trade)
    requires WithinQuantity(orders) && t.quantity > 0
    ensures WithinQuantity(ApplyFill(orders, t)) && ApplyFill(orders, t).Keys == orders.Keys
    ensures forall x :: x in orders ==> SameTerms(ApplyFill(orders, t)[x], orders[x])
  {
  }

  lemma {:induction false} SearchOnTerms(orders: map<Id, Order>, taker: Id, ts: seq<Trade>)
    requires WithinQuantity(orders) && ValidTrades(orders, taker, ts)
    ensures forall t :: t in ts ==> OnTerms(orders, t)
    decreases |ts|
  {
    if ts != [] {
      var next := ApplyFill(orders, ts[0]);
      FillKeepsQuantity(orders, ts[0]);
      SearchOnTerms(next, taker, ts[1..]);
      hide ApplyFill;
      forall t | t in ts ensures OnTerms(orders, t) {
        if t == ts[0] {
        } else {
          assert t in ts[1..];
          OnTermsLater(next, orders, t);
        }
      }
    }
  }

  ghost predicate AllOnTerms(w: World) { forall t :: t in w.log.trades ==> OnTerms(w.state.orders, t) }

  /** Old trades stay on terms: their orders stay and keep asking for the same. */
  lemma OldTradesOnTerms(w: World, step: Step, t: Trade)
    requires Safe(w) && OnTerms(w.state.orders, t) && t in w.log.trades
    ensures OnTerms(Next(w, step).state.orders, t)
  {
    hide OnTerms;
    assert t.taker !in w.inflight && t.maker !in w.inflight && t.taker in w.state.orders && t.maker in w.state.orders;
    StepAdvances(w, step, t.taker);
    StepAdvances(w, step, t.maker);
    hide Next;
    OnTermsLater(w.state.orders, Next(w, step).state.orders, t);
  }

  lemma NewTradesOnTerms(w: World, id: Id, t: Trade)
    requires Safe(w) && id in w.inflight && Matchable(w.state, id) && t in TradesOf(w.state, id)
    ensures OnTerms(AfterMatch(w, id).state.orders, t)
  {
    hide OnTerms;
    hide AfterMatch;
    hide MatchSection;
    hide TradesOf;
    SearchIsFit(w, id);
    QuantitiesHold(w);
    MatchTrades(w.state, id);
    SearchOnTerms(w.state.orders, id, TradesOf(w.state, id));
    MatchKeepsTerms(w.state, id);
    MatchedWorld(w, id);
    KnownBoth(w.state.orders, t);
    OnTermsLater(w.state.orders, AfterMatch(w, id).state.orders, t);
  }

  lemma MatchTrades(s: State, id: Id)
    requires SearchFits(s, id)
    ensures ValidTrades(s.orders, id, TradesOf(s, id))
  {
    MatchIsTradeByTrade(s, id);
  }

  lemma KnownBoth(orders: map<Id, Order>, t: Trade)
    requires OnTerms(orders, t)
    ensures Known(orders, t)
  {
  }

  lemma QuantitiesHold(w: World)
    requires Safe(w)
    ensures WithinQuantity(w.state.orders)
  {
    forall x | x in w.state.orders
      ensures w.state.orders[x].id == x && w.state.orders[x].quantity > 0
      ensures w.state.orders[x].remaining <= w.state.orders[x].quantity
    {
      assert Sound(x, w.state.orders[x], w.log.trades, x in w.log.closed);
    }
  }

  /** Only matching adds trades. */
  lemma NewTrades(w: World, step: Step, t: Trade)
    requires t in Next(w, step).log.trades && t !in w.log.trades
    ensures step.Match? && step.id in w.inflight && Matchable(w.state, step.id) && t in TradesOf(w.state, step.id)
    ensures Next(w, step) == AfterMatch(w, step.id)
  {
    if step.Match? && step.id in w.inflight && Matchable(w.state, step.id) {
      MatchedWorld(w, step.id);
    }
    hide MatchSection;
    hide Settled;
    hide TradesOf;
  }

  lemma StepKeepsOnTerms(w: World, step: Step)
    requires Safe(w) && AllOnTerms(w)
    ensures AllOnTerms(Next(w, step))
  {
    hide OnTerms;
    hide Next;
    hide AfterMatch;
    hide TradesOf;
    hide Safe;
    forall t | t in Next(w, step).log.trades ensures OnTerms(Next(w, step).state.orders, t) {
      if t in w.log.trades {
        OldTradesOnTerms(w, step, t);
      } else {
        NewTrades(w, step, t);
        NewTradesOnTerms(w, step.id, t);
      }
    }
  }

  /** On every run every trade is executed at its maker's price, within its taker's limit, for at
      most the quantity of either order, between two different users on opposite sides. */
  lemma {:induction false} TradesOnTerms(w: World, steps: seq<Step>)
    requires Seeded(w)
    ensures AllOnTerms(Run(w, steps))
  {
    if steps != [] {
      var before := steps[..|steps| - 1];
      TradesOnTerms(w, before);
      RunIsSafe(w, before);
      StepKeepsOnTerms(Run(w, before), steps[|steps| - 1]);
      hide AllOnTerms;
      hide Next;
    }
  }

  /** No trade costs more than its maker's quantity times its price, so amounts fit whatever
      bound holds for submitted limit orders. */
  lemma TradeCostsAreBounded(w: World, steps: seq<Step>, t: Trade, bound: int)
    requires Seeded(w) && t in Run(w, steps).log.trades
    requires forall x :: x in Run(w, steps).state.orders && Run(w, steps).state.orders[x].kind.LimitOrder? ==>
               Run(w, steps).state.orders[x].quantity * Run(w, steps).state.orders[x].price <= bound
    ensures 0 < t.Cost() <= bound
  {
    TradesOnTerms(w, steps);
    NoSelfTrades(w, steps);
    var r := Run(w, steps);
    hide Run;
    assert OnTerms(r.state.orders, t);
    CostBelow(t.quantity, r.state.orders[t.maker].quantity, t.price);
  }

  lemma CostBelow(q: int, quantity: int, price: int)
    requires 0 < q <= quantity && price > 0
    ensures 0 < q * price <= quantity * price
  {
  }

  // ---------------------------------------------------------------- every match is fair

  lemma HalfIsPriceSorted(orders: map<Id, Order>, sh: Shelf, e: Id, o: Outcome, side: Side, ids: seq<Id>)
    requires HalfOk(orders, sh, e, o, side, ids)
    ensures PriceSorted(Opposite(side), Resolve(orders, ids)) && Distinct(ids)
  {
    PriorityIsDistinct(orders, sh.arrival, side, ids);
    var rs := Resolve(orders, ids);
    forall i, j | 0 <= i < j < |rs| ensures NoWorse(Opposite(side), rs[i].price, rs[j].price) {
      assert !Better(side, PriceOf(orders, ids[j]), PriceOf(orders, ids[i]));
    }
  }

  /** Whenever an order is matched, in any reachable state, its trades respect price-time
      priority over the resting orders, only get worse in price, and are as much as possible. */
  lemma EveryMatchIsFair(w: World, steps: seq<Step>, id: Id)
    requires Seeded(w) && id in Run(w, steps).inflight && Matchable(Run(w, steps).state, id)
    ensures var s := Run(w, steps).state;
            PriceTimeFair(s.orders[id], Resolve(s.orders, SearchedHalf(s, id)), TradesOf(s, id))
  {
    RunIsSafe(w, steps);
    var r := Run(w, steps);
    hide Run;
    MatchIsFair(r, id);
  }

  lemma MatchIsFair(w: World, id: Id)
    requires Safe(w) && id in w.inflight && Matchable(w.state, id)
    ensures PriceTimeFair(w.state.orders[id], Resolve(w.state.orders, SearchedHalf(w.state, id)), TradesOf(w.state, id))
  {
    var s, o, half := w.state, w.state.orders[id], SearchedHalf(w.state, id);
    SearchWalks(w, id);
    HalfIsPriceSorted(s.orders, ShelfOf(w), o.event, o.outcome, Opposite(o.side), half);
    hide PriceTimeFair;
    hide PriceSorted;
    hide Rescan;
    hide InPriority;
    hide Resolve;
    assert Sound(id, o, w.log.trades, id in w.log.closed);
    forall x | x in half ensures x in s.orders && s.orders[x].id == x {
      assert RestingOk(s.orders, ShelfOf(w), o.event, o.outcome, Opposite(o.side), x);
      assert Sound(x, s.orders[x], w.log.trades, x in w.log.closed);
    }
    PriceTimePriority(s.orders, half, id);
  }

  // ---------------------------------------------------------------- every book is in order

  /** In every reachable state both halves of every book are in price-time order and hold live
      limit orders with positive prices only, a bid at or above an ask belongs to the same user, and no order rests
      twice, on this or any other half. */
  lemma BooksInOrder(
    w: World, steps: seq<Step>, e: Id, o: Outcome, side: Side, e': Id, o': Outcome, side': Side, i: nat, j: nat)
    requires Seeded(w) && e in Run(w, steps).state.markets && e' in Run(w, steps).state.markets
    requires var s := Run(w, steps).state;
             i < |HalfOf(s, e, o, side)| && j < |HalfOf(s, e', o', side')|
    ensures var r := Run(w, steps);
            && BookOk(r.state.orders, ShelfOf(r), e, o, r.state.markets[e].Of(o))
            && PriceOf(r.state.orders, HalfOf(r.state, e, o, side)[i]) > 0
            && (HalfOf(r.state, e, o, side)[i] == HalfOf(r.state, e', o', side')[j]
                <==> (e, o, side, i) == (e', o', side', j))
  {
    RunIsSafe(w, steps);
    var r := Run(w, steps);
    hide Run;
    assert BookOk(r.state.orders, ShelfOf(r), e, o, r.state.markets[e].Of(o));
    assert BookOk(r.state.orders, ShelfOf(r), e', o', r.state.markets[e'].Of(o'));
    PricePositive(r, e, o, side, i);
    hide Safe;
    RestsOnce(r, e, o, side, e', o', side', i, j);
  }

  lemma PricePositive(w: World, e: Id, o: Outcome, side: Side, i: nat)
    requires OrdersOk(w) && e in w.state.markets && BookOk(w.state.orders, ShelfOf(w), e, o, w.state.markets[e].Of(o))
    requires i < |HalfOf(w.state, e, o, side)|
    ensures PriceOf(w.state.orders, HalfOf(w.state, e, o, side)[i]) > 0
  {
    hide InPriority;
    hide OnlySelfCrossed;
    var x := HalfOf(w.state, e, o, side)[i];
    BookHalf(w.state.orders, ShelfOf(w), e, o, w.state.markets[e].Of(o), side);
    assert RestingOk(w.state.orders, ShelfOf(w), e, o, side, x);
    assert Sound(x, w.state.orders[x], w.log.trades, x in w.log.closed);
  }

  lemma RestsOnce(w: World, e: Id, o: Outcome, side: Side, e': Id, o': Outcome, side': Side, i: nat, j: nat)
    requires e in w.state.markets && e' in w.state.markets
    requires BookOk(w.state.orders, ShelfOf(w), e, o, w.state.markets[e].Of(o))
    requires BookOk(w.state.orders, ShelfOf(w), e', o', w.state.markets[e'].Of(o'))
    requires i < |HalfOf(w.state, e, o, side)| && j < |HalfOf(w.state, e', o', side')|
    ensures HalfOf(w.state, e, o, side)[i] == HalfOf(w.state, e', o', side')[j]
      <==> (e, o, side, i) == (e', o', side', j)
  {
    hide InPriority;
    hide OnlySelfCrossed;
    var s, a, b := w.state, HalfOf(w.state, e, o, side), HalfOf(w.state, e', o', side');
    BookHalf(s.orders, ShelfOf(w), e, o, s.markets[e].Of(o), side);
    BookHalf(s.orders, ShelfOf(w), e', o', s.markets[e'].Of(o'), side');
    hide BookOk;
    PriorityIsDistinct(s.orders, w.log.arrival, side, a);
    assert RestingOk(s.orders, ShelfOf(w), e, o, side, a[i]) && RestingOk(s.orders, ShelfOf(w), e', o', side', b[j]);
  }
}
