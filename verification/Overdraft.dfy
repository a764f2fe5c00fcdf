/** Where created cash comes from: over every run, with no hypothesis, exactly from what market
    BUYs spend beyond their locks. */
module Overdraft {
  import opened Types
  import opened Sums
  import opened Ledger
  import opened Machine
  import opened Fills
  import opened Lifecycle
  import opened BookSafety
  import opened Accounts
  import opened Conservation
  import opened Guarantees
  import opened Grants

  // ---------------------------------------------------------------- what is owed

  /** BUY locks that no reserved cash stands behind. */
  ghost function Debt(orders: map<Id, Order>, balances: map<Id, Holding>): int {
    SumMap(orders, BuyLock()) - SumMap(balances, ReservedCash())
  }

  ghost function LostBuy(): Order -> int { (o: Order) => if o.side.Buy? then o.locked else 0 }

  /** The same with the locks of orders whose emission was lost. */
  ghost function Owed(w: World): int { Debt(w.state.orders, w.state.balances) + SumSeq(w.log.dropped, LostBuy()) }

  /** What the trades a market BUY is about to make cost beyond its lock. */
  function Excess(s: State, id: Id): int {
    if Matchable(s, id) && IsMarketBuy(s.orders[id]) then Max(TotalCost(TradesOf(s, id)) - s.orders[id].locked, 0)
      else 0
  }

  function StepExcess(w: World, step: Step): int {
    if step.Match? && step.id in w.inflight then Excess(w.state, step.id) else 0
  }

  /** What market BUYs spent beyond their locks, over a whole run. */
  function Overspent(w: World, steps: seq<Step>): int {
    if steps == [] then 0
    else
      var before := steps[..|steps| - 1];
      Overspent(w, before) + StepExcess(Run(w, before), steps[|steps| - 1])
  }

  // ---------------------------------------------------------------- one trade

  lemma BuyLocksAfterTrade(orders: map<Id, Order>, t: Trade)
    requires ValidTrade(orders, t)
    ensures var x := t.BuyOrder();
            && x in orders && TradeOrders(orders, t).Keys == orders.Keys
            && TradeOrders(orders, t)[x].locked == Max(orders[x].locked - t.Cost(), 0)
            && SumMap(TradeOrders(orders, t), BuyLock())
               == SumMap(orders, BuyLock()) - orders[x].locked + TradeOrders(orders, t)[x].locked
  {
    var a, m := AfterTrade(t.taker, orders[t.taker], t), AfterTrade(t.maker, orders[t.maker], t);
    TradeIsTwoPuts(orders, t);
    SumMapPut(orders, BuyLock(), t.taker, a);
    SumMapPut(orders[t.taker := a], BuyLock(), t.maker, m);
  }

  lemma ReservedAfterTrade(balances: map<Id, Holding>, t: Trade)
    requires t.buyer != t.seller
    ensures var r := HoldingOf(balances, t.buyer).reserved;
            SumMap(SettleCash(balances, t), ReservedCash())
              == SumMap(balances, ReservedCash()) - r + Max(r - t.Cost(), 0)
  {
    var b := Debit(HoldingOf(balances, t.buyer), t.Cost());
    var paid := balances[t.buyer := b];
    var seller := HoldingOf(paid, t.seller);
    SumMapPut(balances, ReservedCash(), t.buyer, b);
    SumMapPut(paid, ReservedCash(), t.seller, seller.(available := seller.available + t.Cost()));
  }

  /** One trade: what is owed grows by what the trade costs beyond the buyer's lock, less what it
      costs beyond the buyer's reserve, which is created. */
  lemma TradeDebt(s: State, t: Trade)
    requires ValidTrade(s.orders, t)
    ensures var s', x := TradeStep(s, t), t.BuyOrder();
            && x in s.orders
            && Debt(s'.orders, s'.balances) + Shortage(HoldingOf(s.balances, t.buyer), t.Cost())
               == Debt(s.orders, s.balances) + Max(t.Cost() - s.orders[x].locked, 0)
  {
    BuyLocksAfterTrade(s.orders, t);
    ReservedAfterTrade(s.balances, t);
    hide SumMap;
    hide TradeOrders;
    hide SettleCash;
  }

  // ---------------------------------------------------------------- one section

  lemma ExcessAddsUp(lock: int, cost: int, rest: int)
    requires lock >= 0 && cost >= 0 && rest >= 0
    ensures Max(cost - lock, 0) + Max(rest - Max(lock - cost, 0), 0) == Max(cost + rest - lock, 0)
  {
  }

  /** What the trade costs beyond the lock of a market BUY; other locks cover it. */
  function TradeExcess(o: Order, t: Trade): int {
    if IsMarketBuy(o) then Max(t.Cost() - o.locked, 0) else 0
  }

  /** One trade of a search, as it changes lock and debt. */
  ghost predicate TradeLaw(s: State, t: Trade) {
    && t.taker in s.orders && t.taker in TradeStep(s, t).orders && t.Cost() > 0
    && var s', o := TradeStep(s, t), s.orders[t.taker];
       && IsMarketBuy(s'.orders[t.taker]) == IsMarketBuy(o) && o.locked >= 0
       && (IsMarketBuy(o) ==> s'.orders[t.taker].locked == Max(o.locked - t.Cost(), 0))
       && Debt(s'.orders, s'.balances) + Shortage(HoldingOf(s.balances, t.buyer), t.Cost())
          == Debt(s.orders, s.balances) + TradeExcess(o, t)
  }

  /** All trades of a search: only a market BUY can spend beyond its lock. */
  ghost predicate SearchLaw(s: State, taker: Id, ts: seq<Trade>) {
    && taker in s.orders && TotalCost(ts) >= 0 && s.orders[taker].locked >= 0
    && var s', o := TradeAll(s, ts), s.orders[taker];
       Debt(s'.orders, s'.balances) + SettleShortfall(s.balances, ts)
       == Debt(s.orders, s.balances) + if IsMarketBuy(o) then Max(TotalCost(ts) - o.locked, 0) else 0
  }

  lemma LawsCompose(s: State, ts: seq<Trade>)
    requires ts != [] && TradeLaw(s, ts[0]) && SearchLaw(TradeStep(s, ts[0]), ts[0].taker, ts[1..])
    ensures SearchLaw(s, ts[0].taker, ts)
  {
    var o, t := s.orders[ts[0].taker], ts[0];
    ExcessAddsUp(o.locked, t.Cost(), TotalCost(ts[1..]));
    hide Debt;
    hide TradeOrders;
    hide SettleShares;
    hide Max;
  }

  lemma SearchTrade(s: State, t: Trade, trades: seq<Trade>, closed: set<Id>, inflight: set<Id>)
    requires MidOk(s.orders, t.taker, trades, closed, inflight) && ValidTrade(s.orders, t)
    ensures TradeLaw(s, t)
  {
    assert s.orders[t.taker].locked >= 0 by { assert Sound(t.taker, s.orders[t.taker], trades, t.taker in closed); }
    SoundLocksCover(s.orders, t, trades, closed, inflight);
    hide MidOk;
    TradeDebt(s, t);
    BuyLocksAfterTrade(s.orders, t);
    TradeKeepsTerms(s.orders, t);
    hide Debt;
    hide TradeOrders;
    hide SettleCash;
    hide SettleShares;
    assert SameTerms(s.orders[t.taker], TradeStep(s, t).orders[t.taker]);
  }

  lemma {:induction false} SearchDebt(
    s: State, taker: Id, ts: seq<Trade>, trades: seq<Trade>, closed: set<Id>, inflight: set<Id>)
    requires MidOk(s.orders, taker, trades, closed, inflight) && ValidTrades(s.orders, taker, ts)
    requires forall t :: t in ts ==> t.maker !in inflight
    ensures SearchLaw(s, taker, ts)
    decreases |ts|
  {
    if ts == [] {
      assert Sound(taker, s.orders[taker], trades, taker in closed);
    } else {
      hide MidOk;
      hide ValidTrades;
      hide ValidTrade;
      hide TradeLaw;
      hide SearchLaw;
      hide TradeOrders;
      assert ts[0] in ts;
      FirstIsValid(s.orders, taker, ts);
      SearchTrade(s, ts[0], trades, closed, inflight);
      TradeKeepsMid(s.orders, ts[0], trades, closed, inflight);
      NextTradesValid(s.orders, taker, ts);
      SearchDebt(TradeStep(s, ts[0]), taker, ts[1..], trades + [ts[0]], closed, inflight);
      LawsCompose(s, ts);
    }
  }

  lemma RelabelKeepsDebt(orders: map<Id, Order>, balances: map<Id, Holding>, id: Id, status: Status)
    requires id in orders
    ensures Debt(WithStatus(orders, id, status), balances) == Debt(orders, balances)
  {
    SumMapPut(orders, BuyLock(), id, orders[id].(status := status));
    assert WithStatus(orders, id, status) == orders[id := orders[id].(status := status)];
  }

  /** Releasing settles the debt of the order: what its account cannot give back is created. */
  lemma ReleaseDebt(s: State, id: Id)
    requires id in s.orders && s.orders[id].locked >= 0
    ensures Debt(Release(s, id).orders, Release(s, id).balances) + ReleaseShortfall(s, id) == Debt(s.orders, s.balances)
  {
    hide PositionKey;
    var o := s.orders[id];
    if o.locked > 0 {
      SumMapPut(s.orders, BuyLock(), id, o.(locked := 0));
      SumMapPut(s.balances, ReservedCash(), o.user, Unfreeze(BalanceOf(s, o.user), o.locked));
      hide SumMap;
    }
  }

  lemma SearchObeys(w: World, id: Id)
    requires Safe(w) && id in w.inflight && Matchable(w.state, id)
    ensures SearchLaw(w.state, id, TradesOf(w.state, id))
  {
    hide TradesOf;
    hide SearchLaw;
    hide ValidTrades;
    SearchIsFit(w, id);
    MatchStartsMid(w, id);
    MatchIsTradeByTrade(w.state, id);
    hide Safe;
    hide MidOk;
    SearchDebt(w.state, id, TradesOf(w.state, id), w.log.trades, w.log.closed, w.inflight);
  }

  lemma TradedDebt(w: World, id: Id)
    requires Safe(w) && id in w.inflight && Matchable(w.state, id)
    ensures var mid := TradeAll(w.state, TradesOf(w.state, id));
            Debt(mid.orders, mid.balances) + SettleShortfall(w.state.balances, TradesOf(w.state, id))
            == Debt(w.state.orders, w.state.balances) + Excess(w.state, id)
  {
    hide TradesOf;
    hide Debt;
    hide TradeAll;
    hide SettleShortfall;
    hide TotalCost;
    hide Safe;
    hide Max;
    SearchObeys(w, id);
  }

  lemma SettledDebt(w: World, id: Id)
    requires Safe(w) && id in w.inflight && Matchable(w.state, id)
    ensures var done := Settled(w.state, id);
            && id in w.state.orders && done.orders[id].locked >= 0
            && Debt(done.orders, done.balances) + SettleShortfall(w.state.balances, TradesOf(w.state, id))
               == Debt(w.state.orders, w.state.balances) + Excess(w.state, id)
  {
    hide TradesOf;
    hide Debt;
    hide Excess;
    hide SettleShortfall;
    SearchIsFit(w, id);
    MatchReachesMid(w, id);
    SettledTaker(w.state, id);
    TradedDebt(w, id);
    hide Safe;
    ConcludedDebt(w.state, id);
    hide Settled;
    hide TradeAll;
  }

  lemma ConcludedDebt(s: State, id: Id)
    requires SearchFits(s, id)
    ensures var mid, done := TradeAll(s, TradesOf(s, id)), Settled(s, id);
            Debt(done.orders, done.balances) == Debt(mid.orders, mid.balances)
  {
    hide TradesOf;
    hide Debt;
    MatchIsTradeByTrade(s, id);
    TradedParts(s, id);
    TradeAllParts(s, TradesOf(s, id));
    hide Settled;
    hide TradeAll;
    hide Traded;
    var mid := Traded(s, id);
    ConcludeParts(mid, id);
    RelabelKeepsDebt(mid.orders, mid.balances, id, ConcludedStatus(mid.orders[id]));
    hide Conclude;
  }

  /** A matching section adds to what is created and owed together exactly what its market BUY
      spends beyond its lock. No hypothesis on reserves. */
  lemma MatchOwes(w: World, id: Id)
    requires Safe(w) && id in w.inflight && Matchable(w.state, id)
    ensures id in w.state.orders
    ensures AfterMatch(w, id).log.shortfall + Owed(AfterMatch(w, id)) == w.log.shortfall + Owed(w) + Excess(w.state, id)
  {
    hide AfterMatch;
    hide MatchSection;
    hide Settled;
    hide TradesOf;
    hide Debt;
    hide Excess;
    hide Safe;
    SettledDebt(w, id);
    MatchedWorld(w, id);
    ReleaseDebt(Settled(w.state, id), id);
    hide Release;
  }

  // ---------------------------------------------------------------- the other sections

  lemma SubmitOwes(w: World, o: Order)
    ensures Owed(AfterSubmit(w, o)) == Owed(w) && AfterSubmit(w, o).log.shortfall == w.log.shortfall
  {
    hide PositionKey;
    var amount, h := AmountToFreeze(w.state, o), BalanceOf(w.state, o.user);
    SumMapPut(w.state.balances, ReservedCash(), o.user, h);
    SumMapPut(w.state.balances, ReservedCash(), o.user, Holding(h.available - amount, h.reserved + amount));
    SumMapPut(w.state.orders, BuyLock(), o.id, o.(locked := amount));
    hide SumMap;
  }

  lemma CancelOwes(w: World, id: Id, event: Id)
    requires Safe(w)
    ensures AfterCancel(w, id, event).log.shortfall + Owed(AfterCancel(w, id, event)) == w.log.shortfall + Owed(w)
  {
    if CancelReply(w.state, id, event).Accepted? {
      hide PositionKey;
      hide RemoveId;
      var o := w.state.orders[id];
      var off := PutHalf(w.state, o.event, o.outcome, o.side,
        RemoveId(HalfOf(w.state, o.event, o.outcome, o.side), id));
      assert Sound(id, o, w.log.trades, id in w.log.closed);
      hide Safe;
      var marked := SetStatus(off, id, Canceled);
      RelabelKeepsDebt(w.state.orders, w.state.balances, id, Canceled);
      assert marked.orders == WithStatus(w.state.orders, id, Canceled);
      ReleaseDebt(marked, id);
      hide Debt;
      hide Release;
    }
  }

  lemma LossOwes(w: World, id: Id)
    requires id in w.state.orders
    ensures Owed(AfterLoss(w, id)) == Owed(w) && AfterLoss(w, id).log.shortfall == w.log.shortfall
  {
    SumMapRemove(w.state.orders, BuyLock(), id);
    SumSeqSnoc(w.log.dropped, w.state.orders[id], LostBuy());
    hide SumMap;
    hide SumSeq;
  }

  lemma UserOwes(w: World, user: Id)
    ensures Owed(AfterUser(w, user)) == Owed(w) && AfterUser(w, user).log.shortfall == w.log.shortfall
  {
    SumMapPut(w.state.balances, ReservedCash(), user, Holding(STARTING_BALANCE, 0));
    hide SumMap;
  }

  /** Created and owed together grow only by what a market BUY spends beyond its lock. */
  lemma StepOwes(w: World, step: Step)
    requires Safe(w)
    ensures Next(w, step).log.shortfall + Owed(Next(w, step)) == w.log.shortfall + Owed(w) + StepExcess(w, step)
  {
    hide Debt;
    hide AfterMatch;
    hide AfterSubmit;
    hide AfterCancel;
    hide Validate;
    hide TradesOf;
    match step
    case Submit(request, generated) =>
      if Validate(request, generated).Valid? {
        SubmitOwes(w, Validate(request, generated).order);
      }
    case CreateUser(user) => UserOwes(w, user);
    case Match(id) =>
      if id in w.inflight {
        if Matchable(w.state, id) {
          MatchOwes(w, id);
        } else {
          SkippedMatch(w, id);
        }
      }
    case LoseEmit(id) =>
      if id in w.inflight && id in w.state.orders {
        LossOwes(w, id);
      }
    case Cancel(id, event) => CancelOwes(w, id, event);
    case CreateEvent(event) =>
  }

  // ---------------------------------------------------------------- every run

  lemma SeededOwesNothing(w: World)
    requires Seeded(w)
    ensures Owed(w) == 0
  {
    SumMapZero(w.state.balances, ReservedCash());
  }

  /** Over every run, with no hypothesis: the cash that clamps created, plus the BUY locks that no
      reserve stands behind, is exactly what market BUYs spent beyond their locks. */
  lemma {:induction false} CashLaw(w: World, steps: seq<Step>)
    requires Seeded(w)
    ensures Run(w, steps).log.shortfall + Owed(Run(w, steps)) == Overspent(w, steps)
  {
    if steps == [] {
      SeededOwesNothing(w);
    } else {
      var before, last := steps[..|steps| - 1], steps[|steps| - 1];
      CashLaw(w, before);
      RunIsSafe(w, before);
      StepOwes(Run(w, before), last);
      hide Owed;
      hide Next;
      hide StepExcess;
      hide Safe;
    }
  }

  lemma {:induction false} OverspentIffUnfunded(w: World, steps: seq<Step>)
    requires Seeded(w)
    ensures Overspent(w, steps) >= 0
    ensures Overspent(w, steps) == 0 <==> FundedRun(w, steps)
  {
    if steps != [] {
      var before := steps[..|steps| - 1];
      OverspentIffUnfunded(w, before);
      RunIsSafe(w, before);
      hide TradesOf;
      hide Run;
    }
  }

  // ---------------------------------------------------------------- reserves never exceed locks

  /** No user has more cash in reserve than the locks that explain it. */
  ghost predicate Explained(s: State, dropped: seq<Order>) {
    forall u :: Held(s.balances, u).reserved <= Locked(s.orders, Buy, u) + Stranded(dropped, Buy, u)
  }

  ghost predicate ExplainedIn(w: World) {
    Explained(w.state, w.log.dropped) && LocksNonNegative(w.state.orders, w.log.dropped)
  }

  lemma LocksAddUp(orders: map<Id, Order>, dropped: seq<Order>, u: Id)
    requires LocksNonNegative(orders, dropped)
    ensures Locked(orders, Buy, u) >= 0 && Stranded(dropped, Buy, u) >= 0
    ensures forall x :: x in orders && orders[x].side.Buy? && orders[x].user == u ==>
      orders[x].locked <= Locked(orders, Buy, u)
  {
    StrandedNonNegative(dropped, Buy, u);
    SumMapLower(orders, LockFor(Buy, u));
    forall x | x in orders && orders[x].side.Buy? && orders[x].user == u
      ensures orders[x].locked <= Locked(orders, Buy, u)
    {
      assert LockFor(Buy, u)(x, orders[x]) == orders[x].locked;
    }
  }

  lemma TradeExplainedAt(s: State, t: Trade, dropped: seq<Order>, u: Id)
    requires ValidTrade(s.orders, t) && t.Cost() >= 0 && LocksNonNegative(s.orders, dropped) && Explained(s, dropped)
    ensures Held(SettleCash(s.balances, t), u).reserved
            <= Locked(TradeOrders(s.orders, t), Buy, u) + Stranded(dropped, Buy, u)
  {
    TradeAccounts(s.orders, t, Buy);
    BuyLocksAfterTrade(s.orders, t);
    LockedAfterTrade(s.orders, t, Buy, u);
    LocksAddUp(s.orders, dropped, u);
    assert Held(s.balances, u).reserved <= Locked(s.orders, Buy, u) + Stranded(dropped, Buy, u);
    hide Locked;
    hide Stranded;
    hide TradeOrders;
    hide SumMap;
    hide Explained;
    hide LocksNonNegative;
  }

  lemma TradeStaysExplained(s: State, t: Trade, dropped: seq<Order>)
    requires ValidTrade(s.orders, t) && t.Cost() >= 0 && LocksNonNegative(s.orders, dropped) && Explained(s, dropped)
    ensures Explained(TradeStep(s, t), dropped)
  {
    hide Locked;
    hide Stranded;
    hide TradeOrders;
    hide SettleCash;
    hide SettleShares;
    hide ValidTrade;
    forall u
      ensures Held(TradeStep(s, t).balances, u).reserved
        <= Locked(TradeStep(s, t).orders, Buy, u) + Stranded(dropped, Buy, u)
    {
      TradeExplainedAt(s, t, dropped, u);
    }
  }

  lemma {:induction false} TradesStayExplained(s: State, taker: Id, ts: seq<Trade>, dropped: seq<Order>)
    requires ValidTrades(s.orders, taker, ts) && LocksNonNegative(s.orders, dropped) && Explained(s, dropped)
    ensures Explained(TradeAll(s, ts), dropped) && LocksNonNegative(TradeAll(s, ts).orders, dropped)
    decreases |ts|
  {
    if ts != [] {
      FirstIsValid(s.orders, taker, ts);
      CostIsPositive(s.orders, ts[0]);
      NextTradesValid(s.orders, taker, ts);
      TradeLocksNonNegative(s.orders, ts[0], dropped);
      TradeStaysExplained(s, ts[0], dropped);
      hide ValidTrade;
      hide ValidTrades;
      hide Explained;
      hide LocksNonNegative;
      hide TradeOrders;
      TradesStayExplained(TradeStep(s, ts[0]), taker, ts[1..], dropped);
    }
  }

  lemma CostIsPositive(orders: map<Id, Order>, t: Trade)
    requires ValidTrade(orders, t)
    ensures t.Cost() > 0
  {
  }

  lemma RelabelStaysExplained(s: State, s': State, id: Id, dropped: seq<Order>)
    requires Explained(s, dropped) && LocksNonNegative(s.orders, dropped) && id in s.orders && s'.balances == s.balances
    requires exists status :: s'.orders == WithStatus(s.orders, id, status)
    ensures Explained(s', dropped) && LocksNonNegative(s'.orders, dropped)
  {
    forall u ensures Locked(s'.orders, Buy, u) == Locked(s.orders, Buy, u) {
      LockedPut(s.orders, id, s'.orders[id], Buy, u);
    }
  }

  lemma ReleaseStaysExplained(s: State, id: Id, dropped: seq<Order>)
    requires id in s.orders && LocksNonNegative(s.orders, dropped) && Explained(s, dropped)
    ensures Explained(Release(s, id), dropped) && LocksNonNegative(Release(s, id).orders, dropped)
  {
    hide PositionKey;
    var o, r := s.orders[id], Release(s, id);
    if o.locked > 0 {
      forall u ensures Held(r.balances, u).reserved <= Locked(r.orders, Buy, u) + Stranded(dropped, Buy, u) {
        LockedPut(s.orders, id, o.(locked := 0), Buy, u);
        LocksAddUp(s.orders, dropped, u);
        assert Held(s.balances, u).reserved <= Locked(s.orders, Buy, u) + Stranded(dropped, Buy, u);
        hide Locked;
        hide Stranded;
      }
    }
  }

  lemma MatchStaysExplained(w: World, id: Id)
    requires Safe(w) && ExplainedIn(w) && id in w.inflight && Matchable(w.state, id)
    ensures id in w.state.orders && ExplainedIn(AfterMatch(w, id))
  {
    hide AfterMatch;
    hide MatchSection;
    hide Settled;
    hide TradesOf;
    hide Explained;
    hide LocksNonNegative;
    var s, dropped := w.state, w.log.dropped;
    SearchIsFit(w, id);
    hide Safe;
    MatchIsTradeByTrade(s, id);
    TradesStayExplained(s, id, TradesOf(s, id), dropped);
    TradedIsTradeAll(s, id, dropped);
    ConcludeParts(Traded(s, id), id);
    RelabelStaysExplained(Traded(s, id), Settled(s, id), id, dropped);
    hide Traded;
    hide Conclude;
    MatchedWorld(w, id);
    ReleaseStaysExplained(Settled(s, id), id, dropped);
    hide Release;
  }

  lemma TradedIsTradeAll(s: State, id: Id, dropped: seq<Order>)
    requires Matchable(s, id)
    ensures Explained(TradeAll(s, TradesOf(s, id)), dropped) ==> Explained(Traded(s, id), dropped)
    ensures Traded(s, id).orders == TradeAll(s, TradesOf(s, id)).orders
  {
    TradedParts(s, id);
    TradeAllParts(s, TradesOf(s, id));
    hide TradesOf;
    hide Traded;
    hide TradeAll;
  }

  lemma SubmitStaysExplained(w: World, o: Order)
    requires ExplainedIn(w) && HoldingsOk(w.state) && Shape(o.id, o)
    ensures ExplainedIn(AfterSubmit(w, o))
  {
    hide PositionKey;
    var w' := AfterSubmit(w, o);
    ReserveFreezes(w.state, o);
    if Admit(w.state, o).reply.Accepted? {
      var o' := o.(locked := AmountToFreeze(w.state, o));
      assert w'.state.orders == w.state.orders[o.id := o'];
      forall u
        ensures Held(w'.state.balances, u).reserved
          <= Locked(w'.state.orders, Buy, u) + Stranded(w'.log.dropped, Buy, u)
      {
        LockedPut(w.state.orders, o.id, o', Buy, u);
        assert Held(w.state.balances, u).reserved <= Locked(w.state.orders, Buy, u) + Stranded(w.log.dropped, Buy, u);
        hide Locked;
        hide Stranded;
      }
    } else {
      hide Locked;
      hide Stranded;
    }
  }

  lemma CancelStaysExplained(w: World, id: Id, event: Id)
    requires ExplainedIn(w)
    ensures ExplainedIn(AfterCancel(w, id, event))
  {
    if CancelReply(w.state, id, event).Accepted? {
      hide PositionKey;
      hide RemoveId;
      hide Explained;
      hide LocksNonNegative;
      var o := w.state.orders[id];
      var off := PutHalf(w.state, o.event, o.outcome, o.side,
        RemoveId(HalfOf(w.state, o.event, o.outcome, o.side), id));
      var marked := SetStatus(off, id, Canceled);
      assert marked.orders == WithStatus(w.state.orders, id, Canceled);
      RelabelStaysExplained(w.state, marked, id, w.log.dropped);
      ReleaseStaysExplained(marked, id, w.log.dropped);
      hide Release;
    }
  }

  lemma LossStaysExplained(w: World, id: Id)
    requires ExplainedIn(w) && id in w.state.orders
    ensures ExplainedIn(AfterLoss(w, id))
  {
    var w', o := AfterLoss(w, id), w.state.orders[id];
    forall u
      ensures Held(w'.state.balances, u).reserved <= Locked(w'.state.orders, Buy, u) + Stranded(w'.log.dropped, Buy, u)
    {
      SumMapRemove(w.state.orders, LockFor(Buy, u), id);
      SumSeqSnoc(w.log.dropped, o, LostFor(Buy, u));
      assert LockFor(Buy, u)(id, o) == LostFor(Buy, u)(o);
      assert Held(w.state.balances, u).reserved <= Locked(w.state.orders, Buy, u) + Stranded(w.log.dropped, Buy, u);
    }
  }

  lemma UserStaysExplained(w: World, user: Id)
    requires ExplainedIn(w)
    ensures ExplainedIn(AfterUser(w, user))
  {
    var w' := AfterUser(w, user);
    forall u ensures Held(w'.state.balances, u).reserved == Held(w.state.balances, u).reserved {}
    hide Locked;
    hide Stranded;
  }

  lemma StepStaysExplained(w: World, step: Step)
    requires Safe(w) && ExplainedIn(w)
    ensures ExplainedIn(Next(w, step))
  {
    hide AfterMatch;
    hide AfterSubmit;
    hide AfterCancel;
    hide Validate;
    hide Explained;
    hide LocksNonNegative;
    match step
    case Submit(request, generated) =>
      ValidateShapes(request, generated);
      if Validate(request, generated).Valid? {
        SubmitStaysExplained(w, Validate(request, generated).order);
      }
    case CreateUser(user) => UserStaysExplained(w, user);
    case Match(id) =>
      if id in w.inflight {
        if Matchable(w.state, id) {
          MatchStaysExplained(w, id);
        } else {
          SkippedMatch(w, id);
        }
      }
    case LoseEmit(id) =>
      if id in w.inflight && id in w.state.orders {
        LossStaysExplained(w, id);
      }
    case Cancel(id, event) => CancelStaysExplained(w, id, event);
    case CreateEvent(event) => MarketStaysExplained(w, event);
  }

  lemma MarketStaysExplained(w: World, event: Id)
    requires ExplainedIn(w)
    ensures ExplainedIn(Next(w, CreateEvent(event)))
  {
    hide Locked;
    hide Stranded;
  }

  /** On every run, funded or not, each user's reserved cash is at most the locks of their BUY
      orders plus what failed emissions left behind. */
  lemma {:induction false} ReservesAreExplained(w: World, steps: seq<Step>)
    requires Seeded(w)
    ensures ExplainedIn(Run(w, steps))
  {
    if steps == [] {
      SeededIsExact(w, Buy);
    } else {
      var before := steps[..|steps| - 1];
      ReservesAreExplained(w, before);
      RunIsSafe(w, before);
      StepStaysExplained(Run(w, before), steps[|steps| - 1]);
      hide ExplainedIn;
      hide Next;
      hide Safe;
    }
  }

  // ---------------------------------------------------------------- when a run creates no cash

  ghost function LockedBy(orders: map<Id, Order>): (Id, Holding) -> int {
    (u: Id, h: Holding) => Locked(orders, Buy, u)
  }

  ghost function StrandedBy(dropped: seq<Order>): (Id, Holding) -> int {
    (u: Id, h: Holding) => Stranded(dropped, Buy, u)
  }

  ghost function OneStranded(o: Order): (Id, Holding) -> int {
    (u: Id, h: Holding) => if o.side.Buy? && o.user == u then o.locked else 0
  }

  lemma LocksByUser(orders: map<Id, Order>, balances: map<Id, Holding>)
    requires forall x :: x in orders ==> orders[x].locked >= 0
    ensures SumMap(balances, LockedBy(orders)) <= SumMap(orders, BuyLock())
  {
    forall u | u in balances
      ensures LockedBy(orders)(u, balances[u])
        == PartSum<Id, Holding, Id, Order>(orders, UserKey(), BuyLock())(u, balances[u])
    {
      SumMapSame(orders, Part(UserKey(), BuyLock(), u), orders, LockFor(Buy, u));
    }
    SumMapSame(balances, LockedBy(orders), balances, PartSum(orders, UserKey(), BuyLock()));
    SumByGroup(balances, orders, UserKey(), BuyLock());
    SumMapMonotone(orders, Sums.Within(balances, UserKey(), BuyLock()), orders, BuyLock());
  }

  lemma OneStrandedOnce(o: Order, balances: map<Id, Holding>)
    requires o.locked >= 0
    ensures SumMap(balances, OneStranded(o)) <= LostBuy()(o)
  {
    if o.user in balances {
      SumMapRemove(balances, OneStranded(o), o.user);
      SumMapZero(balances - {o.user}, OneStranded(o));
    } else {
      SumMapZero(balances, OneStranded(o));
    }
  }

  lemma {:induction false} StrandedByUser(dropped: seq<Order>, balances: map<Id, Holding>)
    requires forall o :: o in dropped ==> o.locked >= 0
    ensures SumMap(balances, StrandedBy(dropped)) <= SumSeq(dropped, LostBuy())
  {
    if dropped == [] {
      SumMapZero(balances, StrandedBy(dropped));
    } else {
      var n := |dropped| - 1;
      assert dropped[n] in dropped;
      StrandedByUser(dropped[..n], balances);
      OneStrandedOnce(dropped[n], balances);
      SumMapAdd(balances, StrandedBy(dropped[..n]), OneStranded(dropped[n]), StrandedBy(dropped));
    }
  }

  lemma OwedIsNotNegative(w: World)
    requires ExplainedIn(w)
    ensures Owed(w) >= 0
  {
    var b := w.state.balances;
    LocksByUser(w.state.orders, b);
    StrandedByUser(w.log.dropped, b);
    var both := (u: Id, h: Holding) => LockedBy(w.state.orders)(u, h) + StrandedBy(w.log.dropped)(u, h);
    SumMapAdd(b, LockedBy(w.state.orders), StrandedBy(w.log.dropped), both);
    forall u | u in b ensures ReservedCash()(u, b[u]) <= both(u, b[u]) {
      assert Held(b, u).reserved <= Locked(w.state.orders, Buy, u) + Stranded(w.log.dropped, Buy, u);
    }
    SumMapMonotone(b, ReservedCash(), b, both);
  }

  /** A run never creates more cash than market BUYs spent beyond their locks, and it creates none
      exactly when all of that is still owed by BUY locks. */
  lemma NoCashCreatedIff(w: World, steps: seq<Step>)
    requires Seeded(w)
    ensures 0 <= Run(w, steps).log.shortfall <= Overspent(w, steps)
    ensures Cash(Run(w, steps).state) == Cash(w.state) + Run(w, steps).log.grants * STARTING_BALANCE
            <==> Owed(Run(w, steps)) == Overspent(w, steps)
  {
    CashLaw(w, steps);
    ReservesAreExplained(w, steps);
    OwedIsNotNegative(Run(w, steps));
    CashDriftsExactly(w, steps);
    hide Run;
    hide Owed;
    hide Overspent;
    hide ExplainedIn;
  }

  /** No BUY has anything locked, in the table or lost. */
  ghost predicate NothingLocked(w: World) {
    && (forall x :: x in w.state.orders && w.state.orders[x].side.Buy? ==> w.state.orders[x].locked == 0)
    && (forall o :: o in w.log.dropped && o.side.Buy? ==> o.locked == 0)
  }

  lemma {:induction false} NothingLost(dropped: seq<Order>)
    requires forall o :: o in dropped && o.side.Buy? ==> o.locked == 0
    ensures SumSeq(dropped, LostBuy()) == 0
  {
    if dropped != [] {
      assert dropped[|dropped| - 1] in dropped;
      NothingLost(dropped[..|dropped| - 1]);
    }
  }

  lemma NothingOwed(w: World)
    requires ExplainedIn(w) && NothingLocked(w) && HoldingsOk(w.state)
    ensures Owed(w) == 0
  {
    OwedIsNotNegative(w);
    SumMapZero(w.state.orders, BuyLock());
    NothingLost(w.log.dropped);
    SumMapLower(w.state.balances, ReservedCash());
    hide SumMap;
    hide SumSeq;
    hide ExplainedIn;
  }

  /** Once no BUY has anything locked, a run has created exactly what market BUYs spent beyond
      their locks, and so none if and only if every market BUY was funded. */
  lemma FinalCashIffFunded(w: World, steps: seq<Step>)
    requires Seeded(w) && NothingLocked(Run(w, steps))
    ensures Run(w, steps).log.shortfall == Overspent(w, steps)
    ensures Cash(Run(w, steps).state) == Cash(w.state) + Run(w, steps).log.grants * STARTING_BALANCE
            <==> FundedRun(w, steps)
  {
    CashLaw(w, steps);
    ReservesAreExplained(w, steps);
    RunIsSafe(w, steps);
    NothingOwed(Run(w, steps));
    OverspentIffUnfunded(w, steps);
    CashDriftsExactly(w, steps);
    hide *;
  }

  // ---------------------------------------------------------------- how much one match creates

  /** What user `u` pays in the trades. */
  function Paid(ts: seq<Trade>, u: Id): int {
    if ts == [] then 0 else (if ts[0].buyer == u then ts[0].Cost() else 0) + Paid(ts[1..], u)
  }

  /** By how much the payments of a user exceed their reserve. */
  ghost function Short(ts: seq<Trade>): (Id, Holding) -> int {
    (u: Id, h: Holding) => Max(Paid(ts, u) - h.reserved, 0)
  }

  ghost predicate Payable(balances: map<Id, Holding>, ts: seq<Trade>) {
    && (forall t :: t in ts ==> t.buyer in balances && t.buyer != t.seller && t.Cost() >= 0)
    && (forall u :: u in balances ==> balances[u].reserved >= 0)
  }

  lemma {:induction false} PaidIsNotNegative(ts: seq<Trade>, u: Id)
    requires forall t :: t in ts ==> t.Cost() >= 0
    ensures Paid(ts, u) >= 0 && ((forall t :: t in ts ==> t.buyer != u) ==> Paid(ts, u) == 0)
  {
    if ts != [] {
      assert ts[0] in ts;
      PaidIsNotNegative(ts[1..], u);
    }
  }

  /** The buyer of the first trade accounts for the difference it makes. */
  lemma ShortCons(balances: map<Id, Holding>, ts: seq<Trade>)
    requires ts != [] && ts[0].buyer in balances
    ensures var b, rest := ts[0].buyer, ts[1..];
            SumMap(balances, Short(ts))
              == SumMap(balances, Short(rest)) - Short(rest)(b, balances[b]) + Short(ts)(b, balances[b])
  {
    var b, rest := ts[0].buyer, ts[1..];
    SumMapRemove(balances, Short(ts), b);
    SumMapRemove(balances, Short(rest), b);
    forall u | u in balances - {b} ensures Short(ts)(u, balances[u]) == Short(rest)(u, balances[u]) {
      assert Paid(ts, u) == Paid(rest, u);
    }
    SumMapSame(balances - {b}, Short(ts), balances - {b}, Short(rest));
  }

  lemma ShortAfter(balances: map<Id, Holding>, ts: seq<Trade>)
    requires ts != [] && Payable(balances, ts)
    ensures var t, rest := ts[0], ts[1..];
            SumMap(SettleCash(balances, t), Short(rest))
            == SumMap(balances, Short(rest)) - Short(rest)(t.buyer, balances[t.buyer])
               + Short(rest)(t.buyer, Debit(balances[t.buyer], t.Cost()))
  {
    hide SumMap;
    hide Max;
    var t, rest := ts[0], ts[1..];
    assert t in ts;
    var paid := balances[t.buyer := Debit(balances[t.buyer], t.Cost())];
    var seller := HoldingOf(paid, t.seller);
    SumMapPut(balances, Short(rest), t.buyer, paid[t.buyer]);
    SumMapPut(paid, Short(rest), t.seller, seller.(available := seller.available + t.Cost()));
    SellerIsNeverShort(balances, ts);
  }

  /** Being paid changes nothing about what the seller is short of. */
  lemma SellerIsNeverShort(balances: map<Id, Holding>, ts: seq<Trade>)
    requires ts != [] && Payable(balances, ts)
    ensures var u, rest := ts[0].seller, ts[1..];
            && (forall h: Holding, n: int :: Short(rest)(u, h.(available := n)) == Short(rest)(u, h))
            && (u !in balances ==> Short(rest)(u, ZERO) == 0)
  {
    assert forall t :: t in ts[1..] ==> t in ts;
    if ts[0].seller !in balances {
      PaidIsNotNegative(ts[1..], ts[0].seller);
    }
  }

  lemma StaysPayable(balances: map<Id, Holding>, ts: seq<Trade>)
    requires ts != [] && Payable(balances, ts)
    ensures Payable(SettleCash(balances, ts[0]), ts[1..])
  {
    assert ts[0] in ts;
    assert forall t :: t in ts[1..] ==> t in ts;
  }

  lemma ShortSplits(paid: int, reserved: int, cost: int)
    requires paid >= 0 && reserved >= 0 && cost >= 0
    ensures Max(cost + paid - reserved, 0) == Max(cost - reserved, 0) + Max(paid - Max(reserved - cost, 0), 0)
  {
  }

  lemma NobodyPays(balances: map<Id, Holding>)
    requires Payable(balances, [])
    ensures SumMap(balances, Short([])) == 0
  {
    forall u | u in balances ensures Short([])(u, balances[u]) == 0 {
      assert Paid([], u) == 0;
    }
    SumMapZero(balances, Short([]));
  }

  lemma FirstCreates(balances: map<Id, Holding>, ts: seq<Trade>)
    requires ts != [] && Payable(balances, ts)
    ensures var t := ts[0];
            SumMap(balances, Short(ts))
            == Shortage(HoldingOf(balances, t.buyer), t.Cost()) + SumMap(SettleCash(balances, t), Short(ts[1..]))
  {
    hide SumMap;
    hide SettleCash;
    hide Payable;
    FirstIsPayable(balances, ts);
    ShortCons(balances, ts);
    ShortAfter(balances, ts);
    ShortSplits(Paid(ts[1..], ts[0].buyer), balances[ts[0].buyer].reserved, ts[0].Cost());
  }

  /** Settling creates exactly what buyers pay beyond their reserves. */
  lemma {:induction false} SettlingCreates(balances: map<Id, Holding>, ts: seq<Trade>)
    requires Payable(balances, ts)
    ensures SettleShortfall(balances, ts) == SumMap(balances, Short(ts))
    decreases |ts|
  {
    hide SumMap;
    hide SettleCash;
    hide Payable;
    hide Short;
    hide Shortage;
    if ts == [] {
      NobodyPays(balances);
    } else {
      StaysPayable(balances, ts);
      SettlingCreates(SettleCash(balances, ts[0]), ts[1..]);
      FirstCreates(balances, ts);
    }
  }

  lemma FirstIsPayable(balances: map<Id, Holding>, ts: seq<Trade>)
    requires ts != [] && Payable(balances, ts)
    ensures var b := ts[0].buyer;
            b in balances && balances[b].reserved >= 0 && ts[0].Cost() >= 0 && Paid(ts[1..], b) >= 0
  {
    assert ts[0] in ts;
    assert forall t :: t in ts[1..] ==> t in ts;
    PaidIsNotNegative(ts[1..], ts[0].buyer);
  }

  /** Buyers in a search have accounts. */
  lemma SearchIsPayable(w: World, id: Id)
    requires Safe(w) && BuyersHaveAccounts(w.state) && id in w.inflight && Matchable(w.state, id)
    ensures Payable(w.state.balances, TradesOf(w.state, id))
  {
    hide TradesOf;
    SearchIsFit(w, id);
    MatchTrades(w.state, id);
    QuantitiesHold(w);
    SearchOnTerms(w.state.orders, id, TradesOf(w.state, id));
    ValidAreKnown(w.state.orders, id, TradesOf(w.state, id));
    forall t | t in TradesOf(w.state, id) ensures t.buyer in w.state.balances && t.buyer != t.seller && t.Cost() >= 0 {
      assert OnTerms(w.state.orders, t) && Proper(t);
      PositiveCost(t);
    }
  }

  lemma PositiveCost(t: Trade)
    requires t.quantity > 0 && t.price > 0
    ensures t.Cost() > 0
  {
  }

  /** What releasing a finished BUY creates: its remaining lock beyond its user's remaining
      reserve. */
  function ReleaseExcess(s: State, id: Id): int
    requires Matchable(s, id)
  {
    var o, cost := s.orders[id], TotalCost(TradesOf(s, id));
    if o.side.Buy? && Finished(Settled(s, id).orders[id].status)
    then Max(Max(o.locked - cost, 0) - Max(HoldingOf(s.balances, o.user).reserved - cost, 0), 0) else 0
  }

  /** In any reachable state matching creates exactly the cash by which the payments of each buyer
      exceed their reserve, and by which what is left of a finished BUY's lock exceeds what is
      left of the reserve. All of it can be read off the state before the match. */
  lemma MatchCreatesExactly(w: World, id: Id)
    requires Safe(w) && BuyersHaveAccounts(w.state) && id in w.inflight && Matchable(w.state, id)
    ensures id in w.state.orders
    ensures AfterMatch(w, id).log.shortfall - w.log.shortfall
            == SumMap(w.state.balances, Short(TradesOf(w.state, id))) + ReleaseExcess(w.state, id)
  {
    hide *;
    InTable(w, id);
    MatchedLog(w, id);
    SearchIsPayable(w, id);
    SettlingCreates(w.state.balances, TradesOf(w.state, id));
    ReleaseCreates(w, id);
  }

  lemma InTable(w: World, id: Id)
    requires Safe(w) && id in w.inflight
    ensures id in w.state.orders
  {
  }

  lemma ReleaseCreates(w: World, id: Id)
    requires Safe(w) && id in w.inflight && Matchable(w.state, id)
    ensures ReleaseExcess(w.state, id)
            == if Finished(Settled(w.state, id).orders[id].status) then ReleaseShortfall(Settled(w.state, id), id)
               else 0
  {
    hide Settled;
    hide TradesOf;
    hide TotalCost;
    hide Safe;
    hide CashAll;
    TakerAfter(w, id);
  }

  /** Side, user, lock and reserve of the taker once its trades are settled. */
  lemma TakerAfter(w: World, id: Id)
    requires Safe(w) && id in w.inflight && Matchable(w.state, id)
    ensures var o, cost, done := w.state.orders[id], TotalCost(TradesOf(w.state, id)), Settled(w.state, id);
            && id in w.state.orders && done.orders[id].user == o.user && done.orders[id].side == o.side
            && (o.side.Buy? ==>
                  && done.orders[id].locked == Max(o.locked - cost, 0)
                  && HoldingOf(done.balances, o.user).reserved
                     == Max(HoldingOf(w.state.balances, o.user).reserved - cost, 0))
  {
    hide *;
    InTable(w, id);
    MatchCovered(w, id);
    TakerStart(w, id);
    MatchedState(w.state, id);
    SettledTaker(w.state, id);
    TakerKeepsUser(w.state.orders, id, TradesOf(w.state, id));
    if w.state.orders[id].side.Buy? {
      BuyingShortfall(w.state.orders, id, TradesOf(w.state, id), w.state.balances);
      BuyingLock(w.state.orders, id, TradesOf(w.state, id));
    }
    HeldIs(w.state.balances, w.state.orders[id].user);
    HeldIs(Settled(w.state, id).balances, w.state.orders[id].user);
  }

  lemma HeldIs(m: map<Id, Holding>, u: Id)
    ensures Held(m, u) == HoldingOf(m, u)
  {
  }

  lemma TakerStart(w: World, id: Id)
    requires Safe(w) && id in w.state.orders
    ensures w.state.orders[id].locked >= 0 && Held(w.state.balances, w.state.orders[id].user).reserved >= 0
  {
    assert Sound(id, w.state.orders[id], w.log.trades, id in w.log.closed);
  }

  lemma TakerKeepsUser(orders: map<Id, Order>, taker: Id, ts: seq<Trade>)
    requires ValidTrades(orders, taker, ts) && taker in orders
    ensures var r := TradeOrdersAll(orders, ts)[taker];
            r.user == orders[taker].user && r.side == orders[taker].side
  {
    TakerKeepsTerms(orders, taker, ts);
  }

  // ---------------------------------------------------------------- how large holdings get

  /** On every run each balance lies between zero and the initial cash, the grants, and what
      market BUYs spent beyond their locks, which is nothing on funded runs; and each position
      between zero and the initial shares. */
  lemma HoldingsAreBounded(w: World, steps: seq<Step>, u: Id, key: string)
    requires Seeded(w)
    ensures var r := Run(w, steps);
            && 0 <= Held(r.state.balances, u).Total()
                 <= Cash(w.state) + r.log.grants * STARTING_BALANCE + Overspent(w, steps)
            && 0 <= Held(r.state.positions, key).Total() <= Total(w.state.positions, Everyone())
    ensures FundedRun(w, steps) ==> Overspent(w, steps) == 0
  {
    RunIsSafe(w, steps);
    NoCashCreatedIff(w, steps);
    CashDriftsExactly(w, steps);
    AllSharesConserved(w, steps);
    OverspentIffUnfunded(w, steps);
    var r := Run(w, steps);
    PartOfTotal(r.state.balances, u);
    PartOfTotal(r.state.positions, key);
    hide Run;
    hide Overspent;
    hide Total;
    hide Owed;
  }

  lemma PartOfTotal(m: map<string, Holding>, key: string)
    requires NonNegative(m)
    ensures 0 <= Held(m, key).Total() <= Total(m, Everyone())
  {
    SumMapLower(m, Worth(Everyone()));
    if key in m {
      assert Worth(Everyone())(key, m[key]) == m[key].Total();
    }
  }
}
