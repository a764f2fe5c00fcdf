/** Where the money is: reserves equal the locks that explain them, and cash and shares are
    conserved over every run. */
module Accounts {
  import opened Types
  import opened Sums
  import opened Ledger
  import opened Machine
  import opened Fills
  import opened Lifecycle
  import opened BookSafety

  // ---------------------------------------------------------------- reserves and locks

  function Held(m: map<string, Holding>, key: string): Holding { if key in m then m[key] else ZERO }

  /** The account an order is reserved against: its user's cash or its user's position. */
  function AccountOf(o: Order): string {
    if o.side.Buy? then o.user else PositionKey(o.user, o.event, o.outcome)
  }

  function AccountsOn(s: State, side: Side): map<string, Holding> {
    if side.Buy? then s.balances else s.positions
  }

  /** The lock of an order, counted for one account. */
  ghost function LockFor(side: Side, key: string): (Id, Order) -> int {
    (id: Id, o: Order) => if o.side == side && AccountOf(o) == key then o.locked else 0
  }

  ghost function LostFor(side: Side, key: string): Order -> int {
    (o: Order) => if o.side == side && AccountOf(o) == key then o.locked else 0
  }

  ghost function UserKey(): (Id, Order) -> Id { (x: Id, o: Order) => o.user }

  ghost function BuyLock(): (Id, Order) -> int { (x: Id, o: Order) => if o.side.Buy? then o.locked else 0 }

  ghost function ReservedCash(): (Id, Holding) -> int { (u: Id, h: Holding) => h.reserved }

  /** Locks of all tabled orders, of any status, on the account. */
  ghost function Locked(orders: map<Id, Order>, side: Side, key: string): int {
    SumMap(orders, LockFor(side, key))
  }

  /** Reservations left behind by orders whose emission failed. */
  ghost function Stranded(dropped: seq<Order>, side: Side, key: string): int {
    SumSeq(dropped, LostFor(side, key))
  }

  /** Every reserve is exactly the sum of the locks against it. */
  ghost predicate ReservesExact(s: State, dropped: seq<Order>, side: Side) {
    forall key :: Held(AccountsOn(s, side), key).reserved == Locked(s.orders, side, key) + Stranded(dropped, side, key)
  }

  ghost predicate LocksNonNegative(orders: map<Id, Order>, dropped: seq<Order>) {
    && (forall x :: x in orders ==> orders[x].locked >= 0)
    && (forall o :: o in dropped ==> o.locked >= 0)
  }

  lemma {:induction false} StrandedNonNegative(dropped: seq<Order>, side: Side, key: string)
    requires forall o :: o in dropped ==> o.locked >= 0
    ensures Stranded(dropped, side, key) >= 0
  {
    if dropped != [] {
      var n := |dropped| - 1;
      assert dropped[n] in dropped;
      StrandedNonNegative(dropped[..n], side, key);
    }
  }

  /** A reserve covers each lock against it. */
  lemma ReserveCovers(s: State, dropped: seq<Order>, id: Id)
    requires id in s.orders && LocksNonNegative(s.orders, dropped) && ReservesExact(s, dropped, s.orders[id].side)
    ensures var o := s.orders[id];
            Held(AccountsOn(s, o.side), AccountOf(o)).reserved >= o.locked
  {
    var o := s.orders[id];
    var f := LockFor(o.side, AccountOf(o));
    SumMapLower(s.orders, f);
    assert f(id, s.orders[id]) == o.locked;
    StrandedNonNegative(dropped, o.side, AccountOf(o));
  }

  /** Changing one order moves the locks of its account by the difference. */
  lemma LockedPut(orders: map<Id, Order>, id: Id, o: Order, side: Side, key: string)
    requires id in orders ==> orders[id].side == o.side && AccountOf(orders[id]) == AccountOf(o)
    ensures Locked(orders[id := o], side, key)
            == Locked(orders, side, key)
               + if o.side == side && AccountOf(o) == key
                 then o.locked - (if id in orders then orders[id].locked else 0) else 0
  {
    SumMapPut(orders, LockFor(side, key), id, o);
  }

  // ---------------------------------------------------------------- one trade

  function OrderOn(t: Trade, side: Side): Id { if side.Buy? then t.BuyOrder() else t.SellOrder() }

  lemma TradeIsTwoPuts(orders: map<Id, Order>, t: Trade)
    requires ValidTrade(orders, t)
    ensures TradeOrders(orders, t)
            == orders[t.taker := AfterTrade(t.taker, orders[t.taker], t)]
                     [t.maker := AfterTrade(t.maker, orders[t.maker], t)]
  {
  }

  /** What the trade takes from the locks on one side. */
  lemma LockedAfterTrade(orders: map<Id, Order>, t: Trade, side: Side, key: string)
    requires ValidTrade(orders, t)
    ensures var x := OrderOn(t, side);
            && x in orders && orders[x].side == side
            && Locked(TradeOrders(orders, t), side, key)
               == Locked(orders, side, key)
                  - if AccountOf(orders[x]) == key then orders[x].locked - TradeOrders(orders, t)[x].locked else 0
  {
    var a, m := AfterTrade(t.taker, orders[t.taker], t), AfterTrade(t.maker, orders[t.maker], t);
    TradeIsTwoPuts(orders, t);
    LockedPut(orders, t.taker, a, side, key);
    LockedPut(orders[t.taker := a], t.maker, m, side, key);
  }

  /** The trade can be paid from the lock of its order on this side, without clamping. */
  predicate LockCovers(orders: map<Id, Order>, t: Trade, side: Side) {
    var x := OrderOn(t, side);
    x in orders && Share(side, t) <= orders[x].locked
  }

  lemma TradeAccounts(orders: map<Id, Order>, t: Trade, side: Side)
    requires ValidTrade(orders, t)
    ensures AccountOf(orders[OrderOn(t, side)])
            == if side.Buy? then t.buyer else PositionKey(t.seller, t.event, t.outcome)
    ensures LockCovers(orders, t, side) ==>
              TradeOrders(orders, t)[OrderOn(t, side)].locked == orders[OrderOn(t, side)].locked - Share(side, t)
  {
    TradeIsTwoPuts(orders, t);
  }

  /** The reserves a trade leaves behind when they cover it. */
  lemma TradeReserves(s: State, t: Trade, side: Side, key: string)
    requires ValidTrade(s.orders, t)
    requires var x := OrderOn(t, side);
             Held(AccountsOn(s, side), AccountOf(s.orders[x])).reserved >= Share(side, t)
    ensures Held(AccountsOn(TradeStep(s, t), side), key).reserved
            == Held(AccountsOn(s, side), key).reserved
               - if key == AccountOf(s.orders[OrderOn(t, side)]) then Share(side, t) else 0
  {
    TradeAccounts(s.orders, t, side);
  }

  /** A trade covered by the lock keeps reserves exact and clamps nothing on this side. */
  lemma TradeKeepsExact(s: State, t: Trade, side: Side, dropped: seq<Order>)
    requires ValidTrade(s.orders, t) && LockCovers(s.orders, t, side)
    requires LocksNonNegative(s.orders, dropped) && ReservesExact(s, dropped, side)
    ensures ReservesExact(TradeStep(s, t), dropped, side)
    ensures Held(AccountsOn(s, side), AccountOf(s.orders[OrderOn(t, side)])).reserved >= Share(side, t)
  {
    ReserveCovers(s, dropped, OrderOn(t, side));
    TradeAccounts(s.orders, t, side);
    forall key
      ensures Held(AccountsOn(TradeStep(s, t), side), key).reserved
              == Locked(TradeStep(s, t).orders, side, key) + Stranded(dropped, side, key)
    {
      LockedAfterTrade(s.orders, t, side, key);
      TradeReserves(s, t, side, key);
    }
  }

  // ---------------------------------------------------------------- all trades of a search

  /** Every trade of the list is covered by the lock of its order when it is settled. */
  ghost predicate Covered(orders: map<Id, Order>, side: Side, ts: seq<Trade>)
    decreases |ts|
  {
    ts == [] || (LockCovers(orders, ts[0], side) && Covered(TradeOrders(orders, ts[0]), side, ts[1..]))
  }

  lemma {:induction false} TradesKeepExact(s: State, taker: Id, ts: seq<Trade>, side: Side, dropped: seq<Order>)
    requires ValidTrades(s.orders, taker, ts) && Covered(s.orders, side, ts)
    requires LocksNonNegative(s.orders, dropped) && ReservesExact(s, dropped, side)
    ensures ReservesExact(TradeAll(s, ts), dropped, side) && LocksNonNegative(TradeAll(s, ts).orders, dropped)
    decreases |ts|
  {
    if ts != [] {
      TradeKeepsExact(s, ts[0], side, dropped);
      NextTradesValid(s.orders, taker, ts);
      TradeLocksNonNegative(s.orders, ts[0], dropped);
      TradesKeepExact(TradeStep(s, ts[0]), taker, ts[1..], side, dropped);
    }
  }

  lemma TradeLocksNonNegative(orders: map<Id, Order>, t: Trade, dropped: seq<Order>)
    requires LocksNonNegative(orders, dropped)
    ensures LocksNonNegative(TradeOrders(orders, t), dropped)
  {
  }

  function TotalCost(ts: seq<Trade>): int {
    if ts == [] then 0 else ts[0].Cost() + TotalCost(ts[1..])
  }

  predicate IsMarketBuy(o: Order) { o.side.Buy? && o.kind.MarketOrder? }

  /** A SELL and a limit BUY always cover their trades; only a market BUY may not. */
  lemma SoundLocksCover(orders: map<Id, Order>, t: Trade, trades: seq<Trade>, closed: set<Id>, inflight: set<Id>)
    requires MidOk(orders, t.taker, trades, closed, inflight) && ValidTrade(orders, t)
    ensures LockCovers(orders, t, Sell) && t.Cost() > 0
    ensures !IsMarketBuy(orders[t.taker]) ==> LockCovers(orders, t, Buy)
  {
    var a, m := orders[t.taker], orders[t.maker];
    assert Sound(t.taker, a, trades, t.taker in closed) && Sound(t.maker, m, trades, t.maker in closed);
    LockArithmetic(m.remaining, t.quantity, m.price, t.price);
    if a.side.Buy? && a.kind.LimitOrder? {
      LockArithmetic(a.remaining, t.quantity, a.price, t.price);
    }
  }

  /** Share locks always cover a search; cash locks cover it exactly when the taker is not a
      market BUY that spends more than it locked. */
  lemma {:induction false} SearchCovered(
    orders: map<Id, Order>, taker: Id, ts: seq<Trade>, trades: seq<Trade>, closed: set<Id>, inflight: set<Id>)
    requires MidOk(orders, taker, trades, closed, inflight) && ValidTrades(orders, taker, ts)
    requires forall t :: t in ts ==> t.maker !in inflight
    ensures Covered(orders, Sell, ts)
    ensures TotalCost(ts) >= 0
    ensures Covered(orders, Buy, ts) <==> (IsMarketBuy(orders[taker]) ==> TotalCost(ts) <= orders[taker].locked)
    decreases |ts|
  {
    if ts == [] {
      assert orders[taker].locked >= 0 by { assert Sound(taker, orders[taker], trades, taker in closed); }
    } else {
      var t, next := ts[0], TradeOrders(orders, ts[0]);
      assert t in ts;
      SoundLocksCover(orders, t, trades, closed, inflight);
      TradeKeepsMid(orders, t, trades, closed, inflight);
      NextTradesValid(orders, taker, ts);
      SearchCovered(next, taker, ts[1..], trades + [t], closed, inflight);
      TradeAccounts(orders, t, Buy);
      assert IsMarketBuy(next[taker]) == IsMarketBuy(orders[taker]);
    }
  }

  // ---------------------------------------------------------------- no clamp

  /** No reserve and no lock is clamped while settling the trade. */
  predicate TradeUnclamped(s: State, t: Trade) {
    && LockCovers(s.orders, t, Buy) && LockCovers(s.orders, t, Sell)
    && t.Cost() <= Held(s.balances, t.buyer).reserved
    && t.quantity <= Held(s.positions, PositionKey(t.seller, t.event, t.outcome)).reserved
  }

  ghost predicate TradesUnclamped(s: State, ts: seq<Trade>)
    decreases |ts|
  {
    ts == [] || (TradeUnclamped(s, ts[0]) && TradesUnclamped(TradeStep(s, ts[0]), ts[1..]))
  }

  /** With exact reserves, settling clamps nothing exactly when every lock covers its trades. */
  lemma {:induction false} CoveredIsUnclamped(s: State, taker: Id, ts: seq<Trade>, dropped: seq<Order>)
    requires ValidTrades(s.orders, taker, ts) && LocksNonNegative(s.orders, dropped)
    requires ReservesExact(s, dropped, Buy) && ReservesExact(s, dropped, Sell)
    ensures TradesUnclamped(s, ts) <==> Covered(s.orders, Buy, ts) && Covered(s.orders, Sell, ts)
    decreases |ts|
  {
    if ts != [] && LockCovers(s.orders, ts[0], Buy) && LockCovers(s.orders, ts[0], Sell) {
      var t := ts[0];
      TradeKeepsExact(s, t, Buy, dropped);
      TradeKeepsExact(s, t, Sell, dropped);
      TradeAccounts(s.orders, t, Buy);
      TradeAccounts(s.orders, t, Sell);
      NextTradesValid(s.orders, taker, ts);
      TradeLocksNonNegative(s.orders, t, dropped);
      CoveredIsUnclamped(TradeStep(s, t), taker, ts[1..], dropped);
    }
  }

  // ---------------------------------------------------------------- the critical sections

  ghost predicate ExactOn(w: World, side: Side) {
    ReservesExact(w.state, w.log.dropped, side) && LocksNonNegative(w.state.orders, w.log.dropped)
  }

  /** Status and book changes are invisible to the accounts. */
  lemma RelabelKeepsExact(s: State, s': State, id: Id, dropped: seq<Order>, side: Side)
    requires ReservesExact(s, dropped, side) && id in s.orders
    requires s'.balances == s.balances && s'.positions == s.positions
    requires exists status :: s'.orders == WithStatus(s.orders, id, status)
    ensures ReservesExact(s', dropped, side)
  {
    forall key ensures Locked(s'.orders, side, key) == Locked(s.orders, side, key) {
      LockedPut(s.orders, id, s'.orders[id], side, key);
    }
    assert AccountsOn(s', side) == AccountsOn(s, side);
  }

  lemma ReleaseKeepsExact(s: State, id: Id, dropped: seq<Order>, side: Side)
    requires id in s.orders && LocksNonNegative(s.orders, dropped) && ReservesExact(s, dropped, side)
    ensures ReservesExact(Release(s, id), dropped, side) && LocksNonNegative(Release(s, id).orders, dropped)
  {
    var o, r := s.orders[id], Release(s, id);
    if o.locked > 0 {
      if o.side == side {
        ReserveCovers(s, dropped, id);
      }
      forall key
        ensures Held(AccountsOn(r, side), key).reserved == Locked(r.orders, side, key) + Stranded(dropped, side, key)
      {
        LockedPut(s.orders, id, o.(locked := 0), side, key);
      }
    }
  }

  lemma AdmitKeepsExact(w: World, o: Order, side: Side)
    requires ExactOn(w, side) && HoldingsOk(w.state) && Shape(o.id, o)
    ensures ExactOn(AfterSubmit(w, o), side)
  {
    var w' := AfterSubmit(w, o);
    ReserveFreezes(w.state, o);
    if Admit(w.state, o).reply.Accepted? {
      var o' := o.(locked := AmountToFreeze(w.state, o));
      assert w'.state.orders == w.state.orders[o.id := o'];
      forall key
        ensures Held(AccountsOn(w'.state, side), key).reserved
                == Locked(w'.state.orders, side, key) + Stranded(w'.log.dropped, side, key)
      {
        LockedPut(w.state.orders, o.id, o', side, key);
      }
    }
  }

  lemma CancelKeepsExact(w: World, id: Id, event: Id, side: Side)
    requires ExactOn(w, side)
    ensures ExactOn(AfterCancel(w, id, event), side)
  {
    if CancelReply(w.state, id, event).Accepted? {
      var o := w.state.orders[id];
      var s' := PutHalf(w.state, o.event, o.outcome, o.side, RemoveId(HalfOf(w.state, o.event, o.outcome, o.side), id));
      var s2 := SetStatus(s', id, Canceled);
      assert s2.orders == WithStatus(w.state.orders, id, Canceled);
      RelabelKeepsExact(w.state, s2, id, w.log.dropped, side);
      ReleaseKeepsExact(s2, id, w.log.dropped, side);
    }
  }

  lemma LossKeepsExact(w: World, id: Id, side: Side)
    requires ExactOn(w, side) && id in w.state.orders
    ensures ExactOn(AfterLoss(w, id), side)
  {
    var w', o := AfterLoss(w, id), w.state.orders[id];
    forall key
      ensures Held(AccountsOn(w'.state, side), key).reserved
              == Locked(w'.state.orders, side, key) + Stranded(w'.log.dropped, side, key)
    {
      SumMapRemove(w.state.orders, LockFor(side, key), id);
      SumSeqSnoc(w.log.dropped, o, LostFor(side, key));
      assert LockFor(side, key)(id, o) == LostFor(side, key)(o);
      assert Held(AccountsOn(w.state, side), key).reserved
        == Locked(w.state.orders, side, key) + Stranded(w.log.dropped, side, key);
    }
  }

  lemma OpenUserKeepsExact(w: World, user: Id, side: Side)
    requires ExactOn(w, side)
    ensures ExactOn(AfterUser(w, user), side)
  {
    var w' := AfterUser(w, user);
    forall key ensures Held(AccountsOn(w'.state, side), key).reserved
      == Held(AccountsOn(w.state, side), key).reserved {}
  }

  // ---------------------------------------------------------------- funding

  /** The market BUY about to be matched can pay for what it finds. Everything in this condition
      is known before the section starts: the book, and the cash the order has locked. */
  predicate Funded(s: State, id: Id) {
    Matchable(s, id) && IsMarketBuy(s.orders[id]) ==> TotalCost(TradesOf(s, id)) <= s.orders[id].locked
  }

  lemma MatchCovered(w: World, id: Id)
    requires Safe(w) && id in w.inflight && Matchable(w.state, id)
    ensures SearchFits(w.state, id) && ValidTrades(w.state.orders, id, TradesOf(w.state, id))
    ensures Covered(w.state.orders, Sell, TradesOf(w.state, id))
    ensures Covered(w.state.orders, Buy, TradesOf(w.state, id)) <==> Funded(w.state, id)
  {
    SearchIsFit(w, id);
    MatchStartsMid(w, id);
    MatchIsTradeByTrade(w.state, id);
    SearchCovered(w.state.orders, id, TradesOf(w.state, id), w.log.trades, w.log.closed, w.inflight);
  }

  /** No clamp fires anywhere in the matching section: not while settling, not on release. */
  ghost predicate MatchUnclamped(s: State, id: Id)
    requires Matchable(s, id)
  {
    && TradesUnclamped(s, TradesOf(s, id))
    && var done := Settled(s, id);
       Finished(done.orders[id].status) ==>
         Held(AccountsOn(done, done.orders[id].side), AccountOf(done.orders[id])).reserved >= done.orders[id].locked
  }

  /** A matching section clamps nothing if and only if the order is funded. */
  lemma UnclampedIffFunded(w: World, id: Id)
    requires Safe(w) && ExactOn(w, Buy) && ExactOn(w, Sell) && id in w.inflight && Matchable(w.state, id)
    ensures MatchUnclamped(w.state, id) <==> Funded(w.state, id)
  {
    var s, dropped, ts := w.state, w.log.dropped, TradesOf(w.state, id);
    MatchCovered(w, id);
    CoveredIsUnclamped(s, id, ts, dropped);
    if Funded(s, id) {
      ReleaseUnclamped(w, id, Buy);
      ReleaseUnclamped(w, id, Sell);
    }
  }

  /** Reserves are exact again before the taker is released. */
  lemma SettledExact(w: World, id: Id, side: Side)
    requires ExactOn(w, side) && SearchFits(w.state, id) && Covered(w.state.orders, side, TradesOf(w.state, id))
    ensures ReservesExact(Settled(w.state, id), w.log.dropped, side)
    ensures LocksNonNegative(Settled(w.state, id).orders, w.log.dropped)
  {
    var s, dropped, ts := w.state, w.log.dropped, TradesOf(w.state, id);
    MatchIsTradeByTrade(s, id);
    TradesKeepExact(s, id, ts, side, dropped);
    var mid := Traded(s, id);
    assert ReservesExact(mid, dropped, side) && LocksNonNegative(mid.orders, dropped);
    ConcludeParts(mid, id);
    RelabelKeepsExact(mid, Conclude(mid, id), id, dropped, side);
  }

  /** A matching section whose trades the locks cover keeps the reserves exact. */
  lemma MatchKeepsExact(w: World, id: Id, side: Side)
    requires ExactOn(w, side) && SearchFits(w.state, id)
    requires Covered(w.state.orders, side, TradesOf(w.state, id))
    ensures ExactOn(AfterMatch(w, id), side)
  {
    SettledExact(w, id, side);
    ReleaseKeepsExact(Settled(w.state, id), id, w.log.dropped, side);
  }

  lemma ReleaseUnclamped(w: World, id: Id, side: Side)
    requires ExactOn(w, side) && SearchFits(w.state, id) && Covered(w.state.orders, side, TradesOf(w.state, id))
    ensures var done := Settled(w.state, id);
            done.orders[id].side == side ==>
              Held(AccountsOn(done, side), AccountOf(done.orders[id])).reserved >= done.orders[id].locked
  {
    SettledExact(w, id, side);
    if Settled(w.state, id).orders[id].side == side {
      ReserveCovers(Settled(w.state, id), w.log.dropped, id);
    }
  }

  // ---------------------------------------------------------------- every run

  ghost predicate StepFunded(w: World, step: Step) {
    step.Match? && step.id in w.inflight ==> Funded(w.state, step.id)
  }

  /** Every market BUY of the run is funded when it is matched. */
  ghost predicate FundedRun(w: World, steps: seq<Step>) {
    steps == [] || (
      && FundedRun(w, steps[..|steps| - 1])
      && StepFunded(Run(w, steps[..|steps| - 1]), steps[|steps| - 1]))
  }

  lemma StepKeepsExact(w: World, step: Step, side: Side)
    requires Safe(w) && ExactOn(w, side) && (side.Buy? ==> StepFunded(w, step))
    ensures ExactOn(Next(w, step), side)
  {
    match step
    case CreateEvent(event) =>
    case CreateUser(user) => OpenUserKeepsExact(w, user, side);
    case Submit(request, generated) =>
      ValidateShapes(request, generated);
      if Validate(request, generated).Valid? {
        AdmitKeepsExact(w, Validate(request, generated).order, side);
      }
    case Match(id) =>
      if id in w.inflight {
        if Matchable(w.state, id) {
          MatchCovered(w, id);
          MatchKeepsExact(w, id, side);
        } else {
          SkippedMatch(w, id);
        }
      }
    case LoseEmit(id) =>
      if id in w.inflight {
        LossKeepsExact(w, id, side);
      }
    case Cancel(id, event) => CancelKeepsExact(w, id, event, side);
  }

  lemma SeededIsExact(w: World, side: Side)
    requires Seeded(w)
    ensures ExactOn(w, side)
  {
  }

  /** On every run each position's reserved shares are exactly the locks of its SELL orders, of
      any status, plus what failed emissions left behind. No funding hypothesis is needed. */
  lemma {:induction false} SharesReservedExactly(w: World, steps: seq<Step>)
    requires Seeded(w)
    ensures ExactOn(Run(w, steps), Sell)
  {
    if steps == [] {
      SeededIsExact(w, Sell);
    } else {
      var before := steps[..|steps| - 1];
      SharesReservedExactly(w, before);
      RunIsSafe(w, before);
      StepKeepsExact(Run(w, before), steps[|steps| - 1], Sell);
    }
  }

  /** On every run with funded market BUYs each user's reserved cash is exactly the locks of
      their BUY orders, of any status, plus what failed emissions left behind. */
  lemma {:induction false} CashReservedExactly(w: World, steps: seq<Step>)
    requires Seeded(w) && FundedRun(w, steps)
    ensures ExactOn(Run(w, steps), Buy)
  {
    if steps == [] {
      SeededIsExact(w, Buy);
    } else {
      var before := steps[..|steps| - 1];
      CashReservedExactly(w, before);
      RunIsSafe(w, before);
      StepKeepsExact(Run(w, before), steps[|steps| - 1], Buy);
    }
  }

  // ---------------------------------------------------------------- no clamp, over whole runs

  /** No reserve and no lock is clamped during the step. */
  ghost predicate StepUnclamped(w: World, step: Step) {
    match step
    case Match(id) => id in w.inflight && Matchable(w.state, id) ==> MatchUnclamped(w.state, id)
    case Cancel(id, event) =>
      CancelReply(w.state, id, event).Accepted? ==>
        var o := w.state.orders[id];
        Held(AccountsOn(w.state, o.side), AccountOf(o)).reserved >= o.locked
    case _ => true
  }

  ghost predicate UnclampedRun(w: World, steps: seq<Step>) {
    steps == [] || (
      && UnclampedRun(w, steps[..|steps| - 1])
      && StepUnclamped(Run(w, steps[..|steps| - 1]), steps[|steps| - 1]))
  }

  lemma StepUnclampedIffFunded(w: World, step: Step)
    requires Safe(w) && ExactOn(w, Buy) && ExactOn(w, Sell)
    ensures StepUnclamped(w, step) <==> StepFunded(w, step)
  {
    match step
    case Match(id) =>
      if id in w.inflight && Matchable(w.state, id) {
        UnclampedIffFunded(w, id);
      }
      hide MatchUnclamped;
    case Cancel(id, event) =>
      if CancelReply(w.state, id, event).Accepted? {
        ReserveCovers(w.state, w.log.dropped, id);
      }
    case _ =>
  }

  /** Over every run, under every interleaving, no clamp ever fires if and only if every market
      BUY is funded when it is matched. */
  lemma {:induction false} NoClampIffFunded(w: World, steps: seq<Step>)
    requires Seeded(w)
    ensures UnclampedRun(w, steps) <==> FundedRun(w, steps)
  {
    if steps != [] {
      var before, last := steps[..|steps| - 1], steps[|steps| - 1];
      NoClampIffFunded(w, before);
      if FundedRun(w, before) {
        RunIsSafe(w, before);
        SharesReservedExactly(w, before);
        CashReservedExactly(w, before);
        StepUnclampedIffFunded(Run(w, before), last);
      }
      hide StepUnclamped;
      hide StepFunded;
    }
  }

  // ---------------------------------------------------------------- a buyer's side of a search

  lemma {:induction false} BuyingShortfall(
    orders: map<Id, Order>, taker: Id, ts: seq<Trade>, balances: map<Id, Holding>)
    requires taker in orders && orders[taker].side.Buy? && ValidTrades(orders, taker, ts)
    requires Held(balances, orders[taker].user).reserved >= 0
    ensures var u := orders[taker].user;
            && TotalCost(ts) >= 0
            && SettleShortfall(balances, ts) == Max(TotalCost(ts) - Held(balances, u).reserved, 0)
            && Held(CashAll(balances, ts), u).reserved == Max(Held(balances, u).reserved - TotalCost(ts), 0)
    decreases |ts|
  {
    if ts != [] {
      var t := ts[0];
      assert t.Cost() > 0;
      BuyingShortfall(ApplyFill(orders, t), taker, ts[1..], SettleCash(balances, t));
    }
  }

  lemma BuyingOnce(orders: map<Id, Order>, t: Trade)
    requires ValidTrade(orders, t) && orders[t.taker].side.Buy?
    ensures t.taker in TradeOrders(orders, t)
    ensures var r := TradeOrders(orders, t)[t.taker];
            r.side.Buy? && r.locked == Max(orders[t.taker].locked - t.Cost(), 0) && t.Cost() > 0
  {
    TradeIsTwoPuts(orders, t);
    hide TradeOrders;
    assert t.quantity * t.price > 0;
  }

  lemma {:induction false} BuyingLock(orders: map<Id, Order>, taker: Id, ts: seq<Trade>)
    requires taker in orders && orders[taker].side.Buy? && ValidTrades(orders, taker, ts) && orders[taker].locked >= 0
    ensures TradeOrdersAll(orders, ts)[taker].locked == Max(orders[taker].locked - TotalCost(ts), 0)
    ensures TotalCost(ts) >= 0
    decreases |ts|
  {
    hide ValidTrades;
    hide ValidTrade;
    hide TradeOrders;
    hide Max;
    MaxTwice(orders[taker].locked, 0, 0);
    if ts != [] {
      FirstIsValid(orders, taker, ts);
      NextTradesValid(orders, taker, ts);
      BuyingOnce(orders, ts[0]);
      MaxTwice(orders[taker].locked, ts[0].Cost(), 0);
      BuyingLock(TradeOrders(orders, ts[0]), taker, ts[1..]);
      MaxTwice(orders[taker].locked, ts[0].Cost(), TotalCost(ts[1..]));
    }
  }

  lemma FirstIsValid(orders: map<Id, Order>, taker: Id, ts: seq<Trade>)
    requires ts != [] && ValidTrades(orders, taker, ts)
    ensures ValidTrade(orders, ts[0]) && ts[0].taker == taker && taker in orders
  {
  }

  lemma MaxTwice(a: int, b: int, c: int)
    requires b >= 0 && c >= 0
    ensures Max(Max(a - b, 0) - c, 0) == Max(a - (b + c), 0) && Max(a - b, 0) >= 0
    ensures a >= 0 ==> Max(a - 0, 0) == a
  {
  }

  /** The trades of a BUY that its lock covers cost no more than the lock. */
  lemma {:induction false} CoveredCost(orders: map<Id, Order>, taker: Id, ts: seq<Trade>)
    requires taker in orders && orders[taker].side.Buy? && ValidTrades(orders, taker, ts) && Covered(orders, Buy, ts)
    requires orders[taker].locked >= 0
    ensures TotalCost(ts) <= orders[taker].locked
    decreases |ts|
  {
    if ts != [] {
      FirstIsValid(orders, taker, ts);
      NextTradesValid(orders, taker, ts);
      BuyingOnce(orders, ts[0]);
      hide ValidTrades;
      hide TradeOrders;
      CoveredCost(TradeOrders(orders, ts[0]), taker, ts[1..]);
    }
  }
}
