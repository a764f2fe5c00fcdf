/** Cash and shares over whole runs: what is conserved, and by how much cash can drift. */
module Conservation {
  import opened Types
  import opened Sums
  import opened Ledger
  import opened Machine
  import opened Fills
  import opened Lifecycle
  import opened BookSafety
  import opened Accounts
  import opened Progress

  // ---------------------------------------------------------------- totals

  /** The holdings of selected accounts, available and reserved together. */
  ghost function Worth(sel: string -> bool): (string, Holding) -> int {
    (k: string, h: Holding) => if sel(k) then h.Total() else 0
  }

  ghost function Everyone(): string -> bool { (k: string) => true }

  ghost function Total(m: map<string, Holding>, sel: string -> bool): int { SumMap(m, Worth(sel)) }

  ghost function Cash(s: State): int { Total(s.balances, Everyone()) }

  lemma TotalPut(m: map<string, Holding>, key: string, h: Holding, sel: string -> bool)
    ensures Total(m[key := h], sel) == Total(m, sel) + if sel(key) then h.Total() - Held(m, key).Total() else 0
  {
    SumMapPut(m, Worth(sel), key, h);
  }

  // ---------------------------------------------------------------- cash

  lemma SettleCashDrifts(balances: map<Id, Holding>, t: Trade)
    ensures Total(SettleCash(balances, t), Everyone())
            == Total(balances, Everyone()) + Shortage(HoldingOf(balances, t.buyer), t.Cost())
  {
    hide Total;
    var h := HoldingOf(balances, t.buyer);
    var paid := balances[t.buyer := Debit(h, t.Cost())];
    TotalPut(balances, t.buyer, Debit(h, t.Cost()), Everyone());
    var g := HoldingOf(paid, t.seller);
    TotalPut(paid, t.seller, g.(available := g.available + t.Cost()), Everyone());
  }

  lemma {:induction false} CashAllDrifts(balances: map<Id, Holding>, ts: seq<Trade>)
    ensures Total(CashAll(balances, ts), Everyone()) == Total(balances, Everyone()) + SettleShortfall(balances, ts)
    ensures SettleShortfall(balances, ts) >= 0
    decreases |ts|
  {
    if ts != [] {
      SettleCashDrifts(balances, ts[0]);
      CashAllDrifts(SettleCash(balances, ts[0]), ts[1..]);
    }
  }

  lemma ReleaseDrifts(s: State, id: Id)
    requires id in s.orders
    ensures Cash(Release(s, id)) == Cash(s) + ReleaseShortfall(s, id)
    ensures ReleaseShortfall(s, id) >= 0
  {
    var o := s.orders[id];
    if o.locked > 0 && o.side.Buy? {
      TotalPut(s.balances, o.user, Unfreeze(BalanceOf(s, o.user), o.locked), Everyone());
    }
  }

  lemma AdmitKeepsCash(s: State, o: Order)
    ensures Cash(Admit(s, o).state) == Cash(s)
  {
    hide Total;
    FreezeKeepsTotal(s.balances, o.user, AmountToFreeze(s, o), Everyone());
  }

  /** Cash created so far by grants and by clamps. */
  function Created(log: Log): int { log.grants * STARTING_BALANCE + log.shortfall }

  lemma MatchDrifts(w: World, id: Id)
    requires id in w.state.orders && Matchable(w.state, id)
    ensures var w' := AfterMatch(w, id);
            && Cash(w'.state) - Cash(w.state) == w'.log.shortfall - w.log.shortfall >= 0
            && w'.log.grants == w.log.grants
  {
    hide Total;
    hide AfterMatch;
    hide MatchSection;
    hide Settled;
    hide TradesOf;
    MatchedWorld(w, id);
    CashAllDrifts(w.state.balances, TradesOf(w.state, id));
    ReleaseDrifts(Settled(w.state, id), id);
  }

  lemma CancelDrifts(w: World, id: Id, event: Id)
    ensures var w' := AfterCancel(w, id, event);
            && Cash(w'.state) - Cash(w.state) == w'.log.shortfall - w.log.shortfall >= 0
            && w'.log.grants == w.log.grants
  {
    hide Total;
    if CancelReply(w.state, id, event).Accepted? {
      var o := w.state.orders[id];
      var s' := PutHalf(w.state, o.event, o.outcome, o.side, RemoveId(HalfOf(w.state, o.event, o.outcome, o.side), id));
      var s2 := SetStatus(s', id, Canceled);
      assert Cash(s2) == Cash(w.state);
      assert s2.orders[id].locked == o.locked;
      ReleaseDrifts(s2, id);
    }
  }

  lemma UserDrifts(w: World, user: Id)
    ensures var w' := AfterUser(w, user);
            var granted := user != "" && user !in w.state.balances;
            && Cash(w'.state) == Cash(w.state) + (if granted then STARTING_BALANCE else 0)
            && w'.log.grants == w.log.grants + (if granted then 1 else 0)
            && w'.log.shortfall == w.log.shortfall
  {
    hide Total;
    if user != "" && user !in w.state.balances {
      var h := Holding(STARTING_BALANCE, 0);
      assert h.Total() - Held(w.state.balances, user).Total() == STARTING_BALANCE;
      TotalPut(w.state.balances, user, h, Everyone());
    }
  }

  /** Every step creates exactly the cash its log entry says, and none destroys any. */
  lemma StepDrifts(w: World, step: Step)
    ensures var w' := Next(w, step);
            Cash(w'.state) - Cash(w.state) == Created(w'.log) - Created(w.log) >= 0
  {
    hide Cash;
    hide AfterCancel;
    hide AfterUser;
    match step
    case CreateUser(user) => UserDrifts(w, user);
    case Submit(request, generated) =>
      if Validate(request, generated).Valid? {
        AdmitKeepsCash(w.state, Validate(request, generated).order);
      }
    case Match(id) =>
      if id in w.inflight && id in w.state.orders && Matchable(w.state, id) {
        MatchDrifts(w, id);
      } else {
        SameCash(w.state, Next(w, step).state);
      }
    case Cancel(id, event) => CancelDrifts(w, id, event);
    case _ => SameCash(w.state, Next(w, step).state);
  }

  lemma SameCash(s: State, s': State)
    ensures s.balances == s'.balances ==> Cash(s) == Cash(s')
  {
  }

  /** Over every run the total of available and reserved cash is what it was at the start, plus
      the grants to new users, plus the recorded clamp shortfalls. Failed emissions included. */
  lemma {:induction false} CashDriftsExactly(w: World, steps: seq<Step>)
    requires Seeded(w)
    ensures var r := Run(w, steps);
            && Cash(r.state) == Cash(w.state) + r.log.grants * STARTING_BALANCE + r.log.shortfall
            && r.log.shortfall >= 0
  {
    if steps != [] {
      var before := steps[..|steps| - 1];
      CashDriftsExactly(w, before);
      StepDrifts(Run(w, before), steps[|steps| - 1]);
      ShortfallGrows(Run(w, before), steps[|steps| - 1]);
    }
  }

  lemma ShortfallGrows(w: World, step: Step)
    ensures Next(w, step).log.shortfall >= w.log.shortfall
  {
    if step.Match? && step.id in w.inflight && step.id in w.state.orders && Matchable(w.state, step.id) {
      MatchDrifts(w, step.id);
    }
  }

  lemma {:induction false} CoveredHasNoShortfall(s: State, taker: Id, ts: seq<Trade>, dropped: seq<Order>)
    requires ValidTrades(s.orders, taker, ts) && Covered(s.orders, Buy, ts)
    requires LocksNonNegative(s.orders, dropped) && ReservesExact(s, dropped, Buy)
    ensures SettleShortfall(s.balances, ts) == 0
    decreases |ts|
  {
    if ts != [] {
      TradeKeepsExact(s, ts[0], Buy, dropped);
      TradeAccounts(s.orders, ts[0], Buy);
      NextTradesValid(s.orders, taker, ts);
      TradeLocksNonNegative(s.orders, ts[0], dropped);
      CoveredHasNoShortfall(TradeStep(s, ts[0]), taker, ts[1..], dropped);
    }
  }

  lemma FundedMatchHasNoShortfall(w: World, id: Id)
    requires Safe(w) && ExactOn(w, Buy) && Funded(w.state, id) && id in w.inflight && Matchable(w.state, id)
    ensures AfterMatch(w, id).log.shortfall == w.log.shortfall
  {
    hide ReservesExact;
    hide AfterMatch;
    hide MatchSection;
    hide Settled;
    hide TradesOf;
    MatchedWorld(w, id);
    MatchCovered(w, id);
    CoveredHasNoShortfall(w.state, id, TradesOf(w.state, id), w.log.dropped);
    ReleaseUnclamped(w, id, Buy);
  }

  /** A funded step clamps no cash. */
  lemma FundedStepHasNoShortfall(w: World, step: Step)
    requires Safe(w) && ExactOn(w, Buy) && StepFunded(w, step)
    ensures Next(w, step).log.shortfall == w.log.shortfall
  {
    match step
    case Match(id) =>
      if id in w.inflight && Matchable(w.state, id) {
        FundedMatchHasNoShortfall(w, id);
        hide AfterMatch;
      }
    case Cancel(id, event) =>
      if CancelReply(w.state, id, event).Accepted? && w.state.orders[id].side.Buy? {
        ReserveCovers(w.state, w.log.dropped, id);
      }
    case _ =>
  }

  /** If every market BUY of the run is funded no cash is ever created but by grants. */
  lemma {:induction false} FundedRunsConserveCash(w: World, steps: seq<Step>)
    requires Seeded(w) && FundedRun(w, steps)
    ensures Run(w, steps).log.shortfall == 0
    ensures Cash(Run(w, steps).state) == Cash(w.state) + Run(w, steps).log.grants * STARTING_BALANCE
  {
    CashDriftsExactly(w, steps);
    if steps != [] {
      var before := steps[..|steps| - 1];
      FundedRunsConserveCash(w, before);
      RunIsSafe(w, before);
      CashReservedExactly(w, before);
      FundedStepHasNoShortfall(Run(w, before), steps[|steps| - 1]);
    }
  }

  // ---------------------------------------------------------------- shares

  lemma MoveKeepsTotal(m: map<string, Holding>, from: string, to: string, q: int, sel: string -> bool)
    requires sel(from) == sel(to) && q <= Held(m, from).reserved
    ensures var got := m[to := Held(m, to).(available := Held(m, to).available + q)];
            Total(got[from := Debit(Held(got, from), q)], sel) == Total(m, sel)
  {
    hide Total;
    var h := Held(m, to).(available := Held(m, to).available + q);
    var got := m[to := h];
    var h' := Debit(Held(got, from), q);
    assert h.Total() == Held(m, to).Total() + q;
    assert h'.Total() == Held(got, from).Total() - q;
    hide *;
    TotalPut(m, to, h, sel);
    TotalPut(got, from, h', sel);
  }

  /** A trade whose two positions are selected alike moves shares within the selection. */
  lemma SettleSharesKeeps(positions: map<string, Holding>, t: Trade, kb: string, ks: string, sel: string -> bool)
    requires kb == PositionKey(t.buyer, t.event, t.outcome) && ks == PositionKey(t.seller, t.event, t.outcome)
    requires sel(kb) == sel(ks) && t.quantity <= Held(positions, ks).reserved
    ensures Total(SettleShares(positions, t), sel) == Total(positions, sel)
  {
    hide Total;
    hide PositionKey;
    MoveKeepsTotal(positions, ks, kb, t.quantity, sel);
  }

  /** The selection never separates the positions of two users in the same book. */
  ghost predicate Even(sel: string -> bool, orders: map<Id, Order>) {
    forall x, y :: x in orders && y in orders ==>
      orders[x].event == orders[y].event && orders[x].outcome == orders[y].outcome ==>
        sel(PositionKey(orders[x].user, orders[x].event, orders[x].outcome))
        == sel(PositionKey(orders[y].user, orders[y].event, orders[y].outcome))
  }

  lemma TradeIsEven(orders: map<Id, Order>, t: Trade, sel: string -> bool)
    requires ValidTrade(orders, t) && Even(sel, orders)
    ensures sel(PositionKey(t.buyer, t.event, t.outcome)) == sel(PositionKey(t.seller, t.event, t.outcome))
    ensures Even(sel, TradeOrders(orders, t))
  {
    TradeKeepsTerms(orders, t);
    var r := TradeOrders(orders, t);
    forall x | x in r ensures SameTerms(orders[x], r[x]) {}
  }

  lemma {:induction false} TradesKeepShares(
    s: State, taker: Id, ts: seq<Trade>, dropped: seq<Order>, sel: string -> bool)
    requires ValidTrades(s.orders, taker, ts) && Covered(s.orders, Sell, ts) && Even(sel, s.orders)
    requires LocksNonNegative(s.orders, dropped) && ReservesExact(s, dropped, Sell)
    ensures Total(SharesAll(s.positions, ts), sel) == Total(s.positions, sel)
    decreases |ts|
  {
    if ts != [] {
      TradeKeepsExact(s, ts[0], Sell, dropped);
      TradeAccounts(s.orders, ts[0], Sell);
      TradeIsEven(s.orders, ts[0], sel);
      SettleSharesKeeps(s.positions, ts[0], PositionKey(ts[0].buyer, ts[0].event, ts[0].outcome),
                        PositionKey(ts[0].seller, ts[0].event, ts[0].outcome), sel);
      NextTradesValid(s.orders, taker, ts);
      TradeLocksNonNegative(s.orders, ts[0], dropped);
      TradesKeepShares(TradeStep(s, ts[0]), taker, ts[1..], dropped, sel);
    }
  }

  lemma ReleaseKeepsShares(s: State, id: Id, dropped: seq<Order>, sel: string -> bool)
    requires id in s.orders && LocksNonNegative(s.orders, dropped) && ReservesExact(s, dropped, Sell)
    ensures Total(Release(s, id).positions, sel) == Total(s.positions, sel)
  {
    var o := s.orders[id];
    if o.locked > 0 && o.side.Sell? {
      ReserveCovers(s, dropped, id);
      TotalPut(s.positions, AccountOf(o), Unfreeze(PositionOf(s, AccountOf(o)), o.locked), sel);
    }
  }

  lemma FreezeKeepsTotal(m: map<string, Holding>, key: string, amount: int, sel: string -> bool)
    ensures Total(m[key := Held(m, key)], sel) == Total(m, sel)
    ensures Total(m[key := Holding(Held(m, key).available - amount, Held(m, key).reserved + amount)], sel)
      == Total(m, sel)
  {
    hide Total;
    TotalPut(m, key, Held(m, key), sel);
    TotalPut(m, key, Holding(Held(m, key).available - amount, Held(m, key).reserved + amount), sel);
  }

  lemma AdmitKeepsShares(s: State, o: Order, sel: string -> bool)
    ensures Total(Admit(s, o).state.positions, sel) == Total(s.positions, sel)
  {
    hide Total;
    hide PositionKey;
    FreezeKeepsTotal(s.positions, PositionKey(o.user, o.event, o.outcome), AmountToFreeze(s, o), sel);
  }

  lemma MatchKeepsShares(w: World, id: Id, sel: string -> bool)
    requires Safe(w) && ExactOn(w, Sell) && Even(sel, w.state.orders) && id in w.inflight && Matchable(w.state, id)
    ensures Total(AfterMatch(w, id).state.positions, sel) == Total(w.state.positions, sel)
  {
    hide Total;
    hide ReservesExact;
    hide AfterMatch;
    hide MatchSection;
    hide Settled;
    hide TradesOf;
    MatchedWorld(w, id);
    MatchCovered(w, id);
    TradesKeepShares(w.state, id, TradesOf(w.state, id), w.log.dropped, sel);
    SettledExact(w, id, Sell);
    ReleaseKeepsShares(Settled(w.state, id), id, w.log.dropped, sel);
  }

  lemma CancelKeepsShares(w: World, id: Id, event: Id, sel: string -> bool)
    requires ExactOn(w, Sell)
    ensures Total(AfterCancel(w, id, event).state.positions, sel) == Total(w.state.positions, sel)
  {
    hide Total;
    if CancelReply(w.state, id, event).Accepted? {
      var o := w.state.orders[id];
      var s' := PutHalf(w.state, o.event, o.outcome, o.side, RemoveId(HalfOf(w.state, o.event, o.outcome, o.side), id));
      var s2 := SetStatus(s', id, Canceled);
      assert s2.orders == WithStatus(w.state.orders, id, Canceled);
      RelabelKeepsExact(w.state, s2, id, w.log.dropped, Sell);
      ReleaseKeepsShares(s2, id, w.log.dropped, sel);
    }
  }

  lemma StepKeepsShares(w: World, step: Step, sel: string -> bool)
    requires Safe(w) && ExactOn(w, Sell) && Even(sel, w.state.orders)
    ensures Total(Next(w, step).state.positions, sel) == Total(w.state.positions, sel)
  {
    hide Total;
    hide AfterCancel;
    match step
    case Submit(request, generated) =>
      if Validate(request, generated).Valid? {
        AdmitKeepsShares(w.state, Validate(request, generated).order, sel);
      }
    case Match(id) =>
      if id in w.inflight && Matchable(w.state, id) {
        MatchKeepsShares(w, id, sel);
      }
    case Cancel(id, event) => CancelKeepsShares(w, id, event, sel);
    case _ =>
  }

  /** On every run the shares of all positions together never change. */
  lemma {:induction false} AllSharesConserved(w: World, steps: seq<Step>)
    requires Seeded(w)
    ensures Total(Run(w, steps).state.positions, Everyone()) == Total(w.state.positions, Everyone())
  {
    if steps != [] {
      var before := steps[..|steps| - 1];
      AllSharesConserved(w, before);
      RunIsSafe(w, before);
      SharesReservedExactly(w, before);
      StepKeepsShares(Run(w, before), steps[|steps| - 1], Everyone());
    }
  }

  // ---------------------------------------------------------------- shares per market

  /** The positions of one event and outcome, over the user ids in use. */
  ghost function InMarket(ids: Ids, e: Id, o: Outcome): string -> bool {
    (k: string) => exists u :: ids.users(u) && k == PositionKey(u, e, o)
  }

  ghost predicate OverIds(ids: Ids, orders: map<Id, Order>) {
    forall x :: x in orders ==> ids.users(orders[x].user) && ids.events(orders[x].event)
  }

  lemma KeyInMarket(ids: Ids, u: Id, e: Id, o: Outcome, e': Id, o': Outcome)
    requires Separable(ids) && ids.users(u) && ids.events(e) && ids.events(e')
    ensures InMarket(ids, e, o)(PositionKey(u, e', o')) <==> (e, o) == (e', o')
  {
    hide PositionKey;
    if InMarket(ids, e, o)(PositionKey(u, e', o')) {
      var v :| ids.users(v) && PositionKey(u, e', o') == PositionKey(v, e, o);
    }
  }

  lemma MarketsAreEven(ids: Ids, orders: map<Id, Order>, e: Id, o: Outcome)
    requires Separable(ids) && OverIds(ids, orders) && ids.events(e)
    ensures Even(InMarket(ids, e, o), orders)
  {
    hide PositionKey;
    forall x | x in orders
      ensures InMarket(ids, e, o)(PositionKey(orders[x].user, orders[x].event, orders[x].outcome))
              <==> (e, o) == (orders[x].event, orders[x].outcome)
    {
      KeyInMarket(ids, orders[x].user, e, o, orders[x].event, orders[x].outcome);
    }
    hide InMarket;
    hide Separable;
  }

  /** Orders are submitted by users, and for events, whose ids are in use. */
  ghost predicate StepOverIds(ids: Ids, step: Step) {
    step.Submit? ==> ids.users(step.request.user) && ids.events(step.request.event)
  }

  ghost predicate RunOverIds(ids: Ids, steps: seq<Step>) {
    forall i :: 0 <= i < |steps| ==> StepOverIds(ids, steps[i])
  }

  lemma StepKeepsIds(ids: Ids, w: World, step: Step)
    requires Safe(w) && OverIds(ids, w.state.orders) && StepOverIds(ids, step)
    ensures OverIds(ids, Next(w, step).state.orders)
  {
    var w' := Next(w, step);
    forall x | x in w'.state.orders ensures ids.users(w'.state.orders[x].user) && ids.events(w'.state.orders[x].event) {
      if x in w.state.orders {
        StepAdvances(w, step, x);
      } else {
        NewcomersAreSubmitted(w, step, x);
        ValidateShapes(step.request, step.generated);
      }
      hide Next;
    }
  }

  lemma {:induction false} RunKeepsIds(ids: Ids, w: World, steps: seq<Step>)
    requires Seeded(w) && RunOverIds(ids, steps)
    ensures OverIds(ids, Run(w, steps).state.orders)
  {
    if steps != [] {
      var before := steps[..|steps| - 1];
      RunKeepsIds(ids, w, before);
      RunIsSafe(w, before);
      StepKeepsIds(ids, Run(w, before), steps[|steps| - 1]);
    }
  }

  /** If no two positions over the ids in use share a key, for which it is enough that user ids
      or event ids are colon-free, the shares of each event and outcome are constant on every
      run. */
  lemma {:induction false} MarketSharesConserved(ids: Ids, w: World, steps: seq<Step>, e: Id, o: Outcome)
    requires Seeded(w) && Separable(ids) && RunOverIds(ids, steps) && ids.events(e)
    ensures Total(Run(w, steps).state.positions, InMarket(ids, e, o)) == Total(w.state.positions, InMarket(ids, e, o))
  {
    if steps != [] {
      var before := steps[..|steps| - 1];
      MarketSharesConserved(ids, w, before, e, o);
      RunIsSafe(w, before);
      RunKeepsIds(ids, w, before);
      SharesReservedExactly(w, before);
      MarketsAreEven(ids, Run(w, before).state.orders, e, o);
      StepKeepsShares(Run(w, before), steps[|steps| - 1], InMarket(ids, e, o));
    }
  }

  // ---------------------------------------------------------------- no shares, no trades

  ghost predicate OnlyBuys(w: World) {
    && (forall x :: x in w.state.orders ==> w.state.orders[x].side.Buy?)
    && w.log.trades == []
  }

  /** Without shares there is nothing a SELL could reserve. */
  lemma NoSharesToReserve(s: State, o: Order)
    requires HoldingsOk(s) && Total(s.positions, Everyone()) == 0
    requires o.side.Sell? && Shape(o.id, o) && o.filled == 0
    ensures Reserve(s, o).Refused?
  {
    var key := PositionKey(o.user, o.event, o.outcome);
    SumMapLower(s.positions, Worth(Everyone()));
    if key in s.positions {
      assert Worth(Everyone())(key, s.positions[key]) == s.positions[key].Total();
    }
    hide PositionKey;
    hide SumMap;
  }

  /** A BUY that meets no SELL orders does not trade. */
  lemma NoSellsNoTrades(w: World, id: Id)
    requires Safe(w) && OnlyBuys(w) && id in w.inflight && Matchable(w.state, id)
    ensures TradesOf(w.state, id) == []
  {
    SearchWalks(w, id);
    EmptyHalf(w.state.orders, ShelfOf(w), w.state.orders[id].event, w.state.orders[id].outcome,
      SearchedHalf(w.state, id));
  }

  lemma HeadIsMember<T>(s: seq<T>)
    ensures s != [] ==> s[0] in s
  {
  }

  lemma EmptyHalf(orders: map<Id, Order>, sh: Shelf, e: Id, o: Outcome, ids: seq<Id>)
    requires HalfOk(orders, sh, e, o, Sell, ids) && forall x :: x in orders ==> orders[x].side.Buy?
    ensures ids == []
  {
    HeadIsMember(ids);
  }

  lemma StepKeepsOnlyBuys(w: World, step: Step)
    requires Safe(w) && OnlyBuys(w) && Total(w.state.positions, Everyone()) == 0
    ensures OnlyBuys(Next(w, step))
  {
    var w' := Next(w, step);
    if step.Match? && step.id in w.inflight && Matchable(w.state, step.id) {
      NoSellsNoTrades(w, step.id);
      MatchedWorld(w, step.id);
    }
    assert w'.log.trades == [];
    hide Next;
    forall x | x in w'.state.orders ensures w'.state.orders[x].side.Buy? {
      if x in w.state.orders {
        StepAdvances(w, step, x);
      } else {
        NewcomersAreSubmitted(w, step, x);
        ValidateShapes(step.request, step.generated);
        if Validate(step.request, step.generated).order.side.Sell? {
          NoSharesToReserve(w.state, Validate(step.request, step.generated).order);
          assert false;
        }
      }
    }
  }

  /** No command issues shares: from positions without shares no run ever executes a trade. */
  lemma {:induction false} UnseededRunsNeverTrade(w: World, steps: seq<Step>)
    requires Seeded(w) && Total(w.state.positions, Everyone()) == 0
    ensures OnlyBuys(Run(w, steps))
  {
    if steps != [] {
      var before := steps[..|steps| - 1];
      UnseededRunsNeverTrade(w, before);
      RunIsSafe(w, before);
      AllSharesConserved(w, before);
      StepKeepsOnlyBuys(Run(w, before), steps[|steps| - 1]);
    }
  }
}
