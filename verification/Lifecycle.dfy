/** The life of an order: quantities, status, fills and locks in every reachable state. */
module Lifecycle {
  import opened Types
  import opened Sums
  import opened Ledger
  import opened Matching
  import opened Machine
  import opened Fills

  // ---------------------------------------------------------------- history of an order

  /** Quantity the trade fills of order `id`, on either side of it. */
  ghost function QtyOf(id: Id): Trade -> int {
    (t: Trade) => (if t.taker == id then t.quantity else 0) + (if t.maker == id then t.quantity else 0)
  }

  /** Cash the trade takes from buy order `id`. */
  ghost function SpentOn(id: Id): Trade -> int {
    (t: Trade) => if t.BuyOrder() == id then t.Cost() else 0
  }

  /** What buy order `id`, limited to `limit`, saves in the trade as a taker. */
  ghost function GainOf(id: Id, limit: int): Trade -> int {
    (t: Trade) => if t.taker == id && t.takerSide.Buy? then t.quantity * (limit - t.price) else 0
  }

  ghost function FilledBy(trades: seq<Trade>, id: Id): int { SumSeq(trades, QtyOf(id)) }
  ghost function Spent(trades: seq<Trade>, id: Id): int { SumSeq(trades, SpentOn(id)) }
  ghost function Gain(trades: seq<Trade>, id: Id, limit: int): int { SumSeq(trades, GainOf(id, limit)) }

  // ---------------------------------------------------------------- one order

  predicate Shape(id: Id, o: Order) {
    && o.id == id && o.quantity > 0 && o.filled >= 0 && o.remaining >= 0
    && o.filled + o.remaining == o.quantity
    && (o.kind.LimitOrder? ==> o.price > 0)
    && !o.status.Rejected? && o.locked >= 0
  }

  /** A SELL locks exactly what it still offers; a closed order locks nothing. */
  predicate LockShape(o: Order, closed: bool) {
    && (closed ==> Finished(o.status) && o.locked == 0)
    && (o.status.Canceled? ==> closed)
    && (o.side.Sell? && !o.status.Canceled? ==> o.locked == o.remaining)
  }

  /** A limit BUY that was not released locks its limit value less what it spent, which is the
      value of what it still wants plus what it saved as a taker. */
  ghost predicate LimitBuyAccount(o: Order, trades: seq<Trade>, closed: bool) {
    o.side.Buy? && o.kind.LimitOrder? && !closed ==>
      && o.locked == o.quantity * o.price - Spent(trades, o.id)
      && o.locked == o.remaining * o.price + Gain(trades, o.id, o.price)
      && Gain(trades, o.id, o.price) >= 0
  }

  /** What holds of an order at any time, also while its own matching is under way. */
  ghost predicate Sound(id: Id, o: Order, trades: seq<Trade>, closed: bool) {
    && Shape(id, o)
    && o.filled == FilledBy(trades, id)
    && LockShape(o, closed)
    && LimitBuyAccount(o, trades, closed)
  }

  /** What holds of an order between critical sections. */
  predicate StatusOk(o: Order, inflight: bool) {
    && (o.status.Filled? <==> o.remaining == 0)
    && (o.status.Pending? ==> o.filled == 0)
    && (o.status.Partial? ==> o.filled > 0)
    && (inflight ==> o.filled == 0 && !o.status.Partial?)
    && (!inflight && o.kind.MarketOrder? ==> Finished(o.status))
  }

  // ---------------------------------------------------------------- one trade

  lemma ExtendHistory(trades: seq<Trade>, t: Trade, id: Id, limit: int)
    ensures FilledBy(trades + [t], id) == FilledBy(trades, id) + QtyOf(id)(t)
    ensures Spent(trades + [t], id) == Spent(trades, id) + SpentOn(id)(t)
    ensures Gain(trades + [t], id, limit) == Gain(trades, id, limit) + GainOf(id, limit)(t)
  {
    SumSeqSnoc(trades, t, QtyOf(id));
    SumSeqSnoc(trades, t, SpentOn(id));
    SumSeqSnoc(trades, t, GainOf(id, limit));
  }

  /** Order `id` after executing and settling one trade. */
  function AfterTrade(id: Id, o: Order, t: Trade): Order {
    var f := FillOf(id, o, t);
    f.(locked := LockAfter(id, f, t))
  }

  /** A trade of `q` at `p` against a limit of `limit` moves value from the open part of the
      lock to the savings and takes exactly its cost. */
  lemma LockArithmetic(remaining: int, q: int, limit: int, p: int)
    requires 0 < q <= remaining && 0 < p <= limit
    ensures remaining * limit - q * p == (remaining - q) * limit + q * (limit - p)
    ensures (remaining - q) * limit >= 0 && q * (limit - p) >= 0 && q * p > 0
  {
    assert (remaining - q) * limit == remaining * limit - q * limit;
    assert q * (limit - p) == q * limit - q * p;
  }

  lemma MakerStaysSound(orders: map<Id, Order>, t: Trade, trades: seq<Trade>)
    requires ValidTrade(orders, t) && Sound(t.maker, orders[t.maker], trades, false)
    ensures Sound(t.maker, AfterTrade(t.maker, orders[t.maker], t), trades + [t], false)
  {
    var m := orders[t.maker];
    ExtendHistory(trades, t, t.maker, m.price);
    LockArithmetic(m.remaining, t.quantity, m.price, t.price);
  }

  lemma TakerStaysSound(orders: map<Id, Order>, t: Trade, trades: seq<Trade>)
    requires ValidTrade(orders, t) && orders[t.taker].Active() && Sound(t.taker, orders[t.taker], trades, false)
    ensures Sound(t.taker, AfterTrade(t.taker, orders[t.taker], t), trades + [t], false)
  {
    var a := orders[t.taker];
    ExtendHistory(trades, t, t.taker, a.price);
    if a.side.Buy? && a.kind.LimitOrder? {
      LockArithmetic(a.remaining, t.quantity, a.price, t.price);
    }
  }

  lemma OtherStaysSound(id: Id, o: Order, t: Trade, trades: seq<Trade>, closed: bool)
    requires id != t.taker && id != t.maker && Sound(id, o, trades, closed)
    ensures AfterTrade(id, o, t) == o && Sound(id, o, trades + [t], closed)
  {
    ExtendHistory(trades, t, id, o.price);
  }

  ghost predicate AllSound(orders: map<Id, Order>, trades: seq<Trade>, closed: set<Id>) {
    forall x :: x in orders ==> Sound(x, orders[x], trades, x in closed)
  }

  lemma TradeKeepsSound(orders: map<Id, Order>, t: Trade, trades: seq<Trade>, closed: set<Id>)
    requires ValidTrade(orders, t) && orders[t.taker].Active() && AllSound(orders, trades, closed)
    ensures AllSound(TradeOrders(orders, t), trades + [t], closed)
    ensures TradeOrders(orders, t)[t.taker].Active()
  {
    var r := TradeOrders(orders, t);
    forall x | x in r ensures Sound(x, r[x], trades + [t], x in closed) {
      assert r[x] == AfterTrade(x, orders[x], t);
      assert Sound(x, orders[x], trades, x in closed);
      if x == t.maker {
        MakerStaysSound(orders, t, trades);
      } else if x == t.taker {
        TakerStaysSound(orders, t, trades);
      } else {
        OtherStaysSound(x, orders[x], t, trades, x in closed);
      }
    }
  }

  ghost predicate AllStatusOk(orders: map<Id, Order>, inflight: set<Id>, busy: set<Id>) {
    forall x :: x in orders && x !in busy ==> StatusOk(orders[x], x in inflight)
  }

  lemma TradeKeepsStatus(orders: map<Id, Order>, t: Trade, inflight: set<Id>)
    requires ValidTrade(orders, t) && t.maker !in inflight && AllStatusOk(orders, inflight, {t.taker})
    requires forall x :: x in orders ==> Shape(x, orders[x])
    ensures AllStatusOk(TradeOrders(orders, t), inflight, {t.taker})
  {
    var r := TradeOrders(orders, t);
    forall x | x in r && x != t.taker ensures StatusOk(r[x], x in inflight) {
      assert StatusOk(orders[x], x in inflight) && Shape(x, orders[x]);
      assert r[x] == AfterTrade(x, orders[x], t);
    }
  }

  /** The orders while `taker` is being matched. */
  ghost predicate MidOk(orders: map<Id, Order>, taker: Id, trades: seq<Trade>, closed: set<Id>, inflight: set<Id>) {
    && taker in orders && orders[taker].Active()
    && AllSound(orders, trades, closed)
    && AllStatusOk(orders, inflight, {taker})
  }

  lemma TradeKeepsMid(orders: map<Id, Order>, t: Trade, trades: seq<Trade>, closed: set<Id>, inflight: set<Id>)
    requires MidOk(orders, t.taker, trades, closed, inflight) && ValidTrade(orders, t) && t.maker !in inflight
    ensures MidOk(TradeOrders(orders, t), t.taker, trades + [t], closed, inflight)
  {
    TradeKeepsSound(orders, t, trades, closed);
    forall x | x in orders ensures Shape(x, orders[x]) {
      assert Sound(x, orders[x], trades, x in closed);
    }
    TradeKeepsStatus(orders, t, inflight);
  }

  /** The taker asks for the same throughout, and keeps its status. */
  lemma {:induction false} TakerKeepsTerms(orders: map<Id, Order>, taker: Id, ts: seq<Trade>)
    requires ValidTrades(orders, taker, ts) && taker in orders
    ensures var o, r := orders[taker], TradeOrdersAll(orders, ts)[taker];
            SameTerms(o, r) && r.status == o.status
    decreases |ts|
  {
    if ts != [] {
      NextTradesValid(orders, taker, ts);
      TakerKeepsTerms(TradeOrders(orders, ts[0]), taker, ts[1..]);
    }
  }

  lemma ShiftHistory(trades: seq<Trade>, ts: seq<Trade>)
    ensures trades + ts == if ts == [] then trades else trades + [ts[0]] + ts[1..]
  {
  }

  /** All trades of a search keep every order sound. The taker keeps its status until it is
      concluded. */
  lemma {:induction false} TradesKeepMid(
    orders: map<Id, Order>, taker: Id, ts: seq<Trade>, trades: seq<Trade>, closed: set<Id>, inflight: set<Id>)
    requires ValidTrades(orders, taker, ts) && MidOk(orders, taker, trades, closed, inflight)
    requires forall t :: t in ts ==> t.maker !in inflight
    ensures MidOk(TradeOrdersAll(orders, ts), taker, trades + ts, closed, inflight)
    decreases |ts|
  {
    ShiftHistory(trades, ts);
    if ts != [] {
      assert ts[0] in ts;
      TradeKeepsMid(orders, ts[0], trades, closed, inflight);
      NextTradesValid(orders, taker, ts);
      TradesKeepMid(TradeOrders(orders, ts[0]), taker, ts[1..], trades + [ts[0]], closed, inflight);
    }
  }

  // ---------------------------------------------------------------- every reachable state

  /** Trades are proper and between tabled orders that have been matched. */
  ghost predicate TradesTabled(w: World) {
    forall t :: t in w.log.trades ==>
      && t.taker in w.state.orders && t.maker in w.state.orders
      && t.taker !in w.inflight && t.maker !in w.inflight && Proper(t)
  }

  ghost predicate OrdersOk(w: World) {
    && w.inflight <= w.state.orders.Keys && w.log.closed <= w.state.orders.Keys
    && AllSound(w.state.orders, w.log.trades, w.log.closed)
    && AllStatusOk(w.state.orders, w.inflight, {})
    && TradesTabled(w)
    && (forall x :: x in w.state.orders ==> w.state.orders[x].event in w.state.markets)
  }

  ghost predicate NonNegative(m: map<string, Holding>) {
    forall k :: k in m ==> m[k].available >= 0 && m[k].reserved >= 0
  }

  ghost predicate HoldingsOk(s: State) { NonNegative(s.balances) && NonNegative(s.positions) }

  lemma {:induction false} NoHistory(trades: seq<Trade>, id: Id, limit: int)
    requires forall t :: t in trades ==> t.taker != id && t.maker != id
    ensures FilledBy(trades, id) == 0 && Spent(trades, id) == 0 && Gain(trades, id, limit) == 0
  {
    if trades != [] {
      NoHistory(trades[..|trades| - 1], id, limit);
    }
  }

  /** A reservation freezes a non-negative amount and touches no order. */
  lemma ReserveFreezes(s: State, o: Order)
    requires HoldingsOk(s) && Shape(o.id, o)
    ensures var r := Reserve(s, o);
            && r.state.orders == s.orders && r.state.markets == s.markets && HoldingsOk(r.state)
            && (r.Granted? ==> r.order == o.(locked := AmountToFreeze(s, o)) && AmountToFreeze(s, o) >= 0)
  {
  }

  lemma ValidateShapes(r: Request, generated: Id)
    ensures var c := Validate(r, generated);
            c.Valid? ==>
              && Shape(c.order.id, c.order) && c.order.status.Pending? && c.order.filled == 0 && c.order.locked == 0
              && c.order.quantity == r.quantity && c.order.price == r.price
              && c.order.event == r.event && c.order.user == r.user
  {
  }

  lemma AdmitKeeps(w: World, o: Order)
    requires OrdersOk(w) && HoldingsOk(w.state)
    requires Shape(o.id, o) && o.status.Pending? && o.filled == 0
    ensures OrdersOk(AfterSubmit(w, o)) && HoldingsOk(AfterSubmit(w, o).state)
  {
    ReserveFreezes(w.state, o);
    var w' := AfterSubmit(w, o);
    if Admit(w.state, o).reply.Accepted? {
      var o' := w'.state.orders[o.id];
      NoHistory(w.log.trades, o.id, o.price);
      assert Sound(o.id, o', w.log.trades, false);
      forall x | x in w'.state.orders ensures Sound(x, w'.state.orders[x], w.log.trades, x in w.log.closed) {
        if x != o.id {
          assert Sound(x, w.state.orders[x], w.log.trades, x in w.log.closed);
        }
      }
    }
  }

  /** Releasing empties the lock and leaves the rest of the order alone. */
  lemma ReleaseEmpties(s: State, id: Id)
    requires id in s.orders && s.orders[id].locked >= 0
    ensures Release(s, id).orders == s.orders[id := s.orders[id].(locked := 0)]
    ensures Release(s, id).markets == s.markets
    ensures HoldingsOk(s) ==> HoldingsOk(Release(s, id))
  {
    var o := s.orders[id];
    if o.locked == 0 {
      assert o.(locked := 0) == o;
    }
  }

  lemma CancelKeeps(w: World, id: Id, event: Id)
    requires OrdersOk(w) && HoldingsOk(w.state)
    ensures OrdersOk(AfterCancel(w, id, event)) && HoldingsOk(AfterCancel(w, id, event).state)
  {
    var w' := AfterCancel(w, id, event);
    if CancelReply(w.state, id, event).Accepted? {
      var o := w.state.orders[id];
      assert Sound(id, o, w.log.trades, id in w.log.closed);
      var s' := PutHalf(w.state, o.event, o.outcome, o.side, RemoveId(HalfOf(w.state, o.event, o.outcome, o.side), id));
      ReleaseEmpties(SetStatus(s', id, Canceled), id);
      forall x | x in w'.state.orders ensures Sound(x, w'.state.orders[x], w.log.trades, x in w'.log.closed) {
        assert Sound(x, w.state.orders[x], w.log.trades, x in w.log.closed);
      }
      assert StatusOk(o, id in w.inflight);
    }
  }

  lemma LossKeeps(w: World, id: Id)
    requires OrdersOk(w) && HoldingsOk(w.state) && id in w.inflight
    ensures OrdersOk(AfterLoss(w, id)) && HoldingsOk(AfterLoss(w, id).state)
  {
    var w' := AfterLoss(w, id);
    forall x | x in w'.state.orders ensures Sound(x, w'.state.orders[x], w.log.trades, x in w'.log.closed) {
      assert Sound(x, w.state.orders[x], w.log.trades, x in w.log.closed);
    }
  }

  lemma {:induction false} TradesKeepHoldings(
    orders: map<Id, Order>, taker: Id, ts: seq<Trade>, balances: map<Id, Holding>, positions: map<string, Holding>)
    requires ValidTrades(orders, taker, ts) && NonNegative(balances) && NonNegative(positions)
    ensures NonNegative(CashAll(balances, ts)) && NonNegative(SharesAll(positions, ts))
    decreases |ts|
  {
    if ts != [] {
      var t := ts[0];
      assert t.Cost() >= 0;
      TradesKeepHoldings(ApplyFill(orders, t), taker, ts[1..], SettleCash(balances, t), SettleShares(positions, t));
    }
  }

  /** The taker's record once its matching section is over. */
  function ConcludedOrder(o: Order): Order {
    var status := ConcludedStatus(o);
    o.(status := status, locked := if Finished(status) then 0 else o.locked)
  }

  lemma ConcludeRecord(mid: State, id: Id)
    requires id in mid.orders && mid.orders[id].event in mid.markets && mid.orders[id].locked >= 0
    ensures var r := ReleaseIfFinished(Conclude(mid, id), id);
            && r.orders == mid.orders[id := ConcludedOrder(mid.orders[id])]
            && r.markets == Conclude(mid, id).markets && r.markets.Keys == mid.markets.Keys
            && (HoldingsOk(mid) ==> HoldingsOk(r))
  {
    ReleaseEmpties(Conclude(mid, id), id);
  }

  lemma ConcludedIsSound(id: Id, o: Order, trades: seq<Trade>)
    requires Sound(id, o, trades, false) && o.Active()
    ensures var r := ConcludedOrder(o);
            Sound(id, r, trades, Finished(r.status)) && StatusOk(r, false)
  {
  }

  lemma TradedParts(s: State, id: Id)
    requires Matchable(s, id)
    ensures var mid, ts := Traded(s, id), TradesOf(s, id);
            && mid.orders == TradeOrdersAll(s.orders, ts)
            && mid.balances == CashAll(s.balances, ts) && mid.positions == SharesAll(s.positions, ts)
            && mid.markets.Keys == s.markets.Keys
  {
    TradeAllParts(s, TradesOf(s, id));
  }

  /** Everything about the state after a matching section that concerns orders and signs. */
  lemma MatchRecords(s: State, id: Id)
    requires SearchFits(s, id) && HoldingsOk(s)
    requires TradeOrdersAll(s.orders, TradesOf(s, id))[id].locked >= 0
    ensures var mid := TradeOrdersAll(s.orders, TradesOf(s, id));
            var r := MatchSection(s, id);
            && r.orders == mid[id := ConcludedOrder(mid[id])]
            && r.markets.Keys == s.markets.Keys
            && HoldingsOk(r)
  {
    MatchIsTradeByTrade(s, id);
    TradedParts(s, id);
    TradesKeepHoldings(s.orders, id, TradesOf(s, id), s.balances, s.positions);
    var mid := Traded(s, id);
    assert HoldingsOk(mid);
    ConcludeRecord(mid, id);
  }

  /** The order table once the taker is concluded. */
  lemma ConcludeKeepsAll(mid: map<Id, Order>, id: Id, trades: seq<Trade>, closed: set<Id>, inflight: set<Id>)
    requires MidOk(mid, id, trades, closed, inflight) && id !in closed
    ensures var o := ConcludedOrder(mid[id]);
            && AllSound(mid[id := o], trades, if Finished(o.status) then closed + {id} else closed)
            && AllStatusOk(mid[id := o], inflight - {id}, {})
  {
    assert Sound(id, mid[id], trades, id in closed);
    ConcludedIsSound(id, mid[id], trades);
    var o := ConcludedOrder(mid[id]);
    var closed' := if Finished(o.status) then closed + {id} else closed;
    forall x | x in mid && x != id
      ensures Sound(x, mid[x], trades, x in closed') && StatusOk(mid[x], x in inflight - {id})
    {
      assert Sound(x, mid[x], trades, x in closed) && StatusOk(mid[x], x in inflight);
    }
  }

  lemma MatchStartsMid(w: World, id: Id)
    requires OrdersOk(w) && id in w.inflight && Matchable(w.state, id)
    ensures id !in w.log.closed && MidOk(w.state.orders, id, w.log.trades, w.log.closed, w.inflight)
  {
    var o := w.state.orders[id];
    assert Sound(id, o, w.log.trades, id in w.log.closed) && StatusOk(o, true);
  }

  lemma SettledStatus(s: State, id: Id)
    requires SearchFits(s, id)
    ensures Settled(s, id).orders[id].status == ConcludedStatus(TradeOrdersAll(s.orders, TradesOf(s, id))[id])
  {
    MatchIsTradeByTrade(s, id);
    TradedParts(s, id);
  }

  /** Concluding leaves the taker's lock as settlement left it. */
  lemma SettledTaker(s: State, id: Id)
    requires SearchFits(s, id)
    ensures var mid, done := TradeOrdersAll(s.orders, TradesOf(s, id))[id], Settled(s, id).orders[id];
            done.locked == mid.locked && done.user == mid.user && done.side == mid.side
  {
    MatchIsTradeByTrade(s, id);
    TradedParts(s, id);
    ConcludeParts(Traded(s, id), id);
    hide Conclude;
    hide Traded;
    hide Settled;
  }

  /** Trades of the search leave every order sound, the taker still to be concluded. */
  lemma MatchReachesMid(w: World, id: Id)
    requires OrdersOk(w) && id in w.inflight && SearchFits(w.state, id)
    requires forall t :: t in TradesOf(w.state, id) ==> t.maker !in w.inflight
    ensures var mid := TradeOrdersAll(w.state.orders, TradesOf(w.state, id));
            && MidOk(mid, id, w.log.trades + TradesOf(w.state, id), w.log.closed, w.inflight)
            && mid[id].locked >= 0 && id !in w.log.closed
            && ValidTrades(w.state.orders, id, TradesOf(w.state, id))
  {
    var s, log, ts := w.state, w.log, TradesOf(w.state, id);
    MatchIsTradeByTrade(s, id);
    MatchStartsMid(w, id);
    TradesKeepMid(s.orders, id, ts, log.trades, log.closed, w.inflight);
    var mid := TradeOrdersAll(s.orders, ts);
    assert Sound(id, mid[id], log.trades + ts, id in log.closed);
  }

  lemma MatchKeepsTable(w: World, id: Id)
    requires OrdersOk(w) && HoldingsOk(w.state) && id in w.inflight && SearchFits(w.state, id)
    requires forall t :: t in TradesOf(w.state, id) ==> t.maker !in w.inflight
    ensures var w' := AfterMatch(w, id);
            && AllSound(w'.state.orders, w'.log.trades, w'.log.closed)
            && AllStatusOk(w'.state.orders, w'.inflight, {})
            && HoldingsOk(w'.state)
            && w'.inflight <= w'.state.orders.Keys && w'.log.closed <= w'.state.orders.Keys
  {
    var ts := TradesOf(w.state, id);
    MatchReachesMid(w, id);
    ConcludeKeepsAll(TradeOrdersAll(w.state.orders, ts), id, w.log.trades + ts, w.log.closed, w.inflight);
    MatchRecords(w.state, id);
    SettledStatus(w.state, id);
    MatchedWorld(w, id);
  }

  lemma MatchKeepsOrders(w: World, id: Id)
    requires OrdersOk(w) && HoldingsOk(w.state) && id in w.inflight && SearchFits(w.state, id)
    requires forall t :: t in TradesOf(w.state, id) ==> t.maker !in w.inflight
    ensures OrdersOk(AfterMatch(w, id)) && HoldingsOk(AfterMatch(w, id).state)
  {
    MatchKeepsTable(w, id);
    MatchKeepsTabled(w, id);
    MatchKeepsEvents(w, id);
  }

  /** The state after a matching section. */
  lemma MatchedState(s: State, id: Id)
    requires id in s.orders && Matchable(s, id)
    ensures var ts, done := TradesOf(s, id), Settled(s, id);
            && MatchSection(s, id) == (if Finished(done.orders[id].status) then Release(done, id) else done)
            && done.balances == CashAll(s.balances, ts) && done.positions == SharesAll(s.positions, ts)
  {
    ConcludeParts(Searched(s, id), id);
    hide Conclude;
    hide Release;
    hide Search;
  }

  /** Worklist and log after a matching section. */
  lemma MatchedLog(w: World, id: Id)
    requires id in w.state.orders && Matchable(w.state, id)
    ensures var w', ts, done := AfterMatch(w, id), TradesOf(w.state, id), Settled(w.state, id);
            var finished := Finished(done.orders[id].status);
            && w'.state == MatchSection(w.state, id)
            && w'.inflight == w.inflight - {id}
            && w'.log.trades == w.log.trades + ts
            && w'.log.closed == (if finished then w.log.closed + {id} else w.log.closed)
            && w'.log.dropped == w.log.dropped && w'.log.grants == w.log.grants
            && w'.log.shortfall == w.log.shortfall + SettleShortfall(w.state.balances, ts)
                                   + (if finished then ReleaseShortfall(done, id) else 0)
  {
    hide MatchSection;
    hide Settled;
    hide TradesOf;
    hide SettleShortfall;
    hide ReleaseShortfall;
  }

  /** State, worklist and log after a matching section. */
  lemma MatchedWorld(w: World, id: Id)
    requires id in w.state.orders && Matchable(w.state, id)
    ensures var w', ts, done := AfterMatch(w, id), TradesOf(w.state, id), Settled(w.state, id);
            var finished := Finished(done.orders[id].status);
            && w'.state == MatchSection(w.state, id) == (if finished then Release(done, id) else done)
            && done.balances == CashAll(w.state.balances, ts) && done.positions == SharesAll(w.state.positions, ts)
            && w'.inflight == w.inflight - {id}
            && w'.log.trades == w.log.trades + ts
            && w'.log.closed == (if finished then w.log.closed + {id} else w.log.closed)
            && w'.log.dropped == w.log.dropped && w'.log.grants == w.log.grants
            && w'.log.shortfall == w.log.shortfall + SettleShortfall(w.state.balances, ts)
                                   + (if finished then ReleaseShortfall(done, id) else 0)
  {
    hide *;
    MatchedState(w.state, id);
    MatchedLog(w, id);
  }

  lemma MatchKeepsTabled(w: World, id: Id)
    requires TradesTabled(w) && SearchFits(w.state, id)
    requires forall t :: t in TradesOf(w.state, id) ==> t.maker !in w.inflight
    ensures TradesTabled(AfterMatch(w, id))
  {
    var w', ts := AfterMatch(w, id), TradesOf(w.state, id);
    MatchIsTradeByTrade(w.state, id);
    MatchKeepsTerms(w.state, id);
    ValidAreKnown(w.state.orders, id, ts);
    MatchedWorld(w, id);
    hide MatchSection;
    hide AfterMatch;
    forall t | t in w'.log.trades
      ensures t.taker in w'.state.orders && t.maker in w'.state.orders && t.taker !in w'.inflight
      ensures t.maker !in w'.inflight && Proper(t)
    {
      assert t in w.log.trades || t in ts;
    }
  }

  lemma TradeKeepsTerms(orders: map<Id, Order>, t: Trade)
    ensures forall x :: x in orders ==> SameTerms(orders[x], TradeOrders(orders, t)[x])
  {
  }

  lemma {:induction false} TradesKeepTerms(orders: map<Id, Order>, ts: seq<Trade>)
    ensures forall x :: x in orders ==> SameTerms(orders[x], TradeOrdersAll(orders, ts)[x])
    decreases |ts|
  {
    if ts != [] {
      var next := TradeOrders(orders, ts[0]);
      TradeKeepsTerms(orders, ts[0]);
      TradesKeepTerms(next, ts[1..]);
      forall x | x in orders ensures SameTerms(orders[x], TradeOrdersAll(next, ts[1..])[x]) {
        assert SameTerms(orders[x], next[x]) && SameTerms(next[x], TradeOrdersAll(next, ts[1..])[x]);
      }
    }
  }

  /** The same orders asking for the same things, and the same markets. */
  ghost predicate KeepsTerms(s: State, r: State) {
    && r.orders.Keys == s.orders.Keys && r.markets.Keys == s.markets.Keys
    && (forall x :: x in s.orders ==> SameTerms(s.orders[x], r.orders[x]))
  }

  lemma KeepsTermsTransitive(a: State, b: State, c: State)
    requires KeepsTerms(a, b) && KeepsTerms(b, c)
    ensures KeepsTerms(a, c)
  {
    forall x | x in a.orders ensures SameTerms(a.orders[x], c.orders[x]) {
      assert SameTerms(a.orders[x], b.orders[x]) && SameTerms(b.orders[x], c.orders[x]);
    }
  }

  lemma ConcludeKeepsTerms(s: State, id: Id)
    requires id in s.orders && s.orders[id].event in s.markets
    ensures KeepsTerms(s, Conclude(s, id))
  {
    ConcludeParts(s, id);
  }

  lemma ReleaseKeepsTerms(s: State, id: Id)
    requires id in s.orders
    ensures KeepsTerms(s, ReleaseIfFinished(s, id))
  {
  }

  /** A matching section changes neither what orders ask for nor which markets exist. */
  lemma MatchKeepsTerms(s: State, id: Id)
    requires SearchFits(s, id)
    ensures KeepsTerms(s, MatchSection(s, id))
  {
    MatchIsTradeByTrade(s, id);
    TradedParts(s, id);
    TradesKeepTerms(s.orders, TradesOf(s, id));
    var mid := Traded(s, id);
    ConcludeKeepsTerms(mid, id);
    ReleaseKeepsTerms(Conclude(mid, id), id);
    KeepsTermsTransitive(s, mid, Conclude(mid, id));
    KeepsTermsTransitive(s, Conclude(mid, id), MatchSection(s, id));
  }

  lemma MatchKeepsEvents(w: World, id: Id)
    requires SearchFits(w.state, id)
    requires forall x :: x in w.state.orders ==> w.state.orders[x].event in w.state.markets
    ensures forall x :: x in AfterMatch(w, id).state.orders ==>
              AfterMatch(w, id).state.orders[x].event in AfterMatch(w, id).state.markets
  {
    MatchKeepsTerms(w.state, id);
    MatchedWorld(w, id);
    var s' := AfterMatch(w, id).state;
    forall x | x in s'.orders ensures s'.orders[x].event in s'.markets {
      assert SameTerms(w.state.orders[x], s'.orders[x]);
    }
  }
}
