/** The engine itself: maps updated in place, one method per critical section.

    Each method is proved to take exactly the step of the state machine that it stands for,
    so the theorems about runs are theorems about any sequence of calls. */
module Exchange {
  import opened Types
  import opened Ledger
  import opened Matching
  import opened Priority
  import opened Books
  import opened Machine
  import opened Lifecycle
  import opened BookSafety

  /** A stable sort by price, best first. */
  method StableSort(orders: map<Id, Order>, side: Side, ids: seq<Id>) returns (out: seq<Id>)
    requires Distinct(ids)
    ensures IsStableSort(orders, side, ids, out)
  {
    out := [];
    for k := 0 to |ids|
      invariant multiset(out) == multiset(ids[..k])
      invariant InOrder(orders, side, ids, out)
    {
      assert ids[..k + 1] == ids[..k] + [ids[k]];
      forall y | y in out ensures Occurs(ids, y, ids[k]) {
        assert y in multiset(ids[..k]);
        var i :| 0 <= i < k && ids[i] == y;
      }
      InsertSorts(orders, side, out, ids[k], ids);
      InsertAdds(orders, side, out, ids[k]);
      out := Insert(orders, side, out, ids[k]);
    }
    assert ids[..|ids|] == ids;
  }

  /** First order of the half the incoming one can trade with. */
  method FindCounterparty(orders: map<Id, Order>, ids: seq<Id>, incoming: Order) returns (idx: int)
    ensures -1 <= idx < |ids|
    ensures idx >= 0 ==> Tradable(incoming, Lookup(orders, ids[idx]))
    ensures forall j :: 0 <= j < (if idx < 0 then |ids| else idx) ==> !Tradable(incoming, Lookup(orders, ids[j]))
  {
    for i := 0 to |ids|
      invariant forall j :: 0 <= j < i ==> !Tradable(incoming, Lookup(orders, ids[j]))
    {
      var resting := Lookup(orders, ids[i]);
      if Dead(resting) {
        continue;
      }
      if resting.user == incoming.user {
        continue;
      }
      if CanMatch(incoming, resting) {
        return i;
      }
    }
    return -1;
  }

  /** Discards stale orders from the front. */
  method RemoveInvalid(orders: map<Id, Order>, ids: seq<Id>) returns (left: seq<Id>)
    ensures left == DropStale(orders, ids)
  {
    left := ids;
    while |left| > 0
      invariant DropStale(orders, left) == DropStale(orders, ids)
    {
      if !Stale(Lookup(orders, left[0])) {
        break;
      }
      left := left[1..];
    }
  }

  /** Takes an order off a half by id. */
  method RemoveOrder(ids: seq<Id>, id: Id) returns (left: seq<Id>)
    ensures left == RemoveId(ids, id)
  {
    var i := 0;
    while i < |ids|
      invariant 0 <= i <= |ids|
      invariant RemoveId(ids, id) == ids[..i] + RemoveId(ids[i..], id)
    {
      if ids[i] == id {
        left := ids[..i] + ids[i + 1..];
        assert ids[i..][1..] == ids[i + 1..];
        return;
      }
      SkipOne(ids, id, i);
      i := i + 1;
    }
    left := ids;
    assert ids[..i] + RemoveId(ids[i..], id) == ids;
  }

  lemma SkipOne(ids: seq<Id>, id: Id, i: nat)
    requires i < |ids| && ids[i] != id
    ensures ids[..i] + RemoveId(ids[i..], id) == ids[..i + 1] + RemoveId(ids[i + 1..], id)
  {
    assert ids[i..][1..] == ids[i + 1..];
    assert ids[..i] + [ids[i]] == ids[..i + 1];
  }

  /** There is only one first eligible order. */
  lemma FirstEligibleUnique(orders: map<Id, Order>, ids: seq<Id>, incoming: Order, i: int)
    requires -1 <= i < |ids|
    requires i >= 0 ==> Tradable(incoming, Lookup(orders, ids[i]))
    requires forall j :: 0 <= j < (if i < 0 then |ids| else i) ==> !Tradable(incoming, Lookup(orders, ids[j]))
    ensures i == FirstEligible(orders, ids, incoming)
  {
    forall j | 0 <= j < |ids|
      ensures Eligible(incoming, Lookup(orders, ids[j])) == Tradable(incoming, Lookup(orders, ids[j]))
    {
      EligibleIffTradable(incoming, Lookup(orders, ids[j]));
    }
  }

  /** `trades` followed by the rest of the search gives the whole search. */
  predicate ContinuesTo(trades: seq<Trade>, rest: Matched, whole: Matched) {
    whole == Matched(rest.orders, rest.ids, trades + rest.trades)
  }

  /** One turn of the loop: either the search ends here or it executes and goes on. */
  lemma RescanTurns(orders: map<Id, Order>, ids: seq<Id>, taker: Id, trades: seq<Trade>, whole: Matched)
    requires taker in orders && orders[taker].remaining > 0
    requires ContinuesTo(trades, Rescan(orders, ids, taker), whole)
    ensures var front := DropStale(orders, ids);
            var i := FirstEligible(orders, front, orders[taker]);
            if i < 0 then whole == Matched(orders, front, trades)
            else
              var one := Execute(orders, front, taker, i);
              && front[i] in orders && front[i] != taker && one.orders.Keys == orders.Keys
              && one.orders[taker].remaining < orders[taker].remaining
              && ContinuesTo(trades + one.trades, Rescan(one.orders, one.ids, taker), whole)
  {
    var front := DropStale(orders, ids);
    var i := FirstEligible(orders, front, orders[taker]);
    if i < 0 {
      assert trades + [] == trades;
    } else {
      var one := Execute(orders, front, taker, i);
      var rest := Rescan(one.orders, one.ids, taker);
      assert trades + (one.trades + rest.trades) == trades + one.trades + rest.trades;
    }
  }

  lemma NothingWanted(orders: map<Id, Order>, ids: seq<Id>, taker: Id)
    requires taker in orders && orders[taker].remaining <= 0
    ensures Rescan(orders, ids, taker) == Matched(orders, ids, [])
  {
  }

  /** The order's own half is sorted and does not hold it yet. */
  ghost predicate OwnHalfReady(s: State, id: Id) {
    && id in s.orders && s.orders[id].event in s.markets
    && var o := s.orders[id];
       var half := HalfOf(s, o.event, o.outcome, o.side);
       Distinct(half) && id !in half && SortedByPrice(s.orders, o.side, half)
  }

  lemma ReachableHalfReady(w: World, id: Id)
    requires Safe(w) && id in w.inflight && Matchable(w.state, id)
    ensures OwnHalfReady(w.state, id)
  {
    var o := w.state.orders[id];
    var book := w.state.markets[o.event].Of(o.outcome);
    assert BookOk(w.state.orders, ShelfOf(w), o.event, o.outcome, book);
    BookHalf(w.state.orders, ShelfOf(w), o.event, o.outcome, book, o.side);
    NotOnHalf(w.state.orders, ShelfOf(w), o.event, o.outcome, o.side, book.Half(o.side), id);
    PriorityIsDistinct(w.state.orders, w.log.arrival, o.side, book.Half(o.side));
  }

  /** What a matching section does to a reachable world. */
  lemma MatchTakes(w: World, id: Id)
    requires Safe(w) && id in w.inflight
    ensures id in w.state.orders && (Matchable(w.state, id) ==> OwnHalfReady(w.state, id))
    ensures Next(w, Match(id)) == AfterMatch(w, id)
    ensures Safe(AfterMatch(w, id)) && AfterMatch(w, id).state == MatchSection(w.state, id)
  {
    MatchKeepsSafe(w, id);
    AfterMatchState(w, id);
    hide AfterMatch;
    hide MatchSection;
    if Matchable(w.state, id) {
      ReachableHalfReady(w, id);
    }
  }

  lemma CancelTakes(w: World, id: Id, event: Id)
    ensures AfterCancel(w, id, event).state == CancelSection(w.state, id, event)
  {
  }

  lemma AfterMatchState(w: World, id: Id)
    requires id in w.state.orders
    ensures AfterMatch(w, id).state == MatchSection(w.state, id)
  {
    hide MatchSection;
    hide Settled;
    hide TradesOf;
    hide SettleShortfall;
    hide ReleaseShortfall;
  }

  /** Searching the other half leaves the own half as it was. */
  lemma OwnHalfStaysReady(s: State, id: Id)
    requires Matchable(s, id) && OwnHalfReady(s, id)
    ensures OwnHalfReady(Searched(s, id), id)
    ensures var o := s.orders[id];
            SameTerms(o, Searched(s, id).orders[id])
  {
    var o, r := s.orders[id], Searched(s, id);
    RescanKeepsTerms(s.orders, HalfOf(s, o.event, o.outcome, Opposite(o.side)), id);
    TermsFixPrices(s.orders, r.orders);
    assert SameTerms(o, r.orders[id]);
    hide Search;
  }

  class Engine {
    var markets: map<Id, Market>
    var orders: map<Id, Order>
    var balances: map<Id, Holding>
    var positions: map<string, Holding>

    /** The run so far, as the state machine sees it. */
    ghost var world: World

    function Snapshot(): State
      reads this
    {
      State(markets, orders, balances, positions)
    }

    ghost predicate Valid()
      reads this
    {
      Safe(world) && world.state == Snapshot()
    }

    /** An engine over a seeded ledger, with no markets and no orders. */
    constructor (balances: map<Id, Holding>, positions: map<string, Holding>)
      requires Seeded(World(State(map[], map[], balances, positions), {}, EMPTY_LOG))
      ensures Valid() && world == World(State(map[], map[], balances, positions), {}, EMPTY_LOG)
    {
      this.markets := map[];
      this.orders := map[];
      this.balances := balances;
      this.positions := positions;
      this.world := World(State(map[], map[], balances, positions), {}, EMPTY_LOG);
      RunIsSafe(World(State(map[], map[], balances, positions), {}, EMPTY_LOG), []);
    }

    // -------------------------------------------------------------- ledger

    /** Freezes what the order needs; a refusal leaves a zeroed entry behind. */
    method ReserveOrder(o: Order) returns (ok: bool, locked: int)
      modifies `balances, `positions
      ensures var r := Reserve(old(Snapshot()), o);
              && ok == r.Granted? && Snapshot() == r.state
              && (ok ==> r.order == o.(locked := locked))
      ensures o.side.Buy? && o.kind.MarketOrder? ==>
                ok && locked == BalanceOf(old(Snapshot()), o.user).available && balances[o.user].available == 0
      ensures o.side.Buy? && o.kind.LimitOrder? ==>
                && (ok <==> o.remaining * o.price <= BalanceOf(old(Snapshot()), o.user).available)
                && (ok ==> locked == o.remaining * o.price)
      ensures o.side.Sell? ==>
                var key := PositionKey(o.user, o.event, o.outcome);
                (ok <==> o.remaining <= PositionOf(old(Snapshot()), key).available) && (ok ==> locked == o.remaining)
    {
      if o.side == Buy {
        var bal := if o.user in balances then balances[o.user] else ZERO;
        balances := balances[o.user := bal];
        var cost := if o.kind == MarketOrder then bal.available else o.remaining * o.price;
        if cost > bal.available {
          return false, 0;
        }
        balances := balances[o.user := Holding(bal.available - cost, bal.reserved + cost)];
        return true, cost;
      }
      var key := PositionKey(o.user, o.event, o.outcome);
      var pos := if key in positions then positions[key] else ZERO;
      positions := positions[key := pos];
      if pos.available < o.remaining {
        return false, 0;
      }
      positions := positions[key := Holding(pos.available - o.remaining, pos.reserved + o.remaining)];
      return true, o.remaining;
    }

    /** The buyer pays from the reserve, the seller receives. */
    method MoveCash(t: Trade)
      modifies `balances
      ensures balances == SettleCash(old(balances), t)
    {
      var cost := t.quantity * t.price;
      var buyer := if t.buyer in balances then balances[t.buyer] else ZERO;
      var reserved := buyer.reserved - cost;
      if reserved < 0 {
        reserved := 0;
      }
      balances := balances[t.buyer := buyer.(reserved := reserved)];
      var seller := if t.seller in balances then balances[t.seller] else ZERO;
      balances := balances[t.seller := seller.(available := seller.available + cost)];
    }

    /** The buyer receives shares, the seller gives them from the reserve. */
    method MoveShares(t: Trade)
      modifies `positions
      ensures positions == SettleShares(old(positions), t)
    {
      hide PositionKey;
      var kb, ks := PositionKey(t.buyer, t.event, t.outcome), PositionKey(t.seller, t.event, t.outcome);
      var buyer := if kb in positions then positions[kb] else ZERO;
      positions := positions[kb := buyer.(available := buyer.available + t.quantity)];
      var seller := if ks in positions then positions[ks] else ZERO;
      var reserved := seller.reserved - t.quantity;
      if reserved < 0 {
        reserved := 0;
      }
      positions := positions[ks := seller.(reserved := reserved)];
    }

    /** Applies one trade to cash, shares and the locks of both orders. */
    method SettleTrade(t: Trade)
      modifies `balances, `positions, `orders
      ensures Snapshot() == Settle(old(Snapshot()), t)
    {
      MoveCash(t);
      MoveShares(t);
      PayLock(t.taker, t);
      PayLock(t.maker, t);
      hide SettleCash;
      hide SettleShares;
      assert orders == PayLocks(old(orders), t);
    }

    /** Takes the trade out of the lock of one order, if that order is tabled. */
    method PayLock(id: Id, t: Trade)
      modifies `orders
      ensures orders.Keys == old(orders).Keys
      ensures forall x :: x in orders ==>
                orders[x] == if x == id
                  then old(orders)[x].(locked := Max(old(orders)[x].locked - Share(old(orders)[x].side, t), 0))
                             else old(orders)[x]
    {
      if id !in orders {
        return;
      }
      var o := orders[id];
      var locked := o.locked - (if o.side == Buy then t.quantity * t.price else t.quantity);
      if locked < 0 {
        locked := 0;
      }
      orders := orders[id := o.(locked := locked)];
    }

    /** Returns whatever the order still has locked. */
    method ReleaseOrder(id: Id)
      requires id in orders
      modifies `balances, `positions, `orders
      ensures Snapshot() == Release(old(Snapshot()), id)
    {
      var o := orders[id];
      if o.locked <= 0 {
        return;
      }
      if o.side == Buy {
        var bal := if o.user in balances then balances[o.user] else ZERO;
        var reserved := bal.reserved - o.locked;
        if reserved < 0 {
          reserved := 0;
        }
        balances := balances[o.user := Holding(bal.available + o.locked, reserved)];
      } else {
        var key := PositionKey(o.user, o.event, o.outcome);
        var pos := if key in positions then positions[key] else ZERO;
        var reserved := pos.reserved - o.locked;
        if reserved < 0 {
          reserved := 0;
        }
        positions := positions[key := Holding(pos.available + o.locked, reserved)];
      }
      orders := orders[id := o.(locked := 0)];
    }

    // -------------------------------------------------------------- matching

    /** Executes the taker against the order at index `i` of the half. */
    method ExecutePair(taker: Id, ids: seq<Id>, i: nat) returns (left: seq<Id>, trade: Trade)
      requires taker in orders && i < |ids| && ids[i] in orders && ids[i] != taker
      modifies `orders
      ensures Matched(orders, left, [trade]) == Execute(old(orders), ids, taker, i)
    {
      var incoming, resting := orders[taker], orders[ids[i]];
      var q := if incoming.remaining < resting.remaining then incoming.remaining else resting.remaining;
      trade := BuildTrade(incoming, resting, q);
      orders := orders[taker := incoming.(remaining := incoming.remaining - q, filled := incoming.filled + q)];
      resting := resting.(remaining := resting.remaining - q, filled := resting.filled + q);
      left := ids;
      if resting.remaining <= 0 {
        resting := resting.(remaining := 0, status := Filled);
        left := ids[..i] + ids[i + 1..];
      } else {
        resting := resting.(status := Partial);
      }
      orders := orders[ids[i] := resting];
    }

    /** Matches an order against a half of the book, starting again from the front after every
        execution, until it is filled or nobody is left to trade with. */
    method MatchAgainstBook(taker: Id, ids: seq<Id>) returns (left: seq<Id>, trades: seq<Trade>)
      requires taker in orders
      modifies `orders
      ensures Matched(orders, left, trades) == Rescan(old(orders), ids, taker)
    {
      left, trades := ids, [];
      ghost var whole := Rescan(orders, ids, taker);
      hide Rescan;
      hide Execute;
      while orders[taker].remaining > 0
        invariant orders.Keys == old(orders).Keys
        invariant ContinuesTo(trades, Rescan(orders, left, taker), whole)
        decreases Max(orders[taker].remaining, 0)
      {
        RescanTurns(orders, left, taker, trades, whole);
        left := RemoveInvalid(orders, left);
        if |left| == 0 {
          return;
        }
        var idx := FindCounterparty(orders, left, orders[taker]);
        FirstEligibleUnique(orders, left, orders[taker], idx);
        if idx < 0 {
          return;
        }
        var trade;
        left, trade := ExecutePair(taker, left, idx);
        trades := trades + [trade];
      }
      NothingWanted(orders, left, taker);
    }

    /** Puts an order on its own half: append, then sort stably. */
    method AddToBook(id: Id)
      requires id in orders && orders[id].event in markets
      requires var o := orders[id];
               var half := HalfOf(Snapshot(), o.event, o.outcome, o.side);
               Distinct(half) && id !in half && SortedByPrice(orders, o.side, half)
      modifies `markets
      ensures var o := orders[id];
              var s := old(Snapshot());
              Snapshot() == PutHalf(s, o.event, o.outcome, o.side,
                Insert(orders, o.side, HalfOf(s, o.event, o.outcome, o.side), id))
    {
      var o := orders[id];
      var market := markets[o.event];
      var book := market.Of(o.outcome);
      var half := book.Half(o.side);
      var sorted := StableSort(orders, o.side, half + [id]);
      AppendAndSortIsInsert(orders, o.side, half, id, sorted);
      markets := markets[o.event := market.With(o.outcome, book.WithHalf(o.side, sorted))];
    }

    /** Settles trades one after the other. */
    method SettleTrades(trades: seq<Trade>)
      modifies `balances, `positions, `orders
      ensures Snapshot() == SettleAll(old(Snapshot()), trades)
    {
      var i := 0;
      while i < |trades|
        invariant 0 <= i <= |trades|
        invariant SettleAll(Snapshot(), trades[i..]) == SettleAll(old(Snapshot()), trades)
        invariant markets == old(markets)
      {
        assert trades[i..][1..] == trades[i + 1..];
        SettleTrade(trades[i]);
        i := i + 1;
      }
      assert trades[i..] == [];
    }

    /** The matching section on the maps: match, conclude, settle, release. */
    method RunMatch(id: Id) returns (trades: seq<Trade>)
      requires id in orders && (Matchable(Snapshot(), id) ==> OwnHalfReady(Snapshot(), id))
      modifies `orders, `markets, `balances, `positions
      ensures Snapshot() == MatchSection(old(Snapshot()), id)
      ensures trades == TradesOf(old(Snapshot()), id)
    {
      var order := orders[id];
      if order.status == Canceled {
        return [];
      }
      if order.event !in markets {
        orders := orders[id := order.(status := Rejected)];
        return [];
      }
      ghost var s := Snapshot();
      trades := SearchAndConclude(id);
      SettleTrades(trades);
      assert Snapshot() == Settled(s, id);
      if orders[id].status == Filled || orders[id].status == Canceled {
        ReleaseOrder(id);
      }
    }

    /** Second section of creating an order. */
    method MatchOrder(id: Id) returns (trades: seq<Trade>)
      requires Valid() && id in world.inflight
      modifies this
      ensures Valid() && world == Next(old(world), Match(id))
      ensures trades == TradesOf(old(Snapshot()), id)
    {
      MatchTakes(world, id);
      hide MatchSection;
      hide AfterMatch;
      hide Safe;
      hide TradesOf;
      hide Matchable;
      hide OwnHalfReady;
      trades := RunMatch(id);
      world := AfterMatch(world, id);
    }

    /** Matches the order and updates its status and the books; the ledger comes later. */
    method SearchAndConclude(id: Id) returns (trades: seq<Trade>)
      requires Matchable(Snapshot(), id) && OwnHalfReady(Snapshot(), id)
      modifies `orders, `markets
      ensures trades == TradesOf(old(Snapshot()), id)
      ensures Snapshot() == Conclude(Searched(old(Snapshot()), id), id)
    {
      ghost var s := Snapshot();
      var order := orders[id];
      var market := markets[order.event];
      var book := market.Of(order.outcome);
      var left;
      left, trades := MatchAgainstBook(id, book.Half(Opposite(order.side)));
      markets := markets[order.event := market.With(order.outcome, book.WithHalf(Opposite(order.side), left))];
      assert Snapshot() == Searched(s, id);
      OwnHalfStaysReady(s, id);

      order := orders[id];
      if order.remaining == 0 {
        orders := orders[id := order.(status := Filled)];
      } else if order.filled > 0 {
        if order.kind == LimitOrder {
          AddToBook(id);
          orders := orders[id := order.(status := Partial)];
        } else {
          orders := orders[id := order.(status := Canceled)];
        }
      } else {
        if order.kind == MarketOrder {
          orders := orders[id := order.(status := Canceled)];
        } else {
          AddToBook(id);
          orders := orders[id := order.(status := Pending)];
        }
      }
    }

    // -------------------------------------------------------------- the other sections

    /** First section of creating an order. */
    method CreateOrder(request: Request, generated: Id) returns (reply: Reply, id: Id)
      requires Valid()
      modifies this
      ensures Valid() && world == Next(old(world), Submit(request, generated))
      ensures var c := Validate(request, generated);
              if c.Invalid? then reply == Failed(c.error)
              else reply == Admit(old(Snapshot()), c.order).reply && id == c.order.id
    {
      StepKeepsSafe(world, Submit(request, generated));
      var checked := Validate(request, generated);
      if checked.Invalid? {
        return Failed(checked.error), "";
      }
      id := checked.order.id;
      reply := Enter(checked.order);
      world := AfterSubmit(world, checked.order);
    }

    /** Refuses duplicates and unknown events, reserves, and enters the order table. */
    method Enter(order: Order) returns (reply: Reply)
      modifies `orders, `balances, `positions
      ensures Admission(Snapshot(), reply) == Admit(old(Snapshot()), order)
    {
      if order.id in orders {
        return Duplicate;
      }
      if order.event !in markets {
        return Failed(EventNotFound);
      }
      var ok, locked := ReserveOrder(order);
      if !ok {
        return Failed(if order.side == Buy then NoFunds else NoShares);
      }
      orders := orders[order.id := order.(locked := locked)];
      return Accepted;
    }

    /** The order event could not be emitted: the order leaves the table. */
    method EmissionFailed(id: Id)
      requires Valid() && id in world.inflight
      modifies this
      ensures Valid() && world == Next(old(world), LoseEmit(id))
    {
      StepKeepsSafe(world, LoseEmit(id));
      orders := orders - {id};
      world := AfterLoss(world, id);
    }

    method CancelOrder(id: Id, event: Id) returns (reply: Reply)
      requires Valid()
      modifies this
      ensures Valid() && world == Next(old(world), Cancel(id, event))
      ensures reply == CancelReply(old(Snapshot()), id, event)
    {
      StepKeepsSafe(world, Cancel(id, event));
      CancelTakes(world, id, event);
      hide AfterCancel;
      hide CancelSection;
      hide CancelReply;
      hide Safe;
      reply := RunCancel(id, event);
      world := AfterCancel(world, id, event);
    }

    /** The canceling section on the maps. */
    method RunCancel(id: Id, event: Id) returns (reply: Reply)
      modifies `orders, `markets, `balances, `positions
      ensures Snapshot() == CancelSection(old(Snapshot()), id, event)
      ensures reply == CancelReply(old(Snapshot()), id, event)
      ensures reply.Accepted? <==>
                && id != "" && id in old(orders) && (event == "" || old(orders)[id].event == event)
                && !old(orders)[id].status.Filled? && !old(orders)[id].status.Canceled?
                && !old(orders)[id].status.Rejected? && old(orders)[id].event in old(markets)
      ensures reply.Accepted? ==> orders[id].status.Canceled? && orders[id].locked <= 0
    {
      if id == "" {
        return Failed(OrderIdRequired);
      }
      if id !in orders {
        return Failed(OrderNotFound);
      }
      var order := orders[id];
      if event != "" && order.event != event {
        return Failed(WrongEvent);
      }
      if order.status == Filled || order.status == Canceled || order.status == Rejected {
        return Failed(NotCancelable);
      }
      if order.event !in markets {
        return Failed(EventNotFound);
      }
      var market := markets[order.event];
      var book := market.Of(order.outcome);
      var left := RemoveOrder(book.Half(order.side), id);
      markets := markets[order.event := market.With(order.outcome, book.WithHalf(order.side, left))];
      orders := orders[id := order.(status := Canceled)];
      ReleaseOrder(id);
      return Accepted;
    }

    method CreateMarket(event: Id)
      requires Valid()
      modifies this
      ensures Valid() && world == Next(old(world), CreateEvent(event))
    {
      StepKeepsSafe(world, CreateEvent(event));
      if event != "" && event !in markets {
        markets := markets[event := NEW_MARKET];
      }
      world := Next(world, CreateEvent(event));
    }

    method UserCreated(user: Id)
      requires Valid()
      modifies this
      ensures Valid() && world == Next(old(world), CreateUser(user))
    {
      StepKeepsSafe(world, CreateUser(user));
      if user != "" && user !in balances {
        balances := balances[user := Holding(STARTING_BALANCE, 0)];
      }
      world := Next(world, CreateUser(user));
    }
  }
}
