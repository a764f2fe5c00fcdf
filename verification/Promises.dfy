/** What a client sees. Admission, matching and canceling are stated over requests, accounts and
    resting orders alone, without the predicates the engine itself decides by. */
module Promises {
  import opened Types
  import opened Ledger
  import opened Matching
  import opened Priority
  import opened Books
  import opened Machine
  import opened Fills
  import opened Lifecycle
  import opened BookSafety
  import opened Accounts
  import opened Guarantees

  // ---------------------------------------------------------------- requests

  function SideName(side: Side): string { if side.Buy? then "BUY" else "SELL" }
  function TypeName(kind: OrderType): string { if kind.LimitOrder? then "LIMIT" else "MARKET" }

  predicate WellFormed(r: Request) {
    && r.quantity > 0 && r.event != "" && r.user != ""
    && r.side in {"BUY", "SELL"} && r.outcome in {"YES", "NO"}
    && r.orderType in {"LIMIT", "MARKET"} && (r.orderType == "LIMIT" ==> r.price > 0)
  }

  function OrderIdOf(r: Request, generated: Id): Id { if r.orderId == "" then generated else r.orderId }

  /** Exactly the well-formed requests become orders, and an order is what its request says. */
  lemma ValidIff(r: Request, generated: Id)
    ensures Validate(r, generated).Valid? <==> WellFormed(r)
    ensures Validate(r, generated).Valid? ==>
              var o := Validate(r, generated).order;
              && o.id == OrderIdOf(r, generated) && o.event == r.event && o.user == r.user
              && TypeName(o.kind) == r.orderType && OutcomeName(o.outcome) == r.outcome && SideName(o.side) == r.side
              && o.quantity == o.remaining == r.quantity && o.filled == 0 && o.price == r.price
              && o.status.Pending? && o.locked == 0
  {
  }

  /** A refused request really has the fault it is told. */
  lemma FaultIsReal(r: Request, generated: Id)
    requires Validate(r, generated).Invalid?
    ensures match Validate(r, generated).error
            case QuantityNotPositive => r.quantity <= 0
            case EventRequired => r.event == ""
            case UserRequired => r.user == ""
            case InvalidSide => r.side !in {"BUY", "SELL"}
            case InvalidOutcome => r.outcome !in {"YES", "NO"}
            case PriceNotPositive => r.orderType == "LIMIT" && r.price <= 0
            case InvalidType => r.orderType !in {"LIMIT", "MARKET"}
            case _ => false
  {
  }

  // ---------------------------------------------------------------- admission

  function OutcomeOf(r: Request): Outcome { if r.outcome == "YES" then Yes else No }

  function SharesKey(r: Request): string { PositionKey(r.user, r.event, OutcomeOf(r)) }

  /** What the client has for this request: cash for a BUY, shares of the outcome for a SELL. */
  function Account(s: State, r: Request): Holding {
    if r.side == "BUY" then Held(s.balances, r.user) else Held(s.positions, SharesKey(r))
  }

  /** What the request puts aside: all cash for a market BUY, quantity times price for a limit BUY,
      the quantity for a SELL. */
  function Price(s: State, r: Request): int {
    if r.side == "SELL" then r.quantity
    else if r.orderType == "MARKET" then Account(s, r).available
    else r.quantity * r.price
  }

  function WithAccount(s: State, r: Request, h: Holding): State {
    if r.side == "BUY" then s.(balances := s.balances[r.user := h])
    else s.(positions := s.positions[SharesKey(r) := h])
  }

  /** The reply to a request. */
  function ReplyTo(s: State, r: Request, generated: Id): Reply {
    match Validate(r, generated)
    case Invalid(error) => Failed(error)
    case Valid(o) => Admit(s, o).reply
  }

  /** Admission of a well-formed request with a new id for a known event: accepted exactly when
      the account covers it, a market BUY therefore always; the covered amount moves from
      available to reserved and is locked; a refusal only opens the account. */
  lemma AdmissionIs(w: World, r: Request, generated: Id)
    requires WellFormed(r) && OrderIdOf(r, generated) !in w.state.orders && r.event in w.state.markets
    ensures var s, w', id := w.state, Next(w, Submit(r, generated)), OrderIdOf(r, generated);
            var h, amount := Account(s, r), Price(s, r);
            if amount <= h.available then
              && ReplyTo(s, r, generated).Accepted? && w'.inflight == w.inflight + {id} && w'.log == w.log
              && id in w'.state.orders
              && w'.state.orders == s.orders[id := w'.state.orders[id]] && w'.state.orders[id].locked == amount
              && w'.state.(orders := s.orders) == WithAccount(s, r, Holding(h.available - amount, h.reserved + amount))
            else
              && ReplyTo(s, r, generated) == Failed(if r.side == "BUY" then NoFunds else NoShares)
              && w' == w.(state := WithAccount(s, r, h))
  {
    hide PositionKey;
    ValidIff(r, generated);
    hide Validate;
    var o := Validate(r, generated).order;
    NamesDecide(r, o);
  }

  lemma NamesDecide(r: Request, o: Order)
    requires WellFormed(r) && SideName(o.side) == r.side
    requires TypeName(o.kind) == r.orderType && OutcomeName(o.outcome) == r.outcome
    ensures (o.side.Buy? <==> r.side == "BUY") && (o.side.Sell? <==> r.side == "SELL")
    ensures (o.kind.MarketOrder? <==> r.orderType == "MARKET") && o.outcome == OutcomeOf(r)
  {
  }

  /** A market BUY is accepted and leaves no cash available. */
  lemma MarketBuyTakesAll(w: World, r: Request, generated: Id)
    requires WellFormed(r) && OrderIdOf(r, generated) !in w.state.orders && r.event in w.state.markets
    requires r.side == "BUY" && r.orderType == "MARKET"
    ensures ReplyTo(w.state, r, generated).Accepted?
    ensures Held(Next(w, Submit(r, generated)).state.balances, r.user).available == 0
  {
    AdmissionIs(w, r, generated);
    hide Next;
    hide ReplyTo;
  }

  /** Everything else is answered without any change: a faulty request, a known id, an unknown
      event. */
  lemma OthersAreRefused(w: World, r: Request, generated: Id)
    requires !WellFormed(r) || OrderIdOf(r, generated) in w.state.orders || r.event !in w.state.markets
    ensures Next(w, Submit(r, generated)) == w
    ensures var reply := ReplyTo(w.state, r, generated);
            if !WellFormed(r) then reply.Failed?
            else if OrderIdOf(r, generated) in w.state.orders then reply == Duplicate
            else reply == Failed(EventNotFound)
  {
    ValidIff(r, generated);
    hide Validate;
  }

  // ---------------------------------------------------------------- matching

  /** May this resting order trade with the taker? Another user's, at any price for a market order
      and at a price within the limit for a limit order. */
  predicate Willing(taker: Order, resting: Order) {
    && resting.user != taker.user
    && (taker.kind.MarketOrder?
        || (if taker.side.Buy? then resting.price <= taker.price else resting.price >= taker.price))
  }

  /** Summed remainders of the willing orders. */
  function Supply(taker: Order, resting: seq<Order>): int {
    if resting == [] then 0
    else (if Willing(taker, resting[0]) then resting[0].remaining else 0) + Supply(taker, resting[1..])
  }

  /** Live orders for the taker's outcome, as on every reachable half. */
  ghost predicate Offers(taker: Order, resting: seq<Order>) {
    forall i :: 0 <= i < |resting| ==>
      resting[i].Active() && resting[i].remaining > 0 && resting[i].outcome == taker.outcome
  }

  lemma {:induction false} SupplyIsOnOffer(taker: Order, resting: seq<Order>)
    requires Offers(taker, resting)
    ensures OnOffer(taker, resting) == Supply(taker, resting)
    ensures forall i :: 0 <= i < |resting| ==> (Eligible(taker, resting[i]) <==> Willing(taker, resting[i]))
  {
    forall i | 0 <= i < |resting| ensures Eligible(taker, resting[i]) <==> Willing(taker, resting[i]) {
      EligibleIffTradable(taker, resting[i]);
    }
    if resting != [] {
      SupplyIsOnOffer(taker, resting[1..]);
    }
  }

  lemma OffersPrefix(taker: Order, resting: seq<Order>, i: nat)
    requires Offers(taker, resting) && i <= |resting|
    ensures Offers(taker, resting[..i])
  {
  }

  /** The orders a waiting order meets. */
  function Opposing(s: State, id: Id): seq<Order>
    requires id in s.orders && s.orders[id].event in s.markets
  {
    var o := s.orders[id];
    Resolve(s.orders, HalfOf(s, o.event, o.outcome, if o.side.Buy? then Sell else Buy))
  }

  lemma OpposingOffers(w: World, id: Id)
    requires Safe(w) && id in w.inflight && Matchable(w.state, id)
    ensures Offers(w.state.orders[id], Opposing(w.state, id)) && DistinctIds(Opposing(w.state, id))
    ensures Opposing(w.state, id) == Resolve(w.state.orders, SearchedHalf(w.state, id))
    ensures var s := w.state;
            id !in SearchedHalf(s, id) && Distinct(SearchedHalf(s, id)) && s.orders[id].remaining >= 0
  {
    var s, o, half := w.state, w.state.orders[id], SearchedHalf(w.state, id);
    assert Sound(id, o, w.log.trades, id in w.log.closed);
    assert o.remaining >= 0 && MarketsOk(w);
    assert Opposing(s, id) == Resolve(s.orders, half);
    hide *;
    SearchWalks(w, id);
    WaitingIsElsewhere(w, o.event, o.outcome, Opposite(o.side), half, id);
    HalfIsLive(w, o.event, o.outcome, Opposite(o.side), half);
    LiveOffers(s.orders, o, half);
  }

  lemma LiveOffers(orders: map<Id, Order>, taker: Order, half: seq<Id>)
    requires Distinct(half)
    requires forall i :: 0 <= i < |half| ==>
               var o := Lookup(orders, half[i]);
               o.Active() && o.remaining > 0 && o.outcome == taker.outcome && o.id == half[i]
    ensures Offers(taker, Resolve(orders, half)) && DistinctIds(Resolve(orders, half))
  {
  }

  lemma WaitingIsElsewhere(w: World, event: Id, outcome: Outcome, side: Side, half: seq<Id>, id: Id)
    requires HalfOk(w.state.orders, ShelfOf(w), event, outcome, side, half) && id in w.inflight
    ensures id !in half
  {
  }

  /** A reachable half holds live orders for its outcome, each once. */
  lemma HalfIsLive(w: World, event: Id, outcome: Outcome, side: Side, half: seq<Id>)
    requires Safe(w) && HalfOk(w.state.orders, ShelfOf(w), event, outcome, side, half)
    ensures Distinct(half)
    ensures forall i :: 0 <= i < |half| ==>
              var o := Lookup(w.state.orders, half[i]);
              o.Active() && o.remaining > 0 && o.outcome == outcome && o.id == half[i]
  {
    PriorityIsDistinct(w.state.orders, w.log.arrival, side, half);
    hide InPriority;
    hide Safe;
    forall i | 0 <= i < |half|
      ensures var o := Lookup(w.state.orders, half[i]);
              o.Active() && o.remaining > 0 && o.outcome == outcome && o.id == half[i]
    {
      RestingIsLive(w, event, outcome, side, half[i]);
      hide RestingOk;
    }
  }

  lemma RestingIsLive(w: World, event: Id, outcome: Outcome, side: Side, x: Id)
    requires Safe(w) && RestingOk(w.state.orders, ShelfOf(w), event, outcome, side, x)
    ensures var o := Lookup(w.state.orders, x);
            o.Active() && o.remaining > 0 && o.outcome == outcome && o.id == x
  {
    assert Sound(x, w.state.orders[x], w.log.trades, x in w.log.closed);
  }

  lemma MatchIsSweep(w: World, id: Id)
    requires Safe(w) && id in w.inflight && Matchable(w.state, id)
    ensures TradesOf(w.state, id) == Sweep(w.state.orders[id], Opposing(w.state, id)).trades
  {
    OpposingOffers(w, id);
    RescanIsSweep(w.state.orders, SearchedHalf(w.state, id), id);
    hide Rescan;
    hide Sweep;
  }

  /** In every reachable state, matching a waiting order trades the smaller of what it wants and
      what all willing resting orders offer, and gives each of them exactly what is left for it
      after everybody willing ahead of it: a market order meets every other user's order. */
  lemma MatchFills(w: World, steps: seq<Step>, id: Id)
    requires Seeded(w) && id in Run(w, steps).inflight && Matchable(Run(w, steps).state, id)
    ensures var s := Run(w, steps).state;
            var o, resting, trades := s.orders[id], Opposing(s, id), TradesOf(s, id);
            && Volume(trades) == Min(o.remaining, Supply(o, resting))
            && (forall i :: 0 <= i < |resting| ==>
                  Bought(trades, resting[i].id)
                  == if Willing(o, resting[i])
                     then Min(resting[i].remaining, Max(o.remaining - Supply(o, resting[..i]), 0)) else 0)
  {
    RunIsSafe(w, steps);
    var r := Run(w, steps);
    hide Run;
    FillsExactly(r, id);
  }

  lemma FillsExactly(w: World, id: Id)
    requires Safe(w) && id in w.inflight && Matchable(w.state, id)
    ensures var o, resting, trades := w.state.orders[id], Opposing(w.state, id), TradesOf(w.state, id);
            && Volume(trades) == Min(o.remaining, Supply(o, resting))
            && (forall i :: 0 <= i < |resting| ==>
                  Bought(trades, resting[i].id)
                  == if Willing(o, resting[i])
                     then Min(resting[i].remaining, Max(o.remaining - Supply(o, resting[..i]), 0)) else 0)
  {
    MatchIsSweep(w, id);
    OpposingOffers(w, id);
    hide TradesOf;
    hide Safe;
    hide Opposing;
    hide Offers;
    hide Sweep;
    SweepFills(w.state.orders[id], Opposing(w.state, id));
  }

  lemma SweepFills(o: Order, resting: seq<Order>)
    requires Offers(o, resting) && DistinctIds(resting) && o.remaining >= 0
    ensures var trades := Sweep(o, resting).trades;
            && Volume(trades) == Min(o.remaining, Supply(o, resting))
            && (forall i :: 0 <= i < |resting| ==>
                  Bought(trades, resting[i].id)
                  == if Willing(o, resting[i])
                     then Min(resting[i].remaining, Max(o.remaining - Supply(o, resting[..i]), 0)) else 0)
  {
    hide Sweep;
    hide Eligible;
    hide Willing;
    hide Max;
    SweepMaximal(o, resting);
    SupplyIsOnOffer(o, resting);
    forall i | 0 <= i < |resting|
      ensures Bought(Sweep(o, resting).trades, resting[i].id)
              == if Willing(o, resting[i])
                 then Min(resting[i].remaining, Max(o.remaining - Supply(o, resting[..i]), 0)) else 0
    {
      SweepFillsOne(o, resting, i);
    }
  }

  lemma SweepFillsOne(o: Order, resting: seq<Order>, i: nat)
    requires Offers(o, resting) && DistinctIds(resting) && i < |resting|
    ensures Bought(Sweep(o, resting).trades, resting[i].id)
            == if Willing(o, resting[i])
               then Min(resting[i].remaining, Max(o.remaining - Supply(o, resting[..i]), 0)) else 0
  {
    hide Sweep;
    hide Eligible;
    hide Willing;
    Waterfall(o, resting, i);
    SupplyIsOnOffer(o, resting);
    OffersPrefix(o, resting, i);
    SupplyIsOnOffer(o, resting[..i]);
  }

  // ---------------------------------------------------------------- after the match

  lemma SearchedTaker(w: World, id: Id)
    requires Safe(w) && id in w.inflight && Matchable(w.state, id)
    ensures id in w.state.orders
    ensures Search(w.state, id).orders[id] == FillTaker(w.state.orders[id], Volume(TradesOf(w.state, id)))
    ensures w.state.orders[id].filled == 0 && w.state.orders[id].remaining == w.state.orders[id].quantity
  {
    var o := w.state.orders[id];
    assert Sound(id, o, w.log.trades, id in w.log.closed) && StatusOk(o, true);
    OpposingOffers(w, id);
    RescanIsSweep(w.state.orders, SearchedHalf(w.state, id), id);
    SweepMaximal(o, Opposing(w.state, id));
    hide Rescan;
    hide Sweep;
    hide Safe;
  }

  /** What becomes of a matched order, by the volume of its trades: FILLED if that is everything it
      wanted; otherwise a market order is CANCELED and a limit order rests on its own half,
      PARTIAL or PENDING. */
  lemma MatchConcludes(w: World, steps: seq<Step>, id: Id)
    requires Seeded(w) && id in Run(w, steps).inflight && Matchable(Run(w, steps).state, id)
    ensures var r := Run(w, steps);
            id in r.state.orders && id in Next(r, Match(id)).state.orders
    ensures var r := Run(w, steps);
            var s', o, o', n := Next(r, Match(id)).state, r.state.orders[id], Next(r, Match(id)).state.orders[id],
                                Volume(TradesOf(r.state, id));
            && o'.filled == n && o'.remaining == o.quantity - n
            && o'.status == (if n == o.quantity then Filled
                             else if o.kind.MarketOrder? then Canceled
                             else if n > 0 then Partial else Pending)
            && o.event in s'.markets
            && (id in HalfOf(s', o.event, o.outcome, o.side) <==> o.kind.LimitOrder? && n < o.quantity)
  {
    RunIsSafe(w, steps);
    var r := Run(w, steps);
    hide Run;
    Concludes(r, id);
    SearchedTaker(r, id);
    NextMatches(r, id);
    hide Next;
  }

  lemma NextMatches(w: World, id: Id)
    requires id in w.inflight && id in w.state.orders
    ensures Next(w, Match(id)) == AfterMatch(w, id)
  {
  }

  lemma Concludes(w: World, id: Id)
    requires Safe(w) && id in w.inflight && Matchable(w.state, id) && id in w.state.orders
    ensures id in AfterMatch(w, id).state.orders
    ensures var s', o, n := AfterMatch(w, id).state, w.state.orders[id], Volume(TradesOf(w.state, id));
            var o' := s'.orders[id];
            && o'.filled == n && o'.remaining == o.quantity - n
            && o'.status == (if n == o.quantity then Filled
                             else if o.kind.MarketOrder? then Canceled
                             else if n > 0 then Partial else Pending)
            && o.event in s'.markets
            && (id in HalfOf(s', o.event, o.outcome, o.side) <==> o.kind.LimitOrder? && n < o.quantity)
  {
    hide AfterMatch;
    hide MatchSection;
    hide Search;
    hide TradesOf;
    var s, o := w.state, w.state.orders[id];
    SearchedTaker(w, id);
    FillsExactly(w, id);
    SupplyIsOffered(w, id);
    MatchedLog(w, id);
    MatchTable(s, id);
    var t := WithStatus(Search(s, id).orders, id, ConcludedStatus(Search(s, id).orders[id]));
    assert SameButLock(t[id], MatchSection(s, id).orders[id]);
    MatchHalves(s, id, o.event, o.outcome, o.side);
    InsertAdds(Search(s, id).orders, o.side, HalfOf(s, o.event, o.outcome, o.side), id);
    NotYetResting(w, id);
    hide Safe;
  }

  lemma SupplyIsOffered(w: World, id: Id)
    requires Safe(w) && id in w.inflight && Matchable(w.state, id)
    ensures Supply(w.state.orders[id], Opposing(w.state, id)) >= 0
  {
    OpposingOffers(w, id);
    SupplyIsOnOffer(w.state.orders[id], Opposing(w.state, id));
  }

  lemma NotYetResting(w: World, id: Id)
    requires Safe(w) && id in w.inflight && Matchable(w.state, id)
    ensures var o := w.state.orders[id];
            id !in HalfOf(w.state, o.event, o.outcome, o.side)
  {
    var o := w.state.orders[id];
    var book := w.state.markets[o.event].Of(o.outcome);
    assert BookOk(w.state.orders, ShelfOf(w), o.event, o.outcome, book);
    BookHalf(w.state.orders, ShelfOf(w), o.event, o.outcome, book, o.side);
    NotOnHalf(w.state.orders, ShelfOf(w), o.event, o.outcome, o.side, book.Half(o.side), id);
  }

  // ---------------------------------------------------------------- canceling

  /** Exactly which cancels are accepted, in any reachable state, and what the others are told. */
  lemma CancelReplyIs(w: World, id: Id, event: Id)
    requires Safe(w)
    ensures var orders, reply := w.state.orders, CancelReply(w.state, id, event);
            if id == "" then reply == Failed(OrderIdRequired)
            else if id !in orders then reply == Failed(OrderNotFound)
            else if event != "" && event != orders[id].event then reply == Failed(WrongEvent)
            else if orders[id].status.Filled? || orders[id].status.Canceled? then reply == Failed(NotCancelable)
            else reply.Accepted?
  {
    if id in w.state.orders {
      assert Sound(id, w.state.orders[id], w.log.trades, id in w.log.closed);
    }
  }

  /** A refused cancel changes nothing. After an accepted one the order is CANCELED, is on no half
      of any book and locks nothing; what it had locked is available again in its account; no
      other order, resting place or account changes. */
  lemma CancelIs(w: World, id: Id, event: Id)
    requires Safe(w)
    ensures var w' := Next(w, Cancel(id, event));
            if !CancelReply(w.state, id, event).Accepted? then w' == w
            else
              var s, s', o := w.state, w'.state, w.state.orders[id];
              && s'.orders == s.orders[id := o.(status := Canceled, locked := 0)]
              && s'.markets.Keys == s.markets.Keys
              && Held(AccountsOn(s', o.side), AccountOf(o)).available
                 == Held(AccountsOn(s, o.side), AccountOf(o)).available + o.locked
              && AccountsOn(s', Opposite(o.side)) == AccountsOn(s, Opposite(o.side))
              && (forall k :: k != AccountOf(o) ==>
                    Held(AccountsOn(s', o.side), k) == Held(AccountsOn(s, o.side), k))
              && (forall e, oc, side, x :: e in s.markets ==>
                    (x in HalfOf(s', e, oc, side) <==> x in HalfOf(s, e, oc, side) && x != id))
  {
    if CancelReply(w.state, id, event).Accepted? {
      CancelLedger(w, id, event);
      CancelShelves(w, id, event);
    }
    assert Next(w, Cancel(id, event)) == AfterCancel(w, id, event);
    assert !CancelReply(w.state, id, event).Accepted? ==> AfterCancel(w, id, event) == w;
    assert CancelReply(w.state, id, event).Accepted? ==> id in w.state.orders;
    hide *;
  }

  lemma CancelLedger(w: World, id: Id, event: Id)
    requires Safe(w) && CancelReply(w.state, id, event).Accepted?
    ensures var s, s', o := w.state, AfterCancel(w, id, event).state, w.state.orders[id];
            && s'.orders == s.orders[id := o.(status := Canceled, locked := 0)]
            && s'.markets.Keys == s.markets.Keys
            && Held(AccountsOn(s', o.side), AccountOf(o)).available
               == Held(AccountsOn(s, o.side), AccountOf(o)).available + o.locked
            && AccountsOn(s', Opposite(o.side)) == AccountsOn(s, Opposite(o.side))
            && (forall k :: k != AccountOf(o) ==>
                  Held(AccountsOn(s', o.side), k) == Held(AccountsOn(s, o.side), k))
  {
    var s, o := w.state, w.state.orders[id];
    assert Sound(id, o, w.log.trades, id in w.log.closed);
    hide Safe;
    hide RemoveId;
    var left := RemoveId(HalfOf(s, o.event, o.outcome, o.side), id);
    var marked := SetStatus(PutHalf(s, o.event, o.outcome, o.side, left), id, Canceled);
    ReleaseReturns(marked, id);
    assert AfterCancel(w, id, event).state == Release(marked, id);
    hide Release;
    hide Held;
    hide AccountOf;
    SameAccount(o, marked.orders[id]);
  }

  lemma SameAccount(o: Order, o': Order)
    requires o' == o.(status := o'.status)
    ensures AccountOf(o') == AccountOf(o)
  {
  }

  /** Releasing empties the lock into the account it came from and touches nothing else. */
  lemma ReleaseReturns(s: State, id: Id)
    requires id in s.orders && s.orders[id].locked >= 0
    ensures var s', o := Release(s, id), s.orders[id];
            && s'.orders == s.orders[id := o.(locked := 0)] && s'.markets == s.markets
            && Held(AccountsOn(s', o.side), AccountOf(o)).available
               == Held(AccountsOn(s, o.side), AccountOf(o)).available + o.locked
            && AccountsOn(s', Opposite(o.side)) == AccountsOn(s, Opposite(o.side))
            && (forall k :: k != AccountOf(o) ==>
                  Held(AccountsOn(s', o.side), k) == Held(AccountsOn(s, o.side), k))
  {
    hide PositionKey;
    if s.orders[id].locked == 0 {
      assert s.orders[id := s.orders[id].(locked := 0)] == s.orders;
    }
  }

  lemma CancelShelves(w: World, id: Id, event: Id)
    requires Safe(w) && CancelReply(w.state, id, event).Accepted?
    ensures var s, s' := w.state, AfterCancel(w, id, event).state;
            forall e, oc, side, x :: e in s.markets && e in s'.markets ==>
              (x in HalfOf(s', e, oc, side) <==> x in HalfOf(s, e, oc, side) && x != id)
  {
    CancelParts(w, id, event);
    hide AfterCancel;
    var s, s', o := w.state, AfterCancel(w, id, event).state, w.state.orders[id];
    forall e, oc, side, x | e in s.markets && e in s'.markets
      ensures x in HalfOf(s', e, oc, side) <==> x in HalfOf(s, e, oc, side) && x != id
    {
      CancelShelf(w, id, e, oc, side, x);
    }
  }

  lemma CancelShelf(w: World, id: Id, e: Id, oc: Outcome, side: Side, x: Id)
    requires Safe(w) && id in w.state.orders && w.state.orders[id].event in w.state.markets && e in w.state.markets
    ensures var s, o := w.state, w.state.orders[id];
            var s' := PutHalf(s, o.event, o.outcome, o.side, RemoveId(HalfOf(s, o.event, o.outcome, o.side), id));
            && e in s'.markets
            && (x in HalfOf(s', e, oc, side) <==> x in HalfOf(s, e, oc, side) && x != id)
  {
    var s, o := w.state, w.state.orders[id];
    var left := RemoveId(HalfOf(s, o.event, o.outcome, o.side), id);
    var book := s.markets[e].Of(oc);
    assert BookOk(s.orders, ShelfOf(w), e, oc, book);
    BookHalf(s.orders, ShelfOf(w), e, oc, book, side);
    PutThenGet(s, o.event, o.outcome, o.side, left, e, oc, side);
    hide Safe;
    hide BookOk;
    hide InPriority;
    if (e, oc, side) == (o.event, o.outcome, o.side) {
      RemoveKeepsHalf(s.orders, ShelfOf(w), e, oc, side, HalfOf(s, e, oc, side), id);
    } else {
      NotOnHalf(s.orders, ShelfOf(w), e, oc, side, HalfOf(s, e, oc, side), id);
    }
  }

  // ---------------------------------------------------------------- markets

  /** Opening an event with a name makes it known, with four empty halves if it was not known
      before; nothing else changes, and a known event or an empty name changes nothing at all. */
  lemma MarketOpens(w: World, event: Id)
    ensures var s, s' := w.state, Next(w, CreateEvent(event)).state;
            if event == "" || event in s.markets then s' == s
            else
              && s'.markets.Keys == s.markets.Keys + {event} && s' == s.(markets := s'.markets)
              && (forall oc, side :: HalfOf(s', event, oc, side) == [])
              && (forall e, oc, side :: e in s.markets ==> HalfOf(s', e, oc, side) == HalfOf(s, e, oc, side))
  {
  }

  // ---------------------------------------------------------------- a market that is gone

  /** Should the market of a waiting order have vanished, the order is REJECTED, makes no trade,
      and its reservation is left where it is. */
  lemma VanishedMarketRejects(w: World, id: Id)
    requires id in w.state.orders && !w.state.orders[id].status.Canceled?
    requires w.state.orders[id].event !in w.state.markets
    ensures TradesOf(w.state, id) == []
    ensures var s, s' := w.state, AfterMatch(w, id).state;
            && s'.orders == s.orders[id := s.orders[id].(status := Rejected)]
            && s'.balances == s.balances && s'.positions == s.positions && s'.markets == s.markets
  {
  }
}
