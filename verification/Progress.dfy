/** How an order can change from one state to a later one. */
module Progress {
  import opened Types
  import opened Ledger
  import opened Machine
  import opened Fills
  import opened Lifecycle
  import opened BookSafety

  /** The same order later on: what it asks for is fixed, fills only grow, and a filled or
      canceled order never changes again. */
  predicate Advances(o: Order, o': Order) {
    && SameTerms(o, o') && o.filled <= o'.filled
    && (Finished(o.status) ==> o' == o)
  }

  lemma AdvancesTransitive(a: Order, b: Order, c: Order)
    requires Advances(a, b) && Advances(b, c)
    ensures Advances(a, c)
  {
  }

  lemma TradeAdvances(orders: map<Id, Order>, t: Trade)
    requires t.quantity >= 0
    ensures var r := TradeOrders(orders, t);
            && (forall x :: x in orders ==> orders[x].filled <= r[x].filled)
            && (forall x :: x in orders && x != t.taker && x != t.maker ==> r[x] == orders[x])
  {
  }

  lemma {:induction false} TradesAdvance(orders: map<Id, Order>, taker: Id, ts: seq<Trade>)
    requires ValidTrades(orders, taker, ts)
    ensures var r := TradeOrdersAll(orders, ts);
            && (forall x :: x in orders ==> orders[x].filled <= r[x].filled)
            && (forall x :: x in orders && x != taker && (forall t :: t in ts ==> t.maker != x) ==> r[x] == orders[x])
    decreases |ts|
  {
    if ts != [] {
      var next := TradeOrders(orders, ts[0]);
      TradeAdvances(orders, ts[0]);
      NextTradesValid(orders, taker, ts);
      TradesAdvance(next, taker, ts[1..]);
      var r := TradeOrdersAll(next, ts[1..]);
      forall x | x in orders && x != taker && (forall t :: t in ts ==> t.maker != x) ensures r[x] == orders[x] {
        assert ts[0] in ts && next[x] == orders[x];
        assert forall t :: t in ts[1..] ==> t in ts;
      }
    }
  }

  /** Finished orders are not on the searched half. */
  lemma FinishedNotSearched(w: World, id: Id, x: Id)
    requires MarketsOk(w) && Matchable(w.state, id) && id in w.inflight
    requires x in w.state.orders && Finished(w.state.orders[x].status)
    ensures x !in SearchedHalf(w.state, id)
  {
    SearchWalks(w, id);
  }

  lemma MakersAreSearched(s: State, id: Id)
    requires SearchFits(s, id)
    ensures forall t :: t in TradesOf(s, id) ==> t.maker in SearchedHalf(s, id)
  {
    RescanMakers(s.orders, SearchedHalf(s, id), id);
  }

  lemma MatchAdvances(w: World, id: Id, x: Id)
    requires Safe(w) && id in w.inflight && Matchable(w.state, id) && x in w.state.orders
    ensures x in MatchSection(w.state, id).orders
    ensures Advances(w.state.orders[x], MatchSection(w.state, id).orders[x])
  {
    hide MatchSection;
    hide TradesOf;
    hide Search;
    var s, ts := w.state, TradesOf(w.state, id);
    SearchIsFit(w, id);
    MatchKeepsTerms(s, id);
    assert SameTerms(s.orders[x], MatchSection(s, id).orders[x]);
    MatchReachesMid(w, id);
    MatchRecords(s, id);
    TradesAdvance(s.orders, id, ts);
    if Finished(s.orders[x].status) {
      FinishedNotSearched(w, id, x);
      MakersAreSearched(s, id);
      TakerNotFinished(w, id);
    }
  }

  lemma TakerNotFinished(w: World, id: Id)
    requires OrdersOk(w) && id in w.inflight && Matchable(w.state, id)
    ensures !Finished(w.state.orders[id].status)
  {
    assert StatusOk(w.state.orders[id], true) && Sound(id, w.state.orders[id], w.log.trades, id in w.log.closed);
  }

  lemma CancelAdvances(w: World, id: Id, event: Id, x: Id)
    requires x in w.state.orders
    ensures x in AfterCancel(w, id, event).state.orders
    ensures Advances(w.state.orders[x], AfterCancel(w, id, event).state.orders[x])
  {
    if CancelReply(w.state, id, event).Accepted? {
      CancelParts(w, id, event);
      hide AfterCancel;
    }
  }

  lemma SubmitAdvances(w: World, o: Order, x: Id)
    requires HoldingsOk(w.state) && Shape(o.id, o) && x in w.state.orders
    ensures var w' := AfterSubmit(w, o);
            && x in w'.state.orders && w'.state.orders[x] == w.state.orders[x]
            && (x in w'.inflight ==> x in w.inflight)
  {
    ReserveFreezes(w.state, o);
    hide Reserve;
  }

  /** Every step advances every order that stays in the table. Only an order in flight can
      leave it, and only when its own emission is lost. */
  lemma StepAdvances(w: World, step: Step, x: Id)
    requires Safe(w) && x in w.state.orders
    ensures var w' := Next(w, step);
            && (x in w'.state.orders ==> Advances(w.state.orders[x], w'.state.orders[x]))
            && (x !in w'.state.orders ==> step == LoseEmit(x) && x in w.inflight)
            && (x !in w.inflight ==> x !in w'.inflight)
  {
    hide Advances;
    hide Validate;
    hide Reserve;
    hide Admit;
    hide AfterSubmit;
    hide AfterMatch;
    hide MatchSection;
    hide AfterCancel;
    Stays(w.state.orders[x]);
    match step
    case Submit(request, generated) =>
      ValidateShapes(request, generated);
      if Validate(request, generated).Valid? {
        SubmitAdvances(w, Validate(request, generated).order, x);
      }
    case Match(id) =>
      if id in w.inflight {
        if Matchable(w.state, id) {
          MatchAdvances(w, id, x);
          MatchedWorld(w, id);
        } else {
          SkippedMatch(w, id);
        }
      }
    case Cancel(id, event) =>
      CancelAdvances(w, id, event, x);
      CancelKeepsWorklist(w, id, event);
    case _ =>
  }

  lemma Stays(o: Order)
    ensures Advances(o, o)
  {
  }

  lemma CancelKeepsWorklist(w: World, id: Id, event: Id)
    ensures AfterCancel(w, id, event).inflight == w.inflight
  {
    hide CancelSection;
  }

  /** New orders enter the table only by admission, as the request describes them. */
  lemma NewcomersAreSubmitted(w: World, step: Step, x: Id)
    requires Safe(w) && x !in w.state.orders && x in Next(w, step).state.orders
    ensures step.Submit? && Validate(step.request, step.generated).Valid?
    ensures var o := Validate(step.request, step.generated).order;
            x == o.id && Next(w, step).state.orders[x] == o.(locked := AmountToFreeze(w.state, o))
              && Reserve(w.state, o).Granted?
  {
    hide Validate;
    hide AfterSubmit;
    hide AfterMatch;
    hide AfterCancel;
    match step
    case Submit(request, generated) =>
      ValidateShapes(request, generated);
      if Validate(request, generated).Valid? {
        SubmitEnters(w, Validate(request, generated).order, x);
      }
    case Match(id) =>
      if id in w.inflight {
        if Matchable(w.state, id) {
          MatchKeepsOrderIds(w, id);
        } else {
          SkippedMatch(w, id);
        }
      }
    case Cancel(id, event) =>
      if CancelReply(w.state, id, event).Accepted? {
        CancelParts(w, id, event);
      } else {
        CancelUnlessAccepted(w, id, event);
      }
    case _ =>
  }

  lemma SubmitEnters(w: World, o: Order, x: Id)
    requires HoldingsOk(w.state) && Shape(o.id, o) && x !in w.state.orders && x in AfterSubmit(w, o).state.orders
    ensures x == o.id && AfterSubmit(w, o).state.orders[x] == o.(locked := AmountToFreeze(w.state, o))
    ensures Reserve(w.state, o).Granted?
  {
    ReserveFreezes(w.state, o);
    hide Reserve;
  }

  lemma MatchKeepsOrderIds(w: World, id: Id)
    requires Safe(w) && id in w.inflight && Matchable(w.state, id)
    ensures AfterMatch(w, id).state.orders.Keys == w.state.orders.Keys
  {
    hide AfterMatch;
    hide MatchSection;
    SearchIsFit(w, id);
    MatchKeepsTerms(w.state, id);
    MatchedLog(w, id);
  }

  lemma CancelUnlessAccepted(w: World, id: Id, event: Id)
    requires !CancelReply(w.state, id, event).Accepted?
    ensures AfterCancel(w, id, event) == w
  {
  }

  /** In any continuation of a reachable state, an order of the table, matched or still in
      flight, stays in the table unless its own emission is lost, keeps its terms, never loses a
      fill, and never changes again once filled or canceled. */
  lemma {:induction false} RunAdvances(w: World, steps: seq<Step>, x: Id)
    requires Safe(w) && x in w.state.orders && LoseEmit(x) !in steps
    ensures var w' := Run(w, steps);
            && Safe(w') && x in w'.state.orders && (x !in w.inflight ==> x !in w'.inflight)
            && Advances(w.state.orders[x], w'.state.orders[x])
  {
    if steps == [] {
      Stays(w.state.orders[x]);
    } else {
      hide Advances;
      hide Safe;
      hide Next;
      var before, last := steps[..|steps| - 1], steps[|steps| - 1];
      RunAdvances(w, before, x);
      StepKeepsSafe(Run(w, before), last);
      StepAdvances(Run(w, before), last, x);
      AdvancesTransitive(w.state.orders[x], Run(w, before).state.orders[x], Run(w, steps).state.orders[x]);
    }
  }
}
