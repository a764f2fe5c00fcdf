/** Taker or maker: which role completes an order decides whether its lock is released. */
module Roles {
  import opened Types
  import opened Ledger
  import opened Machine
  import opened Fills
  import opened Lifecycle
  import opened BookSafety
  import opened Progress
  import opened Guarantees

  predicate Mentions(t: Trade, x: Id) { t.taker == x || t.maker == x }

  /** Order `x` was the taker of its last trade. */
  ghost predicate TookLast(trades: seq<Trade>, x: Id) {
    exists k :: 0 <= k < |trades| && trades[k].taker == x && forall j :: k < j < |trades| ==> !Mentions(trades[j], x)
  }

  /** Filled orders are released exactly when they completed as a taker. */
  ghost predicate RolesOk(w: World) {
    forall x :: x in w.state.orders && w.state.orders[x].status.Filled? ==>
      (x in w.log.closed <==> TookLast(w.log.trades, x))
  }

  // ---------------------------------------------------------------- one match

  lemma Appended(trades: seq<Trade>, ts: seq<Trade>)
    ensures forall j :: 0 <= j < |trades| ==> (trades + ts)[j] == trades[j]
    ensures forall j :: |trades| <= j < |trades + ts| ==> (trades + ts)[j] in ts
    ensures forall i :: 0 <= i < |ts| ==> (trades + ts)[|trades| + i] == ts[i]
  {
  }

  lemma NotMentioned(trades: seq<Trade>, ts: seq<Trade>, x: Id)
    requires forall t :: t in ts ==> !Mentions(t, x)
    ensures TookLast(trades + ts, x) <==> TookLast(trades, x)
  {
    var all := trades + ts;
    Appended(trades, ts);
    if TookLast(trades, x) {
      var k :| 0 <= k < |trades| && trades[k].taker == x && forall j :: k < j < |trades| ==> !Mentions(trades[j], x);
      assert all[k].taker == x;
    }
    if TookLast(all, x) {
      var k :| 0 <= k < |all| && all[k].taker == x && forall j :: k < j < |all| ==> !Mentions(all[j], x);
      assert k < |trades|;
      assert forall j :: k < j < |trades| ==> !Mentions(all[j], x);
      assert trades[k].taker == x;
    }
  }

  lemma TookAll(trades: seq<Trade>, ts: seq<Trade>, x: Id)
    requires ts != [] && forall t :: t in ts ==> t.taker == x
    ensures TookLast(trades + ts, x)
  {
    var all := trades + ts;
    assert all[|all| - 1] == ts[|ts| - 1] && ts[|ts| - 1] in ts;
  }

  lemma MadeLast(trades: seq<Trade>, ts: seq<Trade>, t: Trade, x: Id)
    requires t in ts && Mentions(t, x) && forall u :: u in ts ==> u.taker != x
    ensures !TookLast(trades + ts, x)
  {
    var all := trades + ts;
    Appended(trades, ts);
    var i :| 0 <= i < |ts| && ts[i] == t;
    var m := |trades| + i;
    assert Mentions(all[m], x);
    forall k | 0 <= k < |all| && all[k].taker == x ensures exists j :: k < j < |all| && Mentions(all[j], x) {
      assert k < m;
    }
  }

  lemma NoTrades(trades: seq<Trade>, ts: seq<Trade>)
    ensures ts == [] ==> trades + ts == trades
  {
  }

  /** The taker, if its match fills it, took all of that match's trades. */
  lemma TakerRole(w: World, id: Id)
    requires Safe(w) && id in w.inflight && Matchable(w.state, id)
    requires id in AfterMatch(w, id).state.orders && AfterMatch(w, id).state.orders[id].status.Filled?
    ensures id in AfterMatch(w, id).log.closed && TookLast(AfterMatch(w, id).log.trades, id)
  {
    var w', ts := AfterMatch(w, id), TradesOf(w.state, id);
    hide AfterMatch;
    hide MatchSection;
    hide Settled;
    hide TradesOf;
    hide TookLast;
    MatchKeepsSafe(w, id);
    SearchIsFit(w, id);
    MatchTrades(w.state, id);
    ValidAreKnown(w.state.orders, id, ts);
    MatchedWorld(w, id);
    ReleaseKeepsAllButLock(Settled(w.state, id), id);
    assert SameButLock(Settled(w.state, id).orders[id], w'.state.orders[id]);
    assert Sound(id, w'.state.orders[id], w'.log.trades, id in w'.log.closed)
      && StatusOk(w'.state.orders[id], id in w'.inflight);
    assert Sound(id, w.state.orders[id], w.log.trades, id in w.log.closed) && StatusOk(w.state.orders[id], true);
    NoTrades(w.log.trades, ts);
    TookAll(w.log.trades, ts, id);
  }

  /** An order that was filled before the match has no part in it. */
  lemma BystanderRole(w: World, id: Id, x: Id)
    requires Safe(w) && id in w.inflight && Matchable(w.state, id)
    requires x in w.state.orders && Finished(w.state.orders[x].status)
    ensures x != id && forall t :: t in TradesOf(w.state, id) ==> !Mentions(t, x)
  {
    hide TradesOf;
    TakerNotFinished(w, id);
    SearchIsFit(w, id);
    MatchTrades(w.state, id);
    ValidAreKnown(w.state.orders, id, TradesOf(w.state, id));
    FinishedNotSearched(w, id, x);
    MakersAreSearched(w.state, id);
  }

  /** An order that another order's match fills is a maker in it, and was not released. */
  lemma MakerRole(w: World, id: Id, x: Id)
    requires Safe(w) && id in w.inflight && Matchable(w.state, id) && x in w.state.orders && x != id
    requires !w.state.orders[x].status.Filled? && x in AfterMatch(w, id).state.orders
    requires AfterMatch(w, id).state.orders[x].status.Filled?
    ensures x !in w.log.closed && !TookLast(w.log.trades + TradesOf(w.state, id), x)
  {
    var s, ts := w.state, TradesOf(w.state, id);
    hide AfterMatch;
    hide MatchSection;
    hide Settled;
    hide TradesOf;
    hide TookLast;
    MatchedWorld(w, id);
    MatchAdvances(w, id, x);
    assert Sound(x, s.orders[x], w.log.trades, x in w.log.closed);
    SearchIsFit(w, id);
    MatchTrades(s, id);
    ValidAreKnown(s.orders, id, ts);
    ChangedIsMentioned(w, id, x);
    var t :| t in ts && t.maker == x;
    MadeLast(w.log.trades, ts, t, x);
  }

  lemma ChangedIsMentioned(w: World, id: Id, x: Id)
    requires Safe(w) && id in w.inflight && Matchable(w.state, id) && x in w.state.orders && x != id
    requires x in MatchSection(w.state, id).orders && MatchSection(w.state, id).orders[x] != w.state.orders[x]
    ensures exists t :: t in TradesOf(w.state, id) && t.maker == x
  {
    hide MatchSection;
    hide TradesOf;
    SearchIsFit(w, id);
    MatchReachesMid(w, id);
    MatchRecords(w.state, id);
    TradesAdvance(w.state.orders, id, TradesOf(w.state, id));
  }

  lemma RoleAfterMatch(w: World, id: Id, x: Id)
    requires Safe(w) && RolesOk(w) && id in w.inflight && Matchable(w.state, id) && id in w.state.orders
    requires x in w.state.orders && x in AfterMatch(w, id).state.orders
    requires AfterMatch(w, id).state.orders[x].status.Filled?
    ensures x in AfterMatch(w, id).log.closed <==> TookLast(AfterMatch(w, id).log.trades, x)
  {
    hide Safe;
    hide TookLast;
    hide AfterMatch;
    hide MatchSection;
    hide Settled;
    hide TradesOf;
    hide Release;
    hide Matchable;
    MatchedWorld(w, id);
    if x == id {
      TakerRole(w, id);
    } else if w.state.orders[x].status.Filled? {
      BystanderRole(w, id, x);
      NotMentioned(w.log.trades, TradesOf(w.state, id), x);
    } else {
      MakerRole(w, id, x);
    }
  }

  lemma MatchKeepsRoles(w: World, id: Id)
    requires Safe(w) && RolesOk(w) && id in w.inflight && Matchable(w.state, id)
    ensures id in w.state.orders && RolesOk(AfterMatch(w, id))
  {
    hide AfterMatch;
    hide MatchSection;
    hide TookLast;
    MatchKeepsSafe(w, id);
    SearchIsFit(w, id);
    MatchKeepsTerms(w.state, id);
    MatchedLog(w, id);
    hide Safe;
    forall x | x in AfterMatch(w, id).state.orders && AfterMatch(w, id).state.orders[x].status.Filled?
      ensures x in AfterMatch(w, id).log.closed <==> TookLast(AfterMatch(w, id).log.trades, x)
    {
      RoleAfterMatch(w, id, x);
    }
  }

  // ---------------------------------------------------------------- every run

  lemma CancelKeepsRoles(w: World, id: Id, event: Id)
    requires RolesOk(w)
    ensures RolesOk(AfterCancel(w, id, event))
  {
    if CancelReply(w.state, id, event).Accepted? {
      CancelParts(w, id, event);
      CancelHistory(w, id, event);
      hide AfterCancel;
      hide TookLast;
    }
  }

  lemma CancelHistory(w: World, id: Id, event: Id)
    requires CancelReply(w.state, id, event).Accepted?
    ensures AfterCancel(w, id, event).log.trades == w.log.trades
    ensures AfterCancel(w, id, event).log.closed == w.log.closed + {id}
  {
    hide CancelSection;
  }

  lemma SubmitKeepsRoles(w: World, o: Order)
    requires RolesOk(w) && HoldingsOk(w.state) && Shape(o.id, o) && o.status.Pending?
    ensures RolesOk(AfterSubmit(w, o))
  {
    ReserveFreezes(w.state, o);
    hide Reserve;
    hide TookLast;
  }

  lemma StepKeepsRoles(w: World, step: Step)
    requires Safe(w) && RolesOk(w)
    ensures RolesOk(Next(w, step))
  {
    hide TookLast;
    hide AfterMatch;
    hide AfterCancel;
    hide AfterSubmit;
    hide Validate;
    match step
    case Submit(request, generated) =>
      ValidateShapes(request, generated);
      if Validate(request, generated).Valid? {
        SubmitKeepsRoles(w, Validate(request, generated).order);
      }
    case Match(id) =>
      if id in w.inflight {
        if Matchable(w.state, id) {
          MatchKeepsRoles(w, id);
        } else {
          SkippedMatch(w, id);
        }
      }
    case Cancel(id, event) => CancelKeepsRoles(w, id, event);
    case _ =>
  }

  lemma {:induction false} RunKeepsRoles(w: World, steps: seq<Step>)
    requires Seeded(w)
    ensures RolesOk(Run(w, steps))
  {
    if steps != [] {
      var before := steps[..|steps| - 1];
      RunKeepsRoles(w, before);
      RunIsSafe(w, before);
      StepKeepsRoles(Run(w, before), steps[|steps| - 1]);
      hide Next;
      hide RolesOk;
      hide Safe;
    }
  }

  /** The lock of a limit BUY in every reachable state. A canceled one locks nothing. A filled one
      locks nothing if it was the taker of its last trade, and otherwise keeps exactly what it
      saved as a taker. A live one locks its limit value less what its trades cost, which covers
      what it still wants. */
  lemma LimitBuyLock(w: World, steps: seq<Step>, id: Id)
    requires Seeded(w) && id in Run(w, steps).state.orders
    requires var o := Run(w, steps).state.orders[id]; o.side.Buy? && o.kind.LimitOrder?
    ensures var r := Run(w, steps);
            var o := r.state.orders[id];
            if o.status.Canceled? then o.locked == 0
            else if o.status.Filled? then o.locked == if TookLast(r.log.trades, id) then 0
              else Gain(r.log.trades, id, o.price)
            else o.locked == o.quantity * o.price - Spent(r.log.trades, id) && o.locked >= o.remaining * o.price
  {
    ReleasedLimitBuyLock(w, steps, id);
    RunKeepsRoles(w, steps);
    hide Run;
    hide Gain;
    hide Spent;
    hide TookLast;
  }

  /** Exactly when a filled limit BUY has nothing locked: it was the taker of its last trade, or
      it saved nothing as a taker. */
  lemma FilledBuyIsFreeIff(w: World, steps: seq<Step>, id: Id)
    requires Seeded(w) && id in Run(w, steps).state.orders
    requires var o := Run(w, steps).state.orders[id]; o.side.Buy? && o.kind.LimitOrder? && o.status.Filled?
    ensures var r := Run(w, steps);
            r.state.orders[id].locked == 0
            <==> TookLast(r.log.trades, id) || Gain(r.log.trades, id, r.state.orders[id].price) == 0
  {
    LimitBuyLock(w, steps, id);
    hide Run;
    hide Gain;
    hide TookLast;
  }
}
