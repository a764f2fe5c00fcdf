/** What the engine tells the outside world: which events a command puts on the stream, and in
    which order they stand there, whichever emissions fail. */
module Announcements {
  import opened Types
  import opened Ledger
  import opened Machine
  import opened Fills
  import opened Lifecycle
  import opened BookSafety
  import opened Exchange
  import opened Replay

  function TradeEvents(ts: seq<Trade>): seq<Event> {
    if ts == [] then [] else TradeEvents(ts[..|ts| - 1]) + [TradeExecuted(ts[|ts| - 1])]
  }

  /** The trades executed between two moments of a history. */
  function TradesSince(w: World, w': World): seq<Trade> {
    if |w.log.trades| <= |w'.log.trades| then w'.log.trades[|w.log.trades|..] else []
  }

  // ---------------------------------------------------------------- emissions that succeed

  lemma {:induction false} TradeEventsFrom(ts: seq<Trade>)
    requires ts != []
    ensures TradeEvents(ts) == [TradeExecuted(ts[0])] + TradeEvents(ts[1..])
    decreases |ts|
  {
    if |ts| > 1 {
      TradeEventsFrom(ts[..|ts| - 1]);
      assert ts[..|ts| - 1][1..] == ts[1..][..|ts| - 2];
    }
  }

  lemma {:induction false} TradesAreEmitted(sys: System, ts: seq<Trade>, k: nat, ok: nat -> bool)
    requires !sys.replaying && forall i :: k <= i < k + |ts| ==> ok(i)
    ensures EmitTrades(sys, ts, k, ok).stream == sys.stream + TradeEvents(ts)
    decreases |ts|
  {
    if ts != [] {
      var next := Replay.Emit(sys, TradeExecuted(ts[0]), ok(k));
      TradesAreEmitted(next, ts[1..], k + 1, ok);
      TradeEventsFrom(ts);
      hide TradeEvents;
      assert sys.stream + [TradeExecuted(ts[0])] + TradeEvents(ts[1..])
          == sys.stream + ([TradeExecuted(ts[0])] + TradeEvents(ts[1..]));
    }
  }

  /** The trades of a matching section are what it adds to the history. */
  lemma MatchAdds(w: World, id: Id)
    requires id in w.state.orders
    ensures AfterMatch(w, id).log.trades == w.log.trades + TradesOf(w.state, id)
  {
    if Matchable(w.state, id) {
      MatchedLog(w, id);
    }
    hide AfterMatch;
    hide TradesOf;
    assert w.log.trades + [] == w.log.trades;
  }

  /** The events of one command: an admitted order and then its trades, in the order of
      execution; an accepted cancel; nothing else. */
  function Announced(w: World, c: Command, generated: Id): seq<Event> {
    if Admits(w, c, generated) then
      var o := Validate(c.request, generated).order;
      [OrderCreated(Admit(w.state, o).state.orders[o.id])] + TradeEvents(TradesSince(w, Apply(w, c, generated)))
    else if c.CancelCommand? && CancelReply(w.state, c.id, c.event).Accepted? then [OrderCanceled(c.id)]
    else []
  }

  /** An admitted order whose event went out. */
  lemma OrderWentOut(sys: System, c: Command, env: Env)
    requires !sys.replaying && Admits(sys.world, c, env.generated) && env.ok(0)
    ensures var o := Validate(c.request, env.generated).order;
            var w', created := AfterSubmit(sys.world, o), OrderCreated(Admit(sys.world.state, o).state.orders[o.id]);
            && o.id in w'.state.orders
            && Handle(sys, c, env) == EmitTrades(System(AfterMatch(w', o.id), sys.stream + [created], false),
                                                 TradesOf(w'.state, o.id), 1, env.ok)
            && Apply(sys.world, c, env.generated) == AfterMatch(w', o.id)
            && w'.log == sys.world.log
  {
    hide Validate;
    hide Reserve;
    hide AfterMatch;
    hide TradesOf;
    hide EmitTrades;
  }

  /** What a live command appends to the stream when its emissions succeed. */
  lemma HandleAnnounces(sys: System, c: Command, env: Env)
    requires !sys.replaying && forall i: nat :: env.ok(i)
    ensures Handle(sys, c, env).stream == sys.stream + Announced(sys.world, c, env.generated)
  {
    if Admits(sys.world, c, env.generated) {
      OrderWentOut(sys, c, env);
      var o := Validate(c.request, env.generated).order;
      var w', created := AfterSubmit(sys.world, o), OrderCreated(Admit(sys.world.state, o).state.orders[o.id]);
      var ts := TradesOf(w'.state, o.id);
      MatchAdds(w', o.id);
      TradesAreEmitted(System(AfterMatch(w', o.id), sys.stream + [created], false), ts, 1, env.ok);
      hide *;
      Joined(sys.stream, created, TradeEvents(ts));
      AnnouncedOrder(sys.world, c, env.generated, ts);
    } else {
      HandleOthers(sys, c, env);
      hide Handle;
    }
  }

  lemma Joined(stream: seq<Event>, e: Event, es: seq<Event>)
    ensures stream + [e] + es == stream + ([e] + es)
  {
  }

  lemma AnnouncedOrder(w: World, c: Command, generated: Id, ts: seq<Trade>)
    requires Admits(w, c, generated) && Apply(w, c, generated).log.trades == w.log.trades + ts
    ensures var o := Validate(c.request, generated).order;
            o.id in Admit(w.state, o).state.orders
            && Announced(w, c, generated)
               == [OrderCreated(Admit(w.state, o).state.orders[o.id])] + TradeEvents(ts)
  {
    hide Validate;
    hide Reserve;
    hide Apply;
    hide TradeEvents;
    assert TradesSince(w, Apply(w, c, generated)) == ts;
  }

  /** Every other command: at most the event of an accepted cancel, no new order, no trade. */
  lemma HandleOthers(sys: System, c: Command, env: Env)
    requires !sys.replaying && !Admits(sys.world, c, env.generated)
    ensures var sys', announced := Handle(sys, c, env), Announced(sys.world, c, env.generated);
            && !sys'.replaying
            && sys'.stream == (if env.ok(0) then sys.stream + announced else sys.stream)
            && (announced == [] || announced == [OrderCanceled(c.id)])
            && sys'.world.log.trades == sys.world.log.trades
            && sys'.world.state.orders.Keys == sys.world.state.orders.Keys
  {
    hide Validate;
    hide Reserve;
    hide PositionKey;
    hide TradeEvents;
    hide RemoveId;
    assert sys.stream + [] == sys.stream;
    if c.NewOrder? && Validate(c.request, env.generated).Valid? {
      RefusalAddsNoOrder(sys.world, Validate(c.request, env.generated).order);
    }
  }

  lemma RefusalAddsNoOrder(w: World, o: Order)
    requires !Admit(w.state, o).reply.Accepted?
    ensures AfterSubmit(w, o).state.orders == w.state.orders
  {
    hide PositionKey;
  }

  // ---------------------------------------------------------------- every trade, once and in order

  function TradesIn(stream: seq<Event>): seq<Trade> {
    if stream == [] then []
    else
      var last := stream[|stream| - 1];
      TradesIn(stream[..|stream| - 1]) + if last.TradeExecuted? then [last.trade] else []
  }

  lemma TradesInSnoc(stream: seq<Event>, e: Event)
    ensures TradesIn(stream + [e]) == TradesIn(stream) + if e.TradeExecuted? then [e.trade] else []
  {
    assert (stream + [e])[..|stream|] == stream;
  }

  lemma {:induction false} TradesInEvents(stream: seq<Event>, ts: seq<Trade>)
    ensures TradesIn(stream + TradeEvents(ts)) == TradesIn(stream) + ts
    decreases |ts|
  {
    if ts == [] {
      assert stream + TradeEvents(ts) == stream;
    } else {
      var before, e := ts[..|ts| - 1], TradeExecuted(ts[|ts| - 1]);
      TradesInEvents(stream, before);
      TradesInSnoc(stream + TradeEvents(before), e);
      assert stream + TradeEvents(ts) == stream + TradeEvents(before) + [e];
      hide TradesIn;
      hide TradeEvents;
      assert ts == before + [ts[|ts| - 1]];
    }
  }

  /** Nothing but emission can keep a trade off the stream. */
  predicate Complete(sys: System) { !sys.replaying && TradesIn(sys.stream) == sys.world.log.trades }

  lemma HandleStaysComplete(sys: System, c: Command, env: Env)
    requires Complete(sys) && forall i :: i > 0 ==> env.ok(i)
    ensures Complete(Handle(sys, c, env))
  {
    if Admits(sys.world, c, env.generated) {
      OrderStaysComplete(sys, c, env);
    } else {
      HandleOthers(sys, c, env);
      TradesInSnoc(sys.stream, if c.CancelCommand? then OrderCanceled(c.id) else OrderCanceled(""));
    }
    hide *;
  }

  lemma OrderStaysComplete(sys: System, c: Command, env: Env)
    requires Complete(sys) && Admits(sys.world, c, env.generated) && forall i :: i > 0 ==> env.ok(i)
    ensures Complete(Handle(sys, c, env))
  {
    var o := Validate(c.request, env.generated).order;
    var w' := AfterSubmit(sys.world, o);
    if env.ok(0) {
      OrderWentOut(sys, c, env);
      var created, ts := OrderCreated(Admit(sys.world.state, o).state.orders[o.id]), TradesOf(w'.state, o.id);
      var sent := System(AfterMatch(w', o.id), sys.stream + [created], false);
      MatchAdds(w', o.id);
      TradesAreEmitted(sent, ts, 1, env.ok);
      EmittingIsInvisible(sent, ts, 1, env.ok);
      TradesInSnoc(sys.stream, created);
      TradesInEvents(sent.stream, ts);
      hide *;
      assert TradesIn(sys.stream) + [] == TradesIn(sys.stream);
    } else {
      OrderStayedIn(sys, c, env);
      hide Handle;
    }
  }

  /** An admitted order whose event did not go out is gone without a trace on the stream. */
  lemma OrderStayedIn(sys: System, c: Command, env: Env)
    requires !sys.replaying && Admits(sys.world, c, env.generated) && !env.ok(0)
    ensures var sys' := Handle(sys, c, env);
            && !sys'.replaying && sys'.stream == sys.stream && sys'.world.log.trades == sys.world.log.trades
            && sys'.world.state.orders.Keys == sys.world.state.orders.Keys
  {
    hide Validate;
    hide PositionKey;
  }

  /** As long as no trade emission fails, the trade events on the stream are exactly the executed
      trades, each once and in the order of execution; events of orders and cancels may fail. */
  lemma {:induction false} StreamIsComplete(sys: System, log: seq<Command>, envs: nat -> Env)
    requires Complete(sys) && forall i, k :: 0 <= i < |log| && k > 0 ==> envs(i).ok(k)
    ensures Complete(HandleAll(sys, log, envs))
  {
    if log != [] {
      StreamIsComplete(sys, log[..|log| - 1], envs);
      HandleStaysComplete(HandleAll(sys, log[..|log| - 1], envs), log[|log| - 1], envs(|log| - 1));
      hide Handle;
      hide Complete;
    }
  }

  // ---------------------------------------------------------------- orders before their trades

  /** The orders whose creation is on the stream. */
  ghost function Introduced(stream: seq<Event>): set<Id> {
    set i | 0 <= i < |stream| && stream[i].OrderCreated? :: stream[i].order.id
  }

  /** The orders an event speaks of as known. */
  function Mentions(e: Event): set<Id> {
    match e
    case OrderCreated(_) => {}
    case TradeExecuted(t) => {t.taker, t.maker}
    case OrderCanceled(id) => {id}
  }

  /** Every trade and every cancel comes after the events of the orders it speaks of. */
  ghost predicate Causal(stream: seq<Event>) {
    forall i :: 0 <= i < |stream| ==> Mentions(stream[i]) <= Introduced(stream[..i])
  }

  lemma CausalSnoc(stream: seq<Event>, e: Event)
    requires Causal(stream) && Mentions(e) <= Introduced(stream)
    ensures Causal(stream + [e])
    ensures Introduced(stream + [e]) == Introduced(stream) + if e.OrderCreated? then {e.order.id} else {}
  {
    var longer := stream + [e];
    forall i | 0 <= i < |longer| ensures Mentions(longer[i]) <= Introduced(longer[..i]) {
      assert longer[..i] == stream[..i];
      assert stream[..|stream|] == stream;
    }
    hide Mentions;
    IntroducedSnoc(stream, e);
  }

  lemma IntroducedSnoc(stream: seq<Event>, e: Event)
    ensures Introduced(stream + [e]) == Introduced(stream) + if e.OrderCreated? then {e.order.id} else {}
  {
    var longer := stream + [e];
    assert longer[|stream|] == e;
    forall x | x in Introduced(stream) ensures x in Introduced(longer) {
      var i :| 0 <= i < |stream| && stream[i].OrderCreated? && stream[i].order.id == x;
      assert longer[i] == stream[i];
    }
  }

  lemma {:induction false} TradesAreCausal(sys: System, ts: seq<Trade>, k: nat, ok: nat -> bool)
    requires Causal(sys.stream)
    requires forall i :: 0 <= i < |ts| ==> Mentions(TradeExecuted(ts[i])) <= Introduced(sys.stream)
    ensures var after := EmitTrades(sys, ts, k, ok).stream;
            Causal(after) && Introduced(after) == Introduced(sys.stream)
    decreases |ts|
  {
    if ts != [] {
      CausalSnoc(sys.stream, TradeExecuted(ts[0]));
      hide Causal;
      hide Introduced;
      TradesAreCausal(Replay.Emit(sys, TradeExecuted(ts[0]), ok(k)), ts[1..], k + 1, ok);
    }
  }

  lemma {:induction false} TradesAreTabled(orders: map<Id, Order>, taker: Id, ts: seq<Trade>)
    requires taker in orders && ValidTrades(orders, taker, ts)
    ensures forall i :: 0 <= i < |ts| ==> Mentions(TradeExecuted(ts[i])) <= orders.Keys
    decreases |ts|
  {
    if ts != [] {
      TradesAreTabled(ApplyFill(orders, ts[0]), taker, ts[1..]);
    }
  }

  lemma MatchMentionsTabled(w: World, id: Id)
    requires Safe(w) && id in w.inflight && id in w.state.orders
    ensures forall i :: 0 <= i < |TradesOf(w.state, id)| ==>
              Mentions(TradeExecuted(TradesOf(w.state, id)[i])) <= w.state.orders.Keys
  {
    if Matchable(w.state, id) {
      SearchIsFit(w, id);
      MatchIsTradeByTrade(w.state, id);
      hide TradesOf;
      hide Mentions;
      TradesAreTabled(w.state.orders, id, TradesOf(w.state, id));
    }
  }

  /** A sound engine all of whose orders are on the stream. */
  ghost predicate Traced(sys: System) {
    !sys.replaying && Safe(sys.world) && sys.world.state.orders.Keys <= Introduced(sys.stream) && Causal(sys.stream)
  }

  /** The first step of a command. */
  function StepOf(c: Command, generated: Id): Step {
    match c
    case NewEvent(event) => CreateEvent(event)
    case NewUser(user) => CreateUser(user)
    case NewOrder(request) => Submit(request, generated)
    case CancelCommand(id, event) => Cancel(id, event)
    case Query => LoseEmit("")
  }

  lemma OthersAreOneStep(sys: System, c: Command, env: Env)
    requires !Admits(sys.world, c, env.generated) && !c.Query?
    ensures Handle(sys, c, env).world == Next(sys.world, StepOf(c, env.generated))
  {
    hide Validate;
    hide Admit;
    hide CancelSection;
    hide OpenUser;
    hide OpenMarket;
  }

  lemma OthersStaySafe(sys: System, c: Command, env: Env)
    requires Safe(sys.world) && !Admits(sys.world, c, env.generated)
    ensures Safe(Handle(sys, c, env).world)
  {
    if !c.Query? {
      OthersAreOneStep(sys, c, env);
      hide *;
      StepKeepsSafe(sys.world, StepOf(c, env.generated));
    }
  }

  lemma SubmitStep(w: World, c: Command, generated: Id)
    requires Admits(w, c, generated)
    ensures var o := Validate(c.request, generated).order;
            && Next(w, Submit(c.request, generated)) == AfterSubmit(w, o)
            && o.id in AfterSubmit(w, o).inflight
            && AfterSubmit(w, o).state.orders.Keys == w.state.orders.Keys + {o.id}
            && Admit(w.state, o).state.orders[o.id].id == o.id
  {
    hide Validate;
    hide PositionKey;
  }

  lemma LossStep(sys: System, c: Command, env: Env)
    requires !sys.replaying && Admits(sys.world, c, env.generated) && !env.ok(0)
    ensures var o := Validate(c.request, env.generated).order;
            Handle(sys, c, env).world == Next(AfterSubmit(sys.world, o), LoseEmit(o.id))
  {
    hide Validate;
    hide Reserve;
    hide DropOrder;
  }

  lemma OrderStaysTraced(sys: System, c: Command, env: Env)
    requires Traced(sys) && Admits(sys.world, c, env.generated) && env.ok(0)
    ensures Traced(Handle(sys, c, env))
  {
    var w := sys.world;
    var o := Validate(c.request, env.generated).order;
    var w', created := AfterSubmit(w, o), OrderCreated(Admit(w.state, o).state.orders[o.id]);
    var sent, ts := System(AfterMatch(w', o.id), sys.stream + [created], false), TradesOf(w'.state, o.id);
    OrderWentOut(sys, c, env);
    SubmitStep(w, c, env.generated);
    StepKeepsSafe(w, Submit(c.request, env.generated));
    CausalSnoc(sys.stream, created);
    MatchKeepsSafe(w', o.id);
    MatchKeepsKeys(w', o.id);
    AfterMatchState(w', o.id);
    MatchMentionsTabled(w', o.id);
    EmittingIsInvisible(sent, ts, 1, env.ok);
    hide *;
    TradesAreCausal(sent, ts, 1, env.ok);
  }

  lemma HandleStaysTraced(sys: System, c: Command, env: Env)
    requires Traced(sys)
    ensures Traced(Handle(sys, c, env))
  {
    if Admits(sys.world, c, env.generated) {
      if env.ok(0) {
        OrderStaysTraced(sys, c, env);
      } else {
        OrderStayedIn(sys, c, env);
        LossStep(sys, c, env);
        LossStaysSafe(sys.world, c, env.generated);
      }
    } else {
      HandleOthers(sys, c, env);
      OthersStaySafe(sys, c, env);
      if env.ok(0) && Announced(sys.world, c, env.generated) != [] {
        CausalSnoc(sys.stream, OrderCanceled(c.id));
      }
    }
    hide Handle;
  }

  lemma LossStaysSafe(w: World, c: Command, generated: Id)
    requires Safe(w) && Admits(w, c, generated)
    ensures var o := Validate(c.request, generated).order;
            Safe(Next(AfterSubmit(w, o), LoseEmit(o.id)))
  {
    SubmitStep(w, c, generated);
    hide *;
    StepKeepsSafe(w, Submit(c.request, generated));
    StepKeepsSafe(AfterSubmit(w, Validate(c.request, generated).order),
                  LoseEmit(Validate(c.request, generated).order.id));
  }

  /** Whichever emissions fail, on the stream of a live engine no trade and no cancel ever stands
      before the events of the orders it speaks of. */
  lemma {:induction false} OrdersComeFirst(sys: System, log: seq<Command>, envs: nat -> Env)
    requires Traced(sys)
    ensures Traced(HandleAll(sys, log, envs))
  {
    if log != [] {
      OrdersComeFirst(sys, log[..|log| - 1], envs);
      HandleStaysTraced(HandleAll(sys, log[..|log| - 1], envs), log[|log| - 1], envs(|log| - 1));
      hide Handle;
      hide Traced;
    }
  }

  /** The stream of an engine that started from a seeded ledger: orders before their trades and
      cancels, whichever emissions fail, and every executed trade once and in order as long as
      no trade emission fails. */
  lemma LiveStream(w: World, log: seq<Command>, envs: nat -> Env)
    requires Seeded(w)
    ensures var end := HandleAll(System(w, [], false), log, envs);
            && Causal(end.stream)
            && ((forall i, k :: 0 <= i < |log| && k > 0 ==> envs(i).ok(k)) ==>
                  TradesIn(end.stream) == end.world.log.trades)
  {
    RunIsSafe(w, []);
    var start := System(w, [], false);
    OrdersComeFirst(start, log, envs);
    if forall i, k :: 0 <= i < |log| && k > 0 ==> envs(i).ok(k) {
      StreamIsComplete(start, log, envs);
    }
    hide HandleAll;
  }
}
