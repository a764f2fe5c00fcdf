/** Commands, their log, and what happens when they are delivered again or replayed. */
module Replay {
  import opened Types
  import opened Ledger
  import opened Machine
  import opened Lifecycle
  import opened BookSafety
  import opened Progress
  import opened Exchange

  datatype Command =
    | NewEvent(event: Id)
    | NewUser(user: Id)
    | NewOrder(request: Request)
    | CancelCommand(id: Id, event: Id)
    | Query

  /** What the engine tells the outside world. */
  datatype Event = OrderCreated(order: Order) | TradeExecuted(trade: Trade) | OrderCanceled(id: Id)

  /** An engine together with its event stream and its replay flag. */
  datatype System = System(world: World, stream: seq<Event>, replaying: bool)

  /** What the surroundings contribute to one command: whether its k-th emission attempt
      reaches the stream, and the id generated for an order that brings none. */
  datatype Env = Env(ok: nat -> bool, generated: Id)

  // ---------------------------------------------------------------- handling a command

  /** Emission: suppressed while replaying, otherwise it may fail. */
  function Emit(sys: System, e: Event, ok: bool): System {
    if sys.replaying || !ok then sys else sys.(stream := sys.stream + [e])
  }

  function EmitTrades(sys: System, trades: seq<Trade>, k: nat, ok: nat -> bool): System
    decreases |trades|
  {
    if trades == [] then sys
    else EmitTrades(Emit(sys, TradeExecuted(trades[0]), ok(k)), trades[1..], k + 1, ok)
  }

  /** Admission, emission of the order, matching, emission of the trades. If the order cannot
      be emitted it is dropped again; trade emissions may fail without consequence. */
  function HandleOrder(sys: System, o: Order, ok: nat -> bool): System {
    var a := Admit(sys.world.state, o);
    var admitted := sys.(world := AfterSubmit(sys.world, o));
    if !a.reply.Accepted? then admitted
    else if !sys.replaying && !ok(0) then admitted.(world := AfterLoss(admitted.world, o.id))
    else
      var emitted := Emit(admitted, OrderCreated(a.state.orders[o.id]), ok(0));
      var matched := emitted.(world := AfterMatch(admitted.world, o.id));
      EmitTrades(matched, TradesOf(admitted.world.state, o.id), 1, ok)
  }

  function Handle(sys: System, c: Command, env: Env): System {
    match c
    case NewEvent(event) => sys.(world := Next(sys.world, CreateEvent(event)))
    case NewUser(user) => sys.(world := Next(sys.world, CreateUser(user)))
    case NewOrder(request) =>
      (match Validate(request, env.generated)
       case Invalid(_) => sys
       case Valid(o) => HandleOrder(sys, o, env.ok))
    case CancelCommand(id, event) =>
      var canceled := sys.(world := AfterCancel(sys.world, id, event));
      if CancelReply(sys.world.state, id, event).Accepted? then Emit(canceled, OrderCanceled(id), env.ok(0))
        else canceled
    case Query => sys
  }

  /** The effect of a command on the engine when its order is emitted. */
  function Apply(w: World, c: Command, generated: Id): World {
    match c
    case NewEvent(event) => Next(w, CreateEvent(event))
    case NewUser(user) => Next(w, CreateUser(user))
    case NewOrder(request) =>
      (match Validate(request, generated)
       case Invalid(_) => w
       case Valid(o) =>
         var w' := AfterSubmit(w, o);
         if Admit(w.state, o).reply.Accepted? then AfterMatch(w', o.id) else w')
    case CancelCommand(id, event) => AfterCancel(w, id, event)
    case Query => w
  }

  // ---------------------------------------------------------------- replay equals live

  lemma {:induction false} EmittingIsInvisible(sys: System, trades: seq<Trade>, k: nat, ok: nat -> bool)
    ensures EmitTrades(sys, trades, k, ok).world == sys.world
    ensures EmitTrades(sys, trades, k, ok).replaying == sys.replaying
    ensures sys.replaying ==> EmitTrades(sys, trades, k, ok).stream == sys.stream
    decreases |trades|
  {
    if trades != [] {
      EmittingIsInvisible(Emit(sys, TradeExecuted(trades[0]), ok(k)), trades[1..], k + 1, ok);
    }
  }

  /** Would this command put an order into the table? */
  predicate Admits(w: World, c: Command, generated: Id) {
    c.NewOrder? && Validate(c.request, generated).Valid?
      && Admit(w.state, Validate(c.request, generated).order).reply.Accepted?
  }

  /** A handled command leaves the engine as `Apply` says, unless it is the emission of a newly
      admitted order that fails. Replay emits nothing. */
  lemma HandleApplies(sys: System, c: Command, env: Env)
    ensures sys.replaying || env.ok(0) || !Admits(sys.world, c, env.generated) ==>
              Handle(sys, c, env).world == Apply(sys.world, c, env.generated)
    ensures Handle(sys, c, env).replaying == sys.replaying
    ensures sys.replaying ==> Handle(sys, c, env).stream == sys.stream
  {
    if Admits(sys.world, c, env.generated) {
      var o := Validate(c.request, env.generated).order;
      var admitted := sys.(world := AfterSubmit(sys.world, o));
      var emitted := Emit(admitted, OrderCreated(Admit(sys.world.state, o).state.orders[o.id]), env.ok(0));
      EmittingIsInvisible(emitted.(world := AfterMatch(admitted.world, o.id)), TradesOf(admitted.world.state, o.id),
        1, env.ok);
      hide AfterMatch;
      hide TradesOf;
    }
  }

  /** An order that names its own id does not depend on the generator. */
  predicate Explicit(c: Command) { c.NewOrder? ==> c.request.orderId != "" }

  lemma ExplicitIgnoresGenerator(w: World, c: Command, g: Id, g': Id)
    requires Explicit(c)
    ensures Apply(w, c, g) == Apply(w, c, g') && Admits(w, c, g) == Admits(w, c, g')
  {
    hide AfterMatch;
    hide AfterSubmit;
    hide Admit;
    hide Validate;
    if c.NewOrder? {
      ValidateIgnoresGenerator(c.request, g, g');
    }
  }

  lemma ValidateIgnoresGenerator(r: Request, g: Id, g': Id)
    requires r.orderId != ""
    ensures Validate(r, g) == Validate(r, g')
  {
  }

  /** The exact condition under which a live command and its replay agree: the emission of the
      order succeeds, or the command admits no order. */
  lemma LiveEqualsReplayIff(sys: System, c: Command, live: Env, replay: Env)
    requires Safe(sys.world) && !sys.replaying && Explicit(c)
    ensures Handle(sys, c, live).world.state == Handle(sys.(replaying := true), c, replay).world.state
            <==> live.ok(0) || !Admits(sys.world, c, live.generated)
  {
    HandleApplies(sys, c, live);
    HandleApplies(sys.(replaying := true), c, replay);
    ExplicitIgnoresGenerator(sys.world, c, live.generated, replay.generated);
    hide Apply;
    hide Handle;
    if !live.ok(0) && Admits(sys.world, c, live.generated) {
      LostOrderIsMissed(sys, c, live);
    }
  }

  lemma LostOrderIsMissed(sys: System, c: Command, env: Env)
    requires Safe(sys.world) && !sys.replaying && !env.ok(0) && Admits(sys.world, c, env.generated)
    ensures var id := Validate(c.request, env.generated).order.id;
            id !in Handle(sys, c, env).world.state.orders && id in Apply(sys.world, c, env.generated).state.orders
  {
    var o := Validate(c.request, env.generated).order;
    var w' := AfterSubmit(sys.world, o);
    StepKeepsSafe(sys.world, Submit(c.request, env.generated));
    assert Next(sys.world, Submit(c.request, env.generated)) == w';
    MatchKeepsSafe(w', o.id);
    AfterMatchState(w', o.id);
    MatchKeepsKeys(w', o.id);
    hide AfterMatch;
  }

  lemma MatchKeepsKeys(w: World, id: Id)
    requires Safe(w) && id in w.inflight && id in w.state.orders
    ensures MatchSection(w.state, id).orders.Keys == w.state.orders.Keys
  {
    if Matchable(w.state, id) {
      SearchIsFit(w, id);
      MatchKeepsTerms(w.state, id);
    }
    hide Settled;
  }

  /** Handles a log front to back; command `i` meets the surroundings `envs(i)`. */
  function HandleAll(sys: System, log: seq<Command>, envs: nat -> Env): System {
    if log == [] then sys
    else Handle(HandleAll(sys, log[..|log| - 1], envs), log[|log| - 1], envs(|log| - 1))
  }

  /** Replaying a log whose orders bring their own ids, on the engine it started from, reaches
      exactly the state that handling it live reached, and emits nothing. Live, the event of every
      submitted order must have reached the stream; trade and cancel events may have failed. */
  lemma {:induction false} ReplayEqualsLive(
    w: World, log: seq<Command>, stream: seq<Event>, live: nat -> Env, replay: nat -> Env)
    requires forall i :: 0 <= i < |log| ==> Explicit(log[i])
    requires forall i :: 0 <= i < |log| && log[i].NewOrder? ==> live(i).ok(0)
    ensures var replayed := HandleAll(System(w, stream, true), log, replay);
            var lived := HandleAll(System(w, stream, false), log, live);
            && replayed.world == lived.world
            && replayed.stream == stream
            && replayed.replaying && !lived.replaying
  {
    if log != [] {
      var n := |log| - 1;
      ReplayEqualsLive(w, log[..n], stream, live, replay);
      var replayed := HandleAll(System(w, stream, true), log[..n], replay);
      HandleApplies(replayed, log[n], replay(n));
      HandleApplies(HandleAll(System(w, stream, false), log[..n], live), log[n], live(n));
      ExplicitIgnoresGenerator(replayed.world, log[n], live(n).generated, replay(n).generated);
      hide Handle;
      hide Apply;
      hide Admits;
    }
  }

  // ---------------------------------------------------------------- redelivery

  predicate Acknowledged(w: World, c: Command) {
    match c
    case NewEvent(event) => event != ""
    case NewUser(user) => user != ""
    case NewOrder(request) => Admits(w, c, "")
    case CancelCommand(id, event) => CancelReply(w.state, id, event).Accepted?
    case Query => true
  }

  /** The lasting trace of an accepted command. */
  predicate Done(w: World, c: Command) {
    match c
    case NewEvent(event) => event in w.state.markets
    case NewUser(user) => user in w.state.balances
    case NewOrder(request) =>
      request.orderId in w.state.orders && request.orderId !in w.inflight
    case CancelCommand(id, event) =>
      id in w.state.orders && w.state.orders[id].status.Canceled?
    case Query => true
  }

  /** Accepting a command leaves its trace. */
  lemma AcceptedIsDone(w: World, c: Command)
    requires Safe(w) && Explicit(c) && Acknowledged(w, c)
    ensures Done(Apply(w, c, ""), c)
  {
    match c
    case NewOrder(request) => AdmittedIsDone(w, request);
    case CancelCommand(id, event) =>
      CancelParts(w, id, event);
      hide AfterCancel;
    case _ =>
  }

  /** An admitted order between its two sections. */
  lemma AdmittedOrder(w: World, request: Request)
    requires Safe(w) && Admits(w, NewOrder(request), "")
    ensures var o := Validate(request, "").order;
            var w' := AfterSubmit(w, o);
            && Safe(w') && o.id in w'.inflight && o.id in w'.state.orders
            && Apply(w, NewOrder(request), "") == AfterMatch(w', o.id)
            && (request.orderId != "" ==> o.id == request.orderId)
  {
    hide Validate;
    hide AfterMatch;
    hide Safe;
    hide Reserve;
    StepKeepsSafe(w, Submit(request, ""));
    ValidateKeepsId(request, "");
    AdmissionEnters(w, Validate(request, "").order);
    hide Admit;
    hide AfterSubmit;
  }

  lemma AdmissionEnters(w: World, o: Order)
    requires Admit(w.state, o).reply.Accepted?
    ensures o.id in AfterSubmit(w, o).inflight && o.id in AfterSubmit(w, o).state.orders
  {
    hide Reserve;
  }

  lemma ValidateKeepsId(request: Request, generated: Id)
    ensures var c := Validate(request, generated);
            c.Valid? ==> c.order.id == if request.orderId == "" then generated else request.orderId
  {
  }

  lemma AdmittedIsDone(w: World, request: Request)
    requires Safe(w) && request.orderId != "" && Admits(w, NewOrder(request), "")
    ensures Done(Apply(w, NewOrder(request), ""), NewOrder(request))
  {
    AdmittedOrder(w, request);
    var w' := AfterSubmit(w, Validate(request, "").order);
    hide AfterMatch;
    hide AfterSubmit;
    hide MatchSection;
    hide Validate;
    hide Admits;
    hide Apply;
    hide Safe;
    AfterMatchState(w', request.orderId);
    MatchKeepsKeys(w', request.orderId);
    MatchClearsWorklist(w', request.orderId);
  }

  lemma MatchClearsWorklist(w: World, id: Id)
    requires id in w.state.orders
    ensures AfterMatch(w, id).inflight == w.inflight - {id}
  {
    hide MatchSection;
    hide Settled;
    hide TradesOf;
  }

  /** No step removes a market or an account. */
  lemma StepGrows(w: World, step: Step)
    requires Safe(w)
    ensures w.state.markets.Keys <= Next(w, step).state.markets.Keys
    ensures w.state.balances.Keys <= Next(w, step).state.balances.Keys
  {
    match step
    case Match(id) =>
      if id in w.inflight && Matchable(w.state, id) {
        MatchGrows(w, id);
        hide AfterMatch;
      }
    case _ =>
  }

  lemma MatchGrows(w: World, id: Id)
    requires Safe(w) && id in w.inflight && Matchable(w.state, id)
    ensures w.state.markets.Keys <= AfterMatch(w, id).state.markets.Keys
    ensures w.state.balances.Keys <= AfterMatch(w, id).state.balances.Keys
  {
    hide AfterMatch;
    hide MatchSection;
    hide Settled;
    hide TradesOf;
    SearchIsFit(w, id);
    MatchKeepsTerms(w.state, id);
    CashAllGrows(w.state.balances, TradesOf(w.state, id));
    MatchedWorld(w, id);
  }

  lemma {:induction false} CashAllGrows(balances: map<Id, Holding>, ts: seq<Trade>)
    ensures balances.Keys <= CashAll(balances, ts).Keys
    decreases |ts|
  {
    if ts != [] {
      CashAllGrows(SettleCash(balances, ts[0]), ts[1..]);
    }
  }

  /** The step does not lose the emission of the order that the command canceled. */
  predicate Spares(step: Step, c: Command) { c.CancelCommand? ==> step != LoseEmit(c.id) }

  /** The trace stays, whatever happens next. */
  lemma StepKeepsDone(w: World, step: Step, c: Command)
    requires Safe(w) && Done(w, c) && Spares(step, c)
    ensures Done(Next(w, step), c)
  {
    StepGrows(w, step);
    if c.NewOrder? {
      StepAdvances(w, step, c.request.orderId);
    }
    if c.CancelCommand? {
      StepAdvances(w, step, c.id);
    }
    hide Next;
  }

  lemma {:induction false} RunKeepsDone(w: World, steps: seq<Step>, c: Command)
    requires Safe(w) && Done(w, c) && forall step :: step in steps ==> Spares(step, c)
    ensures Safe(Run(w, steps)) && Done(Run(w, steps), c)
  {
    if steps != [] {
      var before, last := steps[..|steps| - 1], steps[|steps| - 1];
      RunKeepsDone(w, before, c);
      StepKeepsSafe(Run(w, before), last);
      StepKeepsDone(Run(w, before), last, c);
      hide Next;
      hide Done;
    }
  }

  /** A command that has left its trace changes nothing when it is delivered again. */
  lemma DoneIsIgnored(w: World, c: Command, generated: Id)
    requires Done(w, c) && Explicit(c)
    ensures Apply(w, c, generated) == w
  {
    if c.NewOrder? && Validate(c.request, generated).Valid? {
      assert Admit(w.state, Validate(c.request, generated).order).reply.Duplicate?;
    }
  }

  /** Once accepted, a command can be delivered again at any later state, after any interleaving
      of other steps, without changing a book, an order or the ledger. The one step that must not
      come in between is the loss of the emission of an order that was canceled in flight. */
  lemma RedeliveryIsSafe(w: World, c: Command, steps: seq<Step>, generated: Id)
    requires Safe(w) && Explicit(c) && Acknowledged(w, c) && forall step :: step in steps ==> Spares(step, c)
    ensures var later := Run(Apply(w, c, ""), steps);
            Apply(later, c, generated) == later
  {
    AcceptedIsDone(w, c);
    var own := ApplyIsSteps(w, c);
    RunKeepsDone(Apply(w, c, ""), steps, c);
    DoneIsIgnored(Run(Apply(w, c, ""), steps), c, generated);
    hide Apply;
  }

  lemma RefusedCancelIsIgnored(w: World, c: Command, generated: Id)
    requires c.CancelCommand?
    ensures Apply(w, c, generated) == w <==> !CancelReply(w.state, c.id, c.event).Accepted?
  {
    if CancelReply(w.state, c.id, c.event).Accepted? {
      CancelParts(w, c.id, c.event);
      hide AfterCancel;
    }
  }

  /** Exactly when delivering an accepted command again changes nothing, after any continuation
      whatever: always, except for a cancel that could be accepted once more at that moment. */
  lemma RedeliveryIff(w: World, c: Command, steps: seq<Step>, generated: Id)
    requires Safe(w) && Explicit(c) && Acknowledged(w, c)
    ensures var later := Run(Apply(w, c, ""), steps);
            Apply(later, c, generated) == later
            <==> !(c.CancelCommand? && CancelReply(later.state, c.id, c.event).Accepted?)
  {
    if c.CancelCommand? {
      RefusedCancelIsIgnored(Run(Apply(w, c, ""), steps), c, generated);
    } else {
      RedeliveryIsSafe(w, c, steps, generated);
    }
    hide Apply;
    hide Run;
    hide Safe;
  }

  /** From the moment an order is admitted, whatever falls between its own two sections and
      afterwards, delivering its command again changes nothing, unless its emission was lost. */
  lemma AdmittedRedeliveryIsSafe(w: World, request: Request, steps: seq<Step>, generated: Id)
    requires Safe(w) && request.orderId != "" && Admits(w, NewOrder(request), "")
    requires LoseEmit(request.orderId) !in steps
    ensures var later := Run(Next(w, Submit(request, "")), steps);
            Apply(later, NewOrder(request), generated) == later
  {
    AdmittedOrder(w, request);
    SubmitSteps(w, request);
    var w' := Next(w, Submit(request, ""));
    hide Next;
    hide AfterSubmit;
    hide Validate;
    RunAdvances(w', steps, request.orderId);
    TabledIsDuplicate(Run(w', steps), request, generated);
  }

  lemma SubmitSteps(w: World, request: Request)
    requires Validate(request, "").Valid?
    ensures Next(w, Submit(request, "")) == AfterSubmit(w, Validate(request, "").order)
  {
  }

  lemma TabledIsDuplicate(w: World, request: Request, generated: Id)
    requires request.orderId != "" && request.orderId in w.state.orders
    ensures Apply(w, NewOrder(request), generated) == w
  {
    ValidateKeepsId(request, generated);
    hide Validate;
  }

  /** The order is a duplicate, its event is unknown, or its reservation is refused and finds its
      account already open. */
  predicate Ignored(s: State, o: Order) {
    || o.id in s.orders || o.event !in s.markets
    || (Reserve(s, o).Refused?
        && if o.side.Buy? then o.user in s.balances else PositionKey(o.user, o.event, o.outcome) in s.positions)
  }

  lemma SubmitIgnoredIff(w: World, o: Order)
    ensures !Admit(w.state, o).reply.Accepted? ==> (AfterSubmit(w, o) == w <==> Ignored(w.state, o))
    ensures Admit(w.state, o).reply.Accepted? ==> !Ignored(w.state, o) && o.id !in w.state.orders
  {
    hide PositionKey;
  }

  /** Exactly when handling an order changes nothing. */
  lemma OrderIgnoredIff(w: World, request: Request, generated: Id)
    requires Safe(w) && Validate(request, generated).Valid?
    ensures Apply(w, NewOrder(request), generated) == w <==> Ignored(w.state, Validate(request, generated).order)
  {
    hide Validate;
    hide Ignored;
    hide Safe;
    hide Admit;
    hide AfterSubmit;
    hide AfterMatch;
    hide MatchSection;
    var o := Validate(request, generated).order;
    StepKeepsSafe(w, Submit(request, generated));
    SubmitIgnoredIff(w, o);
    if Admit(w.state, o).reply.Accepted? {
      AdmissionEnters(w, o);
      MatchKeepsKeys(AfterSubmit(w, o), o.id);
      AfterMatchState(AfterSubmit(w, o), o.id);
    }
  }

  /** The exact condition, after any continuation, lost emissions included: the order command
      delivered again changes nothing if and only if it is ignored where it arrives. */
  lemma AdmittedRedeliveryIff(w: World, request: Request, steps: seq<Step>)
    requires Safe(w) && Admits(w, NewOrder(request), "")
    ensures var later := Run(Next(w, Submit(request, "")), steps);
            Apply(later, NewOrder(request), "") == later <==> Ignored(later.state, Validate(request, "").order)
  {
    StepKeepsSafe(w, Submit(request, ""));
    var w' := Next(w, Submit(request, ""));
    SafeRun(w', steps);
    hide Next;
    hide Safe;
    OrderIgnoredIff(Run(w', steps), request, "");
  }

  lemma {:induction false} SafeRun(w: World, steps: seq<Step>)
    requires Safe(w)
    ensures Safe(Run(w, steps))
  {
    if steps != [] {
      SafeRun(w, steps[..|steps| - 1]);
      StepKeepsSafe(Run(w, steps[..|steps| - 1]), steps[|steps| - 1]);
    }
  }

  /** Handling commands one after the other. */
  function ApplyAll(w: World, log: seq<Command>): World {
    if log == [] then w else Apply(ApplyAll(w, log[..|log| - 1]), log[|log| - 1], "")
  }

  /** The log without repeats of earlier commands. */
  function FirstsOnly(log: seq<Command>): seq<Command> {
    if log == [] then []
    else
      var before, last := log[..|log| - 1], log[|log| - 1];
      FirstsOnly(before) + if last in before then [] else [last]
  }

  /** Every command of the log brings its ids and is accepted where it first occurs. */
  predicate AllAccepted(w: World, log: seq<Command>) {
    log == [] || (
      var before, last := log[..|log| - 1], log[|log| - 1];
      AllAccepted(w, before) && Explicit(last) && (last in before || Acknowledged(ApplyAll(w, before), last)))
  }

  /** One command is at most two steps. */
  lemma ApplyIsSteps(w: World, c: Command) returns (steps: seq<Step>)
    requires Safe(w)
    ensures Apply(w, c, "") == Run(w, steps) && Safe(Run(w, steps))
    ensures forall step :: step in steps ==> !step.LoseEmit?
  {
    match c
    case NewEvent(event) => steps := [CreateEvent(event)]; OneStep(w, steps[0]);
    case NewUser(user) => steps := [CreateUser(user)]; OneStep(w, steps[0]);
    case CancelCommand(id, event) => steps := [Cancel(id, event)]; OneStep(w, steps[0]);
    case Query => steps := [];
    case NewOrder(request) =>
      steps := [Submit(request, "")];
      OneStep(w, steps[0]);
      if Admits(w, c, "") {
        var id := Validate(request, "").order.id;
        var w' := Run(w, steps);
        MatchTakes(w', id);
        TwoSteps(w, steps[0], Match(id));
        steps := [steps[0], Match(id)];
        hide AfterMatch;
      }
  }

  lemma OneStep(w: World, a: Step)
    requires Safe(w)
    ensures Run(w, [a]) == Next(w, a) && Safe(Run(w, [a]))
  {
    StepKeepsSafe(w, a);
    assert [a][..0] == [];
    hide Next;
  }

  lemma TwoSteps(w: World, a: Step, b: Step)
    ensures Run(w, [a, b]) == Next(Run(w, [a]), b)
  {
    assert [a, b][..1] == [a];
    hide Next;
  }

  /** Every earlier command of an accepted log has left its trace. */
  lemma {:induction false} AllDone(w: World, log: seq<Command>)
    requires Safe(w) && AllAccepted(w, log)
    ensures Safe(ApplyAll(w, log))
    ensures forall c :: c in log ==> Explicit(c) && Done(ApplyAll(w, log), c)
  {
    if log != [] {
      var before, last := log[..|log| - 1], log[|log| - 1];
      AllDone(w, before);
      var mid := ApplyAll(w, before);
      var steps := ApplyIsSteps(mid, last);
      forall c | c in log ensures Explicit(c) && Done(ApplyAll(w, log), c) {
        if c in before {
          RunKeepsDone(mid, steps, c);
        } else {
          assert c == last;
          AcceptedIsDone(mid, last);
        }
      }
    }
  }

  /** A log of accepted commands with repeats inserted after first occurrences reaches the same
      state, and the same history, as the log without the repeats. */
  lemma {:induction false} DuplicatesAreHarmless(w: World, log: seq<Command>)
    requires Safe(w) && AllAccepted(w, log)
    ensures ApplyAll(w, log) == ApplyAll(w, FirstsOnly(log))
  {
    if log != [] {
      var before, last := log[..|log| - 1], log[|log| - 1];
      DuplicatesAreHarmless(w, before);
      if last in before {
        AllDone(w, before);
        DoneIsIgnored(ApplyAll(w, before), last, "");
        assert FirstsOnly(before) + [] == FirstsOnly(before);
      } else {
        assert (FirstsOnly(before) + [last])[..|FirstsOnly(before)|] == FirstsOnly(before);
      }
      hide Apply;
    }
  }

  // ---------------------------------------------------------------- replaying once more

  /** What only ever grows. */
  predicate Within(w: World, w': World) {
    && w.state.markets.Keys <= w'.state.markets.Keys && w.state.orders.Keys <= w'.state.orders.Keys
    && w.state.balances.Keys <= w'.state.balances.Keys && w.state.positions.Keys <= w'.state.positions.Keys
    && w.log.closed <= w'.log.closed
  }

  lemma {:induction false} SharesAllGrows(positions: map<string, Holding>, ts: seq<Trade>)
    ensures positions.Keys <= SharesAll(positions, ts).Keys
    decreases |ts|
  {
    if ts != [] {
      SharesAllGrows(SettleShares(positions, ts[0]), ts[1..]);
      hide PositionKey;
    }
  }

  lemma ReleaseGrows(s: State, id: Id)
    requires id in s.orders
    ensures s.balances.Keys <= Release(s, id).balances.Keys && s.positions.Keys <= Release(s, id).positions.Keys
  {
    hide PositionKey;
  }

  lemma MatchIsWithin(w: World, id: Id)
    requires Safe(w) && id in w.inflight && id in w.state.orders
    ensures Within(w, AfterMatch(w, id))
  {
    if Matchable(w.state, id) {
      MatchGrows(w, id);
      MatchKeepsKeys(w, id);
      MatchedWorld(w, id);
      SharesAllGrows(w.state.positions, TradesOf(w.state, id));
      ReleaseGrows(Settled(w.state, id), id);
    } else {
      SkippedMatch(w, id);
    }
    hide AfterMatch;
    hide MatchSection;
    hide Settled;
    hide TradesOf;
  }

  lemma SubmitIsWithin(w: World, o: Order)
    ensures Within(w, AfterSubmit(w, o))
  {
    hide PositionKey;
  }

  lemma CancelIsWithin(w: World, id: Id, event: Id)
    ensures Within(w, AfterCancel(w, id, event))
  {
    if CancelReply(w.state, id, event).Accepted? {
      var o := w.state.orders[id];
      var off := RemoveId(HalfOf(w.state, o.event, o.outcome, o.side), id);
      ReleaseGrows(SetStatus(PutHalf(w.state, o.event, o.outcome, o.side, off), id, Canceled), id);
      CancelParts(w, id, event);
      hide RemoveId;
      hide PositionKey;
    }
  }

  lemma OrderGrows(w: World, request: Request)
    requires Safe(w) && Validate(request, "").Valid?
    ensures Within(w, Apply(w, NewOrder(request), ""))
  {
    hide Validate;
    hide Safe;
    hide Admit;
    hide AfterSubmit;
    hide AfterMatch;
    var o := Validate(request, "").order;
    StepKeepsSafe(w, Submit(request, ""));
    SubmitIsWithin(w, o);
    if Admit(w.state, o).reply.Accepted? {
      AdmissionEnters(w, o);
      MatchIsWithin(AfterSubmit(w, o), o.id);
    }
  }

  lemma ApplyGrows(w: World, c: Command)
    requires Safe(w)
    ensures Within(w, Apply(w, c, ""))
  {
    match c
    case NewOrder(request) =>
      if Validate(request, "").Valid? {
        OrderGrows(w, request);
        hide Apply;
      }
    case CancelCommand(id, event) =>
      CancelIsWithin(w, id, event);
      hide AfterCancel;
    case _ =>
  }

  /** A command that changes anything makes something grow. */
  lemma ChangeGrows(w: World, c: Command)
    requires Safe(w) && Within(Apply(w, c, ""), w)
    ensures Apply(w, c, "") == w
  {
    match c
    case NewOrder(request) =>
      if Validate(request, "").Valid? {
        OrderChangeGrows(w, request);
      }
    case CancelCommand(id, event) =>
      if CancelReply(w.state, id, event).Accepted? {
        CancelCloses(w, id, event);
      }
    case _ =>
  }

  lemma CancelCloses(w: World, id: Id, event: Id)
    requires Safe(w) && CancelReply(w.state, id, event).Accepted?
    ensures id in AfterCancel(w, id, event).log.closed && id !in w.log.closed
  {
    assert Sound(id, w.state.orders[id], w.log.trades, id in w.log.closed);
  }

  lemma OrderChangeGrows(w: World, request: Request)
    requires Safe(w) && Validate(request, "").Valid? && Within(Apply(w, NewOrder(request), ""), w)
    ensures Apply(w, NewOrder(request), "") == w
  {
    var o := Validate(request, "").order;
    StepKeepsSafe(w, Submit(request, ""));
    OrderIgnoredIff(w, request, "");
    hide Safe;
    hide Validate;
    if Admit(w.state, o).reply.Accepted? {
      AdmissionEnters(w, o);
      hide AfterMatch;
      MatchIsWithin(AfterSubmit(w, o), o.id);
    } else {
      RefusalGrows(w, o);
    }
  }

  lemma RefusalGrows(w: World, o: Order)
    requires !Admit(w.state, o).reply.Accepted? && Within(AfterSubmit(w, o), w)
    ensures Ignored(w.state, o)
  {
    hide PositionKey;
  }

  lemma {:induction false} LogGrows(w: World, log: seq<Command>)
    requires Safe(w)
    ensures Safe(ApplyAll(w, log)) && Within(w, ApplyAll(w, log))
  {
    if log != [] {
      var before, last := log[..|log| - 1], log[|log| - 1];
      LogGrows(w, before);
      ApplyGrows(ApplyAll(w, before), last);
      var steps := ApplyIsSteps(ApplyAll(w, before), last);
      hide Apply;
      hide Safe;
    }
  }

  /** If a log leaves a state as it is, so does each of its commands: nothing can change and
      change back. */
  lemma {:induction false} UnchangedByEach(w: World, log: seq<Command>)
    requires Safe(w) && Within(ApplyAll(w, log), w)
    ensures ApplyAll(w, log) == w && forall c :: c in log ==> Apply(w, c, "") == w
  {
    if log != [] {
      var before, last := log[..|log| - 1], log[|log| - 1];
      LogGrows(w, before);
      ApplyGrows(ApplyAll(w, before), last);
      hide Apply;
      hide Safe;
      UnchangedByEach(w, before);
      ChangeGrows(w, last);
    }
  }

  lemma {:induction false} IgnoredByAll(w: World, log: seq<Command>)
    requires forall c :: c in log ==> Apply(w, c, "") == w
    ensures ApplyAll(w, log) == w
  {
    if log != [] {
      IgnoredByAll(w, log[..|log| - 1]);
      hide Apply;
    }
  }

  /** The ownership loop replays the whole log over the state it already has each time the lease
      is acquired again. That changes nothing if and only if no single command of the log would
      change the state the first replay reached. */
  lemma ReplayAgainIff(w: World, log: seq<Command>)
    requires Safe(w)
    ensures var r := ApplyAll(w, log);
            ApplyAll(r, log) == r <==> forall c :: c in log ==> Apply(r, c, "") == r
  {
    LogGrows(w, log);
    var r := ApplyAll(w, log);
    hide Apply;
    if ApplyAll(r, log) == r {
      UnchangedByEach(r, log);
    }
    if forall c :: c in log ==> Apply(r, c, "") == r {
      IgnoredByAll(r, log);
    }
    hide Safe;
  }

  /** It holds for every log whose commands were accepted. */
  lemma AcceptedReplayAgain(w: World, log: seq<Command>)
    requires Safe(w) && AllAccepted(w, log)
    ensures ApplyAll(ApplyAll(w, log), log) == ApplyAll(w, log)
  {
    AllDone(w, log);
    var r := ApplyAll(w, log);
    forall c | c in log ensures Apply(r, c, "") == r {
      DoneIsIgnored(r, c, "");
    }
    hide Apply;
    IgnoredByAll(r, log);
  }

  // ---------------------------------------------------------------- the replay loop

  /** An entry of the command stream; some cannot be read and are skipped. */
  datatype Entry = Unreadable | Readable(command: Command)

  function Commands(entries: seq<Entry>): seq<Command> {
    if entries == [] then []
    else
      Commands(entries[..|entries| - 1])
      + (match entries[|entries| - 1] case Unreadable => [] case Readable(c) => [c])
  }

  lemma CommandsSnoc(entries: seq<Entry>, i: nat, w: World)
    requires i < |entries|
    ensures ApplyAll(w, Commands(entries[..i + 1]))
            == match entries[i]
               case Unreadable => ApplyAll(w, Commands(entries[..i]))
               case Readable(c) => Apply(ApplyAll(w, Commands(entries[..i])), c, "")
  {
    assert entries[..i + 1][..i] == entries[..i];
    if entries[i].Unreadable? {
      assert Commands(entries[..i]) + [] == Commands(entries[..i]);
    } else {
      var before, c := Commands(entries[..i]), entries[i].command;
      assert Commands(entries[..i + 1]) == before + [c];
      assert (before + [c])[..|before|] == before;
    }
    hide Apply;
  }

  /** Re-executes every readable command of the stream, in order. */
  method ReplayLog(engine: Engine, entries: seq<Entry>)
    requires engine.Valid()
    modifies engine
    ensures engine.Valid() && engine.world == ApplyAll(old(engine.world), Commands(entries))
  {
    ghost var start := engine.world;
    for i := 0 to |entries|
      invariant engine.Valid() && engine.world == ApplyAll(start, Commands(entries[..i]))
    {
      CommandsSnoc(entries, i, start);
      if entries[i].Readable? {
        ApplyCommand(engine, entries[i].command);
      }
    }
    assert entries[..|entries|] == entries;
  }

  /** Re-executes one command; nothing is emitted. */
  method ApplyCommand(engine: Engine, c: Command)
    requires engine.Valid()
    modifies engine
    ensures engine.Valid() && engine.world == Apply(old(engine.world), c, "")
  {
    match c {
      case NewEvent(event) => engine.CreateMarket(event);
      case NewUser(user) => engine.UserCreated(user);
      case CancelCommand(id, event) =>
        var reply := engine.CancelOrder(id, event);
      case Query =>
      case NewOrder(request) => ReplayOrder(engine, request);
    }
  }

  /** Both sections of creating an order, without emission in between. */
  method ReplayOrder(engine: Engine, request: Request)
    requires engine.Valid()
    modifies engine
    ensures engine.Valid() && engine.world == Apply(old(engine.world), NewOrder(request), "")
  {
    ghost var w := engine.world;
    OrderIsSteps(w, request);
    hide *;
    var reply, id := engine.CreateOrder(request, "");
    if reply.Accepted? {
      var trades := engine.MatchOrder(id);
    }
  }

  /** Creating an order as steps, and what the caller is told in between. */
  lemma OrderIsSteps(w: World, request: Request)
    requires Safe(w)
    ensures var c := Validate(request, "");
            var w' := Next(w, Submit(request, ""));
            if c.Valid? && Admit(w.state, c.order).reply.Accepted?
            then c.order.id in w'.inflight && Apply(w, NewOrder(request), "") == Next(w', Match(c.order.id))
            else Apply(w, NewOrder(request), "") == w'
  {
    hide Validate;
    hide Admit;
    hide AfterMatch;
    hide AfterSubmit;
    hide Safe;
    if Admits(w, NewOrder(request), "") {
      AdmittedOrder(w, request);
    }
  }
}
