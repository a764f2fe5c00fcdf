/** Where the engine falls short of what one would expect, each with its witness: reservations
    lost for good, grants forfeited, and cash created by a market BUY that cannot pay. */
module Limits {
  import opened Types
  import opened Sums
  import opened Ledger
  import opened Matching
  import opened Books
  import opened Machine
  import opened Fills
  import opened Lifecycle
  import opened BookSafety
  import opened Accounts
  import Conservation
  import Grants
  import Replay

  // ---------------------------------------------------------------- lost reservations

  lemma {:induction false} StrandedIncludes(dropped: seq<Order>, o: Order)
    requires o in dropped && forall x :: x in dropped ==> x.locked >= 0
    ensures Stranded(dropped, o.side, AccountOf(o)) >= o.locked
  {
    var n := |dropped| - 1;
    assert dropped[n] in dropped;
    if o == dropped[n] {
      StrandedNonNegative(dropped[..n], o.side, AccountOf(o));
    } else {
      StrandedIncludes(dropped[..n], o);
    }
  }

  /** What an order had reserved when its emission failed is never given back: at every later
      state the account still has at least that much in reserve. */
  lemma LostReservationsStay(w: World, steps: seq<Step>, o: Order)
    requires Seeded(w) && o in Run(w, steps).log.dropped && (o.side.Buy? ==> FundedRun(w, steps))
    ensures Held(AccountsOn(Run(w, steps).state, o.side), AccountOf(o)).reserved >= o.locked
  {
    if o.side.Buy? {
      CashReservedExactly(w, steps);
    } else {
      SharesReservedExactly(w, steps);
    }
    var r := Run(w, steps);
    hide Run;
    StrandedIncludes(r.log.dropped, o);
    SumMapLower(r.state.orders, LockFor(o.side, AccountOf(o)));
  }

  // ---------------------------------------------------------------- forfeited grants

  /** A BUY that arrives before its user's account, granted or refused, forfeits the starting
      balance: after any continuation USER_CREATED does nothing. */
  lemma EarlyBuyForfeitsGrant(w: World, request: Request, generated: Id, steps: seq<Step>)
    requires Safe(w) && Grants.BuyersHaveAccounts(w.state) && Validate(request, generated).Valid?
    requires var o := Validate(request, generated).order;
             o.side.Buy? && o.id !in w.state.orders && o.event in w.state.markets
    ensures var u := Validate(request, generated).order.user;
            var r := Run(Next(w, Submit(request, generated)), steps);
            Next(r, CreateUser(u)) == r
  {
    Grants.OpenedIsForfeited(w, Submit(request, generated), steps, Validate(request, generated).order.user);
    hide Run;
    hide Next;
  }

  // ---------------------------------------------------------------- an unfunded market BUY

  const OFFER := Request("1", "e", "s", "LIMIT", "YES", "SELL", 1, 2)
  const DEMAND := Request("2", "e", "b", "MARKET", "YES", "BUY", 1, 0)
  const SELL := Order("1", "e", "s", LimitOrder, Yes, Sell, 1, 0, 1, 2, Pending, 1)
  const BUY := Order("2", "e", "b", MarketOrder, Yes, Buy, 1, 0, 1, 0, Pending, 1)

  function SellerShares(h: Holding): map<string, Holding> { map[PositionKey("s", "e", Yes) := h] }

  /** A seller with one share, and a buyer with half of what it is offered for. */
  function Poor(): World {
    World(State(map[], map[], map["b" := Holding(1, 0)], SellerShares(Holding(1, 0))), {}, EMPTY_LOG)
  }

  function Opened(): World { Poor().(state := Poor().state.(markets := map["e" := NEW_MARKET])) }

  function Offered(): World {
    World(State(map["e" := NEW_MARKET], map["1" := SELL], map["b" := Holding(1, 0)], SellerShares(Holding(0, 1))),
      {"1"}, EMPTY_LOG)
  }

  lemma OfferIsReserved()
    ensures Next(Opened(), Submit(OFFER, "")) == Offered()
  {
    hide PositionKey;
    var o := SELL.(locked := 0);
    assert Validate(OFFER, "") == Valid(o);
    hide Validate;
    assert Reserve(Opened().state, o) == Granted(Offered().state.(orders := map[]), SELL);
    hide Reserve;
    assert map[]["1" := SELL] == Offered().state.orders;
    assert {} + {"1"} == Offered().inflight;
  }

  lemma OfferRests()
    ensures var w := Next(Offered(), Match("1"));
            && w.state.orders == map["1" := SELL] && w.state.balances == map["b" := Holding(1, 0)]
            && w.state.markets == map["e" := Market(Book([], ["1"]), Book([], []))]
            && w.inflight == {} && w.log.shortfall == 0 && w.log.trades == []
  {
    hide PositionKey;
    var s := Offered().state;
    assert HalfOf(s, "e", Yes, Buy) == [];
    assert Search(s, "1") == Matched(s.orders, [], []);
    hide Rescan;
    assert TradesOf(s, "1") == [];
    assert Searched(s, "1") == s;
    assert Insert(s.orders, Sell, [], "1") == ["1"];
    hide Search;
    hide Searched;
    hide TradesOf;
    assert Conclude(s, "1").orders == s.orders;
    assert Settled(s, "1") == Conclude(s, "1");
  }

  lemma DemandIsReserved()
    ensures var w := Next(Next(Offered(), Match("1")), Submit(DEMAND, ""));
            && w.state.orders == map["1" := SELL, "2" := BUY] && w.state.balances == map["b" := Holding(0, 1)]
            && w.state.markets == map["e" := Market(Book([], ["1"]), Book([], []))]
            && w.inflight == {"2"} && w.log.shortfall == 0
  {
    OfferRests();
    var w := Next(Offered(), Match("1"));
    hide Next;
    var o := BUY.(locked := 0);
    assert Validate(DEMAND, "") == Valid(o);
    assert Next(w, Submit(DEMAND, "")) == AfterSubmit(w, o) by { SubmitIs(w, DEMAND, o); }
    hide Validate;
    assert Reserve(w.state, o) == Granted(w.state.(balances := map["b" := Holding(0, 1)]), BUY);
    hide Reserve;
    assert map["1" := SELL]["2" := BUY] == map["1" := SELL, "2" := BUY];
    assert {} + {"2"} == {"2"};
  }

  lemma SubmitIs(w: World, request: Request, o: Order)
    requires Validate(request, "") == Valid(o)
    ensures Next(w, Submit(request, "")) == AfterSubmit(w, o)
  {
  }

  lemma DemandTrades(orders: map<Id, Order>)
    requires orders == map["1" := SELL, "2" := BUY]
    ensures Rescan(orders, ["1"], "2").trades == [BuildTrade(BUY, SELL, 1)]
  {
    assert FirstEligible(orders, ["1"], BUY) == 0;
    assert DropStale(orders, ["1"]) == ["1"];
    var one := Execute(orders, ["1"], "2", 0);
    assert one.trades == [BuildTrade(BUY, SELL, 1)] && one.orders["2"].remaining == 0;
    hide Execute;
    hide FirstEligible;
    hide DropStale;
    assert Rescan(one.orders, one.ids, "2").trades == [];
    assert Rescan(orders, ["1"], "2").trades == one.trades + [];
  }

  /** The buyer takes the offer and pays two from a reserve of one. */
  lemma DemandOverpays(w: World)
    requires w.state.orders == map["1" := SELL, "2" := BUY] && w.state.balances == map["b" := Holding(0, 1)]
    requires w.state.markets == map["e" := Market(Book([], ["1"]), Book([], []))]
    requires w.inflight == {"2"} && w.log.shortfall == 0
    ensures Next(w, Match("2")).log.shortfall > 0 && "s" in Next(w, Match("2")).state.balances
  {
    hide PositionKey;
    hide Rescan;
    hide Settled;
    hide MatchSection;
    hide Release;
    var s := w.state;
    DemandTrades(s.orders);
    assert HalfOf(s, "e", Yes, Sell) == ["1"];
    assert TradesOf(s, "2") == [BuildTrade(BUY, SELL, 1)];
    hide TradesOf;
    OneShortfall(BuildTrade(BUY, SELL, 1));
    MatchedWorld(w, "2");
    SellerIsPaid(Settled(s, "2"), "2", BuildTrade(BUY, SELL, 1));
    hide AfterMatch;
  }

  lemma SellerIsPaid(s: State, id: Id, t: Trade)
    requires s.balances == CashAll(map["b" := Holding(0, 1)], [t]) && id in s.orders
    ensures t.seller in s.balances && t.seller in Release(s, id).balances
  {
    hide PositionKey;
    assert [t][1..] == [];
  }

  lemma OneShortfall(t: Trade)
    requires t == BuildTrade(BUY, SELL, 1)
    ensures SettleShortfall(map["b" := Holding(0, 1)], [t]) == 1
  {
    assert t.Cost() == 2;
    assert [t][1..] == [];
  }

  lemma RunSnoc(w: World, steps: seq<Step>, step: Step)
    ensures Run(w, steps + [step]) == Next(Run(w, steps), step)
  {
    assert (steps + [step])[..|steps|] == steps;
    hide Next;
  }

  /** Nobody is created, and user `u` submits nothing but SELL orders. */
  ghost predicate OnlySells(steps: seq<Step>, u: Id) {
    forall step :: step in steps ==>
      !step.CreateUser? && (step.Submit? && step.request.user == u ==> step.request.side == "SELL")
  }

  lemma OnlySellsSnoc(steps: seq<Step>, step: Step, u: Id)
    requires OnlySells(steps, u) && OnlySells([step], u)
    ensures OnlySells(steps + [step], u)
  {
    assert step in [step];
  }

  lemma OnlySellsOne(step: Step)
    requires step == Submit(OFFER, "") || step == Submit(DEMAND, "") || step.CreateEvent? || step.Match?
    ensures OnlySells([step], "s")
  {
  }

  /** The run: an event, an offer, and a demand that cannot pay. */
  lemma PoorRun() returns (steps: seq<Step>)
    ensures Run(Poor(), steps).log.shortfall > 0 && "s" in Run(Poor(), steps).state.balances
    ensures OnlySells(steps, "s")
  {
    hide Run;
    assert OnlySells([], "s");
    assert Next(Run(Poor(), []), CreateEvent("e")) == Opened() by { EventOpens(); }
    OfferIsReserved();
    DemandIsReserved();
    DemandOverpays(Next(Next(Offered(), Match("1")), Submit(DEMAND, "")));
    hide *;
    steps := Extend([], CreateEvent("e"));
    steps := Extend(steps, Submit(OFFER, ""));
    steps := Extend(steps, Match("1"));
    steps := Extend(steps, Submit(DEMAND, ""));
    steps := Extend(steps, Match("2"));
  }

  lemma Extend(steps: seq<Step>, step: Step) returns (longer: seq<Step>)
    requires OnlySells(steps, "s")
    requires step == Submit(OFFER, "") || step == Submit(DEMAND, "") || step.CreateEvent? || step.Match?
    ensures Run(Poor(), longer) == Next(Run(Poor(), steps), step) && OnlySells(longer, "s")
  {
    longer := steps + [step];
    RunSnoc(Poor(), steps, step);
    OnlySellsOne(step);
    OnlySellsSnoc(steps, step, "s");
    hide *;
  }

  lemma EventOpens()
    ensures Next(Run(Poor(), []), CreateEvent("e")) == Opened()
  {
    hide PositionKey;
    assert map[]["e" := NEW_MARKET] == Opened().state.markets;
  }

  /** Cash is created: on some run a clamp covers up a payment that was never made. */
  lemma UnfundedBuyCreatesCash()
    ensures exists w, steps :: Seeded(w) && !FundedRun(w, steps) && Run(w, steps).log.shortfall > 0
  {
    var steps := PoorRun();
    var w := Poor();
    assert Seeded(w) by { hide PositionKey; }
    hide Run;
    hide Poor;
    if FundedRun(w, steps) {
      Conservation.FundedRunsConserveCash(w, steps);
      assert false;
    }
  }

  /** A seller whose order trades before their account exists forfeits the starting balance too:
      on some run a user without seeded account only ever submitted a SELL, and USER_CREATED
      does nothing. */
  lemma EarlySellerForfeitsGrant()
    ensures exists w, steps, u ::
              && Seeded(w) && u != "" && u !in w.state.balances
              && OnlySells(steps, u)
              && Next(Run(w, steps), CreateUser(u)) == Run(w, steps)
  {
    var steps := PoorRun();
    var w := Poor();
    assert Seeded(w) && "s" !in w.state.balances by { hide PositionKey; }
    hide Poor;
    CreatedAlready(Run(w, steps), "s");
    hide Run;
    hide Next;
  }

  lemma CreatedAlready(w: World, u: Id)
    requires u in w.state.balances
    ensures Next(w, CreateUser(u)) == w
  {
  }

  // ---------------------------------------------------------------- a lost order

  lemma OfferedRun() returns (steps: seq<Step>)
    ensures Run(Poor(), steps) == Offered()
  {
    hide Run;
    assert Next(Run(Poor(), []), CreateEvent("e")) == Opened() by { EventOpens(); }
    OfferIsReserved();
    hide Next;
    RunSnoc(Poor(), [], CreateEvent("e"));
    steps := [] + [CreateEvent("e")];
    RunSnoc(Poor(), steps, Submit(OFFER, ""));
    steps := steps + [Submit(OFFER, "")];
  }

  /** Reservations do get lost: on some run an order is dropped with something locked. */
  lemma LossStrands()
    ensures exists w, steps, o :: Seeded(w) && o in Run(w, steps).log.dropped && o.locked > 0
  {
    var steps := OfferedRun();
    assert Seeded(Poor()) by { hide PositionKey; }
    assert SELL in Next(Offered(), LoseEmit("1")).log.dropped by { hide PositionKey; }
    RunSnoc(Poor(), steps, LoseEmit("1"));
    hide Next;
    hide Run;
    assert SELL in Run(Poor(), steps + [LoseEmit("1")]).log.dropped;
  }

  // ---------------------------------------------------------------- a cancel delivered too late

  const CANCEL := Replay.CancelCommand("1", "e")

  /** After the cancel and the loss only the history differs from before the order. */
  function Gone(): World {
    Opened().(log := EMPTY_LOG.(dropped := [SELL.(status := Canceled, locked := 0)]))
  }

  lemma CancelInFlight()
    ensures CancelReply(Offered().state, "1", "e").Accepted?
    ensures Next(AfterCancel(Offered(), "1", "e"), LoseEmit("1")) == Gone()
  {
    hide PositionKey;
    var s := Offered().state;
    assert RemoveId(HalfOf(s, "e", Yes, Sell), "1") == [];
    var off := PutHalf(s, "e", Yes, Sell, []);
    assert off == s;
    var marked := SetStatus(s, "1", Canceled);
    var freed := Release(marked, "1");
    assert freed.positions == SellerShares(Holding(1, 0));
    assert freed.orders == map["1" := SELL.(status := Canceled, locked := 0)];
    assert CancelSection(s, "1", "e") == freed;
    assert freed.orders - {"1"} == map[];
  }

  lemma OfferAgain()
    ensures var w := Next(Gone(), Submit(OFFER, ""));
            w.state == Offered().state
  {
    OfferIsReserved();
    var o := SELL.(locked := 0);
    assert Validate(OFFER, "") == Valid(o);
    SubmitIs(Opened(), OFFER, o);
    SubmitIs(Gone(), OFFER, o);
    hide Validate;
    hide Next;
    hide Admit;
  }

  /** A cancel accepted in flight, whose order then loses its emission and is submitted again,
      hits the new order when it is delivered again. */
  lemma LateCancelHits()
    ensures exists w, steps :: Safe(w) && Replay.Acknowledged(w, CANCEL) && Replay.Explicit(CANCEL) && (
              var later := Run(Replay.Apply(w, CANCEL, ""), steps);
              Replay.Apply(later, CANCEL, "") != later)
  {
    OfferedIsSafe();
    CancelInFlight();
    CancelApplies(Offered());
    var steps := LateRun();
    CancelChanges(Run(AfterCancel(Offered(), "1", "e"), steps));
    hide *;
  }

  lemma OfferedIsSafe()
    ensures Safe(Offered())
  {
    var before := OfferedRun();
    assert Seeded(Poor()) by { hide PositionKey; }
    RunIsSafe(Poor(), before);
    hide *;
  }

  lemma CancelApplies(w: World)
    ensures Replay.Apply(w, CANCEL, "") == AfterCancel(w, "1", "e")
    ensures Replay.Acknowledged(w, CANCEL) == CancelReply(w.state, "1", "e").Accepted? && Replay.Explicit(CANCEL)
  {
    hide AfterCancel;
  }

  /** The emission is lost and the order submitted again. */
  lemma LateRun() returns (steps: seq<Step>)
    ensures Run(AfterCancel(Offered(), "1", "e"), steps).state == Offered().state
  {
    hide *;
    var w := AfterCancel(Offered(), "1", "e");
    CancelInFlight();
    OfferAgain();
    RunSnoc(w, [], LoseEmit("1"));
    RunSnoc(w, [] + [LoseEmit("1")], Submit(OFFER, ""));
    NoSteps(w);
    steps := [] + [LoseEmit("1")] + [Submit(OFFER, "")];
  }

  lemma NoSteps(w: World)
    ensures Run(w, []) == w
  {
  }

  lemma CancelChanges(w: World)
    requires w.state == Offered().state
    ensures Replay.Apply(w, CANCEL, "") != w
  {
    CancelParts(w, "1", "e");
    hide AfterCancel;
  }

  // ---------------------------------------------------------------- a log replayed twice

  const EARLY_CANCEL: seq<Replay.Command> := [CANCEL, Replay.NewOrder(OFFER)]

  /** A cancel that comes before its order is refused the first time; once the order rests the
      same cancel would be accepted. */
  lemma EarlyCancelWaits()
    ensures var r := Replay.ApplyAll(Opened(), EARLY_CANCEL);
            CancelReply(r.state, "1", "e").Accepted?
  {
    hide Replay.Apply;
    hide Replay.ApplyAll;
    hide Opened;
    hide Offered;
    hide Next;
    hide CancelReply;
    ApplyTwo(Opened(), CANCEL, Replay.NewOrder(OFFER));
    CancelRefused();
    OfferApplies();
    OfferRests();
    RestingIsCancelable(Next(Offered(), Match("1")).state);
  }

  lemma ApplyTwo(w: World, a: Replay.Command, b: Replay.Command)
    ensures Replay.ApplyAll(w, [a, b]) == Replay.Apply(Replay.Apply(w, a, ""), b, "")
  {
    hide Replay.Apply;
    assert [a, b][..1] == [a] && [a][..0] == [];
    assert Replay.ApplyAll(w, [a]) == Replay.Apply(Replay.ApplyAll(w, []), a, "");
    assert Replay.ApplyAll(w, [a, b]) == Replay.Apply(Replay.ApplyAll(w, [a]), b, "");
  }

  lemma CancelRefused()
    ensures Replay.Apply(Opened(), CANCEL, "") == Opened()
  {
    hide PositionKey;
  }

  lemma OfferApplies()
    ensures Replay.Apply(Opened(), Replay.NewOrder(OFFER), "") == Next(Offered(), Match("1"))
  {
    OfferIsReserved();
    OpenedIsSafe();
    Replay.OrderIsSteps(Opened(), OFFER);
    OfferIsAccepted();
    hide *;
  }

  lemma OfferIsAccepted()
    ensures var c := Validate(OFFER, "");
            c.Valid? && Admit(Opened().state, c.order).reply.Accepted? && c.order.id == "1"
  {
    hide PositionKey;
  }

  lemma OpenedIsSafe()
    ensures Safe(Opened())
  {
    assert Seeded(Poor()) by { hide PositionKey; }
    EventOpens();
    RunSnoc(Poor(), [], CreateEvent("e"));
    RunIsSafe(Poor(), [] + [CreateEvent("e")]);
    hide *;
  }

  lemma RestingIsCancelable(s: State)
    requires s.orders == map["1" := SELL] && "e" in s.markets
    ensures CancelReply(s, "1", "e").Accepted?
  {
  }

  /** Replaying a log over the state it led to can change that state: a command refused the first
      time may be accepted the second time, and nothing is emitted for it. */
  lemma SecondReplayDiffers()
    ensures exists w, log :: Safe(w) && Replay.ApplyAll(Replay.ApplyAll(w, log), log) != Replay.ApplyAll(w, log)
  {
    OpenedIsSafe();
    EarlyCancelWaits();
    var r := Replay.ApplyAll(Opened(), EARLY_CANCEL);
    Replay.RefusedCancelIsIgnored(r, CANCEL, "");
    Replay.ReplayAgainIff(Opened(), EARLY_CANCEL);
    assert CANCEL in EARLY_CANCEL;
    hide Replay.Apply;
    hide Replay.ApplyAll;
    hide Safe;
  }
}
