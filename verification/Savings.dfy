/** A witness run: a BUY that saves as a taker and is completed as a maker ends FILLED with its
    savings still locked. `Roles.LimitBuyLock` says how much, for every run. */
module Savings {
  import opened Types
  import opened Sums
  import opened Ledger
  import opened Matching
  import opened Books
  import opened Machine
  import opened Fills
  import opened Lifecycle
  import opened BookSafety
  import opened Guarantees
  import Limits

  const CHEAP := Request("1", "e", "s", "LIMIT", "YES", "SELL", 1, 3)
  const WANTED := Request("2", "e", "b", "LIMIT", "YES", "BUY", 2, 5)
  const DEAR := Request("3", "e", "s", "LIMIT", "YES", "SELL", 1, 5)

  const FIRST := Order("1", "e", "s", LimitOrder, Yes, Sell, 1, 0, 1, 3, Pending, 1)
  const BID := Order("2", "e", "b", LimitOrder, Yes, Buy, 2, 0, 2, 5, Pending, 10)
  const LAST := Order("3", "e", "s", LimitOrder, Yes, Sell, 1, 0, 1, 5, Pending, 1)

  // ---------------------------------------------------------------- three reservations

  function Shares(h: Holding): map<string, Holding> { map[PositionKey("s", "e", Yes) := h] }

  function Start(): World {
    World(State(map[], map[], map["b" := Holding(10, 0)], Shares(Holding(2, 0))), {}, EMPTY_LOG)
  }

  /** All three orders are admitted before any is matched. */
  function Pledged(n: nat): World {
    var orders := map["1" := FIRST];
    World(State(map["e" := NEW_MARKET],
                if n == 0 then map[] else if n == 1 then orders else if n == 2 then orders["2" := BID]
                  else orders["2" := BID]["3" := LAST],
                map["b" := if n < 2 then Holding(10, 0) else Holding(0, 10)],
                Shares(if n == 0 then Holding(2, 0) else if n < 3 then Holding(1, 1) else Holding(0, 2))),
          if n == 0 then {} else if n == 1 then {"1"} else if n == 2 then {"1", "2"} else {"1", "2", "3"},
          EMPTY_LOG)
  }

  lemma Pledge(n: nat, request: Request, o: Order)
    requires n < 3
    requires request == (if n == 0 then CHEAP else if n == 1 then WANTED else DEAR)
    requires o == (if n == 0 then FIRST else if n == 1 then BID else LAST)
    ensures Next(Pledged(n), Submit(request, "")) == Pledged(n + 1)
  {
    hide PositionKey;
    assert Validate(request, "") == Valid(o.(locked := 0));
    Limits.SubmitIs(Pledged(n), request, o.(locked := 0));
    hide Validate;
    hide Next;
    var s := Pledged(n + 1).state;
    assert Reserve(Pledged(n).state, o.(locked := 0)) == Granted(s.(orders := Pledged(n).state.orders), o);
    hide Reserve;
  }

  // ---------------------------------------------------------------- three matches

  /** Matching against a single counterparty is one trade. */
  lemma OneCounterparty(orders: map<Id, Order>, x: Id, t: Id)
    requires t in orders && x in orders && x != t && orders[t].remaining > 0
    requires !Stale(orders[x]) && Eligible(orders[t], orders[x])
    ensures var a, m := orders[t], orders[x];
            var q := Min(a.remaining, m.remaining);
            Rescan(orders, [x], t)
            == Matched(orders[t := FillTaker(a, q)][x := FillMaker(m, q)], if q == m.remaining then []
               else [x], [BuildTrade(a, m, q)])
  {
    assert DropStale(orders, [x]) == [x];
    assert FirstEligible(orders, [x], orders[t]) == 0;
    var one := Execute(orders, [x], t, 0);
    if one.ids == [] {
      assert DropStale(one.orders, []) == [];
    }
    assert Rescan(one.orders, one.ids, t) == Matched(one.orders, one.ids, []);
    assert one.trades + [] == one.trades;
  }

  function YesBook(bids: seq<Id>, asks: seq<Id>): map<Id, Market> { map["e" := Market(Book(bids, asks), Book([], []))] }

  const HALF_FILLED := BID.(filled := 1, remaining := 1, status := Partial)
  const FILLED := BID.(filled := 2, remaining := 0, status := Filled)
  const T1 := BuildTrade(BID, FIRST, 1)
  const T2 := BuildTrade(LAST, HALF_FILLED, 1)

  lemma FirstFindsNobody(s: State)
    requires s.orders == Pledged(3).state.orders && s.markets == YesBook([], [])
    ensures Matchable(s, "1") && TradesOf(s, "1") == [] && Searched(s, "1") == s
  {
    hide PositionKey;
    assert HalfOf(s, "e", Yes, Buy) == [];
    assert Search(s, "1") == Matched(s.orders, [], []);
    hide Rescan;
  }

  lemma FirstConcludes(s: State)
    requires s.orders == Pledged(3).state.orders && s.markets == YesBook([], []) && Matchable(s, "1")
    requires TradesOf(s, "1") == [] && Searched(s, "1") == s
    ensures var r := MatchSection(s, "1");
            && r.orders == s.orders && r.markets == YesBook([], ["1"])
            && !Finished(Settled(s, "1").orders["1"].status)
  {
    hide PositionKey;
    hide TradesOf;
    hide Searched;
    assert Insert(s.orders, Sell, [], "1") == ["1"];
    assert Conclude(s, "1").orders == s.orders;
    assert Settled(s, "1") == Conclude(s, "1");
  }

  /** The first SELL finds nobody and rests. */
  lemma FirstRests(w: World)
    requires w.state.orders == Pledged(3).state.orders && w.state.markets == YesBook([], []) && w.log.closed == {}
    ensures var w' := AfterMatch(w, "1");
            && w'.state.orders == w.state.orders && w'.state.markets == YesBook([], ["1"])
            && w'.log.trades == w.log.trades && w'.log.closed == {} && w'.inflight == w.inflight - {"1"}
  {
    FirstFindsNobody(w.state);
    FirstConcludes(w.state);
    MatchedWorld(w, "1");
    assert w.log.trades + [] == w.log.trades;
    hide *;
  }

  /** The BUY takes it below its limit and rests with the other half. */
  lemma BidSaves(w: World)
    requires w.state.orders == Pledged(3).state.orders && w.state.markets == YesBook([], ["1"]) && w.log.closed == {}
    ensures var w' := AfterMatch(w, "2");
            && "2" in w'.state.orders && SameButLock(HALF_FILLED, w'.state.orders["2"])
            && "3" in w'.state.orders && SameButLock(LAST, w'.state.orders["3"])
            && w'.state.markets == YesBook(["2"], [])
            && w'.log.trades == w.log.trades + [T1] && w'.log.closed == {} && w'.inflight == w.inflight - {"2"}
  {
    hide *;
    BidFinds(w.state);
    BidConcludes(w.state);
    MatchedWorld(w, "2");
    BidIsOpen(w);
  }

  lemma BidFinds(s: State)
    requires s.orders == Pledged(3).state.orders && s.markets == YesBook([], ["1"])
    ensures "2" in s.orders && "3" in s.orders && Matchable(s, "2") && TradesOf(s, "2") == [T1]
    ensures var m := Search(s, "2");
            m.ids == [] && m.orders["2"] == BID.(filled := 1, remaining := 1) && m.orders["3"] == LAST
  {
    hide PositionKey;
    OneCounterparty(s.orders, "1", "2");
    hide Rescan;
    assert HalfOf(s, "e", Yes, Sell) == ["1"];
  }

  lemma BidConcludes(s: State)
    requires s.orders == Pledged(3).state.orders && s.markets == YesBook([], ["1"]) && Matchable(s, "2")
    requires "3" in s.orders
    requires var m := Search(s, "2");
             m.ids == [] && m.orders["2"] == BID.(filled := 1, remaining := 1) && m.orders["3"] == LAST
    ensures var r := MatchSection(s, "2");
            && "2" in r.orders && SameButLock(HALF_FILLED, r.orders["2"])
            && "3" in r.orders && SameButLock(LAST, r.orders["3"])
            && r.markets == YesBook(["2"], [])
            && Settled(s, "2").orders["2"].status == Partial
  {
    hide PositionKey;
    hide Settled;
    hide MatchSection;
    hide Search;
    hide Searched;
    hide Conclude;
    hide Pledged;
    BidJoins(s, Search(s, "2"));
    MatchTable(s, "2");
    var t := WithStatus(Search(s, "2").orders, "2", ConcludedStatus(Search(s, "2").orders["2"]));
    assert t["2"] == HALF_FILLED && t["3"] == LAST;
    assert SameButLock(t["2"], MatchSection(s, "2").orders["2"])
      && SameButLock(t["3"], MatchSection(s, "2").orders["3"]);
  }

  lemma BidIsOpen(w: World)
    requires Matchable(w.state, "2") && Settled(w.state, "2").orders["2"].status == Partial
    ensures !Finished(Settled(w.state, "2").orders["2"].status)
  {
    hide Settled;
  }

  lemma BidJoins(s: State, m: Matched)
    requires s.orders == Pledged(3).state.orders && s.markets == YesBook([], ["1"]) && m == Search(s, "2")
    requires m.ids == [] && m.orders["2"] == BID.(filled := 1, remaining := 1)
    ensures Conclude(Searched(s, "2"), "2").markets == YesBook(["2"], [])
  {
    hide PositionKey;
    hide Search;
    var r := Searched(s, "2");
    assert r.orders == m.orders && r.markets == YesBook([], []);
    hide Searched;
    assert HalfOf(r, "e", Yes, Buy) == [] && Insert(r.orders, Buy, [], "2") == ["2"];
  }

  /** The last SELL completes it at its limit; only that SELL is released. */
  lemma LastCompletes(w: World)
    requires "2" in w.state.orders && SameButLock(HALF_FILLED, w.state.orders["2"])
    requires "3" in w.state.orders && SameButLock(LAST, w.state.orders["3"])
    requires w.state.markets == YesBook(["2"], []) && w.log.closed == {}
    ensures var w' := AfterMatch(w, "3");
            && w'.log.trades == w.log.trades + [T2] && w'.log.closed == {"3"}
            && "2" in w'.state.orders && SameButLock(FILLED, w'.state.orders["2"])
  {
    hide *;
    LastFinds(w.state);
    LastConcludes(w.state);
    MatchedWorld(w, "3");
    assert {} + {"3"} == {"3"};
  }

  lemma LastFinds(s: State)
    requires "2" in s.orders && SameButLock(HALF_FILLED, s.orders["2"])
    requires "3" in s.orders && SameButLock(LAST, s.orders["3"]) && s.markets == YesBook(["2"], [])
    ensures Matchable(s, "3") && TradesOf(s, "3") == [T2]
    ensures var m := Search(s, "3");
            m.orders["3"].remaining == 0 && SameButLock(FILLED, m.orders["2"])
  {
    OneCounterparty(s.orders, "2", "3");
    hide Rescan;
    assert HalfOf(s, "e", Yes, Buy) == ["2"];
  }

  lemma LastConcludes(s: State)
    requires "2" in s.orders && Matchable(s, "3")
    requires var m := Search(s, "3");
             m.orders["3"].remaining == 0 && SameButLock(FILLED, m.orders["2"])
    ensures var r := MatchSection(s, "3");
            && "2" in r.orders && SameButLock(FILLED, r.orders["2"])
            && Finished(Settled(s, "3").orders["3"].status)
  {
    hide Settled;
    hide MatchSection;
    hide Search;
    MatchTable(s, "3");
    hide Searched;
    hide Conclude;
    var t := WithStatus(Search(s, "3").orders, "3", ConcludedStatus(Search(s, "3").orders["3"]));
    assert t["2"] == Search(s, "3").orders["2"];
    assert SameButLock(t["2"], MatchSection(s, "3").orders["2"]);
  }

  /** The whole run. */
  lemma SavingRun() returns (steps: seq<Step>)
    ensures var r := Run(Start(), steps);
            && r.log.trades == [T1, T2] && r.log.closed == {"3"}
            && "2" in r.state.orders && SameButLock(FILLED, r.state.orders["2"])
  {
    hide Run;
    hide AfterMatch;
    var w := Pledged(3);
    assert Next(Run(Start(), []), CreateEvent("e")) == Pledged(0) by { MarketOpens(); }
    Pledge(0, CHEAP, FIRST);
    Pledge(1, WANTED, BID);
    Pledge(2, DEAR, LAST);
    FirstRests(w);
    BidSaves(AfterMatch(w, "1"));
    LastCompletes(AfterMatch(AfterMatch(w, "1"), "2"));
    assert Next(w, Match("1")) == AfterMatch(w, "1");
    assert Next(AfterMatch(w, "1"), Match("2")) == AfterMatch(AfterMatch(w, "1"), "2");
    assert Next(AfterMatch(AfterMatch(w, "1"), "2"), Match("3"))
      == AfterMatch(AfterMatch(AfterMatch(w, "1"), "2"), "3");
    hide Next;
    hide Pledged;
    steps := RunSteps(CreateEvent("e"), Submit(CHEAP, ""), Submit(WANTED, ""), Submit(DEAR, ""), Match("1"),
      Match("2"), Match("3"));
  }

  lemma MarketOpens()
    ensures Next(Run(Start(), []), CreateEvent("e")) == Pledged(0)
  {
    hide PositionKey;
    assert map[]["e" := NEW_MARKET] == Pledged(0).state.markets;
  }

  lemma RunSteps(a: Step, b: Step, c: Step, d: Step, e: Step, f: Step, g: Step) returns (steps: seq<Step>)
    ensures Run(Start(), steps)
            == Next(Next(Next(Next(Next(Next(Next(Run(Start(), []), a), b), c), d), e), f), g)
  {
    hide Run;
    hide Next;
    Limits.RunSnoc(Start(), [], a);
    steps := [] + [a];
    Limits.RunSnoc(Start(), steps, b);
    steps := steps + [b];
    Limits.RunSnoc(Start(), steps, c);
    steps := steps + [c];
    Limits.RunSnoc(Start(), steps, d);
    steps := steps + [d];
    Limits.RunSnoc(Start(), steps, e);
    steps := steps + [e];
    Limits.RunSnoc(Start(), steps, f);
    steps := steps + [f];
    Limits.RunSnoc(Start(), steps, g);
    steps := steps + [g];
  }

  /** A filled BUY may still lock cash: the order is FILLED, and the two it saved stay locked. */
  lemma FilledBuyKeepsLock()
    ensures exists w, steps, id ::
              && Seeded(w) && id in Run(w, steps).state.orders
              && Run(w, steps).state.orders[id].status.Filled? && Run(w, steps).state.orders[id].locked > 0
  {
    var steps := SavingRun();
    assert Seeded(Start()) by { hide PositionKey; }
    hide Run;
    SavedTwo(steps);
  }

  lemma SavedTwo(steps: seq<Step>)
    requires Seeded(Start())
    requires var r := Run(Start(), steps);
             && r.log.trades == [T1, T2] && r.log.closed == {"3"}
             && "2" in r.state.orders && SameButLock(FILLED, r.state.orders["2"])
    ensures Run(Start(), steps).state.orders["2"].locked == 2
  {
    hide Run;
    ReleasedLimitBuyLock(Start(), steps, "2");
    GainIsTwo();
  }

  lemma GainIsTwo()
    ensures Gain([T1, T2], "2", 5) == 2
  {
    SumSeqSnoc([], T1, GainOf("2", 5));
    SumSeqSnoc([T1], T2, GainOf("2", 5));
    assert [] + [T1] == [T1] && [T1] + [T2] == [T1, T2];
  }
}
