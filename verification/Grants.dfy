/** Who gets the starting balance: over every run, exactly those whose account nothing opened
    before their USER_CREATED command. */
module Grants {
  import opened Types
  import opened Ledger
  import opened Machine
  import opened Fills
  import opened Lifecycle
  import opened BookSafety
  import opened Progress

  // ---------------------------------------------------------------- what opens an account

  function Parties(ts: seq<Trade>): set<Id> { (set t | t in ts :: t.buyer) + (set t | t in ts :: t.seller) }

  /** Will this order reach its reservation? */
  predicate Reserves(s: State, o: Order) { o.id !in s.orders && o.event in s.markets }

  /** The accounts a step opens: the user it creates, the user of a BUY that reaches its
      reservation, granted or not, and buyer and seller of every trade it makes. */
  function Opens(w: World, step: Step): set<Id> {
    match step
    case CreateUser(user) => if user == "" then {} else {user}
    case Submit(request, generated) =>
      (match Validate(request, generated)
       case Invalid(_) => {}
       case Valid(o) => if o.side.Buy? && Reserves(w.state, o) then {o.user} else {})
    case Match(id) => if id in w.inflight && Matchable(w.state, id) then Parties(TradesOf(w.state, id)) else {}
    case _ => {}
  }

  /** Every BUY has an account to pay from. */
  ghost predicate BuyersHaveAccounts(s: State) {
    forall x :: x in s.orders && s.orders[x].side.Buy? ==> s.orders[x].user in s.balances
  }

  // ---------------------------------------------------------------- one step

  lemma {:induction false} SettlingOpens(balances: map<Id, Holding>, ts: seq<Trade>)
    ensures CashAll(balances, ts).Keys == balances.Keys + Parties(ts)
    decreases |ts|
  {
    if ts != [] {
      SettlingOpens(SettleCash(balances, ts[0]), ts[1..]);
      PartiesCons(ts);
    }
  }

  lemma PartiesCons(ts: seq<Trade>)
    requires ts != []
    ensures Parties(ts) == {ts[0].buyer, ts[0].seller} + Parties(ts[1..])
  {
    assert ts == [ts[0]] + ts[1..];
  }

  lemma ReleaseOpensNothing(s: State, id: Id)
    requires id in s.orders && (s.orders[id].side.Buy? ==> s.orders[id].user in s.balances)
    ensures Release(s, id).balances.Keys == s.balances.Keys
  {
    hide PositionKey;
  }

  lemma SubmitOpens(w: World, o: Order)
    ensures AfterSubmit(w, o).state.balances.Keys
            == w.state.balances.Keys + if o.side.Buy? && Reserves(w.state, o) then {o.user} else {}
  {
    hide PositionKey;
  }

  lemma MatchOpens(w: World, id: Id)
    requires Safe(w) && BuyersHaveAccounts(w.state) && id in w.inflight && Matchable(w.state, id)
    ensures AfterMatch(w, id).state.balances.Keys == w.state.balances.Keys + Parties(TradesOf(w.state, id))
  {
    hide *;
    TakerHasAccount(w, id);
    MatchedWorld(w, id);
    SettlingOpens(w.state.balances, TradesOf(w.state, id));
    ReleaseOpensNothing(Settled(w.state, id), id);
  }

  lemma TakerHasAccount(w: World, id: Id)
    requires Safe(w) && BuyersHaveAccounts(w.state) && id in w.inflight && Matchable(w.state, id)
    ensures id in w.state.orders
    ensures var done := Settled(w.state, id);
            done.orders[id].side.Buy? ==> done.orders[id].user in done.balances
  {
    hide Settled;
    hide TradesOf;
    SearchIsFit(w, id);
    SettledTerms(w.state, id);
    MatchedState(w.state, id);
    SettlingOpens(w.state.balances, TradesOf(w.state, id));
  }

  lemma SettledTerms(s: State, id: Id)
    requires SearchFits(s, id)
    ensures SameTerms(s.orders[id], Settled(s, id).orders[id])
  {
    MatchIsTradeByTrade(s, id);
    TradedParts(s, id);
    TradesKeepTerms(s.orders, TradesOf(s, id));
    ConcludeParts(Traded(s, id), id);
    hide TradesOf;
    hide Settled;
    hide Conclude;
  }

  lemma CancelOpensNothing(w: World, id: Id, event: Id)
    requires BuyersHaveAccounts(w.state)
    ensures AfterCancel(w, id, event).state.balances.Keys == w.state.balances.Keys
  {
    hide PositionKey;
  }

  /** The accounts after a step are those before it and those it opens. */
  lemma StepOpens(w: World, step: Step)
    requires Safe(w) && BuyersHaveAccounts(w.state)
    ensures Next(w, step).state.balances.Keys == w.state.balances.Keys + Opens(w, step)
  {
    hide AfterMatch;
    hide AfterSubmit;
    hide AfterCancel;
    hide TradesOf;
    hide Parties;
    hide Validate;
    match step
    case Submit(request, generated) =>
      if Validate(request, generated).Valid? {
        SubmitOpens(w, Validate(request, generated).order);
      }
    case Match(id) =>
      if id in w.inflight {
        if Matchable(w.state, id) {
          MatchOpens(w, id);
        } else {
          SkippedMatch(w, id);
        }
      }
    case Cancel(id, event) => CancelOpensNothing(w, id, event);
    case _ =>
  }

  lemma StepKeepsAccounts(w: World, step: Step)
    requires Safe(w) && BuyersHaveAccounts(w.state)
    ensures BuyersHaveAccounts(Next(w, step).state)
  {
    StepOpens(w, step);
    var w' := Next(w, step);
    forall x | x in w'.state.orders && w'.state.orders[x].side.Buy?
      ensures w'.state.orders[x].user in w'.state.balances
    {
      if x in w.state.orders {
        StepAdvances(w, step, x);
      } else {
        NewcomersAreSubmitted(w, step, x);
        NewcomerReserves(w, step, x);
      }
      hide Next;
      hide TradesOf;
      hide Parties;
    }
  }

  lemma NewcomerReserves(w: World, step: Step, x: Id)
    requires step.Submit? && x !in w.state.orders && x in Next(w, step).state.orders
    requires Validate(step.request, step.generated).Valid?
    ensures Reserves(w.state, Validate(step.request, step.generated).order)
  {
    hide Reserve;
    hide Validate;
  }

  // ---------------------------------------------------------------- every run

  /** Everything the steps of a run open. */
  function OpenedBy(w: World, steps: seq<Step>): set<Id> {
    if steps == [] then {}
    else OpenedBy(w, steps[..|steps| - 1]) + Opens(Run(w, steps[..|steps| - 1]), steps[|steps| - 1])
  }

  /** On every run, the accounts are the seeded ones and those that some step opened. */
  lemma {:induction false} AccountsAreOpened(w: World, steps: seq<Step>)
    requires Seeded(w)
    ensures Run(w, steps).state.balances.Keys == w.state.balances.Keys + OpenedBy(w, steps)
    ensures Safe(Run(w, steps)) && BuyersHaveAccounts(Run(w, steps).state)
  {
    RunIsSafe(w, steps);
    if steps != [] {
      var before, last := steps[..|steps| - 1], steps[|steps| - 1];
      AccountsAreOpened(w, before);
      StepOpens(Run(w, before), last);
      StepKeepsAccounts(Run(w, before), last);
      hide Next;
      hide Opens;
    }
  }

  /** Step `i` of the run opened the account of `u`. */
  ghost predicate OpensAt(w: World, steps: seq<Step>, i: nat, u: Id)
    requires i < |steps|
  {
    u in Opens(Run(w, steps[..i]), steps[i])
  }

  lemma {:induction false} OpenedIff(w: World, steps: seq<Step>, u: Id)
    ensures u in OpenedBy(w, steps) <==> exists i :: 0 <= i < |steps| && OpensAt(w, steps, i, u)
  {
    if steps != [] {
      var n := |steps| - 1;
      OpenedIff(w, steps[..n], u);
      forall i | 0 <= i < n ensures OpensAt(w, steps[..n], i, u) == OpensAt(w, steps, i, u) {
        OpensEarlier(w, steps, n, i, u);
      }
      OpensLast(w, steps, u);
      hide *;
    }
  }

  lemma OpensEarlier(w: World, steps: seq<Step>, n: nat, i: nat, u: Id)
    requires i < n <= |steps|
    ensures OpensAt(w, steps[..n], i, u) == OpensAt(w, steps, i, u)
  {
    assert steps[..n][..i] == steps[..i];
    hide Opens;
    hide Run;
  }

  lemma OpensLast(w: World, steps: seq<Step>, u: Id)
    requires steps != []
    ensures u in OpenedBy(w, steps) <==> u in OpenedBy(w, steps[..|steps| - 1]) || OpensAt(w, steps, |steps| - 1, u)
  {
    hide Opens;
    hide Run;
  }

  /** On every run, USER_CREATED pays the starting balance if and only if the account was not
      seeded and no earlier step opened it: no earlier USER_CREATED, no BUY of the user that
      reached its reservation, no trade of the user on either side. Otherwise it does nothing. */
  lemma GrantIff(w: World, steps: seq<Step>, u: Id)
    requires Seeded(w) && u != ""
    ensures var r := Run(w, steps);
            var r' := Next(r, CreateUser(u));
            if u !in w.state.balances && (forall i :: 0 <= i < |steps| ==> !OpensAt(w, steps, i, u))
            then r'.state.balances == r.state.balances[u := Holding(1_000_000, 0)]
              && r'.log.grants == r.log.grants + 1
            else r' == r
  {
    AccountsAreOpened(w, steps);
    OpenedIff(w, steps, u);
    CreateUserPays(Run(w, steps), u);
    hide *;
  }

  lemma CreateUserPays(r: World, u: Id)
    requires u != ""
    ensures var r' := Next(r, CreateUser(u));
            if u in r.state.balances then r' == r
            else r'.state.balances == r.state.balances[u := Holding(1_000_000, 0)] && r'.log.grants == r.log.grants + 1
  {
  }

  // ---------------------------------------------------------------- two ways to forfeit it

  lemma {:induction false} AccountsStay(w: World, steps: seq<Step>, u: Id)
    requires Safe(w) && BuyersHaveAccounts(w.state) && u in w.state.balances
    ensures Run(w, steps).state.balances.Keys >= w.state.balances.Keys
    ensures Safe(Run(w, steps)) && BuyersHaveAccounts(Run(w, steps).state)
  {
    if steps != [] {
      var before, last := steps[..|steps| - 1], steps[|steps| - 1];
      AccountsStay(w, before, u);
      StepKeepsSafe(Run(w, before), last);
      StepOpens(Run(w, before), last);
      StepKeepsAccounts(Run(w, before), last);
      hide Next;
      hide Opens;
      hide Safe;
    }
  }

  /** Whatever happens after a step that opened the account, a later USER_CREATED does nothing. */
  lemma OpenedIsForfeited(w: World, step: Step, steps: seq<Step>, u: Id)
    requires Safe(w) && BuyersHaveAccounts(w.state) && u in Opens(w, step)
    ensures var r := Run(Next(w, step), steps);
            Next(r, CreateUser(u)) == r
  {
    StepKeepsSafe(w, step);
    StepOpens(w, step);
    StepKeepsAccounts(w, step);
    var w' := Next(w, step);
    assert u in w'.state.balances;
    AccountsStay(w', steps, u);
    assert u in Run(w', steps).state.balances;
    hide Run;
    hide Safe;
    hide Opens;
  }
}
