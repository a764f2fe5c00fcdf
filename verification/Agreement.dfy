/** The database agrees with the engine.

    One engine with one partition handles commands one after the other, every emission
    succeeds, users exist before they order, and market BUYs are funded. The worker settles the
    emitted events in stream order. Then balances, shares and fills agree after every command,
    and the guarded debit never refuses a trade. */
module Agreement {
  import opened Types
  import opened Ledger
  import opened Machine
  import opened Fills
  import opened Lifecycle
  import opened BookSafety
  import opened Accounts
  import Db = Settlement

  // ---------------------------------------------------------------- agreement

  /** The ids in use, which of them the worker can read as database keys, and the id under which
      the k-th trade of a run is published. */
  datatype Setting = Setting(ids: Ids, parses: Id -> bool, names: nat -> Id)

  /** A key the worker accepts. */
  predicate Usable(c: Setting, id: Id) { id != "" && c.parses(id) }

  ghost predicate CashAgrees(balances: map<Id, Holding>, db: Db.Db) {
    && balances.Keys == db.users.Keys
    && (forall u :: u in balances ==> db.users[u] == balances[u].Total())
  }

  ghost predicate SharesAgree(c: Setting, positions: map<string, Holding>, db: Db.Db) {
    forall u, e, o :: c.ids.users(u) && c.ids.events(e) ==>
      Db.SharesOf(db, Db.PosKey(u, e, o)) == Held(positions, PositionKey(u, e, o)).Total()
  }

  /** Row and order show the same quantity, fill and remainder, and nothing is lost between them. */
  predicate SameFill(o: Order, row: Db.Row) {
    && row.quantity == o.quantity && row.filled == o.filled && row.remaining == o.remaining
    && o.remaining >= 0 && o.filled + o.remaining == o.quantity
  }

  ghost predicate FillsAgree(orders: map<Id, Order>, db: Db.Db) {
    && orders.Keys == db.orders.Keys
    && (forall x :: x in orders ==> SameFill(orders[x], db.orders[x]))
  }

  ghost predicate Agrees(c: Setting, s: State, db: Db.Db) {
    && CashAgrees(s.balances, db) && SharesAgree(c, s.positions, db) && FillsAgree(s.orders, db)
    && s.markets.Keys <= db.volume.Keys
  }

  /** Orders carry usable ids, and their users have accounts. */
  ghost predicate Registered(c: Setting, s: State) {
    forall x :: x in s.orders ==>
      var o := s.orders[x];
      && Usable(c, x) && Usable(c, o.user) && Usable(c, o.event) && c.ids.users(o.user) && c.ids.events(o.event)
      && o.user in s.balances && o.event in s.markets
  }

  // ---------------------------------------------------------------- one trade

  lemma CashStaysEqual(balances: map<Id, Holding>, db: Db.Db, t: Trade)
    requires CashAgrees(balances, db) && t.buyer in balances && t.seller in balances && t.buyer != t.seller
    requires t.Cost() <= balances[t.buyer].reserved
    ensures var users := Db.MoveBalance(db.users, t);
            CashAgrees(SettleCash(balances, t), db.(users := users))
  {
  }

  function BoughtKey(t: Trade): string { PositionKey(t.buyer, t.event, t.outcome) }
  function SoldKey(t: Trade): string { PositionKey(t.seller, t.event, t.outcome) }

  lemma PositionMoved(positions: map<string, Holding>, t: Trade, k: string)
    requires BoughtKey(t) != SoldKey(t) && t.quantity <= Held(positions, SoldKey(t)).reserved
    ensures Held(SettleShares(positions, t), k).Total()
            == Held(positions, k).Total() + (if k == BoughtKey(t) then t.quantity else 0)
               - (if k == SoldKey(t) then t.quantity else 0)
  {
    hide PositionKey;
  }

  function MoveShares(db: Db.Db, t: Trade): Db.Db {
    db.(shares := Db.Upsert(Db.Upsert(db.shares, Db.BuyerKey(t), t.quantity), Db.SellerKey(t), -t.quantity))
  }

  lemma RowMoved(db: Db.Db, t: Trade, k: Db.PosKey)
    ensures Db.SharesOf(MoveShares(db, t), k)
            == Db.SharesOf(db, k) + (if k == Db.BuyerKey(t) then t.quantity else 0)
               - (if k == Db.SellerKey(t) then t.quantity else 0)
  {
  }

  lemma SharesAgreeAt(c: Setting, positions: map<string, Holding>, db: Db.Db, t: Trade, u: Id, e: Id, o: Outcome)
    requires Separable(c.ids) && SharesAgree(c, positions, db) && c.ids.users(u) && c.ids.events(e)
    requires c.ids.users(t.buyer) && c.ids.users(t.seller) && c.ids.events(t.event) && t.buyer != t.seller
    requires t.quantity <= Held(positions, SoldKey(t)).reserved
    ensures Db.SharesOf(MoveShares(db, t), Db.PosKey(u, e, o))
      == Held(SettleShares(positions, t), PositionKey(u, e, o)).Total()
  {
    hide PositionKey;
    hide SettleShares;
    hide MoveShares;
    hide Db.SharesOf;
    hide Held;
    SameKey(c, t.buyer, t.event, t.outcome, t.seller, t.event, t.outcome);
    SameKey(c, u, e, o, t.buyer, t.event, t.outcome);
    SameKey(c, u, e, o, t.seller, t.event, t.outcome);
    PositionMoved(positions, t, PositionKey(u, e, o));
    RowMoved(db, t, Db.PosKey(u, e, o));
  }

  lemma SharesStayEqual(c: Setting, positions: map<string, Holding>, db: Db.Db, t: Trade)
    requires Separable(c.ids) && SharesAgree(c, positions, db)
    requires c.ids.users(t.buyer) && c.ids.users(t.seller) && c.ids.events(t.event) && t.buyer != t.seller
    requires t.quantity <= Held(positions, SoldKey(t)).reserved
    ensures SharesAgree(c, SettleShares(positions, t), MoveShares(db, t))
  {
    hide PositionKey;
    hide SettleShares;
    hide MoveShares;
    hide Db.SharesOf;
    hide Held;
    forall u, e, o | c.ids.users(u) && c.ids.events(e)
      ensures Db.SharesOf(MoveShares(db, t), Db.PosKey(u, e, o))
        == Held(SettleShares(positions, t), PositionKey(u, e, o)).Total()
    {
      SharesAgreeAt(c, positions, db, t, u, e, o);
    }
  }

  lemma SameKey(c: Setting, u: Id, e: Id, o: Outcome, u': Id, e': Id, o': Outcome)
    requires Separable(c.ids) && c.ids.users(u) && c.ids.events(e) && c.ids.users(u') && c.ids.events(e')
    ensures PositionKey(u, e, o) == PositionKey(u', e', o') <==> Db.PosKey(u, e, o) == Db.PosKey(u', e', o')
  {
    hide PositionKey;
  }

  lemma FillsStayEqual(orders: map<Id, Order>, db: Db.Db, t: Trade)
    requires FillsAgree(orders, db) && ValidTrade(orders, t)
    ensures t.taker in db.orders && t.maker in db.orders
    ensures FillsAgree(TradeOrders(orders, t), db.(orders := Db.FillRows(db.orders, t)))
  {
  }

  /** One trade: the message is valid, the transaction commits, and both sides still agree. */
  lemma TradeAgrees(c: Setting, s: State, t: Trade, db: Db.Db, id: Id)
    requires ValidTrade(s.orders, t) && TradeUnclamped(s, t) && HoldingsOk(s)
    requires Separable(c.ids) && Registered(c, s) && Agrees(c, s, db) && Usable(c, id) && id !in db.trades
    ensures Db.ValidTradeMessage(id, t) && Db.Readable(c.parses, id, t) && Db.Settleable(db, id, t)
    ensures Agrees(c, TradeStep(s, t), Db.Settled(db, id, t))
  {
    hide PositionKey;
    TradeUsers(c, s, t);
    FillsStayEqual(s.orders, db, t);
    CashStaysEqual(s.balances, db, t);
    SharesStayEqual(c, s.positions, db, t);
    hide SettleCash;
    hide SettleShares;
    hide TradeOrders;
    AgreementOfParts(c, TradeStep(s, t), Db.Settled(db, id, t),
                     db.(users := Db.MoveBalance(db.users, t)), MoveShares(db, t),
                       db.(orders := Db.FillRows(db.orders, t)));
  }

  /** Each table agrees by itself. */
  lemma AgreementOfParts(c: Setting, s: State, db: Db.Db, cash: Db.Db, shares: Db.Db, fills: Db.Db)
    requires CashAgrees(s.balances, cash) && cash.users == db.users
    requires SharesAgree(c, s.positions, shares) && shares.shares == db.shares
    requires FillsAgree(s.orders, fills) && fills.orders == db.orders
    requires s.markets.Keys <= db.volume.Keys
    ensures Agrees(c, s, db)
  {
    hide PositionKey;
    forall u, e, o | c.ids.users(u) && c.ids.events(e)
      ensures Db.SharesOf(db, Db.PosKey(u, e, o)) == Held(s.positions, PositionKey(u, e, o)).Total()
    {
      assert Db.SharesOf(shares, Db.PosKey(u, e, o)) == Held(s.positions, PositionKey(u, e, o)).Total();
    }
  }

  /** Buyer and seller of a valid trade are the registered users of its two orders. */
  lemma TradeUsers(c: Setting, s: State, t: Trade)
    requires ValidTrade(s.orders, t) && Registered(c, s)
    ensures t.buyer in s.balances && t.seller in s.balances && t.buyer != t.seller && t.event in s.markets
    ensures c.ids.users(t.buyer) && c.ids.users(t.seller) && c.ids.events(t.event)
    ensures Usable(c, t.taker) && Usable(c, t.maker) && Usable(c, t.buyer) && Usable(c, t.seller) && Usable(c, t.event)
    ensures t.quantity > 0 && t.price > 0
  {
  }

  lemma TradeKeepsRegistered(c: Setting, s: State, t: Trade)
    requires ValidTrade(s.orders, t) && Registered(c, s)
    ensures Registered(c, TradeStep(s, t))
  {
    hide PositionKey;
    hide ValidTrade;
    TradeKeepsTerms(s.orders, t);
    hide SettleShares;
    KeepsTermsKeepsRegistered(c, s, TradeStep(s, t));
  }

  lemma KeepsTermsKeepsRegistered(c: Setting, s: State, s': State)
    requires Registered(c, s) && KeepsTerms(s, s') && s.balances.Keys <= s'.balances.Keys
    ensures Registered(c, s')
  {
    forall x | x in s'.orders
      ensures var o := s'.orders[x];
              && Usable(c, x) && Usable(c, o.user) && Usable(c, o.event) && c.ids.users(o.user) && c.ids.events(o.event)
              && o.user in s'.balances && o.event in s'.markets
    {
      assert SameTerms(s.orders[x], s'.orders[x]);
    }
  }

  lemma TradeKeepsHoldings(s: State, t: Trade)
    requires t.quantity > 0 && t.price > 0 && HoldingsOk(s)
    ensures HoldingsOk(TradeStep(s, t))
  {
    hide PositionKey;
    hide TradeOrders;
  }

  /** An event arrives, and nothing breaks. */
  function Arrive(c: Setting, db: Db.Db, m: Db.Message): Db.Db {
    Db.Deliver(c.parses, db, Db.Delivery(m, false, false))
  }

  /** Delivers trades in order; `n` trades of the run have been published before. */
  function Publish(c: Setting, db: Db.Db, n: nat, ts: seq<Trade>): Db.Db
    decreases |ts|
  {
    if ts == [] then db
    else Publish(c, Arrive(c, db, Db.TradeMessage(c.names(n), ts[0])), n + 1, ts[1..])
  }

  /** No two positions share a key, and trade ids are usable and never repeat. */
  ghost predicate Suitable(c: Setting) {
    && Separable(c.ids)
    && (forall i: nat :: Usable(c, c.names(i)))
    && (forall i: nat, j: nat :: i != j ==> c.names(i) != c.names(j))
  }

  /** Exactly the first `|trades|` trades are stored, each under its id. */
  ghost predicate Stored(c: Setting, db: Db.Db, trades: seq<Trade>) {
    && (forall i :: 0 <= i < |trades| ==> c.names(i) in db.trades && db.trades[c.names(i)] == trades[i])
    && (forall i: nat :: i >= |trades| ==> c.names(i) !in db.trades)
  }

  lemma StoreOne(c: Setting, db: Db.Db, trades: seq<Trade>, t: Trade)
    requires Suitable(c) && Stored(c, db, trades) && Db.References(db, t)
    ensures Stored(c, Db.Settled(db, c.names(|trades|), t), trades + [t])
  {
  }

  /** All trades of a search, delivered in order: none is refused, and agreement is kept. */
  lemma {:induction false} TradesAgree(c: Setting, s: State, taker: Id, ts: seq<Trade>, db: Db.Db, trades: seq<Trade>)
    requires ValidTrades(s.orders, taker, ts) && TradesUnclamped(s, ts) && HoldingsOk(s)
    requires Registered(c, s) && Agrees(c, s, db) && Suitable(c) && Stored(c, db, trades)
    ensures var db' := Publish(c, db, |trades|, ts);
            Agrees(c, TradeAll(s, ts), db') && Stored(c, db', trades + ts)
    ensures Registered(c, TradeAll(s, ts))
    decreases |ts|
  {
    hide Registered;
    hide Agrees;
    hide Stored;
    hide TradeStep;
    hide ValidTrade;
    hide TradeUnclamped;
    hide Db.Settled;
    hide Db.ValidTradeMessage;
    if ts == [] {
      assert trades + ts == trades;
    } else {
      var t, id := ts[0], c.names(|trades|);
      NotYetStored(c, db, trades);
      TradeAgrees(c, s, t, db, id);
      TradeKeepsRegistered(c, s, t);
      TradeUsers(c, s, t);
      TradeKeepsHoldings(s, t);
      StoreOne(c, db, trades, t);
      NextTradesValid(s.orders, taker, ts);
      NextState(s, t);
      TradesAgree(c, TradeStep(s, t), taker, ts[1..], Db.Settled(db, id, t), trades + [t]);
      ShiftHistory(trades, ts);
    }
  }

  lemma NextState(s: State, t: Trade)
    ensures TradeStep(s, t).orders == TradeOrders(s.orders, t)
  {
  }

  lemma NotYetStored(c: Setting, db: Db.Db, trades: seq<Trade>)
    requires Suitable(c) && Stored(c, db, trades)
    ensures c.names(|trades|) !in db.trades && Usable(c, c.names(|trades|))
  {
  }

  // ---------------------------------------------------------------- the other sections

  /** The same accounts worth the same. */
  ghost predicate SameWorth(s: State, s': State) {
    && s'.balances.Keys == s.balances.Keys
    && (forall u :: u in s.balances ==> s'.balances[u].Total() == s.balances[u].Total())
    && (forall k :: Held(s'.positions, k).Total() == Held(s.positions, k).Total())
  }

  lemma ReserveKeepsWorth(s: State, o: Order)
    requires o.user in s.balances
    ensures SameWorth(s, Reserve(s, o).state)
  {
    hide PositionKey;
  }

  lemma UnfreezeKeepsWorth(m: map<string, Holding>, key: string, amount: int)
    requires 0 < amount <= Held(m, key).reserved
    ensures forall k :: Held(m[key := Unfreeze(Held(m, key), amount)], k).Total() == Held(m, k).Total()
  {
  }

  lemma ReleaseKeepsWorth(s: State, id: Id)
    requires id in s.orders && s.orders[id].user in s.balances
    requires Held(AccountsOn(s, s.orders[id].side), AccountOf(s.orders[id])).reserved >= s.orders[id].locked
    ensures SameWorth(s, Release(s, id))
  {
    hide PositionKey;
    var o := s.orders[id];
    if o.locked > 0 {
      UnfreezeKeepsWorth(AccountsOn(s, o.side), AccountOf(o), o.locked);
      if o.side.Buy? {
        assert Release(s, id).balances == s.balances[o.user := Unfreeze(Held(s.balances, o.user), o.locked)];
        hide Release;
        hide Unfreeze;
        SameTotals(s.balances, Release(s, id).balances);
      }
    }
  }

  lemma SameTotals(m: map<string, Holding>, m': map<string, Holding>)
    requires m.Keys == m'.Keys && forall k :: Held(m', k).Total() == Held(m, k).Total()
    ensures forall k :: k in m ==> m'[k].Total() == m[k].Total()
  {
    forall k | k in m ensures m'[k].Total() == m[k].Total() {
      assert Held(m', k).Total() == Held(m, k).Total();
    }
  }

  predicate SameCounts(o: Order, o': Order) {
    o'.quantity == o.quantity && o'.filled == o.filled && o'.remaining == o.remaining
  }

  /** Agreement carries over to a state that is worth the same and has the same fills. */
  lemma AgreementCarries(c: Setting, s: State, s': State, db: Db.Db)
    requires Agrees(c, s, db) && SameWorth(s, s') && s'.markets.Keys == s.markets.Keys
    requires s'.orders.Keys == s.orders.Keys
    requires forall x :: x in s.orders ==> SameCounts(s.orders[x], s'.orders[x])
    ensures Agrees(c, s', db)
  {
    hide PositionKey;
  }

  // ---------------------------------------------------------------- every step

  function RowOf(o: Order): Db.Row { Db.Row(o.quantity, o.filled, o.remaining, o.status) }

  function OrderEvent(o: Order): Db.Message { Db.OrderMessage(o.id, o.user, o.event, o.price, RowOf(o)) }

  /** What a step writes: sign-up and event creation insert rows before the command is sent,
      everything else arrives as emitted events. */
  function Project(c: Setting, db: Db.Db, w: World, step: Step): Db.Db {
    match step
    case CreateEvent(event) =>
      if event == "" || event in db.volume then db else db.(volume := db.volume[event := 0])
    case CreateUser(user) =>
      if user == "" || user in db.users then db else db.(users := db.users[user := STARTING_BALANCE])
    case Submit(request, generated) =>
      (match Validate(request, generated)
       case Invalid(_) => db
       case Valid(o) =>
         if Admit(w.state, o).reply.Accepted? then Arrive(c, db, OrderEvent(o)) else db)
    case Match(id) =>
      if id in w.inflight && id in w.state.orders then Publish(c, db, |w.log.trades|, TradesOf(w.state, id)) else db
    case LoseEmit(id) => db
    case Cancel(id, event) =>
      if CancelReply(w.state, id, event).Accepted? then Arrive(c, db, Db.CancelMessage(id)) else db
  }

  function ProjectRun(c: Setting, db: Db.Db, w: World, steps: seq<Step>): Db.Db {
    if steps == [] then db
    else
      var before := steps[..|steps| - 1];
      Project(c, ProjectRun(c, db, w, before), Run(w, before), steps[|steps| - 1])
  }

  /** The order table takes the row of this order. */
  predicate Storable(c: Setting, o: Order) {
    Usable(c, o.id) && Usable(c, o.user) && Usable(c, o.event) && o.price >= 0
  }

  /** The hypotheses on one step: emissions succeed, whoever orders has an account and ids in
      use, the order table takes the row, and a market BUY is funded. */
  ghost predicate Orderly(c: Setting, w: World, step: Step) {
    && !step.LoseEmit?
    && StepFunded(w, step)
    && (step.Submit? ==>
          && step.request.user in w.state.balances
          && c.ids.users(step.request.user) && c.ids.events(step.request.event)
          && (Validate(step.request, step.generated).Valid? ==>
                Storable(c, Validate(step.request, step.generated).order)))
  }

  ghost predicate OrderlyRun(c: Setting, w: World, steps: seq<Step>) {
    steps == [] || (
      && OrderlyRun(c, w, steps[..|steps| - 1])
      && Orderly(c, Run(w, steps[..|steps| - 1]), steps[|steps| - 1]))
  }

  /** Settled but not released, the engine agrees with the delivered trades. */
  lemma SettledAgrees(c: Setting, w: World, id: Id, db: Db.Db)
    requires SearchFits(w.state, id) && HoldingsOk(w.state) && TradesUnclamped(w.state, TradesOf(w.state, id))
    requires Registered(c, w.state) && Agrees(c, w.state, db) && Suitable(c) && Stored(c, db, w.log.trades)
    ensures var db' := Publish(c, db, |w.log.trades|, TradesOf(w.state, id));
            Agrees(c, Settled(w.state, id), db') && Stored(c, db', w.log.trades + TradesOf(w.state, id))
    ensures Registered(c, Settled(w.state, id))
  {
    var s, ts := w.state, TradesOf(w.state, id);
    hide PositionKey;
    hide Registered;
    hide Agrees;
    hide Stored;
    hide Publish;
    hide TradesOf;
    hide TradesUnclamped;
    MatchIsTradeByTrade(s, id);
    hide Settled;
    TradesAgree(c, s, id, ts, db, w.log.trades);
    TradedParts(s, id);
    TradeAllParts(s, ts);
    hide Traded;
    hide TradeAll;
    ConcludeParts(Traded(s, id), id);
    ConcludeKeepsTerms(Traded(s, id), id);
    hide Conclude;
    CarriesOver(c, TradeAll(s, ts), Traded(s, id), Settled(s, id), id, Publish(c, db, |w.log.trades|, ts));
  }

  lemma CarriesOver(c: Setting, a: State, b: State, r: State, id: Id, db: Db.Db)
    requires Agrees(c, a, db) && Registered(c, a)
    requires b.orders == a.orders && b.balances == a.balances && b.positions == a.positions
    requires b.markets.Keys == a.markets.Keys
    requires id in b.orders && r.balances == b.balances && r.positions == b.positions && KeepsTerms(b, r)
    requires r.orders == WithStatus(b.orders, id, r.orders[id].status)
    ensures Agrees(c, r, db) && Registered(c, r)
  {
    hide PositionKey;
    AgreementCarries(c, a, r, db);
    KeepsTermsKeepsRegistered(c, a, r);
  }

  /** Engine and tables in step. */
  ghost predicate InStep(c: Setting, w: World, db: Db.Db) {
    && Safe(w) && ExactOn(w, Buy) && ExactOn(w, Sell)
    && Registered(c, w.state) && Agrees(c, w.state, db) && Stored(c, db, w.log.trades)
  }

  lemma Account(c: Setting, s: State, id: Id)
    requires id in s.orders && Registered(c, s)
    ensures s.orders[id].user in s.balances
  {
  }

  lemma ReleaseAgrees(c: Setting, s: State, id: Id, db: Db.Db)
    requires id in s.orders && Agrees(c, s, db) && Registered(c, s)
    requires Held(AccountsOn(s, s.orders[id].side), AccountOf(s.orders[id])).reserved >= s.orders[id].locked
    ensures Agrees(c, Release(s, id), db) && Registered(c, Release(s, id))
  {
    hide Agrees;
    hide Registered;
    hide Release;
    hide Held;
    hide AccountOf;
    Account(c, s, id);
    ReleaseKeepsWorth(s, id);
    ReleaseParts(s, id);
    Carry(c, s, Release(s, id), db);
  }

  lemma Carry(c: Setting, s: State, s': State, db: Db.Db)
    requires Agrees(c, s, db) && Registered(c, s) && SameWorth(s, s') && KeepsTerms(s, s')
    requires forall x :: x in s.orders ==> SameCounts(s.orders[x], s'.orders[x])
    ensures Agrees(c, s', db) && Registered(c, s')
  {
    hide Agrees;
    hide Registered;
    hide Held;
    assert forall x :: x in s.orders ==> SameTerms(s.orders[x], s'.orders[x]);
    AgreementCarries(c, s, s', db);
    KeepsTermsKeepsRegistered(c, s, s');
  }

  lemma ReleaseParts(s: State, id: Id)
    requires id in s.orders
    ensures KeepsTerms(s, Release(s, id))
    ensures forall x :: x in s.orders ==> SameCounts(s.orders[x], Release(s, id).orders[x])
  {
    hide PositionKey;
  }

  lemma MatchAgrees(c: Setting, w: World, id: Id, db: Db.Db)
    requires InStep(c, w, db) && Suitable(c) && id in w.inflight && Matchable(w.state, id) && Funded(w.state, id)
    ensures var w', db' := AfterMatch(w, id), Publish(c, db, |w.log.trades|, TradesOf(w.state, id));
            Agrees(c, w'.state, db') && Registered(c, w'.state) && Stored(c, db', w'.log.trades)
  {
    hide PositionKey;
    hide Registered;
    hide Agrees;
    hide Stored;
    hide Publish;
    hide TradesOf;
    hide TradesUnclamped;
    SearchIsFit(w, id);
    UnclampedIffFunded(w, id);
    SettledAgrees(c, w, id, db);
    MatchedWorld(w, id);
    hide AfterMatch;
    hide MatchSection;
    hide Settled;
    if Finished(Settled(w.state, id).orders[id].status) {
      ReleaseAgrees(c, Settled(w.state, id), id, Publish(c, db, |w.log.trades|, TradesOf(w.state, id)));
    }
  }

  /** Off its half and marked, but not yet released. */
  function Marked(s: State, id: Id): State
    requires id in s.orders && s.orders[id].event in s.markets
  {
    var o := s.orders[id];
    SetStatus(PutHalf(s, o.event, o.outcome, o.side, RemoveId(HalfOf(s, o.event, o.outcome, o.side), id)), id, Canceled)
  }

  lemma MarkedParts(s: State, id: Id)
    requires id in s.orders && s.orders[id].event in s.markets
    ensures var m := Marked(s, id);
            && m.balances == s.balances && m.positions == s.positions && m.markets.Keys == s.markets.Keys
            && m.orders == WithStatus(s.orders, id, Canceled)
  {
  }

  lemma MarkedAgrees(c: Setting, s: State, id: Id, db: Db.Db)
    requires id in s.orders && s.orders[id].event in s.markets && Agrees(c, s, db) && Registered(c, s)
    ensures Agrees(c, Marked(s, id), db) && Registered(c, Marked(s, id))
  {
    MarkedParts(s, id);
    hide Marked;
    hide Agrees;
    hide Registered;
    Carry(c, s, Marked(s, id), db);
  }

  lemma CancelAgrees(c: Setting, w: World, id: Id, event: Id, db: Db.Db)
    requires InStep(c, w, db) && CancelReply(w.state, id, event).Accepted?
    ensures var w', db' := AfterCancel(w, id, event), Arrive(c, db, Db.CancelMessage(id));
            Agrees(c, w'.state, db') && Registered(c, w'.state) && Stored(c, db', w'.log.trades)
  {
    hide Agrees;
    hide Registered;
    hide Release;
    hide Held;
    hide AccountOf;
    hide Stored;
    hide Safe;
    hide Arrive;
    hide ReservesExact;
    hide LocksNonNegative;
    var s, db' := w.state, Arrive(c, db, Db.CancelMessage(id));
    assert AfterCancel(w, id, event).state == Release(Marked(s, id), id);
    ReserveCovers(s, w.log.dropped, id);
    RowMarked(c, s, db, id);
    StoredIsTrades(c, db, db', w.log.trades);
    MarkedAgrees(c, s, id, db');
    MarkedReserve(s, id);
    ReleaseAgrees(c, Marked(s, id), id, db');
  }

  lemma MarkedReserve(s: State, id: Id)
    requires id in s.orders && s.orders[id].event in s.markets
    ensures var o, m := s.orders[id], Marked(s, id);
            && id in m.orders && m.orders[id].locked == o.locked
            && Held(AccountsOn(m, m.orders[id].side), AccountOf(m.orders[id]))
               == Held(AccountsOn(s, o.side), AccountOf(o))
  {
    MarkedParts(s, id);
    hide Marked;
  }

  lemma RowMarked(c: Setting, s: State, db: Db.Db, id: Id)
    requires Agrees(c, s, db) && id in s.orders
    ensures Agrees(c, s, Arrive(c, db, Db.CancelMessage(id))) && Arrive(c, db, Db.CancelMessage(id)).trades == db.trades
  {
    hide SharesAgree;
    hide CashAgrees;
    AgreementOfParts(c, s, Arrive(c, db, Db.CancelMessage(id)), db, db, Arrive(c, db, Db.CancelMessage(id)));
  }

  lemma StoredIsTrades(c: Setting, db: Db.Db, db': Db.Db, trades: seq<Trade>)
    requires Stored(c, db, trades) && db'.trades == db.trades
    ensures Stored(c, db', trades)
  {
  }

  lemma ReserveAgrees(c: Setting, s: State, o: Order, db: Db.Db)
    requires Agrees(c, s, db) && Registered(c, s) && HoldingsOk(s) && o.user in s.balances && Shape(o.id, o)
    ensures Agrees(c, Reserve(s, o).state, db) && Registered(c, Reserve(s, o).state)
  {
    hide Agrees;
    hide Registered;
    ReserveKeepsWorth(s, o);
    ReserveFreezes(s, o);
    hide Reserve;
    hide HoldingsOk;
    Carry(c, s, Reserve(s, o).state, db);
  }

  /** A refused order moves nothing; an accepted one gets its row. */
  lemma SubmitAgrees(c: Setting, w: World, o: Order, db: Db.Db)
    requires InStep(c, w, db) && o.user in w.state.balances && Storable(c, o)
    requires c.ids.users(o.user) && c.ids.events(o.event) && Shape(o.id, o) && o.filled == 0
    ensures var w' := AfterSubmit(w, o);
            var db' := if Admit(w.state, o).reply.Accepted? then Arrive(c, db, OrderEvent(o)) else db;
            Agrees(c, w'.state, db') && Registered(c, w'.state) && Stored(c, db', w'.log.trades)
  {
    hide Agrees;
    hide Registered;
    hide Stored;
    hide Reserve;
    hide Arrive;
    hide ExactOn;
    hide OrdersOk;
    hide BooksOk;
    hide HoldingsOk;
    var s := w.state;
    ReserveAgrees(c, s, o, db);
    ReserveFreezes(s, o);
    ReserveKeepsWorth(s, o);
    hide Held;
    if Admit(s, o).reply.Accepted? {
      RowInserted(c, Reserve(s, o).state, db, o, Reserve(s, o).order);
      StoredIsTrades(c, db, Arrive(c, db, OrderEvent(o)), w.log.trades);
    }
  }

  /** Exactly when an admitted order reaches the database: its ids can be read and its price is
      not negative. The engine admits market orders with any price, so this can fail. */
  lemma AdmissionAgreesIff(c: Setting, w: World, o: Order, db: Db.Db)
    requires InStep(c, w, db) && o.user in w.state.balances && !c.parses("")
    requires c.ids.users(o.user) && c.ids.events(o.event) && Shape(o.id, o) && o.filled == 0
    requires Admit(w.state, o).reply.Accepted?
    ensures Agrees(c, AfterSubmit(w, o).state, Arrive(c, db, OrderEvent(o))) <==> Storable(c, o)
  {
    if Storable(c, o) {
      SubmitAgrees(c, w, o, db);
    } else {
      RowRefused(c, w.state, o, db);
      EntersTable(w, o);
      hide Reserve;
    }
    hide AfterSubmit;
  }

  lemma EntersTable(w: World, o: Order)
    requires Admit(w.state, o).reply.Accepted?
    ensures o.id in AfterSubmit(w, o).state.orders
  {
    hide Reserve;
  }

  lemma RowRefused(c: Setting, s: State, o: Order, db: Db.Db)
    requires Agrees(c, s, db) && o.id !in s.orders && !Storable(c, o) && !c.parses("")
    ensures o.id !in Arrive(c, db, OrderEvent(o)).orders
  {
    hide PositionKey;
  }

  lemma RowInserted(c: Setting, s: State, db: Db.Db, o: Order, o': Order)
    requires Agrees(c, s, db) && Registered(c, s) && o.id !in s.orders && o.user in s.balances && o.event in s.markets
    requires o' == o.(locked := o'.locked) && o.filled == 0 && o.remaining == o.quantity > 0
    requires Storable(c, o) && c.ids.users(o.user) && c.ids.events(o.event)
    ensures var s' := s.(orders := s.orders[o.id := o']);
            Agrees(c, s', Arrive(c, db, OrderEvent(o))) && Registered(c, s')
    ensures Arrive(c, db, OrderEvent(o)).trades == db.trades
  {
    hide SharesAgree;
    hide Registered;
    var s' := s.(orders := s.orders[o.id := o']);
    var db' := db.(orders := db.orders[o.id := RowOf(o)]);
    assert Arrive(c, db, OrderEvent(o)) == db';
    hide CashAgrees;
    hide Arrive;
    RegisteredWith(c, s, o');
    FillsWith(s.orders, db, o');
    hide FillsAgree;
    AgreementOfParts(c, s', db', db, db, db');
  }

  lemma RegisteredWith(c: Setting, s: State, o: Order)
    requires Registered(c, s) && o.user in s.balances && o.event in s.markets
    requires Usable(c, o.id) && Usable(c, o.user) && Usable(c, o.event) && c.ids.users(o.user) && c.ids.events(o.event)
    ensures Registered(c, s.(orders := s.orders[o.id := o]))
  {
  }

  lemma FillsWith(orders: map<Id, Order>, db: Db.Db, o: Order)
    requires FillsAgree(orders, db) && SameFill(o, RowOf(o))
    ensures FillsAgree(orders[o.id := o], db.(orders := db.orders[o.id := RowOf(o)]))
  {
  }

  lemma StepAgrees(c: Setting, w: World, step: Step, db: Db.Db)
    requires InStep(c, w, db) && Suitable(c) && Orderly(c, w, step)
    ensures var w', db' := Next(w, step), Project(c, db, w, step);
            Agrees(c, w'.state, db') && Registered(c, w'.state) && Stored(c, db', w'.log.trades)
  {
    hide PositionKey;
    match step
    case CreateEvent(event) =>
      EventAgrees(c, w, event, db);
    case CreateUser(user) =>
      UserAgrees(c, w, user, db);
    case Submit(request, generated) =>
      ValidateShapes(request, generated);
      ValidateNames(request, generated);
      hide Validate;
      hide Admit;
      hide InStep;
      if Validate(request, generated).Valid? {
        SubmitAgrees(c, w, Validate(request, generated).order, db);
      }
    case Match(id) =>
      if id in w.inflight && id in w.state.orders {
        if Matchable(w.state, id) {
          MatchAgrees(c, w, id, db);
        } else {
          SkippedMatch(w, id);
        }
      }
      hide AfterMatch;
      hide TradesOf;
    case Cancel(id, event) =>
      if CancelReply(w.state, id, event).Accepted? {
        CancelAgrees(c, w, id, event, db);
      }
  }

  lemma ValidateNames(r: Request, generated: Id)
    ensures var c := Validate(r, generated);
            c.Valid? ==> c.order.user != "" && c.order.event != "" && c.order.id == if r.orderId == ""
              then generated else r.orderId
  {
  }

  lemma EventAgrees(c: Setting, w: World, event: Id, db: Db.Db)
    requires InStep(c, w, db)
    ensures var w', db' := Next(w, CreateEvent(event)), Project(c, db, w, CreateEvent(event));
            Agrees(c, w'.state, db') && Registered(c, w'.state) && Stored(c, db', w'.log.trades)
  {
    hide SharesAgree;
    hide CashAgrees;
    hide FillsAgree;
    hide PositionKey;
    hide Safe;
    hide ExactOn;
    var w', db' := Next(w, CreateEvent(event)), Project(c, db, w, CreateEvent(event));
    AgreementOfParts(c, w'.state, db', db, db, db);
    StoredIsTrades(c, db, db', w.log.trades);
  }

  lemma AccountOpened(c: Setting, s: State, user: Id, db: Db.Db)
    requires Agrees(c, s, db) && Registered(c, s) && user !in s.balances
    ensures var s', db' := PutBalance(s, user, Holding(STARTING_BALANCE, 0)),
      db.(users := db.users[user := STARTING_BALANCE]);
            Agrees(c, s', db') && Registered(c, s')
  {
    hide PositionKey;
    var s', db' := PutBalance(s, user, Holding(STARTING_BALANCE, 0)), db.(users := db.users[user := STARTING_BALANCE]);
    hide SharesAgree;
    hide FillsAgree;
    AgreementOfParts(c, s', db', db', db, db);
    assert KeepsTerms(s, s');
    KeepsTermsKeepsRegistered(c, s, s');
  }

  lemma UserAgrees(c: Setting, w: World, user: Id, db: Db.Db)
    requires InStep(c, w, db)
    ensures var w', db' := Next(w, CreateUser(user)), Project(c, db, w, CreateUser(user));
            Agrees(c, w'.state, db') && Registered(c, w'.state) && Stored(c, db', w'.log.trades)
  {
    hide Safe;
    hide ExactOn;
    hide Registered;
    hide Stored;
    hide SharesAgree;
    hide FillsAgree;
    if user != "" && user !in w.state.balances {
      AccountOpened(c, w.state, user, db);
      StoredIsTrades(c, db, Project(c, db, w, CreateUser(user)), w.log.trades);
    }
  }

  // ---------------------------------------------------------------- every run

  /** On every orderly run, delivering the emitted events in order leaves each user a database
      balance of exactly available plus reserved cash, the engine's shares and the engine's
      fills; and every trade is stored, so the balance guard refused none. */
  lemma {:induction false} ProjectionAgrees(c: Setting, w: World, db: Db.Db, steps: seq<Step>)
    requires Seeded(w) && db.trades == map[] && Agrees(c, w.state, db) && Suitable(c) && OrderlyRun(c, w, steps)
    ensures InStep(c, Run(w, steps), ProjectRun(c, db, w, steps))
  {
    if steps == [] {
      SeededIsExact(w, Buy);
      SeededIsExact(w, Sell);
      RunIsSafe(w, steps);
    } else {
      var before, last := steps[..|steps| - 1], steps[|steps| - 1];
      ProjectionAgrees(c, w, db, before);
      StepInStep(c, Run(w, before), last, ProjectRun(c, db, w, before));
      hide Project;
      hide Next;
      hide InStep;
    }
  }

  lemma StepInStep(c: Setting, w: World, step: Step, db: Db.Db)
    requires InStep(c, w, db) && Suitable(c) && Orderly(c, w, step)
    ensures InStep(c, Next(w, step), Project(c, db, w, step))
  {
    hide PositionKey;
    hide Project;
    hide Next;
    hide Agrees;
    hide Registered;
    hide Stored;
    hide Safe;
    hide ExactOn;
    StepKeepsSafe(w, step);
    StepKeepsExact(w, step, Buy);
    StepKeepsExact(w, step, Sell);
    StepAgrees(c, w, step, db);
  }
}
