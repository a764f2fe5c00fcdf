/** The engine as a state machine.

    Creating an order is two critical sections, admission and matching, with the emission of
    the order event between them; canceling is a third. Partition workers interleave these
    sections over one shared state, so each section is one atomic step here and a run is any
    sequence of steps. */
module Machine {
  import opened Types
  import opened Ledger
  import opened Matching
  import opened Books

  datatype Error =
    | QuantityNotPositive | EventRequired | UserRequired | InvalidSide | InvalidOutcome
    | PriceNotPositive | InvalidType | EventNotFound | NoFunds | NoShares
    | OrderIdRequired | OrderNotFound | WrongEvent | NotCancelable

  datatype Reply = Accepted | Duplicate | Failed(error: Error)

  // ---------------------------------------------------------------- validation

  datatype Request = Request(
    orderId: Id, event: Id, user: Id, orderType: string, outcome: string, side: string,
    quantity: int, price: int)

  datatype Checked = Valid(order: Order) | Invalid(error: Error)

  /** Builds a pending order from a request; a request without an id receives a generated one. */
  function Validate(r: Request, generated: Id): Checked {
    if r.quantity <= 0 then Invalid(QuantityNotPositive)
    else if r.event == "" then Invalid(EventRequired)
    else if r.user == "" then Invalid(UserRequired)
    else if r.side != "BUY" && r.side != "SELL" then Invalid(InvalidSide)
    else if r.outcome != "YES" && r.outcome != "NO" then Invalid(InvalidOutcome)
    else if r.orderType == "LIMIT" && r.price <= 0 then Invalid(PriceNotPositive)
    else if r.orderType != "LIMIT" && r.orderType != "MARKET" then Invalid(InvalidType)
    else Valid(Order(
      if r.orderId == "" then generated else r.orderId, r.event, r.user,
      if r.orderType == "LIMIT" then LimitOrder else MarketOrder,
      if r.outcome == "YES" then Yes else No,
      if r.side == "BUY" then Buy else Sell,
      r.quantity, 0, r.quantity, r.price, Pending, 0))
  }

  // ---------------------------------------------------------------- critical sections

  datatype Admission = Admission(state: State, reply: Reply)

  /** First section: refuse duplicates and unknown events, reserve, and enter the order table. */
  function Admit(s: State, o: Order): Admission {
    if o.id in s.orders then Admission(s, Duplicate)
    else if o.event !in s.markets then Admission(s, Failed(EventNotFound))
    else
      match Reserve(s, o)
      case Refused(s', reason) =>
        Admission(s', Failed(if reason.InsufficientFunds? then NoFunds else NoShares))
      case Granted(s', o') => Admission(s'.(orders := s'.orders[o.id := o']), Accepted)
  }

  function SetStatus(s: State, id: Id, status: Status): State
    requires id in s.orders
  {
    s.(orders := s.orders[id := s.orders[id].(status := status)])
  }

  function HalfOf(s: State, event: Id, outcome: Outcome, side: Side): seq<Id>
    requires event in s.markets
  {
    s.markets[event].Of(outcome).Half(side)
  }

  function PutHalf(s: State, event: Id, outcome: Outcome, side: Side, ids: seq<Id>): State
    requires event in s.markets
  {
    var m := s.markets[event];
    s.(markets := s.markets[event := m.With(outcome, m.Of(outcome).WithHalf(side, ids))])
  }

  /** Does the unfilled part go onto the book? */
  predicate Rests(o: Order) { o.remaining != 0 && o.kind.LimitOrder? }

  function ConcludedStatus(o: Order): Status {
    if o.remaining == 0 then Filled
    else if o.kind.MarketOrder? then Canceled
    else if o.filled > 0 then Partial
    else Pending
  }

  /** The status after matching, and the book if the order rests. */
  function Conclude(s: State, id: Id): (r: State)
    requires id in s.orders && s.orders[id].event in s.markets
    ensures r.orders.Keys == s.orders.Keys
  {
    var o := s.orders[id];
    var s' := SetStatus(s, id, ConcludedStatus(o));
    if Rests(o) then
      PutHalf(s', o.event, o.outcome, o.side,
              Insert(s.orders, o.side, HalfOf(s, o.event, o.outcome, o.side), id))
    else s'
  }

  predicate Finished(status: Status) { status.Filled? || status.Canceled? }

  function ReleaseIfFinished(s: State, id: Id): State
    requires id in s.orders
  {
    if Finished(s.orders[id].status) then Release(s, id) else s
  }

  /** Will matching `id` search the book? */
  predicate Matchable(s: State, id: Id) {
    id in s.orders && !s.orders[id].status.Canceled? && s.orders[id].event in s.markets
  }

  function Search(s: State, id: Id): (r: Matched)
    requires Matchable(s, id)
    ensures r.orders.Keys == s.orders.Keys
  {
    var o := s.orders[id];
    Rescan(s.orders, HalfOf(s, o.event, o.outcome, Opposite(o.side)), id)
  }

  /** An execution never changes what an order asks for. */
  lemma {:induction false} RescanKeepsTerms(orders: map<Id, Order>, ids: seq<Id>, taker: Id)
    requires taker in orders
    ensures var r := Rescan(orders, ids, taker);
            forall x :: x in orders ==> x in r.orders && SameTerms(orders[x], r.orders[x])
    decreases Max(orders[taker].remaining, 0)
  {
    if orders[taker].remaining > 0 {
      var front := DropStale(orders, ids);
      var i := FirstEligible(orders, front, orders[taker]);
      if i >= 0 {
        var one := Execute(orders, front, taker, i);
        RescanKeepsTerms(one.orders, one.ids, taker);
      }
    }
  }

  predicate SameTerms(a: Order, b: Order) {
    b == a.(filled := b.filled, remaining := b.remaining, status := b.status, locked := b.locked)
  }

  /** Orders and book half as the search leaves them. */
  function Searched(s: State, id: Id): (r: State)
    requires Matchable(s, id)
    ensures r.orders.Keys == s.orders.Keys && r.orders[id].event in r.markets
  {
    var o, m := s.orders[id], Search(s, id);
    RescanKeepsTerms(s.orders, HalfOf(s, o.event, o.outcome, Opposite(o.side)), id);
    PutHalf(s.(orders := m.orders), o.event, o.outcome, Opposite(o.side), m.ids)
  }

  function TradesOf(s: State, id: Id): seq<Trade>
    requires id in s.orders
  {
    if Matchable(s, id) then Search(s, id).trades else []
  }

  /** Concluded and settled: every trade of the search is on the ledger. */
  function Settled(s: State, id: Id): (r: State)
    requires Matchable(s, id)
    ensures r.orders.Keys == s.orders.Keys
  {
    SettleAll(Conclude(Searched(s, id), id), TradesOf(s, id))
  }

  /** Second section: match, conclude, settle every trade, and release what a finished order
      no longer needs. */
  function MatchSection(s: State, id: Id): State
    requires id in s.orders
  {
    if s.orders[id].status.Canceled? then s
    else if s.orders[id].event !in s.markets then SetStatus(s, id, Rejected)
    else ReleaseIfFinished(Settled(s, id), id)
  }

  function RemoveId(ids: seq<Id>, id: Id): seq<Id> {
    if ids == [] then []
    else if ids[0] == id then ids[1..]
    else [ids[0]] + RemoveId(ids[1..], id)
  }

  function CancelReply(s: State, id: Id, event: Id): Reply {
    if id == "" then Failed(OrderIdRequired)
    else if id !in s.orders then Failed(OrderNotFound)
    else if event != "" && s.orders[id].event != event then Failed(WrongEvent)
    else if !s.orders[id].Active() then Failed(NotCancelable)
    else if s.orders[id].event !in s.markets then Failed(EventNotFound)
    else Accepted
  }

  /** Third section: take the order off its book, mark it canceled, and release its lock. */
  function CancelSection(s: State, id: Id, event: Id): State {
    if !CancelReply(s, id, event).Accepted? then s
    else
      var o := s.orders[id];
      var s' := PutHalf(s, o.event, o.outcome, o.side, RemoveId(HalfOf(s, o.event, o.outcome, o.side), id));
      Release(SetStatus(s', id, Canceled), id)
  }

  function OpenMarket(s: State, event: Id): State {
    if event == "" || event in s.markets then s
    else s.(markets := s.markets[event := NEW_MARKET])
  }

  function OpenUser(s: State, user: Id): State {
    if user == "" then s else OpenAccount(s, user)
  }

  /** The order event could not be emitted: the order leaves the table, its reservation stays. */
  function DropOrder(s: State, id: Id): State {
    s.(orders := s.orders - {id})
  }

  // ---------------------------------------------------------------- clamp shortfalls

  /** The amount by which a debit exceeds the reserve it is taken from. */
  function Shortage(h: Holding, amount: int): int { Max(amount - h.reserved, 0) }

  function HoldingOf(balances: map<Id, Holding>, user: Id): Holding {
    if user in balances then balances[user] else ZERO
  }

  function SettleShortfall(balances: map<Id, Holding>, trades: seq<Trade>): int
    decreases |trades|
  {
    if trades == [] then 0
    else Shortage(HoldingOf(balances, trades[0].buyer), trades[0].Cost())
         + SettleShortfall(SettleCash(balances, trades[0]), trades[1..])
  }

  function ReleaseShortfall(s: State, id: Id): int
    requires id in s.orders
  {
    var o := s.orders[id];
    if o.locked > 0 && o.side.Buy? then Shortage(HoldingOf(s.balances, o.user), o.locked) else 0
  }

  // ---------------------------------------------------------------- runs

  /** What happened so far. It steers nothing; the theorems are stated with it. `arrival` is
      the order in which orders were put on a book, `closed` the tabled orders whose lock was
      released, `dropped` the orders lost to a failed emission. */
  datatype Log = Log(
    trades: seq<Trade>, arrival: map<Id, nat>, clock: nat, closed: set<Id>,
    dropped: seq<Order>, grants: nat, shortfall: int)

  /** `inflight` holds the orders between admission and matching. */
  datatype World = World(state: State, inflight: set<Id>, log: Log)

  datatype Step =
    | CreateEvent(event: Id)
    | CreateUser(user: Id)
    | Submit(request: Request, generated: Id)
    | Match(id: Id)
    | LoseEmit(id: Id)
    | Cancel(id: Id, event: Id)

  function AfterSubmit(w: World, o: Order): World {
    var a := Admit(w.state, o);
    w.(state := a.state, inflight := if a.reply.Accepted? then w.inflight + {o.id} else w.inflight)
  }

  function AfterMatch(w: World, id: Id): World
    requires id in w.state.orders
  {
    var s := w.state;
    var s' := MatchSection(s, id);
    var log := w.log;
    if !Matchable(s, id) then w.(state := s', inflight := w.inflight - {id})
    else
      var trades := TradesOf(s, id);
      var settled := Settled(s, id);
      var finished := Finished(settled.orders[id].status);
      World(s', w.inflight - {id}, log.(
        trades := log.trades + trades,
        arrival := if finished then log.arrival else log.arrival[id := log.clock],
        clock := log.clock + 1,
        closed := if finished then log.closed + {id} else log.closed,
        shortfall := log.shortfall + SettleShortfall(s.balances, trades)
                     + (if finished then ReleaseShortfall(settled, id) else 0)))
  }

  function AfterCancel(w: World, id: Id, event: Id): World {
    if !CancelReply(w.state, id, event).Accepted? then w
    else w.(state := CancelSection(w.state, id, event),
            log := w.log.(closed := w.log.closed + {id},
                          shortfall := w.log.shortfall + ReleaseShortfall(w.state, id)))
  }

  function AfterUser(w: World, user: Id): World {
    w.(state := OpenUser(w.state, user),
       log := w.log.(grants := w.log.grants + if user != "" && user !in w.state.balances then 1 else 0))
  }

  function AfterLoss(w: World, id: Id): World
    requires id in w.state.orders
  {
    World(DropOrder(w.state, id), w.inflight - {id},
          w.log.(dropped := w.log.dropped + [w.state.orders[id]], closed := w.log.closed - {id}))
  }

  /** One atomic step. A step that is not enabled changes nothing. */
  function Next(w: World, step: Step): World {
    match step
    case CreateEvent(event) => w.(state := OpenMarket(w.state, event))
    case CreateUser(user) => AfterUser(w, user)
    case Submit(request, generated) =>
      (match Validate(request, generated)
       case Invalid(_) => w
       case Valid(o) => AfterSubmit(w, o))
    case Match(id) => if id in w.inflight && id in w.state.orders then AfterMatch(w, id) else w
    case LoseEmit(id) => if id in w.inflight && id in w.state.orders then AfterLoss(w, id) else w
    case Cancel(id, event) => AfterCancel(w, id, event)
  }

  function Run(w: World, steps: seq<Step>): World {
    if steps == [] then w else Next(Run(w, steps[..|steps| - 1]), steps[|steps| - 1])
  }

  const EMPTY_LOG := Log([], map[], 0, {}, [], 0, 0)

  /** Starting points: nothing is reserved; cash and share holdings may be seeded. */
  ghost predicate Seeded(w: World) {
    && w.state.orders == map[] && w.state.markets == map[] && w.inflight == {} && w.log == EMPTY_LOG
    && (forall u :: u in w.state.balances ==> w.state.balances[u].reserved == 0 <= w.state.balances[u].available)
    && (forall k :: k in w.state.positions ==> w.state.positions[k].reserved == 0 <= w.state.positions[k].available)
  }
}
