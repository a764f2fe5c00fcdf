/** Matching one incoming order against the opposite half of a book.

    `Rescan` follows the engine's loop, which after every execution starts again from the
    front of the book. `Sweep` is the reference: one pass from left to right. */
module Matching {
  import opened Types

  /** A reference that does not resolve reads as a dead order. `BookSafety` proves that no
      reachable book holds one. */
  const DANGLING := Order("", "", "", LimitOrder, Yes, Buy, 0, 0, 0, 0, Rejected, 0)

  function Lookup(orders: map<Id, Order>, id: Id): Order {
    if id in orders then orders[id] else DANGLING
  }

  function Resolve(orders: map<Id, Order>, ids: seq<Id>): seq<Order> {
    seq(|ids|, i requires 0 <= i < |ids| => Lookup(orders, ids[i]))
  }

  /** Skipped by the search for a counterparty. */
  predicate Dead(o: Order) {
    o.status.Filled? || o.status.Canceled? || o.status.Rejected? || o.remaining <= 0
  }

  /** Discarded when it reaches the front of the book. */
  predicate Stale(o: Order) {
    o.status.Filled? || o.status.Canceled? || o.remaining <= 0
  }

  predicate CanMatch(incoming: Order, resting: Order) {
    && incoming.outcome == resting.outcome
    && (incoming.kind.MarketOrder?
        || (if incoming.side.Buy? then resting.price <= incoming.price
            else resting.price >= incoming.price))
  }

  predicate Eligible(incoming: Order, resting: Order) {
    !Dead(resting) && resting.user != incoming.user && CanMatch(incoming, resting)
  }

  // ---------------------------------------------------------------- one execution

  function BuildTrade(taker: Order, maker: Order, quantity: int): Trade {
    Trade(taker.id, maker.id, taker.event, taker.outcome,
          if taker.side.Buy? then taker.user else maker.user,
          if taker.side.Buy? then maker.user else taker.user,
          taker.side, quantity, maker.price)
  }

  function FillTaker(o: Order, quantity: int): Order {
    o.(remaining := o.remaining - quantity, filled := o.filled + quantity)
  }

  function FillMaker(o: Order, quantity: int): Order {
    if o.remaining - quantity <= 0
    then o.(remaining := 0, filled := o.filled + quantity, status := Filled)
    else o.(remaining := o.remaining - quantity, filled := o.filled + quantity, status := Partial)
  }

  function RemoveAt<T>(s: seq<T>, i: nat): seq<T>
    requires i < |s|
  {
    s[..i] + s[i + 1..]
  }

  // ---------------------------------------------------------------- the engine's loop

  /** Index of the first order the incoming one can trade with, or -1. */
  function FirstEligible(orders: map<Id, Order>, ids: seq<Id>, incoming: Order): (i: int)
    ensures -1 <= i < |ids|
    ensures i >= 0 ==> Eligible(incoming, Lookup(orders, ids[i]))
    ensures forall j :: 0 <= j < (if i < 0 then |ids| else i) ==> !Eligible(incoming, Lookup(orders, ids[j]))
  {
    if ids == [] then -1
    else if Eligible(incoming, Lookup(orders, ids[0])) then 0
    else
      var i := FirstEligible(orders, ids[1..], incoming);
      if i < 0 then -1 else i + 1
  }

  function DropStale(orders: map<Id, Order>, ids: seq<Id>): seq<Id> {
    if ids != [] && Stale(Lookup(orders, ids[0])) then DropStale(orders, ids[1..]) else ids
  }

  /** Orders, book half and trades while matching. */
  datatype Matched = Matched(orders: map<Id, Order>, ids: seq<Id>, trades: seq<Trade>)

  /** Executes the taker against the order at index `i`. */
  function Execute(orders: map<Id, Order>, ids: seq<Id>, taker: Id, i: nat): Matched
    requires taker in orders && i < |ids|
  {
    var t, m := orders[taker], Lookup(orders, ids[i]);
    var q := Min(t.remaining, m.remaining);
    var m' := FillMaker(m, q);
    Matched(orders[taker := FillTaker(t, q)][ids[i] := m'],
            if m'.remaining == 0 then RemoveAt(ids, i) else ids,
            [BuildTrade(t, m, q)])
  }

  /** The loop of the engine: drop stale orders at the front, find the first counterparty
      from the front, execute, and start over. */
  function Rescan(orders: map<Id, Order>, ids: seq<Id>, taker: Id): (r: Matched)
    requires taker in orders
    ensures r.orders.Keys == orders.Keys
    decreases Max(orders[taker].remaining, 0)
  {
    if orders[taker].remaining <= 0 then Matched(orders, ids, [])
    else
      var front := DropStale(orders, ids);
      var i := FirstEligible(orders, front, orders[taker]);
      if i < 0 then Matched(orders, front, [])
      else
        var one := Execute(orders, front, taker, i);
        var rest := Rescan(one.orders, one.ids, taker);
        Matched(rest.orders, rest.ids, one.trades + rest.trades)
  }

  // ---------------------------------------------------------------- the reference

  datatype Swept = Swept(taker: Order, left: seq<Order>, trades: seq<Trade>)

  /** One pass over the resting orders: take what is eligible, keep the rest. */
  function Sweep(taker: Order, resting: seq<Order>): Swept
    decreases |resting|
  {
    if resting == [] || taker.remaining <= 0 then Swept(taker, resting, [])
    else
      var m := resting[0];
      if !Eligible(taker, m) then
        var rest := Sweep(taker, resting[1..]);
        Swept(rest.taker, [m] + rest.left, rest.trades)
      else
        var q := Min(taker.remaining, m.remaining);
        var m' := FillMaker(m, q);
        var rest := Sweep(FillTaker(taker, q), resting[1..]);
        Swept(rest.taker, (if m'.remaining == 0 then [] else [m']) + rest.left,
              [BuildTrade(taker, m, q)] + rest.trades)
  }
}
