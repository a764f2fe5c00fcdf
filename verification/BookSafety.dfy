/** The books in every reachable state: price-time order, only live limit orders, each exactly
    once, and no crossing except by a user's own orders. */
module BookSafety {
  import opened Types
  import opened Ledger
  import opened Matching
  import opened Priority
  import opened Books
  import opened Machine
  import opened Fills
  import opened Lifecycle

  /** The part of a world the books depend on besides the order table. */
  datatype Shelf = Shelf(inflight: set<Id>, arrival: map<Id, nat>, clock: nat)

  function ShelfOf(w: World): Shelf { Shelf(w.inflight, w.log.arrival, w.log.clock) }

  /** A live limit order of this half, with its place in the arrival order. */
  predicate RestingOk(orders: map<Id, Order>, sh: Shelf, e: Id, o: Outcome, side: Side, id: Id) {
    && id in orders && id !in sh.inflight && id in sh.arrival && sh.arrival[id] < sh.clock
    && orders[id].event == e && orders[id].outcome == o && orders[id].side == side
    && orders[id].kind.LimitOrder? && orders[id].Active() && orders[id].remaining > 0
  }

  ghost predicate HalfOk(orders: map<Id, Order>, sh: Shelf, e: Id, o: Outcome, side: Side, ids: seq<Id>) {
    && (forall x :: x in ids ==> RestingOk(orders, sh, e, o, side, x))
    && InPriority(orders, sh.arrival, side, ids)
  }

  /** A bid at or above an ask belongs to the same user as that ask. */
  ghost predicate OnlySelfCrossed(orders: map<Id, Order>, bids: seq<Id>, asks: seq<Id>) {
    forall b, a :: b in bids && a in asks && PriceOf(orders, b) >= PriceOf(orders, a)
                   ==> Lookup(orders, b).user == Lookup(orders, a).user
  }

  ghost predicate BookOk(orders: map<Id, Order>, sh: Shelf, e: Id, o: Outcome, book: Book) {
    && HalfOk(orders, sh, e, o, Buy, book.bids)
    && HalfOk(orders, sh, e, o, Sell, book.asks)
    && OnlySelfCrossed(orders, book.bids, book.asks)
  }

  ghost predicate MarketsOk(w: World) {
    forall e, o :: e in w.state.markets ==> BookOk(w.state.orders, ShelfOf(w), e, o, w.state.markets[e].Of(o))
  }

  /** Every matched order that is still live is on its book. */
  ghost predicate Listed(w: World) {
    forall x :: x in w.state.orders && x !in w.inflight && w.state.orders[x].Active() ==>
      var r := w.state.orders[x];
      r.event in w.state.markets && x in HalfOf(w.state, r.event, r.outcome, r.side)
  }

  ghost predicate BooksOk(w: World) { MarketsOk(w) && Listed(w) }

  // ---------------------------------------------------------------- framing

  /** Nothing the book depends on changed for its entries. */
  ghost predicate Untouched(orders: map<Id, Order>, sh: Shelf, orders': map<Id, Order>, sh': Shelf, ids: seq<Id>) {
    forall x :: x in ids ==>
      && (x in orders ==> x in orders' && SameButLock(orders[x], orders'[x]))
      && (x !in sh.inflight ==> x !in sh'.inflight)
      && (x in sh.arrival && sh.arrival[x] < sh.clock ==>
            x in sh'.arrival && sh'.arrival[x] == sh.arrival[x] < sh'.clock)
  }

  lemma HalfFrame(
    orders: map<Id, Order>, sh: Shelf, orders': map<Id, Order>, sh': Shelf, e: Id, o: Outcome, side: Side, ids: seq<Id>)
    requires HalfOk(orders, sh, e, o, side, ids) && Untouched(orders, sh, orders', sh', ids)
    ensures HalfOk(orders', sh', e, o, side, ids)
    ensures forall x :: x in ids ==> x in orders && x in orders' && SameButLock(orders[x], orders'[x])
  {
    forall x | x in ids
      ensures RestingOk(orders', sh', e, o, side, x) && x in orders && SameButLock(orders[x], orders'[x])
    {
      assert RestingOk(orders, sh, e, o, side, x);
    }
    forall i, j | 0 <= i < j < |ids| ensures Ahead(orders', sh'.arrival, side, ids[i], ids[j]) {
      assert Ahead(orders, sh.arrival, side, ids[i], ids[j]);
      assert ids[i] in ids && ids[j] in ids;
      assert RestingOk(orders, sh, e, o, side, ids[i]) && RestingOk(orders, sh, e, o, side, ids[j]);
    }
  }

  lemma BookFrame(orders: map<Id, Order>, sh: Shelf, orders': map<Id, Order>, sh': Shelf, e: Id, o: Outcome, book: Book)
    requires BookOk(orders, sh, e, o, book)
    requires Untouched(orders, sh, orders', sh', book.bids) && Untouched(orders, sh, orders', sh', book.asks)
    ensures BookOk(orders', sh', e, o, book)
  {
    HalfFrame(orders, sh, orders', sh', e, o, Buy, book.bids);
    HalfFrame(orders, sh, orders', sh', e, o, Sell, book.asks);
  }

  lemma OthersUntouched(w: World, w': World, e: Id, o: Outcome, changed: set<Id>)
    requires e in w.state.markets && BookOk(w.state.orders, ShelfOf(w), e, o, w.state.markets[e].Of(o))
    requires forall x :: x in w.state.orders && x !in changed ==>
      x in w'.state.orders && SameButLock(w.state.orders[x], w'.state.orders[x])
    requires forall x :: x !in w.inflight && x !in changed ==> x !in w'.inflight
    requires forall x :: x in w.log.arrival && x !in changed ==>
      x in w'.log.arrival && w'.log.arrival[x] == w.log.arrival[x]
    requires w.log.clock <= w'.log.clock
    requires forall x :: x in changed ==> x !in w.state.markets[e].Of(o).bids && x !in w.state.markets[e].Of(o).asks
    ensures BookOk(w'.state.orders, ShelfOf(w'), e, o, w.state.markets[e].Of(o))
  {
    BookFrame(w.state.orders, ShelfOf(w), w'.state.orders, ShelfOf(w'), e, o, w.state.markets[e].Of(o));
  }

  /** An order on no half of the book: in flight, or of another event, outcome or side. */
  lemma NotOnHalf(orders: map<Id, Order>, sh: Shelf, e: Id, o: Outcome, side: Side, ids: seq<Id>, x: Id)
    requires HalfOk(orders, sh, e, o, side, ids)
    requires x !in orders || x in sh.inflight || orders[x].event != e || orders[x].outcome != o
      || orders[x].side != side
    ensures x !in ids
  {
  }

  // ---------------------------------------------------------------- steps without matching

  lemma OpenMarketKeepsBooks(w: World, event: Id)
    requires BooksOk(w)
    ensures BooksOk(w.(state := OpenMarket(w.state, event)))
  {
    var w' := w.(state := OpenMarket(w.state, event));
    forall e, o | e in w'.state.markets ensures BookOk(w'.state.orders, ShelfOf(w'), e, o, w'.state.markets[e].Of(o)) {
      if e in w.state.markets {
        assert BookOk(w.state.orders, ShelfOf(w), e, o, w.state.markets[e].Of(o));
      }
    }
  }

  lemma SubmitKeepsBooks(w: World, o: Order)
    requires BooksOk(w) && o.status.Pending?
    ensures BooksOk(AfterSubmit(w, o))
  {
    var w' := AfterSubmit(w, o);
    assert w'.state.markets == w.state.markets;
    hide PositionKey;
    hide InPriority;
    hide OnlySelfCrossed;
    forall e, oc | e in w'.state.markets
      ensures BookOk(w'.state.orders, ShelfOf(w'), e, oc, w'.state.markets[e].Of(oc))
    {
      var book := w.state.markets[e].Of(oc);
      assert BookOk(w.state.orders, ShelfOf(w), e, oc, book);
      if Admit(w.state, o).reply.Accepted? {
        NotOnHalf(w.state.orders, ShelfOf(w), e, oc, Buy, book.bids, o.id);
        NotOnHalf(w.state.orders, ShelfOf(w), e, oc, Sell, book.asks, o.id);
        OthersUntouched(w, w', e, oc, {o.id});
      }
    }
  }

  lemma LossKeepsBooks(w: World, id: Id)
    requires BooksOk(w) && id in w.inflight && id in w.state.orders
    ensures BooksOk(AfterLoss(w, id))
  {
    var w' := AfterLoss(w, id);
    forall e, oc | e in w'.state.markets
      ensures BookOk(w'.state.orders, ShelfOf(w'), e, oc, w'.state.markets[e].Of(oc))
    {
      var book := w.state.markets[e].Of(oc);
      assert BookOk(w.state.orders, ShelfOf(w), e, oc, book);
      NotOnHalf(w.state.orders, ShelfOf(w), e, oc, Buy, book.bids, id);
      NotOnHalf(w.state.orders, ShelfOf(w), e, oc, Sell, book.asks, id);
      OthersUntouched(w, w', e, oc, {id});
    }
  }

  // ---------------------------------------------------------------- canceling

  lemma {:induction false} RemoveIdRemoves(
    orders: map<Id, Order>, arrival: map<Id, nat>, side: Side, ids: seq<Id>, id: Id)
    requires InPriority(orders, arrival, side, ids)
    ensures InPriority(orders, arrival, side, RemoveId(ids, id))
    ensures forall x :: x in RemoveId(ids, id) <==> x in ids && x != id
  {
    PriorityIsDistinct(orders, arrival, side, ids);
    if ids != [] {
      var x, rest := ids[0], ids[1..];
      assert ids == [x] + rest;
      forall y | y in rest ensures y != x && Ahead(orders, arrival, side, x, y) {
        var k :| 0 <= k < |rest| && rest[k] == y;
        assert y == ids[k + 1];
      }
      if x != id {
        RemoveIdRemoves(orders, arrival, side, rest, id);
        ConsInPriority(orders, arrival, side, x, RemoveId(rest, id));
      }
    }
  }

  lemma RemoveKeepsHalf(orders: map<Id, Order>, sh: Shelf, e: Id, o: Outcome, side: Side, ids: seq<Id>, id: Id)
    requires HalfOk(orders, sh, e, o, side, ids)
    ensures HalfOk(orders, sh, e, o, side, RemoveId(ids, id))
    ensures forall x :: x in RemoveId(ids, id) <==> x in ids && x != id
  {
    RemoveIdRemoves(orders, sh.arrival, side, ids, id);
  }

  /** The book of the canceled order, without it. */
  lemma CancelKeepsBook(orders: map<Id, Order>, sh: Shelf, book: Book, id: Id, orders': map<Id, Order>)
    requires id in orders && BookOk(orders, sh, orders[id].event, orders[id].outcome, book)
    requires orders.Keys == orders'.Keys && forall x :: x in orders && x != id ==> orders'[x] == orders[x]
    ensures var o := orders[id];
            BookOk(orders', sh, o.event, o.outcome, book.WithHalf(o.side, RemoveId(book.Half(o.side), id)))
  {
    var o := orders[id];
    var book' := book.WithHalf(o.side, RemoveId(book.Half(o.side), id));
    RemoveKeepsHalf(orders, sh, o.event, o.outcome, o.side, book.Half(o.side), id);
    NotOnHalf(orders, sh, o.event, o.outcome, Opposite(o.side), book.Half(Opposite(o.side)), id);
    assert BookOk(orders, sh, o.event, o.outcome, book');
    BookFrame(orders, sh, orders', sh, o.event, o.outcome, book');
  }

  /** Canceling changes one order and takes it off its own half. */
  lemma CancelParts(w: World, id: Id, event: Id)
    requires CancelReply(w.state, id, event).Accepted?
    ensures var w', o := AfterCancel(w, id, event), w.state.orders[id];
            && ShelfOf(w') == ShelfOf(w)
            && w'.state.orders.Keys == w.state.orders.Keys
            && (forall x :: x in w.state.orders && x != id ==> w'.state.orders[x] == w.state.orders[x])
            && w'.state.orders[id] == o.(status := Canceled, locked := w'.state.orders[id].locked)
            && w'.state.markets == PutHalf(w.state, o.event, o.outcome, o.side,
               RemoveId(HalfOf(w.state, o.event, o.outcome, o.side), id)).markets
  {
  }

  lemma CancelKeepsMarkets(w: World, id: Id, event: Id)
    requires BooksOk(w) && CancelReply(w.state, id, event).Accepted?
    ensures MarketsOk(AfterCancel(w, id, event))
  {
    var w' := AfterCancel(w, id, event);
    CancelParts(w, id, event);
    var r := w.state.orders[id];
    forall e, oc | e in w'.state.markets
      ensures BookOk(w'.state.orders, ShelfOf(w'), e, oc, w'.state.markets[e].Of(oc))
    {
      var book := w.state.markets[e].Of(oc);
      assert BookOk(w.state.orders, ShelfOf(w), e, oc, book);
      if e == r.event && oc == r.outcome {
        CancelKeepsBook(w.state.orders, ShelfOf(w), book, id, w'.state.orders);
      } else {
        NotOnHalf(w.state.orders, ShelfOf(w), e, oc, Buy, book.bids, id);
        NotOnHalf(w.state.orders, ShelfOf(w), e, oc, Sell, book.asks, id);
        OthersUntouched(w, w', e, oc, {id});
      }
    }
  }

  lemma CancelKeepsBooks(w: World, id: Id, event: Id)
    requires BooksOk(w)
    ensures BooksOk(AfterCancel(w, id, event))
  {
    if CancelReply(w.state, id, event).Accepted? {
      CancelKeepsMarkets(w, id, event);
      CancelParts(w, id, event);
      var w', r := AfterCancel(w, id, event), w.state.orders[id];
      assert BookOk(w.state.orders, ShelfOf(w), r.event, r.outcome, w.state.markets[r.event].Of(r.outcome));
      RemoveKeepsHalf(w.state.orders, ShelfOf(w), r.event, r.outcome, r.side,
        HalfOf(w.state, r.event, r.outcome, r.side), id);
      forall x | x in w'.state.orders && x !in w'.inflight && w'.state.orders[x].Active()
        ensures w'.state.orders[x].event in w'.state.markets
        ensures x in HalfOf(w'.state, w'.state.orders[x].event, w'.state.orders[x].outcome, w'.state.orders[x].side)
      {
        assert x != id && w.state.orders[x].Active();
      }
    }
  }

  // ---------------------------------------------------------------- searching

  /** What the search leaves of the half it walked. */
  ghost predicate WalkedOk(
    orders: map<Id, Order>, ids: seq<Id>, taker: Id, r: Matched, sh: Shelf, e: Id, o: Outcome, side: Side) {
    && r.orders.Keys == orders.Keys
    && HalfOk(r.orders, sh, e, o, side, r.ids)
    && (forall x :: x in r.ids ==> x in ids)
    && (forall x :: x in ids && x !in r.ids ==> x in r.orders && r.orders[x].status.Filled?)
    && (forall x :: x in orders && x !in ids && x != taker ==> r.orders[x] == orders[x])
    && (forall x :: x in orders ==> SameTerms(orders[x], r.orders[x]))
  }

  lemma NoneStaleInHalf(orders: map<Id, Order>, sh: Shelf, e: Id, o: Outcome, side: Side, ids: seq<Id>)
    requires HalfOk(orders, sh, e, o, side, ids)
    ensures DropStale(orders, ids) == ids
  {
    if ids != [] {
      assert RestingOk(orders, sh, e, o, side, ids[0]);
    }
  }

  lemma RemoveAtKeepsPriority(orders: map<Id, Order>, arrival: map<Id, nat>, side: Side, ids: seq<Id>, i: nat)
    requires i < |ids| && InPriority(orders, arrival, side, ids)
    ensures InPriority(orders, arrival, side, RemoveAt(ids, i))
    ensures forall x :: x in RemoveAt(ids, i) <==> x in ids && x != ids[i]
  {
    PriorityIsDistinct(orders, arrival, side, ids);
    var r := RemoveAt(ids, i);
    forall x | x in ids && x != ids[i] ensures x in r {
      var k :| 0 <= k < |ids| && ids[k] == x;
      assert r[if k < i then k else k - 1] == x;
    }
  }

  lemma PriorityIgnoresFills(
    orders: map<Id, Order>, orders': map<Id, Order>, arrival: map<Id, nat>, side: Side, ids: seq<Id>)
    requires InPriority(orders, arrival, side, ids)
    requires orders.Keys == orders'.Keys && forall x :: x in orders ==> SameTerms(orders[x], orders'[x])
    ensures InPriority(orders', arrival, side, ids)
  {
    forall x ensures PriceOf(orders', x) == PriceOf(orders, x) {
      if x in orders {
        assert SameTerms(orders[x], orders'[x]);
      }
    }
  }

  /** One execution changes the taker and one maker of the half. */
  lemma ExecuteParts(orders: map<Id, Order>, ids: seq<Id>, taker: Id, i: nat)
    requires taker in orders && i < |ids| && ids[i] in orders && ids[i] != taker
    requires 0 < orders[taker].remaining && 0 < orders[ids[i]].remaining
    ensures var r, m := Execute(orders, ids, taker, i), ids[i];
            && r.orders.Keys == orders.Keys
            && (forall x :: x in orders ==> SameTerms(orders[x], r.orders[x]))
            && (forall x :: x in orders && x != m && x != taker ==> r.orders[x] == orders[x])
            && (if r.orders[m].status.Filled? then r.ids == RemoveAt(ids, i)
                else r.ids == ids && r.orders[m].remaining > 0 && r.orders[m].status.Partial?)
  {
  }

  lemma ExecuteWalks(orders: map<Id, Order>, ids: seq<Id>, taker: Id, i: nat, sh: Shelf, e: Id, o: Outcome, side: Side)
    requires HalfOk(orders, sh, e, o, side, ids) && taker in orders && taker in sh.inflight && i < |ids|
    requires 0 < orders[taker].remaining
    ensures WalkedOk(orders, ids, taker, Execute(orders, ids, taker, i), sh, e, o, side)
  {
    var r, m := Execute(orders, ids, taker, i), ids[i];
    assert RestingOk(orders, sh, e, o, side, m);
    NotOnHalf(orders, sh, e, o, side, ids, taker);
    ExecuteParts(orders, ids, taker, i);
    RemoveAtKeepsPriority(orders, sh.arrival, side, ids, i);
    PriorityIgnoresFills(orders, r.orders, sh.arrival, side, r.ids);
    forall x | x in r.ids ensures RestingOk(r.orders, sh, e, o, side, x) {
      assert RestingOk(orders, sh, e, o, side, x) && SameTerms(orders[x], r.orders[x]);
    }
  }

  lemma WalkedTransitive(
    orders: map<Id, Order>, ids: seq<Id>, taker: Id, a: Matched, b: Matched, sh: Shelf, e: Id, o: Outcome, side: Side)
    requires WalkedOk(orders, ids, taker, a, sh, e, o, side) && WalkedOk(a.orders, a.ids, taker, b, sh, e, o, side)
    requires HalfOk(orders, sh, e, o, side, ids) && taker in sh.inflight
    ensures WalkedOk(orders, ids, taker, b, sh, e, o, side)
  {
    NotOnHalf(orders, sh, e, o, side, ids, taker);
    forall x | x in orders ensures SameTerms(orders[x], b.orders[x]) {
      assert SameTerms(orders[x], a.orders[x]) && SameTerms(a.orders[x], b.orders[x]);
    }
    forall x | x in ids && x !in b.ids ensures x in b.orders && b.orders[x].status.Filled? {
      assert RestingOk(orders, sh, e, o, side, x);
    }
  }

  /** No trades, no change. */
  lemma WalkedReflexive(
    orders: map<Id, Order>, ids: seq<Id>, taker: Id, trades: seq<Trade>, sh: Shelf, e: Id, o: Outcome, side: Side)
    requires HalfOk(orders, sh, e, o, side, ids)
    ensures WalkedOk(orders, ids, taker, Matched(orders, ids, trades), sh, e, o, side)
  {
  }

  ghost predicate NobodyLeft(orders: map<Id, Order>, ids: seq<Id>, taker: Id) {
    taker in orders && (orders[taker].remaining > 0 ==> forall x :: x in ids ==>
      !Eligible(orders[taker], Lookup(orders, x)))
  }

  /** The search keeps its half in order and takes only filled orders off it; if the taker still
      wants more, nobody left can trade with it. */
  lemma {:induction false} RescanWalks(
    orders: map<Id, Order>, ids: seq<Id>, taker: Id, sh: Shelf, e: Id, o: Outcome, side: Side)
    requires HalfOk(orders, sh, e, o, side, ids) && taker in orders && taker in sh.inflight
    ensures var r := Rescan(orders, ids, taker);
            WalkedOk(orders, ids, taker, r, sh, e, o, side) && NobodyLeft(r.orders, r.ids, taker)
    decreases Max(orders[taker].remaining, 0)
  {
    WalkedReflexive(orders, ids, taker, [], sh, e, o, side);
    if orders[taker].remaining > 0 {
      NoneStaleInHalf(orders, sh, e, o, side, ids);
      var i := FirstEligible(orders, ids, orders[taker]);
      if i >= 0 {
        var one := Execute(orders, ids, taker, i);
        ExecuteWalks(orders, ids, taker, i, sh, e, o, side);
        WalkAgain(orders, ids, taker, i, sh, e, o, side);
        RescanWalks(one.orders, one.ids, taker, sh, e, o, side);
        var rest := Rescan(one.orders, one.ids, taker);
        WalkedTransitive(orders, ids, taker, one, rest, sh, e, o, side);
      } else {
        NobodyEligible(orders, ids, taker);
      }
    }
  }

  lemma NobodyEligible(orders: map<Id, Order>, ids: seq<Id>, taker: Id)
    requires taker in orders && FirstEligible(orders, ids, orders[taker]) < 0
    ensures NobodyLeft(orders, ids, taker)
  {
    forall x | x in ids ensures !Eligible(orders[taker], Lookup(orders, x)) {
      var k :| 0 <= k < |ids| && ids[k] == x;
    }
  }

  lemma WalkAgain(orders: map<Id, Order>, ids: seq<Id>, taker: Id, i: nat, sh: Shelf, e: Id, o: Outcome, side: Side)
    requires HalfOk(orders, sh, e, o, side, ids) && taker in orders && taker in sh.inflight && i < |ids|
    requires 0 < orders[taker].remaining && Eligible(orders[taker], Lookup(orders, ids[i]))
    ensures var one := Execute(orders, ids, taker, i);
            taker in one.orders && Max(one.orders[taker].remaining, 0) < Max(orders[taker].remaining, 0)
  {
    assert RestingOk(orders, sh, e, o, side, ids[i]);
    NotOnHalf(orders, sh, e, o, side, ids, taker);
  }

  // ---------------------------------------------------------------- matching

  /** The order table after a matching section, seen from the books. */
  lemma MatchTable(s: State, id: Id)
    requires Matchable(s, id)
    ensures var m, r := Search(s, id), MatchSection(s, id);
            && SameButLocks(WithStatus(m.orders, id, ConcludedStatus(m.orders[id])), r.orders)
            && r.markets == Conclude(Searched(s, id), id).markets
            && Settled(s, id).orders[id].status == ConcludedStatus(m.orders[id])
  {
    var c := Conclude(Searched(s, id), id);
    ConcludeParts(Searched(s, id), id);
    PayAllKeepsOrders(c.orders, TradesOf(s, id));
    assert SameButLock(c.orders[id], Settled(s, id).orders[id]);
    ReleaseKeepsAllButLock(Settled(s, id), id);
    forall x | x in c.orders ensures SameButLock(c.orders[x], MatchSection(s, id).orders[x]) {
      assert SameButLock(c.orders[x], Settled(s, id).orders[x]);
    }
  }

  lemma ReleaseKeepsAllButLock(s: State, id: Id)
    requires id in s.orders
    ensures var r := ReleaseIfFinished(s, id);
            SameButLocks(s.orders, r.orders) && r.markets == s.markets
  {
  }

  lemma PutThenGet(s: State, e: Id, oc: Outcome, side: Side, ids: seq<Id>, e': Id, oc': Outcome, side': Side)
    requires e in s.markets && e' in s.markets
    ensures PutHalf(s, e, oc, side, ids).markets.Keys == s.markets.Keys
    ensures HalfOf(PutHalf(s, e, oc, side, ids), e', oc', side')
            == if (e, oc, side) == (e', oc', side') then ids else HalfOf(s, e', oc', side')
  {
  }

  lemma ConcludeHalves(s: State, id: Id, e: Id, oc: Outcome, side: Side)
    requires id in s.orders && s.orders[id].event in s.markets && e in s.markets
    ensures var t, r := s.orders[id], Conclude(s, id);
            && r.markets.Keys == s.markets.Keys
            && HalfOf(r, e, oc, side)
               == if (e, oc, side) == (t.event, t.outcome, t.side) && Rests(t)
                  then Insert(s.orders, side, HalfOf(s, e, oc, side), id)
                  else HalfOf(s, e, oc, side)
  {
    var t := s.orders[id];
    PutThenGet(SetStatus(s, id, ConcludedStatus(t)), t.event, t.outcome, t.side,
               Insert(s.orders, t.side, HalfOf(s, t.event, t.outcome, t.side), id), e, oc, side);
  }

  /** The halves after a matching section. */
  lemma MatchHalves(s: State, id: Id, e: Id, oc: Outcome, side: Side)
    requires Matchable(s, id) && e in s.markets
    ensures var t, m, r := s.orders[id], Search(s, id), MatchSection(s, id);
            && r.markets.Keys == s.markets.Keys
            && HalfOf(r, e, oc, side)
               == if e != t.event || oc != t.outcome then HalfOf(s, e, oc, side)
                  else if side != t.side then m.ids
                  else if Rests(m.orders[id]) then Insert(m.orders, side, HalfOf(s, e, oc, side), id)
                  else HalfOf(s, e, oc, side)
  {
    var t, m := s.orders[id], Search(s, id);
    RescanKeepsTerms(s.orders, HalfOf(s, t.event, t.outcome, Opposite(t.side)), id);
    assert SameTerms(t, m.orders[id]);
    MatchTable(s, id);
    PutThenGet(s.(orders := m.orders), t.event, t.outcome, Opposite(t.side), m.ids, e, oc, side);
    ConcludeHalves(Searched(s, id), id, e, oc, side);
    hide MatchSection;
    hide Conclude;
    hide Search;
    hide Rests;
  }

  /** Shelf after the section: the taker is no longer in flight and may have arrived. */
  lemma MatchShelf(w: World, id: Id)
    requires Matchable(w.state, id)
    ensures var w' := AfterMatch(w, id);
            && w'.state == MatchSection(w.state, id)
            && w'.inflight == w.inflight - {id}
            && w'.log.clock == w.log.clock + 1
            && w'.log.arrival == if Rests(Search(w.state, id).orders[id]) then w.log.arrival[id := w.log.clock]
               else w.log.arrival
  {
    MatchTable(w.state, id);
  }

  /** The half being searched, and what is known of it. */
  function SearchedHalf(s: State, id: Id): seq<Id>
    requires Matchable(s, id)
  {
    HalfOf(s, s.orders[id].event, s.orders[id].outcome, Opposite(s.orders[id].side))
  }

  lemma BookHalf(orders: map<Id, Order>, sh: Shelf, e: Id, o: Outcome, book: Book, side: Side)
    requires BookOk(orders, sh, e, o, book)
    ensures HalfOk(orders, sh, e, o, side, book.Half(side))
  {
  }

  lemma SearchWalks(w: World, id: Id)
    requires MarketsOk(w) && Matchable(w.state, id) && id in w.inflight
    ensures var t, m := w.state.orders[id], Search(w.state, id);
            && HalfOk(w.state.orders, ShelfOf(w), t.event, t.outcome, Opposite(t.side), SearchedHalf(w.state, id))
            && WalkedOk(w.state.orders, SearchedHalf(w.state, id), id, m, ShelfOf(w), t.event, t.outcome,
               Opposite(t.side))
            && NobodyLeft(m.orders, m.ids, id)
  {
    var t := w.state.orders[id];
    var book := w.state.markets[t.event].Of(t.outcome);
    assert BookOk(w.state.orders, ShelfOf(w), t.event, t.outcome, book);
    BookHalf(w.state.orders, ShelfOf(w), t.event, t.outcome, book, Opposite(t.side));
    RescanWalks(w.state.orders, SearchedHalf(w.state, id), id, ShelfOf(w), t.event, t.outcome, Opposite(t.side));
  }

  /** Orders outside the searched half keep everything but their lock. */
  lemma OutsidersKept(w: World, id: Id, x: Id)
    requires MarketsOk(w) && Matchable(w.state, id) && id in w.inflight
    requires x in w.state.orders && x != id && x !in SearchedHalf(w.state, id)
    ensures x in MatchSection(w.state, id).orders && SameButLock(w.state.orders[x], MatchSection(w.state, id).orders[x])
  {
    SearchWalks(w, id);
    MatchTable(w.state, id);
    var m := Search(w.state, id);
    assert m.orders[x] == w.state.orders[x];
    assert x in WithStatus(m.orders, id, ConcludedStatus(m.orders[id]));
    hide MatchSection;
  }

  lemma MatchKeepsOtherBook(w: World, id: Id, e: Id, oc: Outcome)
    requires MarketsOk(w) && Matchable(w.state, id) && id in w.inflight && e in w.state.markets
    requires e != w.state.orders[id].event || oc != w.state.orders[id].outcome
    ensures BookOk(AfterMatch(w, id).state.orders, ShelfOf(AfterMatch(w, id)), e, oc, w.state.markets[e].Of(oc))
  {
    hide AfterMatch;
    hide Search;
    hide InPriority;
    hide OnlySelfCrossed;
    hide WalkedOk;
    hide NobodyLeft;
    var w', book, half := AfterMatch(w, id), w.state.markets[e].Of(oc), SearchedHalf(w.state, id);
    var changed := {id} + set x | x in half;
    assert BookOk(w.state.orders, ShelfOf(w), e, oc, book);
    SearchWalks(w, id);
    MatchShelf(w, id);
    forall x | x in changed ensures x !in book.bids && x !in book.asks {
      if x != id {
        assert RestingOk(w.state.orders, ShelfOf(w), w.state.orders[id].event, w.state.orders[id].outcome,
          Opposite(w.state.orders[id].side), x);
      }
      NotOnHalf(w.state.orders, ShelfOf(w), e, oc, Buy, book.bids, x);
      NotOnHalf(w.state.orders, ShelfOf(w), e, oc, Sell, book.asks, x);
    }
    forall x | x in w.state.orders && x !in changed
      ensures x in w'.state.orders && SameButLock(w.state.orders[x], w'.state.orders[x])
    {
      OutsidersKept(w, id, x);
    }
    OthersUntouched(w, w', e, oc, changed);
  }

  /** The searched half, after settlement and with the taker gone from the worklist. */
  lemma SearchedHalfKept(w: World, id: Id)
    requires MarketsOk(w) && Matchable(w.state, id) && id in w.inflight
    ensures var t, w', m := w.state.orders[id], AfterMatch(w, id), Search(w.state, id);
            HalfOk(w'.state.orders, ShelfOf(w'), t.event, t.outcome, Opposite(t.side), m.ids)
  {
    var t, w', m := w.state.orders[id], AfterMatch(w, id), Search(w.state, id);
    SearchWalks(w, id);
    MatchTable(w.state, id);
    MatchShelf(w, id);
    NotOnHalf(m.orders, ShelfOf(w), t.event, t.outcome, Opposite(t.side), m.ids, id);
    hide AfterMatch;
    hide MatchSection;
    hide Search;
    forall x | x in m.ids
      ensures x in m.orders && x in w'.state.orders && SameButLock(m.orders[x], w'.state.orders[x])
    {
      assert RestingOk(m.orders, ShelfOf(w), t.event, t.outcome, Opposite(t.side), x);
      assert x in WithStatus(m.orders, id, ConcludedStatus(m.orders[id]));
    }
    HalfFrame(m.orders, ShelfOf(w), w'.state.orders, ShelfOf(w'), t.event, t.outcome, Opposite(t.side), m.ids);
  }

  /** The taker's own half, before it is possibly added. */
  lemma OwnHalfKept(w: World, id: Id)
    requires MarketsOk(w) && Matchable(w.state, id) && id in w.inflight
    ensures var t, w' := w.state.orders[id], AfterMatch(w, id);
            var own := HalfOf(w.state, t.event, t.outcome, t.side);
            && HalfOk(w'.state.orders, ShelfOf(w'), t.event, t.outcome, t.side, own)
            && (forall x :: x in own ==> x in w.log.arrival && w.log.arrival[x] < w.log.clock && x != id)
  {
    var t, w' := w.state.orders[id], AfterMatch(w, id);
    var own := HalfOf(w.state, t.event, t.outcome, t.side);
    var book := w.state.markets[t.event].Of(t.outcome);
    assert BookOk(w.state.orders, ShelfOf(w), t.event, t.outcome, book);
    BookHalf(w.state.orders, ShelfOf(w), t.event, t.outcome, book, t.side);
    SearchWalks(w, id);
    MatchShelf(w, id);
    hide AfterMatch;
    hide MatchSection;
    forall x | x in own
      ensures x in w.state.orders && x in w'.state.orders && SameButLock(w.state.orders[x], w'.state.orders[x])
      ensures x in w.log.arrival && w.log.arrival[x] < w.log.clock && x != id
    {
      assert RestingOk(w.state.orders, ShelfOf(w), t.event, t.outcome, t.side, x);
      NotOnHalf(w.state.orders, ShelfOf(w), t.event, t.outcome, Opposite(t.side), SearchedHalf(w.state, id), x);
      OutsidersKept(w, id, x);
    }
    HalfFrame(w.state.orders, ShelfOf(w), w'.state.orders, ShelfOf(w'), t.event, t.outcome, t.side, own);
  }

  /** The taker itself, if it comes to rest. */
  lemma TakerRests(w: World, id: Id)
    requires MarketsOk(w) && Matchable(w.state, id) && id in w.inflight
    requires Rests(Search(w.state, id).orders[id]) && Search(w.state, id).orders[id].remaining >= 0
    ensures var t, w' := w.state.orders[id], AfterMatch(w, id);
            && RestingOk(w'.state.orders, ShelfOf(w'), t.event, t.outcome, t.side, id)
            && w'.log.arrival[id] == w.log.clock
  {
    var t, m := w.state.orders[id], Search(w.state, id);
    SearchWalks(w, id);
    MatchTable(w.state, id);
    MatchShelf(w, id);
    assert SameTerms(t, m.orders[id]);
    assert id in WithStatus(m.orders, id, ConcludedStatus(m.orders[id]));
    hide AfterMatch;
    hide MatchSection;
    hide Search;
  }

  /** The taker's own half after the section. */
  lemma OwnHalfOk(w: World, id: Id)
    requires MarketsOk(w) && Matchable(w.state, id) && id in w.inflight && Search(w.state, id).orders[id].remaining >= 0
    ensures var t, w' := w.state.orders[id], AfterMatch(w, id);
            && t.event in w'.state.markets
            && HalfOk(w'.state.orders, ShelfOf(w'), t.event, t.outcome, t.side,
               HalfOf(w'.state, t.event, t.outcome, t.side))
  {
    var t, w', m := w.state.orders[id], AfterMatch(w, id), Search(w.state, id);
    var own := HalfOf(w.state, t.event, t.outcome, t.side);
    MatchHalves(w.state, id, t.event, t.outcome, t.side);
    MatchShelf(w, id);
    OwnHalfKept(w, id);
    if Rests(m.orders[id]) {
      TakerRests(w, id);
      MatchPrices(w, id);
      hide AfterMatch;
      hide MatchSection;
      InsertSamePrices(m.orders, w'.state.orders, t.side, own, id);
      InsertKeepsPriority(w'.state.orders, w'.log.arrival, t.side, own, id);
      InsertAdds(w'.state.orders, t.side, own, id);
    }
  }

  lemma MatchPrices(w: World, id: Id)
    requires Matchable(w.state, id)
    ensures var m, r := Search(w.state, id), MatchSection(w.state, id);
            && r.orders.Keys == m.orders.Keys
            && (forall x :: PriceOf(m.orders, x) == PriceOf(r.orders, x))
            && (forall x :: Lookup(m.orders, x).user == Lookup(r.orders, x).user)
  {
    MatchTable(w.state, id);
    var m, r := Search(w.state, id), MatchSection(w.state, id);
    var c := WithStatus(m.orders, id, ConcludedStatus(m.orders[id]));
    hide MatchSection;
    hide Search;
    forall x
      ensures PriceOf(m.orders, x) == PriceOf(r.orders, x) && Lookup(m.orders, x).user == Lookup(r.orders, x).user
    {
      if x in c {
        assert SameButLock(c[x], r.orders[x]);
      }
    }
  }

  /** `y` on the given side meets or passes the price of `x` on the other. */
  predicate Crosses(orders: map<Id, Order>, side: Side, y: Id, x: Id) {
    if side.Buy? then PriceOf(orders, y) >= PriceOf(orders, x) else PriceOf(orders, x) >= PriceOf(orders, y)
  }

  /** Any crossing pair of the two halves is one user's. */
  ghost predicate Uncrossed(orders: map<Id, Order>, side: Side, own: seq<Id>, other: seq<Id>) {
    forall y, x :: y in own && x in other && Crosses(orders, side, y, x) ==>
      Lookup(orders, y).user == Lookup(orders, x).user
  }

  /** A book is in order when both halves are and no two users cross, seen from either side. */
  lemma BookFromHalves(orders: map<Id, Order>, sh: Shelf, e: Id, o: Outcome, book: Book, side: Side)
    ensures BookOk(orders, sh, e, o, book)
            <==> && HalfOk(orders, sh, e, o, side, book.Half(side))
                 && HalfOk(orders, sh, e, o, Opposite(side), book.Half(Opposite(side)))
                 && Uncrossed(orders, side, book.Half(side), book.Half(Opposite(side)))
  {
  }

  lemma UncrossedIgnoresFills(
    orders: map<Id, Order>, orders': map<Id, Order>, side: Side, own: seq<Id>, other: seq<Id>, other': seq<Id>)
    requires Uncrossed(orders, side, own, other) && forall x :: x in other' ==> x in other
    requires forall x :: PriceOf(orders', x) == PriceOf(orders, x) && Lookup(orders', x).user == Lookup(orders, x).user
    ensures Uncrossed(orders', side, own, other')
  {
  }

  lemma TermsFixPrices(orders: map<Id, Order>, orders': map<Id, Order>)
    requires orders.Keys == orders'.Keys && forall x :: x in orders ==> SameTerms(orders[x], orders'[x])
    ensures forall x :: PriceOf(orders', x) == PriceOf(orders, x) && Lookup(orders', x).user == Lookup(orders, x).user
  {
    forall x ensures PriceOf(orders', x) == PriceOf(orders, x) && Lookup(orders', x).user == Lookup(orders, x).user {
      if x in orders {
        assert SameTerms(orders[x], orders'[x]);
      }
    }
  }

  lemma OldPairsUncrossed(w: World, id: Id)
    requires MarketsOk(w) && Matchable(w.state, id) && id in w.inflight
    ensures var t := w.state.orders[id];
            Uncrossed(MatchSection(w.state, id).orders, t.side, HalfOf(w.state, t.event, t.outcome, t.side),
              Search(w.state, id).ids)
  {
    var t, m, r := w.state.orders[id], Search(w.state, id), MatchSection(w.state, id);
    var book := w.state.markets[t.event].Of(t.outcome);
    assert BookOk(w.state.orders, ShelfOf(w), t.event, t.outcome, book);
    BookFromHalves(w.state.orders, ShelfOf(w), t.event, t.outcome, book, t.side);
    SearchWalks(w, id);
    MatchPrices(w, id);
    TermsFixPrices(w.state.orders, m.orders);
    hide *;
    UncrossedIgnoresFills(w.state.orders, r.orders, t.side, book.Half(t.side), book.Half(Opposite(t.side)), m.ids);
  }

  lemma TakerUncrossed(w: World, id: Id, x: Id)
    requires MarketsOk(w) && Matchable(w.state, id) && id in w.inflight
    requires Rests(Search(w.state, id).orders[id]) && Search(w.state, id).orders[id].remaining >= 0
    requires x in Search(w.state, id).ids
    ensures var t, r := w.state.orders[id], MatchSection(w.state, id);
            Crosses(r.orders, t.side, id, x) ==> Lookup(r.orders, id).user == Lookup(r.orders, x).user
  {
    var t, m := w.state.orders[id], Search(w.state, id);
    SearchWalks(w, id);
    MatchPrices(w, id);
    hide MatchSection;
    hide Search;
    assert RestingOk(m.orders, ShelfOf(w), t.event, t.outcome, Opposite(t.side), x);
    assert SameTerms(t, m.orders[id]);
    assert !Eligible(m.orders[id], m.orders[x]);
  }

  lemma OwnBookUncrossed(w: World, id: Id)
    requires MarketsOk(w) && Matchable(w.state, id) && id in w.inflight && Search(w.state, id).orders[id].remaining >= 0
    ensures var t, r := w.state.orders[id], MatchSection(w.state, id);
            && t.event in r.markets
            && Uncrossed(r.orders, t.side, HalfOf(r, t.event, t.outcome, t.side), Search(w.state, id).ids)
  {
    var t, m, r := w.state.orders[id], Search(w.state, id), MatchSection(w.state, id);
    var own := HalfOf(w.state, t.event, t.outcome, t.side);
    MatchHalves(w.state, id, t.event, t.outcome, t.side);
    OldPairsUncrossed(w, id);
    InsertAdds(m.orders, t.side, own, id);
    var own' := HalfOf(r, t.event, t.outcome, t.side);
    hide MatchSection;
    hide Search;
    forall y, x | y in own' && x in m.ids && Crosses(r.orders, t.side, y, x)
      ensures Lookup(r.orders, y).user == Lookup(r.orders, x).user
    {
      if y !in own {
        TakerUncrossed(w, id, x);
      }
    }
  }

  /** The taker's own book after the section. */
  lemma MatchKeepsOwnBook(w: World, id: Id)
    requires MarketsOk(w) && Matchable(w.state, id) && id in w.inflight && Search(w.state, id).orders[id].remaining >= 0
    ensures var t, w' := w.state.orders[id], AfterMatch(w, id);
            && t.event in w'.state.markets
            && BookOk(w'.state.orders, ShelfOf(w'), t.event, t.outcome, w'.state.markets[t.event].Of(t.outcome))
  {
    var t, w' := w.state.orders[id], AfterMatch(w, id);
    OwnHalfOk(w, id);
    SearchedHalfKept(w, id);
    OwnBookUncrossed(w, id);
    MatchShelf(w, id);
    MatchHalves(w.state, id, t.event, t.outcome, Opposite(t.side));
    hide AfterMatch;
    hide MatchSection;
    hide Search;
    hide HalfOk;
    hide Uncrossed;
    hide BookOk;
    BookFromHalves(w'.state.orders, ShelfOf(w'), t.event, t.outcome, w'.state.markets[t.event].Of(t.outcome), t.side);
  }

  lemma MatchKeepsMarkets(w: World, id: Id)
    requires MarketsOk(w) && Matchable(w.state, id) && id in w.inflight && Search(w.state, id).orders[id].remaining >= 0
    ensures MarketsOk(AfterMatch(w, id))
  {
    var t, w' := w.state.orders[id], AfterMatch(w, id);
    MatchShelf(w, id);
    forall e, oc | e in w'.state.markets
      ensures BookOk(w'.state.orders, ShelfOf(w'), e, oc, w'.state.markets[e].Of(oc))
    {
      MatchHalves(w.state, id, t.event, t.outcome, Buy);
      if e == t.event && oc == t.outcome {
        MatchKeepsOwnBook(w, id);
      } else {
        MatchHalves(w.state, id, e, oc, Buy);
        MatchHalves(w.state, id, e, oc, Sell);
        MatchKeepsOtherBook(w, id, e, oc);
        assert w'.state.markets[e].Of(oc) == w.state.markets[e].Of(oc);
      }
    }
  }

  /** A live order is still on its half after the section. */
  lemma StaysListed(w: World, id: Id, x: Id)
    requires BooksOk(w) && Matchable(w.state, id) && id in w.inflight
    requires var r := MatchSection(w.state, id);
             x in r.orders && x !in w.inflight - {id} && r.orders[x].Active()
    ensures var r := MatchSection(w.state, id);
            && r.orders[x].event in r.markets
            && x in HalfOf(r, r.orders[x].event, r.orders[x].outcome, r.orders[x].side)
  {
    var t, m, r := w.state.orders[id], Search(w.state, id), MatchSection(w.state, id);
    SearchWalks(w, id);
    MatchTable(w.state, id);
    var c := WithStatus(m.orders, id, ConcludedStatus(m.orders[id]));
    assert x in c && SameButLock(c[x], r.orders[x]);
    assert SameTerms(w.state.orders[x], m.orders[x]);
    var o := w.state.orders[x];
    hide MatchSection;
    hide Search;
    InsertAdds(m.orders, t.side, HalfOf(w.state, t.event, t.outcome, t.side), id);
    if x == id {
      MatchHalves(w.state, id, t.event, t.outcome, t.side);
    } else if x in SearchedHalf(w.state, id) {
      assert RestingOk(w.state.orders, ShelfOf(w), t.event, t.outcome, Opposite(t.side), x);
      MatchHalves(w.state, id, t.event, t.outcome, Opposite(t.side));
    } else {
      assert m.orders[x] == o;
      assert o.event in w.state.markets && x in HalfOf(w.state, o.event, o.outcome, o.side);
      MatchHalves(w.state, id, o.event, o.outcome, o.side);
    }
  }

  lemma MatchKeepsBooks(w: World, id: Id)
    requires BooksOk(w) && Matchable(w.state, id) && id in w.inflight && Search(w.state, id).orders[id].remaining >= 0
    ensures BooksOk(AfterMatch(w, id))
  {
    MatchKeepsMarkets(w, id);
    MatchShelf(w, id);
    var w' := AfterMatch(w, id);
    hide AfterMatch;
    hide MatchSection;
    forall x | x in w'.state.orders && x !in w'.inflight && w'.state.orders[x].Active()
      ensures w'.state.orders[x].event in w'.state.markets
      ensures x in HalfOf(w'.state, w'.state.orders[x].event, w'.state.orders[x].outcome, w'.state.orders[x].side)
    {
      StaysListed(w, id, x);
    }
  }

  // ---------------------------------------------------------------- every run

  ghost predicate Safe(w: World) { OrdersOk(w) && HoldingsOk(w.state) && BooksOk(w) }

  /** The search of a taker meets a fitting half, and its makers have all been matched before. */
  lemma SearchIsFit(w: World, id: Id)
    requires OrdersOk(w) && MarketsOk(w) && Matchable(w.state, id) && id in w.inflight
    ensures SearchFits(w.state, id)
    ensures forall t :: t in TradesOf(w.state, id) ==> t.maker !in w.inflight
  {
    var t := w.state.orders[id];
    var half := SearchedHalf(w.state, id);
    SearchWalks(w, id);
    hide Search;
    forall x | x in half
      ensures x in w.state.orders && w.state.orders[x].id == x && Fits(t, w.state.orders[x]) && x !in w.inflight
    {
      assert RestingOk(w.state.orders, ShelfOf(w), t.event, t.outcome, Opposite(t.side), x);
      assert Sound(x, w.state.orders[x], w.log.trades, x in w.log.closed);
    }
    assert Sound(id, t, w.log.trades, id in w.log.closed);
    RescanMakers(w.state.orders, half, id);
  }

  lemma MatchKeepsSafe(w: World, id: Id)
    requires Safe(w) && id in w.inflight
    ensures id in w.state.orders && Safe(AfterMatch(w, id))
  {
    if Matchable(w.state, id) {
      SearchIsFit(w, id);
      MatchKeepsOrders(w, id);
      MatchReachesMid(w, id);
      SearchRemaining(w, id);
      MatchKeepsBooks(w, id);
    } else {
      SkippedMatch(w, id);
    }
  }

  lemma SearchRemaining(w: World, id: Id)
    requires OrdersOk(w) && id in w.inflight && SearchFits(w.state, id)
    requires forall t :: t in TradesOf(w.state, id) ==> t.maker !in w.inflight
    ensures Search(w.state, id).orders[id].remaining >= 0
  {
    MatchReachesMid(w, id);
    var ts := TradesOf(w.state, id);
    var mid := TradeOrdersAll(w.state.orders, ts);
    assert Sound(id, mid[id], w.log.trades + ts, id in w.log.closed);
    RescanFills(w.state.orders, SearchedHalf(w.state, id), id);
    SettleLaterIsSettleNow(w.state.orders, ts);
    PayAllKeepsOrders(Search(w.state, id).orders, ts);
    assert SameButLock(Search(w.state, id).orders[id], mid[id]);
  }

  /** An order canceled before its match is only taken off the worklist. */
  lemma SkippedMatch(w: World, id: Id)
    requires Safe(w) && id in w.inflight && !Matchable(w.state, id)
    ensures id in w.state.orders && AfterMatch(w, id) == w.(inflight := w.inflight - {id})
    ensures Safe(AfterMatch(w, id))
  {
    var w' := AfterMatch(w, id);
    assert w.state.orders[id].status.Canceled?;
    assert w' == w.(inflight := w.inflight - {id});
    forall x | x in w'.state.orders ensures StatusOk(w'.state.orders[x], x in w'.inflight) {
      assert StatusOk(w.state.orders[x], x in w.inflight);
    }
    forall e, o | e in w'.state.markets ensures BookOk(w'.state.orders, ShelfOf(w'), e, o, w'.state.markets[e].Of(o)) {
      assert BookOk(w.state.orders, ShelfOf(w), e, o, w.state.markets[e].Of(o));
      BookFrame(w.state.orders, ShelfOf(w), w'.state.orders, ShelfOf(w'), e, o, w.state.markets[e].Of(o));
    }
  }

  /** Every step keeps the order table, the holdings and the books in order. */
  lemma StepKeepsSafe(w: World, step: Step)
    requires Safe(w)
    ensures Safe(Next(w, step))
  {
    match step
    case CreateEvent(event) =>
      OpenMarketKeepsBooks(w, event);
    case CreateUser(user) =>
    case Submit(request, generated) =>
      ValidateShapes(request, generated);
      if Validate(request, generated).Valid? {
        AdmitKeeps(w, Validate(request, generated).order);
        SubmitKeepsBooks(w, Validate(request, generated).order);
      }
    case Match(id) =>
      if id in w.inflight {
        MatchKeepsSafe(w, id);
      }
    case LoseEmit(id) =>
      if id in w.inflight {
        LossKeeps(w, id);
        LossKeepsBooks(w, id);
      }
    case Cancel(id, event) =>
      CancelKeeps(w, id, event);
      CancelKeepsBooks(w, id, event);
  }

  /** Under every interleaving of the critical sections, from any seeded ledger, orders and
      books stay well formed. */
  lemma {:induction false} RunIsSafe(w: World, steps: seq<Step>)
    requires Seeded(w)
    ensures Safe(Run(w, steps))
  {
    if steps != [] {
      RunIsSafe(w, steps[..|steps| - 1]);
      StepKeepsSafe(Run(w, steps[..|steps| - 1]), steps[|steps| - 1]);
    }
  }
}
