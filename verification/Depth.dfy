/** Market depth: resting orders aggregated by price.

    The engine collects levels in a hash map, lists the map in whatever order it comes, and
    sorts. The result does not depend on that order, is the run-length grouping of the sorted
    book, and never promises more cash than is reserved. */
module Depth {
  import opened Types
  import opened Sums
  import opened Matching
  import opened Priority
  import opened Books
  import opened Machine
  import opened Lifecycle
  import opened BookSafety
  import opened Accounts

  datatype Level = Level(price: int, quantity: int, total: int, count: int)

  datatype Tally = Tally(quantity: int, count: int)

  predicate Counted(o: Order) { o.Active() && o.remaining > 0 }

  // ---------------------------------------------------------------- what depth is

  /** Open quantity, and number of orders, at one price. */
  function QuantityAt(orders: seq<Order>, p: int): int {
    if orders == [] then 0
    else
      var o := orders[|orders| - 1];
      QuantityAt(orders[..|orders| - 1], p) + if Counted(o) && o.price == p then o.remaining else 0
  }

  function CountAt(orders: seq<Order>, p: int): nat {
    if orders == [] then 0
    else
      var o := orders[|orders| - 1];
      CountAt(orders[..|orders| - 1], p) + if Counted(o) && o.price == p then 1 else 0
  }

  function LevelAt(orders: seq<Order>, p: int): Level {
    Level(p, QuantityAt(orders, p), p * QuantityAt(orders, p), CountAt(orders, p))
  }

  /** Prices strictly from best to worst. */
  predicate Ordered(side: Side, prices: seq<int>) {
    forall i, j :: 0 <= i < j < |prices| ==> Better(side, prices[i], prices[j])
  }

  function Prices(levels: seq<Level>): (r: seq<int>)
    ensures |r| == |levels| && forall i :: 0 <= i < |r| ==> r[i] == levels[i].price
  {
    seq(|levels|, i requires 0 <= i < |levels| => levels[i].price)
  }

  predicate HasPrice(levels: seq<Level>, p: int) { exists i :: 0 <= i < |levels| && levels[i].price == p }

  /** Each level says what rests at its price, and no price is missing. */
  ghost predicate Exact(orders: seq<Order>, g: seq<Level>) {
    && (forall i :: 0 <= i < |g| ==> g[i] == LevelAt(orders, g[i].price) && g[i].count > 0)
    && (forall p :: CountAt(orders, p) > 0 ==> HasPrice(g, p))
  }

  /** One level per price at which something rests, best price first. */
  ghost predicate IsDepth(orders: seq<Order>, side: Side, levels: seq<Level>) {
    Ordered(side, Prices(levels)) && Exact(orders, levels)
  }

  lemma {:induction false} OrderedUnique(side: Side, a: seq<int>, b: seq<int>)
    requires Ordered(side, a) && Ordered(side, b)
    requires forall i :: 0 <= i < |a| ==> a[i] in b
    requires forall i :: 0 <= i < |b| ==> b[i] in a
    ensures a == b
  {
    hide Ordered;
    HeadWithin(a, b);
    HeadWithin(b, a);
    if |a| > 0 {
      SameHead(side, a, b);
      TailWithin(side, a, b);
      TailWithin(side, b, a);
      OrderedUnique(side, a[1..], b[1..]);
      assert a == [a[0]] + a[1..] && b == [b[0]] + b[1..];
    }
  }

  lemma SameHead(side: Side, a: seq<int>, b: seq<int>)
    requires Ordered(side, a) && Ordered(side, b) && |a| > 0 && |b| > 0 && a[0] in b && b[0] in a
    ensures a[0] == b[0]
  {
    var i :| 0 <= i < |b| && b[i] == a[0];
    var j :| 0 <= j < |a| && a[j] == b[0];
    assert i > 0 ==> Better(side, b[0], b[i]);
  }

  lemma HeadWithin(a: seq<int>, b: seq<int>)
    requires forall i :: 0 <= i < |a| ==> a[i] in b
    ensures |a| > 0 ==> a[0] in b
  {
  }

  lemma TailWithin(side: Side, a: seq<int>, b: seq<int>)
    requires Ordered(side, a) && |a| > 0 && |b| > 0 && a[0] == b[0]
    requires forall i :: 0 <= i < |a| ==> a[i] in b
    ensures forall i :: 0 <= i < |a[1..]| ==> a[1..][i] in b[1..]
    ensures Ordered(side, a[1..])
  {
    forall i | 0 <= i < |a[1..]| ensures a[1..][i] in b[1..] {
      var j :| 0 <= j < |b| && b[j] == a[i + 1];
      assert Better(side, a[0], a[i + 1]);
      assert b[1..][j - 1] == a[i + 1];
    }
  }

  /** There is only one depth: whatever order the map is listed in, the answer is the same. */
  lemma DepthIsUnique(orders: seq<Order>, side: Side, a: seq<Level>, b: seq<Level>)
    requires IsDepth(orders, side, a) && IsDepth(orders, side, b)
    ensures a == b
  {
    PricesWithin(orders, side, a, b);
    PricesWithin(orders, side, b, a);
    OrderedUnique(side, Prices(a), Prices(b));
    assert |a| == |b|;
    forall i | 0 <= i < |a| ensures a[i] == b[i] {
      assert Prices(a)[i] == Prices(b)[i];
    }
  }

  lemma PricesWithin(orders: seq<Order>, side: Side, a: seq<Level>, b: seq<Level>)
    requires IsDepth(orders, side, a) && IsDepth(orders, side, b)
    ensures forall i :: 0 <= i < |a| ==> Prices(a)[i] in Prices(b)
  {
    forall i | 0 <= i < |a| ensures Prices(a)[i] in Prices(b) {
      assert CountAt(orders, a[i].price) > 0;
      assert HasPrice(b, a[i].price);
      var j :| 0 <= j < |b| && b[j].price == a[i].price;
      assert Prices(b)[j] == Prices(a)[i];
    }
  }

  // ---------------------------------------------------------------- computing it

  /** The map holds exactly the tallies of the orders seen so far. */
  ghost predicate IsTally(orders: seq<Order>, levels: map<int, Tally>) {
    && (forall p :: p in levels <==> CountAt(orders, p) > 0)
    && (forall p :: p in levels ==> levels[p] == Tally(QuantityAt(orders, p), CountAt(orders, p)))
  }

  lemma {:induction false} NobodyThere(orders: seq<Order>, p: int)
    requires CountAt(orders, p) == 0
    ensures QuantityAt(orders, p) == 0
  {
    if orders != [] {
      NobodyThere(orders[..|orders| - 1], p);
    }
  }

  method Collect(orders: seq<Order>) returns (levels: map<int, Tally>)
    ensures IsTally(orders, levels)
  {
    levels := map[];
    for i := 0 to |orders|
      invariant IsTally(orders[..i], levels)
    {
      var o := orders[i];
      assert orders[..i + 1][..i] == orders[..i];
      if CountAt(orders[..i], o.price) == 0 {
        NobodyThere(orders[..i], o.price);
      }
      if o.Active() && o.remaining > 0 {
        var l := if o.price in levels then levels[o.price] else Tally(0, 0);
        levels := levels[o.price := Tally(l.quantity + o.remaining, l.count + 1)];
      }
    }
    assert orders[..|orders|] == orders;
  }

  function LevelOf(p: int, l: Tally): Level { Level(p, l.quantity, p * l.quantity, l.count) }

  predicate Lists(levels: map<int, Tally>, l: Level) { l.price in levels && l == LevelOf(l.price, levels[l.price]) }

  /** Each entry of the map once, in no particular order. */
  method List(levels: map<int, Tally>) returns (listed: seq<Level>)
    ensures forall i, j :: 0 <= i < j < |listed| ==> listed[i].price != listed[j].price
    ensures forall i :: 0 <= i < |listed| ==> Lists(levels, listed[i])
    ensures forall p :: p in levels ==> HasPrice(listed, p)
  {
    listed := [];
    var left := levels.Keys;
    while left != {}
      invariant left <= levels.Keys
      invariant forall i, j :: 0 <= i < j < |listed| ==> listed[i].price != listed[j].price
      invariant forall i :: 0 <= i < |listed| ==> Lists(levels, listed[i]) && listed[i].price !in left
      invariant forall p :: p in levels ==> p in left || HasPrice(listed, p)
      decreases left
    {
      ghost var some := Inhabited(left);
      var p :| p in left;
      HasPriceSnoc(listed, LevelOf(p, levels[p]));
      listed := listed + [LevelOf(p, levels[p])];
      left := left - {p};
    }
  }

  lemma Inhabited<T(!new)>(s: set<T>) returns (p: T)
    requires s != {}
    ensures p in s
  {
    p :| p in s;
  }

  lemma HasPriceSnoc(levels: seq<Level>, l: Level)
    ensures HasPrice(levels + [l], l.price)
    ensures forall p :: HasPrice(levels, p) ==> HasPrice(levels + [l], p)
  {
    assert (levels + [l])[|levels|].price == l.price;
    forall p | HasPrice(levels, p) ensures HasPrice(levels + [l], p) {
      var i :| 0 <= i < |levels| && levels[i].price == p;
      assert (levels + [l])[i].price == p;
    }
  }

  /** Sorts levels of different prices. */
  method Sort(listed: seq<Level>, side: Side) returns (sorted: seq<Level>)
    requires forall i, j :: 0 <= i < j < |listed| ==> listed[i].price != listed[j].price
    ensures Ordered(side, Prices(sorted))
    ensures forall l :: l in sorted <==> l in listed
  {
    sorted := [];
    for i := 0 to |listed|
      invariant Ordered(side, Prices(sorted))
      invariant forall l :: l in sorted <==> l in listed[..i]
    {
      var x := listed[i];
      var k := 0;
      while k < |sorted| && Better(side, sorted[k].price, x.price)
        invariant 0 <= k <= |sorted|
        invariant forall j :: 0 <= j < k ==> Better(side, sorted[j].price, x.price)
      {
        k := k + 1;
      }
      NotYetListed(listed, i, sorted);
      PutInOrder(side, sorted, k, x);
      sorted := sorted[..k] + [x] + sorted[k..];
      assert listed[..i + 1] == listed[..i] + [x];
    }
    assert listed[..|listed|] == listed;
  }

  lemma NotYetListed(listed: seq<Level>, i: nat, sorted: seq<Level>)
    requires i < |listed| && forall a, b :: 0 <= a < b < |listed| ==> listed[a].price != listed[b].price
    requires forall l :: l in sorted <==> l in listed[..i]
    ensures forall j :: 0 <= j < |sorted| ==> sorted[j].price != listed[i].price
  {
    forall j | 0 <= j < |sorted| ensures sorted[j].price != listed[i].price {
      assert sorted[j] in listed[..i];
      var a :| 0 <= a < i && listed[a] == sorted[j];
    }
  }

  lemma PutInOrder(side: Side, sorted: seq<Level>, k: nat, x: Level)
    requires Ordered(side, Prices(sorted)) && k <= |sorted|
    requires forall j :: 0 <= j < k ==> Better(side, sorted[j].price, x.price)
    requires forall j :: 0 <= j < |sorted| ==> sorted[j].price != x.price
    requires k < |sorted| ==> !Better(side, sorted[k].price, x.price)
    ensures Ordered(side, Prices(sorted[..k] + [x] + sorted[k..]))
  {
    forall j | k < j < |sorted| ensures Better(side, x.price, sorted[j].price) {
      assert Better(side, Prices(sorted)[k], Prices(sorted)[j]);
    }
    var r := sorted[..k] + [x] + sorted[k..];
    forall a, b | 0 <= a < b < |r| ensures Better(side, Prices(r)[a], Prices(r)[b]) {
      var a', b' := if a <= k then a else a - 1, if b <= k then b else b - 1;
      if a != k && b != k {
        assert Better(side, Prices(sorted)[a'], Prices(sorted)[b']);
      }
    }
  }

  /** Collect, list and sort. */
  method Aggregate(orders: seq<Order>, side: Side) returns (levels: seq<Level>)
    ensures IsDepth(orders, side, levels)
  {
    var tallies := Collect(orders);
    var listed := List(tallies);
    levels := Sort(listed, side);
    forall i | 0 <= i < |levels| ensures levels[i] == LevelAt(orders, levels[i].price) && levels[i].count > 0 {
      assert levels[i] in listed;
      assert Lists(tallies, levels[i]);
    }
    forall p | CountAt(orders, p) > 0 ensures HasPrice(levels, p) {
      assert HasPrice(listed, p);
      var i :| 0 <= i < |listed| && listed[i].price == p;
      assert listed[i] in levels;
    }
  }

  // ---------------------------------------------------------------- grouping the sorted book

  /** Adds an order to the last level if it has that price, and opens a level otherwise. */
  function Extend(g: seq<Level>, o: Order): seq<Level> {
    if g != [] && g[|g| - 1].price == o.price then
      var l := g[|g| - 1];
      g[..|g| - 1] + [Level(l.price, l.quantity + o.remaining, l.total + o.price * o.remaining, l.count + 1)]
    else g + [Level(o.price, o.remaining, o.price * o.remaining, 1)]
  }

  /** Runs of equal prices, front to back. */
  function Group(orders: seq<Order>): seq<Level> {
    if orders == [] then [] else Extend(Group(orders[..|orders| - 1]), orders[|orders| - 1])
  }

  /** Open orders in price order, as on a book half. */
  ghost predicate Shelved(side: Side, orders: seq<Order>) {
    && (forall i :: 0 <= i < |orders| ==> Counted(orders[i]))
    && (forall i, j :: 0 <= i < j < |orders| ==> !Better(side, orders[j].price, orders[i].price))
  }

  lemma AtSnoc(orders: seq<Order>, o: Order, p: int)
    ensures QuantityAt(orders + [o], p) == QuantityAt(orders, p) + if Counted(o) && o.price == p then o.remaining else 0
    ensures CountAt(orders + [o], p) == CountAt(orders, p) + if Counted(o) && o.price == p then 1 else 0
  {
    assert (orders + [o])[..|orders|] == orders;
  }

  /** No order of a shelved half is priced worse than the last. */
  lemma {:induction false} NothingBeyond(side: Side, orders: seq<Order>, p: int)
    requires Shelved(side, orders) && (orders == [] || Better(side, orders[|orders| - 1].price, p))
    ensures CountAt(orders, p) == 0 && QuantityAt(orders, p) == 0
  {
    if orders != [] {
      var before := orders[..|orders| - 1];
      if before != [] {
        assert !Better(side, orders[|orders| - 1].price, before[|before| - 1].price);
      }
      NothingBeyond(side, before, p);
    }
  }

  lemma LevelAtSnoc(orders: seq<Order>, o: Order, p: int)
    requires Counted(o)
    ensures var q := QuantityAt(orders, p);
            LevelAt(orders + [o], p)
            == if o.price == p then Level(p, q + o.remaining, p * q + p * o.remaining, CountAt(orders, p) + 1)
               else LevelAt(orders, p)
  {
    hide QuantityAt;
    hide CountAt;
    AtSnoc(orders, o, p);
    Distributes(p, QuantityAt(orders, p), o.remaining);
  }

  lemma Distributes(p: int, q: int, r: int)
    ensures p * (q + r) == p * q + p * r
  {
  }

  lemma JoinLevel(side: Side, orders: seq<Order>, o: Order, g: seq<Level>)
    requires Exact(orders, g) && Ordered(side, Prices(g)) && Counted(o) && g != [] && g[|g| - 1].price == o.price
    ensures Exact(orders + [o], Extend(g, o)) && Ordered(side, Prices(Extend(g, o)))
  {
    hide QuantityAt;
    hide CountAt;
    hide LevelAt;
    var r := Extend(g, o);
    assert Prices(r) == Prices(g);
    forall i | 0 <= i < |r| ensures r[i] == LevelAt(orders + [o], r[i].price) && r[i].count > 0 {
      LevelAtSnoc(orders, o, r[i].price);
      if i < |g| - 1 {
        assert Better(side, Prices(g)[i], Prices(g)[|g| - 1]);
      } else {
        LevelParts(orders, o.price);
      }
    }
    forall p | CountAt(orders + [o], p) > 0 ensures HasPrice(r, p) {
      AtSnoc(orders, o, p);
      if p == o.price {
        assert r[|r| - 1].price == p;
      } else {
        var i :| 0 <= i < |g| && g[i].price == p;
        assert r[i].price == p;
      }
    }
  }

  lemma LevelParts(orders: seq<Order>, p: int)
    ensures LevelAt(orders, p) == Level(p, QuantityAt(orders, p), p * QuantityAt(orders, p), CountAt(orders, p))
  {
  }

  lemma OpenLevel(side: Side, orders: seq<Order>, o: Order, g: seq<Level>)
    requires Exact(orders, g) && Ordered(side, Prices(g)) && Counted(o)
    requires g == [] || Better(side, g[|g| - 1].price, o.price)
    requires CountAt(orders, o.price) == 0 && QuantityAt(orders, o.price) == 0
    ensures Exact(orders + [o], Extend(g, o)) && Ordered(side, Prices(Extend(g, o)))
  {
    hide QuantityAt;
    hide CountAt;
    hide LevelAt;
    var r := Extend(g, o);
    assert r == g + [Level(o.price, o.remaining, o.price * o.remaining, 1)];
    forall i, j | 0 <= i < j < |r| ensures Better(side, Prices(r)[i], Prices(r)[j]) {
      if j < |g| {
        assert Better(side, Prices(g)[i], Prices(g)[j]);
      } else if i < |g| - 1 {
        assert Better(side, Prices(g)[i], Prices(g)[|g| - 1]);
      }
    }
    forall i | 0 <= i < |r| ensures r[i] == LevelAt(orders + [o], r[i].price) && r[i].count > 0 {
      LevelAtSnoc(orders, o, r[i].price);
      if i < |g| {
        LevelParts(orders, r[i].price);
      }
    }
    HasPriceSnoc(g, r[|g|]);
    forall p | CountAt(orders + [o], p) > 0 ensures HasPrice(r, p) {
      AtSnoc(orders, o, p);
    }
  }

  lemma ShelvedPrefix(side: Side, orders: seq<Order>)
    requires orders != [] && Shelved(side, orders)
    ensures var before, o := orders[..|orders| - 1], orders[|orders| - 1];
            && Shelved(side, before) && before + [o] == orders && Counted(o)
            && (before != [] ==> !Better(side, o.price, before[|before| - 1].price))
  {
  }

  /** The levels end where the orders end. */
  predicate SameEnd(orders: seq<Order>, g: seq<Level>) {
    if orders == [] then g == [] else g != [] && g[|g| - 1].price == orders[|orders| - 1].price
  }

  lemma ExtendIsDepth(side: Side, before: seq<Order>, o: Order, g: seq<Level>)
    requires Shelved(side, before) && Counted(o)
      && (before != [] ==> !Better(side, o.price, before[|before| - 1].price))
    requires IsDepth(before, side, g) && SameEnd(before, g)
    ensures IsDepth(before + [o], side, Extend(g, o)) && SameEnd(before + [o], Extend(g, o))
  {
    hide Exact;
    hide Ordered;
    if g != [] && g[|g| - 1].price == o.price {
      JoinLevel(side, before, o, g);
    } else {
      NothingBeyond(side, before, o.price);
      OpenLevel(side, before, o, g);
    }
  }

  /** On a price-ordered half the grouping is the depth. */
  lemma {:induction false} GroupIsDepth(side: Side, orders: seq<Order>)
    requires Shelved(side, orders)
    ensures IsDepth(orders, side, Group(orders)) && SameEnd(orders, Group(orders))
  {
    if orders == [] {
      forall p ensures CountAt(orders, p) == 0 {}
    } else {
      hide Exact;
      hide Ordered;
      var before := orders[..|orders| - 1];
      ShelvedPrefix(side, orders);
      GroupIsDepth(side, before);
      ExtendIsDepth(side, before, orders[|orders| - 1], Group(before));
      hide Shelved;
      hide Extend;
    }
  }

  // ---------------------------------------------------------------- adding up

  ghost function LevelQuantity(): Level -> int { (l: Level) => l.quantity }
  ghost function LevelCount(): Level -> int { (l: Level) => l.count }
  ghost function LevelTotal(): Level -> int { (l: Level) => l.total }
  ghost function Remaining(): Order -> int { (o: Order) => o.remaining }
  function OpenValue(o: Order): int { o.price * o.remaining }
  ghost function Value(): Order -> int { (o: Order) => OpenValue(o) }

  lemma ExtendAdds(g: seq<Level>, o: Order)
    ensures SumSeq(Extend(g, o), LevelQuantity()) == SumSeq(g, LevelQuantity()) + o.remaining
    ensures SumSeq(Extend(g, o), LevelCount()) == SumSeq(g, LevelCount()) + 1
    ensures SumSeq(Extend(g, o), LevelTotal()) == SumSeq(g, LevelTotal()) + o.price * o.remaining
  {
    var r := Extend(g, o);
    var body := r[..|r| - 1];
    assert r == body + [r[|r| - 1]];
    if g != [] && g[|g| - 1].price == o.price {
      assert body == g[..|g| - 1];
    } else {
      assert body == g;
    }
  }

  lemma {:induction false} GroupAddsUp(orders: seq<Order>)
    ensures SumSeq(Group(orders), LevelQuantity()) == SumSeq(orders, Remaining())
    ensures SumSeq(Group(orders), LevelCount()) == |orders|
    ensures SumSeq(Group(orders), LevelTotal()) == SumSeq(orders, Value())
  {
    if orders != [] {
      GroupAddsUp(orders[..|orders| - 1]);
      ExtendAdds(Group(orders[..|orders| - 1]), orders[|orders| - 1]);
    }
  }

  // ---------------------------------------------------------------- depth of the books

  lemma HalfIsShelved(orders: map<Id, Order>, sh: Shelf, e: Id, o: Outcome, side: Side, ids: seq<Id>)
    requires HalfOk(orders, sh, e, o, side, ids)
    ensures Shelved(side, Resolve(orders, ids)) && Distinct(ids)
  {
    PriorityIsDistinct(orders, sh.arrival, side, ids);
    var rs := Resolve(orders, ids);
    forall i | 0 <= i < |rs| ensures Counted(rs[i]) {
      assert RestingOk(orders, sh, e, o, side, ids[i]);
    }
    forall i, j | 0 <= i < j < |rs| ensures !Better(side, rs[j].price, rs[i].price) {
      assert rs[i].price == PriceOf(orders, ids[i]) && rs[j].price == PriceOf(orders, ids[j]);
    }
  }

  /** In every reachable state, whatever depth is computed for a half is the grouping of that
      half, and its quantities, counts and totals add up to the resting orders. */
  lemma DepthOfHalf(w: World, steps: seq<Step>, e: Id, o: Outcome, side: Side, levels: seq<Level>)
    requires Seeded(w) && e in Run(w, steps).state.markets
    requires var s := Run(w, steps).state;
             IsDepth(Resolve(s.orders, HalfOf(s, e, o, side)), side, levels)
    ensures var s := Run(w, steps).state;
            var resting := Resolve(s.orders, HalfOf(s, e, o, side));
            && levels == Group(resting)
            && SumSeq(levels, LevelQuantity()) == SumSeq(resting, Remaining())
            && SumSeq(levels, LevelCount()) == |resting|
            && SumSeq(levels, LevelTotal()) == SumSeq(resting, Value())
  {
    RunIsSafe(w, steps);
    var v := Run(w, steps);
    var resting := Resolve(v.state.orders, HalfOf(v.state, e, o, side));
    hide Run;
    assert BookOk(v.state.orders, ShelfOf(v), e, o, v.state.markets[e].Of(o));
    HalfIsShelved(v.state.orders, ShelfOf(v), e, o, side, HalfOf(v.state, e, o, side));
    GroupIsDepth(side, resting);
    DepthIsUnique(resting, side, levels, Group(resting));
    GroupAddsUp(resting);
  }

  datatype Reply = EventUnknown | Depth(yesBids: seq<Level>, yesAsks: seq<Level>, noBids: seq<Level>,
    noAsks: seq<Level>)

  method GetDepth(s: State, event: Id) returns (r: Reply)
    ensures r.EventUnknown? <==> event !in s.markets
    ensures r.Depth? ==>
              && IsDepth(Resolve(s.orders, HalfOf(s, event, Yes, Buy)), Buy, r.yesBids)
              && IsDepth(Resolve(s.orders, HalfOf(s, event, Yes, Sell)), Sell, r.yesAsks)
              && IsDepth(Resolve(s.orders, HalfOf(s, event, No, Buy)), Buy, r.noBids)
              && IsDepth(Resolve(s.orders, HalfOf(s, event, No, Sell)), Sell, r.noAsks)
  {
    if event !in s.markets {
      return EventUnknown;
    }
    var m := s.markets[event];
    var yesBids := Aggregate(Resolve(s.orders, m.yes.bids), Buy);
    var yesAsks := Aggregate(Resolve(s.orders, m.yes.asks), Sell);
    var noBids := Aggregate(Resolve(s.orders, m.no.bids), Buy);
    var noAsks := Aggregate(Resolve(s.orders, m.no.asks), Sell);
    r := Depth(yesBids, yesAsks, noBids, noAsks);
  }

  // ---------------------------------------------------------------- depth is backed by cash

  /** Total of all bid levels of one event. */
  ghost function BidTotal(s: State, m: Market): int {
    SumSeq(Group(Resolve(s.orders, m.yes.bids)), LevelTotal())
      + SumSeq(Group(Resolve(s.orders, m.no.bids)), LevelTotal())
  }

  ghost function BidTotals(s: State): (Id, Market) -> int { (e: Id, m: Market) => BidTotal(s, m) }

  ghost function ValueOf(orders: map<Id, Order>): Id -> int {
    (x: Id) => OpenValue(Lookup(orders, x))
  }

  ghost function EventKey(): (Id, Order) -> Id { (x: Id, o: Order) => o.event }

  lemma ValueOfResolved(orders: map<Id, Order>, ids: seq<Id>)
    ensures SumSeq(Resolve(orders, ids), Value()) == SumSeq(ids, ValueOf(orders))
  {
    hide SumSeq;
    hide OpenValue;
    hide Lookup;
    forall i | 0 <= i < |ids| ensures Value()(Resolve(orders, ids)[i]) == ValueOf(orders)(ids[i]) {
      assert Resolve(orders, ids)[i] == Lookup(orders, ids[i]);
    }
    SumSeqSame(Resolve(orders, ids), Value(), ids, ValueOf(orders));
  }

  /** A live limit BUY has at least its open value locked. */
  lemma LockCoversValue(id: Id, o: Order, trades: seq<Trade>, closed: bool)
    requires Sound(id, o, trades, closed) && o.side.Buy? && o.kind.LimitOrder? && o.Active()
    ensures o.price * o.remaining <= o.locked
  {
    hide Spent;
    hide Gain;
    hide FilledBy;
    assert o.price * o.remaining == o.remaining * o.price;
  }

  lemma BidIsBacked(w: World, e: Id, oc: Outcome, x: Id)
    requires AllSound(w.state.orders, w.log.trades, w.log.closed)
    requires RestingOk(w.state.orders, ShelfOf(w), e, oc, Buy, x)
    ensures ValueOf(w.state.orders)(x) <= Part(EventKey(), BuyLock(), e)(x, w.state.orders[x])
  {
    hide Sound;
    var o := w.state.orders[x];
    LockCoversValue(x, o, w.log.trades, x in w.log.closed);
    assert ValueOf(w.state.orders)(x) == OpenValue(o);
  }

  /** Both bid halves of an event, as one list of different orders. */
  lemma EventBidsBacked(w: World, e: Id)
    requires Safe(w) && e in w.state.markets
    ensures BidTotal(w.state, w.state.markets[e]) <= SumMap(w.state.orders, Part(EventKey(), BuyLock(), e))
  {
    hide *;
    EventHalves(w, e);
    var m := w.state.markets[e];
    BidTotalIsValue(w.state, m);
    BidsBelowLocks(w, e, m.yes.bids, m.no.bids);
  }

  lemma BidTotalIsValue(s: State, m: Market)
    ensures BidTotal(s, m) == SumSeq(m.yes.bids + m.no.bids, ValueOf(s.orders))
  {
    hide Group;
    hide SumSeq;
    hide Resolve;
    hide ValueOf;
    GroupAddsUp(Resolve(s.orders, m.yes.bids));
    GroupAddsUp(Resolve(s.orders, m.no.bids));
    ValueOfResolved(s.orders, m.yes.bids);
    ValueOfResolved(s.orders, m.no.bids);
    SumSeqConcat(m.yes.bids, m.no.bids, ValueOf(s.orders));
  }

  lemma EventHalves(w: World, e: Id)
    requires Safe(w) && e in w.state.markets
    ensures var m := w.state.markets[e];
            && Distinct(m.yes.bids) && Distinct(m.no.bids)
            && (forall x :: x in m.yes.bids ==> RestingOk(w.state.orders, ShelfOf(w), e, Yes, Buy, x))
            && (forall x :: x in m.no.bids ==> RestingOk(w.state.orders, ShelfOf(w), e, No, Buy, x))
            && AllSound(w.state.orders, w.log.trades, w.log.closed)
  {
    hide OnlySelfCrossed;
    hide InPriority;
    hide RestingOk;
    hide AllSound;
    hide Distinct;
    var m := w.state.markets[e];
    assert BookOk(w.state.orders, ShelfOf(w), e, Yes, m.Of(Yes));
    assert BookOk(w.state.orders, ShelfOf(w), e, No, m.Of(No));
    PriorityIsDistinct(w.state.orders, w.log.arrival, Buy, m.yes.bids);
    PriorityIsDistinct(w.state.orders, w.log.arrival, Buy, m.no.bids);
  }

  lemma BidsBelowLocks(w: World, e: Id, yes: seq<Id>, no: seq<Id>)
    requires AllSound(w.state.orders, w.log.trades, w.log.closed) && Distinct(yes) && Distinct(no)
    requires forall x :: x in yes ==> RestingOk(w.state.orders, ShelfOf(w), e, Yes, Buy, x)
    requires forall x :: x in no ==> RestingOk(w.state.orders, ShelfOf(w), e, No, Buy, x)
    ensures SumSeq(yes + no, ValueOf(w.state.orders)) <= SumMap(w.state.orders, Part(EventKey(), BuyLock(), e))
  {
    hide SumSeq;
    hide SumMap;
    hide AllSound;
    hide ValueOf;
    hide Part;
    var orders, all := w.state.orders, yes + no;
    forall x | x in all ensures x in orders && ValueOf(orders)(x) <= Part(EventKey(), BuyLock(), e)(x, orders[x]) {
      if x in yes {
        BidIsBacked(w, e, Yes, x);
      } else {
        BidIsBacked(w, e, No, x);
      }
    }
    BuyLocksNonNegative(w, e);
    TwoOutcomes(w, e, yes, no);
    SomeBelowAll(all, ValueOf(orders), orders, Part(EventKey(), BuyLock(), e));
  }

  lemma BuyLocksNonNegative(w: World, e: Id)
    requires AllSound(w.state.orders, w.log.trades, w.log.closed)
    ensures forall x :: x in w.state.orders ==> Part(EventKey(), BuyLock(), e)(x, w.state.orders[x]) >= 0
  {
    forall x | x in w.state.orders ensures w.state.orders[x].locked >= 0 {
      assert Sound(x, w.state.orders[x], w.log.trades, x in w.log.closed);
    }
  }

  /** No order rests for both outcomes. */
  lemma TwoOutcomes(w: World, e: Id, yes: seq<Id>, no: seq<Id>)
    requires Distinct(yes) && Distinct(no)
    requires forall x :: x in yes ==> RestingOk(w.state.orders, ShelfOf(w), e, Yes, Buy, x)
    requires forall x :: x in no ==> RestingOk(w.state.orders, ShelfOf(w), e, No, Buy, x)
    ensures Distinct(yes + no)
  {
    var all := yes + no;
    forall i, j | 0 <= i < j < |all| ensures all[i] != all[j] {
      if i < |yes| <= j {
        assert all[i] in yes && all[j] in no;
      }
    }
  }

  /** All bids of all events are backed by the locks of BUY orders. */
  lemma BidsBackedByLocks(w: World)
    requires Safe(w)
    ensures SumMap(w.state.markets, BidTotals(w.state)) <= SumMap(w.state.orders, BuyLock())
  {
    var s := w.state;
    forall e | e in s.markets
      ensures BidTotals(s)(e, s.markets[e])
        <= PartSum<Id, Market, Id, Order>(s.orders, EventKey(), BuyLock())(e, s.markets[e])
    {
      EventBidsBacked(w, e);
    }
    SumMapMonotone(s.markets, BidTotals(s), s.markets, PartSum(s.orders, EventKey(), BuyLock()));
    SumByGroup(s.markets, s.orders, EventKey(), BuyLock());
    forall x | x in s.orders
      ensures Within(s.markets, EventKey(), BuyLock())(x, s.orders[x]) <= BuyLock()(x, s.orders[x])
    {
      assert Sound(x, s.orders[x], w.log.trades, x in w.log.closed);
    }
    SumMapMonotone(s.orders, Within(s.markets, EventKey(), BuyLock()), s.orders, BuyLock());
  }

  /** The locks of BUY orders are backed by reserved cash. */
  lemma LocksBackedByCash(w: World)
    requires Safe(w) && ExactOn(w, Buy)
    ensures SumMap(w.state.orders, BuyLock()) <= SumMap(w.state.balances, ReservedCash())
  {
    var s := w.state;
    forall x | x in s.orders
      ensures BuyLock()(x, s.orders[x]) <= Within(s.balances, UserKey(), BuyLock())(x, s.orders[x])
    {
      if s.orders[x].side.Buy? {
        ReserveCovers(s, w.log.dropped, x);
      }
    }
    SumMapMonotone(s.orders, BuyLock(), s.orders, Within(s.balances, UserKey(), BuyLock()));
    SumByGroup(s.balances, s.orders, UserKey(), BuyLock());
    forall u | u in s.balances
      ensures PartSum<Id, Holding, Id, Order>(s.orders, UserKey(), BuyLock())(u, s.balances[u])
        <= s.balances[u].reserved
    {
      UserLocks(w, u);
    }
    SumMapMonotone(s.balances, PartSum(s.orders, UserKey(), BuyLock()), s.balances, ReservedCash());
  }

  lemma UserLocks(w: World, u: Id)
    requires ExactOn(w, Buy) && u in w.state.balances
    ensures SumMap(w.state.orders, Part(UserKey(), BuyLock(), u)) <= w.state.balances[u].reserved
  {
    var s := w.state;
    SumMapSame(s.orders, Part(UserKey(), BuyLock(), u), s.orders, LockFor(Buy, u));
    StrandedNonNegative(w.log.dropped, Buy, u);
    assert Held(AccountsOn(s, Buy), u).reserved == Locked(s.orders, Buy, u) + Stranded(w.log.dropped, Buy, u);
  }

  /** On every run with funded market BUYs, the totals of all bid levels over all books are at
      most the reserved cash of all users. */
  lemma DepthIsBacked(w: World, steps: seq<Step>)
    requires Seeded(w) && FundedRun(w, steps)
    ensures var s := Run(w, steps).state;
            SumMap(s.markets, BidTotals(s)) <= SumMap(s.balances, ReservedCash())
  {
    RunIsSafe(w, steps);
    CashReservedExactly(w, steps);
    BidsBackedByLocks(Run(w, steps));
    LocksBackedByCash(Run(w, steps));
  }
}
