/** Keeping a book half sorted: append followed by a stable sort is ordered insertion. */
module Books {
  import opened Types
  import opened Matching
  import opened Priority

  /** A price that goes ahead of another in a book half: higher bids, lower asks. */
  predicate Better(side: Side, p: int, q: int) { if side.Buy? then p > q else p < q }

  function PriceOf(orders: map<Id, Order>, id: Id): int { Lookup(orders, id).price }

  /** Puts an id behind everything priced at least as well. */
  function Insert(orders: map<Id, Order>, side: Side, ids: seq<Id>, id: Id): seq<Id> {
    if ids == [] then [id]
    else if Better(side, PriceOf(orders, id), PriceOf(orders, ids[0])) then [id] + ids
    else [ids[0]] + Insert(orders, side, ids[1..], id)
  }

  // ---------------------------------------------------------------- stable sorting

  predicate Occurs(input: seq<Id>, x: Id, y: Id) {
    exists a, b :: 0 <= a < b < |input| && input[a] == x && input[b] == y
  }

  /** `x` belongs before `y`: better price, or the same price and earlier in the input. */
  predicate Precedes(orders: map<Id, Order>, side: Side, input: seq<Id>, x: Id, y: Id) {
    var p, q := PriceOf(orders, x), PriceOf(orders, y);
    Better(side, p, q) || (p == q && Occurs(input, x, y))
  }

  /** What a stable sort promises: the same elements, ordered by price, with elements of the
      same price in their input order. */
  ghost predicate IsStableSort(orders: map<Id, Order>, side: Side, input: seq<Id>, out: seq<Id>) {
    multiset(out) == multiset(input) && InOrder(orders, side, input, out)
  }

  ghost predicate InOrder(orders: map<Id, Order>, side: Side, input: seq<Id>, ids: seq<Id>) {
    forall i, j :: 0 <= i < j < |ids| ==> Precedes(orders, side, input, ids[i], ids[j])
  }

  lemma PrecedesIsAsymmetric(orders: map<Id, Order>, side: Side, input: seq<Id>, x: Id, y: Id)
    requires Distinct(input) && Precedes(orders, side, input, x, y)
    ensures !Precedes(orders, side, input, y, x)
  {
  }

  lemma HeadIsUnique(orders: map<Id, Order>, side: Side, input: seq<Id>, a: seq<Id>, b: seq<Id>)
    requires Distinct(input) && InOrder(orders, side, input, a) && InOrder(orders, side, input, b)
    requires a != [] && b != [] && a[0] in b && b[0] in a
    ensures a[0] == b[0]
  {
    if a[0] != b[0] {
      var i :| 0 <= i < |b| && b[i] == a[0];
      var j :| 0 <= j < |a| && a[j] == b[0];
      assert Precedes(orders, side, input, b[0], b[i]);
      assert Precedes(orders, side, input, a[0], a[j]);
      PrecedesIsAsymmetric(orders, side, input, a[0], b[0]);
    }
  }

  lemma TailCount<T>(a: seq<T>)
    requires a != []
    ensures a[0] in multiset(a) && multiset(a[1..]) == multiset(a) - multiset{a[0]}
  {
    assert a == [a[0]] + a[1..];
  }

  lemma TailInOrder(orders: map<Id, Order>, side: Side, input: seq<Id>, ids: seq<Id>)
    requires ids != [] && InOrder(orders, side, input, ids)
    ensures InOrder(orders, side, input, ids[1..])
  {
  }

  /** For distinct elements at most one sequence is a stable sort of the input. */
  lemma {:induction false} SortedUnique(orders: map<Id, Order>, side: Side, input: seq<Id>, a: seq<Id>, b: seq<Id>)
    requires Distinct(input) && multiset(a) == multiset(b)
    requires InOrder(orders, side, input, a) && InOrder(orders, side, input, b)
    ensures a == b
  {
    assert |a| == |multiset(a)| == |multiset(b)| == |b|;
    if a != [] {
      TailCount(a);
      TailCount(b);
      HeadIsUnique(orders, side, input, a, b);
      TailInOrder(orders, side, input, a);
      TailInOrder(orders, side, input, b);
      SortedUnique(orders, side, input, a[1..], b[1..]);
      assert a == [a[0]] + a[1..] && b == [b[0]] + b[1..];
    }
  }

  lemma {:induction false} InsertAdds(orders: map<Id, Order>, side: Side, ids: seq<Id>, id: Id)
    ensures multiset(Insert(orders, side, ids, id)) == multiset(ids) + multiset{id}
    ensures forall x :: x in Insert(orders, side, ids, id) <==> x in ids || x == id
  {
    if ids != [] {
      assert ids == [ids[0]] + ids[1..];
      InsertAdds(orders, side, ids[1..], id);
    }
  }

  lemma ConsInOrder(orders: map<Id, Order>, side: Side, input: seq<Id>, x: Id, ids: seq<Id>)
    requires InOrder(orders, side, input, ids)
    requires forall y :: y in ids ==> Precedes(orders, side, input, x, y)
    ensures InOrder(orders, side, input, [x] + ids)
  {
  }

  /** Ordered insertion keeps the order and puts the id last within its price. */
  lemma {:induction false} InsertSorts(orders: map<Id, Order>, side: Side, ids: seq<Id>, id: Id, input: seq<Id>)
    requires InOrder(orders, side, input, ids)
    requires forall y :: y in ids ==> Occurs(input, y, id)
    ensures InOrder(orders, side, input, Insert(orders, side, ids, id))
  {
    if ids != [] {
      var x, rest := ids[0], ids[1..];
      forall y | y in rest ensures Precedes(orders, side, input, x, y) {
        var k :| 0 <= k < |rest| && rest[k] == y;
        assert y == ids[k + 1];
      }
      if Better(side, PriceOf(orders, id), PriceOf(orders, x)) {
        forall y | y in ids ensures Precedes(orders, side, input, id, y) {
          assert y == x || y in rest;
        }
        ConsInOrder(orders, side, input, id, ids);
      } else {
        InsertSorts(orders, side, rest, id, input);
        InsertAdds(orders, side, rest, id);
        assert Precedes(orders, side, input, x, id);
        ConsInOrder(orders, side, input, x, Insert(orders, side, rest, id));
      }
    }
  }

  ghost predicate SortedByPrice(orders: map<Id, Order>, side: Side, ids: seq<Id>) {
    forall i, j :: 0 <= i < j < |ids| ==> !Better(side, PriceOf(orders, ids[j]), PriceOf(orders, ids[i]))
  }

  /** Whatever stable sort is used, appending an id to a sorted book half and sorting it is
      ordered insertion. */
  lemma AppendAndSortIsInsert(orders: map<Id, Order>, side: Side, ids: seq<Id>, id: Id, out: seq<Id>)
    requires Distinct(ids) && id !in ids && SortedByPrice(orders, side, ids)
    requires IsStableSort(orders, side, ids + [id], out)
    ensures out == Insert(orders, side, ids, id)
  {
    var input := ids + [id];
    forall i, j | 0 <= i < j < |ids| ensures Precedes(orders, side, input, ids[i], ids[j]) {
      assert input[i] == ids[i] && input[j] == ids[j];
    }
    forall y | y in ids ensures Occurs(input, y, id) {
      var i :| 0 <= i < |ids| && ids[i] == y;
      assert input[i] == y && input[|ids|] == id;
    }
    InsertSorts(orders, side, ids, id, input);
    InsertAdds(orders, side, ids, id);
    assert multiset(input) == multiset(ids) + multiset{id};
    SortedUnique(orders, side, input, out, Insert(orders, side, ids, id));
  }

  // ---------------------------------------------------------------- arrival order

  function ArrivalOf(arrival: map<Id, nat>, id: Id): nat {
    if id in arrival then arrival[id] else 0
  }

  /** Price first, then time of arrival on the book. */
  predicate Ahead(orders: map<Id, Order>, arrival: map<Id, nat>, side: Side, x: Id, y: Id) {
    var p, q := PriceOf(orders, x), PriceOf(orders, y);
    Better(side, p, q) || (p == q && ArrivalOf(arrival, x) < ArrivalOf(arrival, y))
  }

  ghost predicate InPriority(orders: map<Id, Order>, arrival: map<Id, nat>, side: Side, ids: seq<Id>) {
    forall i, j :: 0 <= i < j < |ids| ==> Ahead(orders, arrival, side, ids[i], ids[j])
  }

  lemma PriorityIsDistinct(orders: map<Id, Order>, arrival: map<Id, nat>, side: Side, ids: seq<Id>)
    requires InPriority(orders, arrival, side, ids)
    ensures Distinct(ids) && SortedByPrice(orders, side, ids)
  {
    forall i, j | 0 <= i < j < |ids|
      ensures ids[i] != ids[j] && !Better(side, PriceOf(orders, ids[j]), PriceOf(orders, ids[i]))
    {
      assert Ahead(orders, arrival, side, ids[i], ids[j]);
    }
  }

  lemma ConsInPriority(orders: map<Id, Order>, arrival: map<Id, nat>, side: Side, x: Id, ids: seq<Id>)
    requires InPriority(orders, arrival, side, ids)
    requires forall y :: y in ids ==> Ahead(orders, arrival, side, x, y)
    ensures InPriority(orders, arrival, side, [x] + ids)
  {
  }

  /** A newcomer inserted in order keeps price-time priority. */
  lemma {:induction false} InsertKeepsPriority(
    orders: map<Id, Order>, arrival: map<Id, nat>, side: Side, ids: seq<Id>, id: Id)
    requires InPriority(orders, arrival, side, ids)
    requires forall y :: y in ids ==> ArrivalOf(arrival, y) < ArrivalOf(arrival, id)
    ensures InPriority(orders, arrival, side, Insert(orders, side, ids, id))
  {
    if ids != [] {
      var x, rest := ids[0], ids[1..];
      forall y | y in rest ensures Ahead(orders, arrival, side, x, y) {
        var k :| 0 <= k < |rest| && rest[k] == y;
        assert y == ids[k + 1];
      }
      if Better(side, PriceOf(orders, id), PriceOf(orders, x)) {
        forall y | y in ids ensures Ahead(orders, arrival, side, id, y) {
          assert y == x || y in rest;
        }
        ConsInPriority(orders, arrival, side, id, ids);
      } else {
        InsertKeepsPriority(orders, arrival, side, rest, id);
        InsertAdds(orders, side, rest, id);
        assert Ahead(orders, arrival, side, x, id);
        ConsInPriority(orders, arrival, side, x, Insert(orders, side, rest, id));
      }
    }
  }
}
