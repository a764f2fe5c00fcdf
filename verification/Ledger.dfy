/** The engine's ledger: reserving, settling and releasing cash and shares.

    These functions are the specification of the ledger operations; `Exchange` performs
    them in place on its maps and is proved to compute exactly these states. */
module Ledger {
  import opened Types

  function OutcomeName(outcome: Outcome): string { if outcome.Yes? then "YES" else "NO" }

  /** The string under which a user's shares in one (event, outcome) are kept. */
  function PositionKey(user: Id, event: Id, outcome: Outcome): string {
    user + ":" + event + ":" + OutcomeName(outcome)
  }

  predicate ColonFree(id: Id) { ':' !in id }

  function BalanceOf(s: State, user: Id): Holding {
    if user in s.balances then s.balances[user] else ZERO
  }

  function PositionOf(s: State, key: string): Holding {
    if key in s.positions then s.positions[key] else ZERO
  }

  function PutBalance(s: State, user: Id, h: Holding): State {
    s.(balances := s.balances[user := h])
  }

  function PutPosition(s: State, key: string, h: Holding): State {
    s.(positions := s.positions[key := h])
  }

  /** Takes `amount` out of the reserve; the reserve is clamped at zero. */
  function Debit(h: Holding, amount: int): Holding {
    h.(reserved := Max(h.reserved - amount, 0))
  }

  /** Moves `amount` back from the reserve; again the reserve is clamped at zero. */
  function Unfreeze(h: Holding, amount: int): Holding {
    Holding(h.available + amount, Max(h.reserved - amount, 0))
  }

  datatype Refusal = InsufficientFunds | InsufficientShares

  /** A refused reservation still leaves a zeroed entry behind for a first-time user. */
  datatype Reservation =
    | Refused(state: State, reason: Refusal)
    | Granted(state: State, order: Order)

  /** What a reservation freezes: the limit value of a BUY, all available cash for a market
      BUY, and the shares themselves for a SELL. */
  function AmountToFreeze(s: State, o: Order): int {
    if o.side.Sell? then o.remaining
    else if o.kind.MarketOrder? then BalanceOf(s, o.user).available
    else o.remaining * o.price
  }

  function Reserve(s: State, o: Order): Reservation {
    var amount := AmountToFreeze(s, o);
    if o.side.Buy? then
      var h := BalanceOf(s, o.user);
      if amount > h.available then Refused(PutBalance(s, o.user, h), InsufficientFunds)
      else Granted(PutBalance(s, o.user, Holding(h.available - amount, h.reserved + amount)),
                   o.(locked := amount))
    else
      var key := PositionKey(o.user, o.event, o.outcome);
      var h := PositionOf(s, key);
      if h.available < amount then Refused(PutPosition(s, key, h), InsufficientShares)
      else Granted(PutPosition(s, key, Holding(h.available - amount, h.reserved + amount)),
                   o.(locked := amount))
  }

  /** What a trade takes from the lock of an order on the given side. */
  function Share(side: Side, t: Trade): int { if side.Buy? then t.Cost() else t.quantity }

  /** The lock of order `id` after the trade; the lock is clamped at zero. */
  function LockAfter(id: Id, o: Order, t: Trade): int {
    var once := if id == t.taker then Max(o.locked - Share(o.side, t), 0) else o.locked;
    if id == t.maker then Max(once - Share(o.side, t), 0) else once
  }

  function PayLocks(orders: map<Id, Order>, t: Trade): map<Id, Order> {
    map x | x in orders :: orders[x].(locked := LockAfter(x, orders[x], t))
  }

  function SettleCash(balances: map<Id, Holding>, t: Trade): map<Id, Holding> {
    var paid := balances[t.buyer := Debit(if t.buyer in balances then balances[t.buyer] else ZERO, t.Cost())];
    var seller := if t.seller in paid then paid[t.seller] else ZERO;
    paid[t.seller := seller.(available := seller.available + t.Cost())]
  }

  function SettleShares(positions: map<string, Holding>, t: Trade): map<string, Holding> {
    var kb := PositionKey(t.buyer, t.event, t.outcome);
    var ks := PositionKey(t.seller, t.event, t.outcome);
    var buyer := if kb in positions then positions[kb] else ZERO;
    var got := positions[kb := buyer.(available := buyer.available + t.quantity)];
    got[ks := Debit(if ks in got then got[ks] else ZERO, t.quantity)]
  }

  /** One executed trade applied to the ledger and to the locks of both orders. */
  function Settle(s: State, t: Trade): State {
    State(s.markets, PayLocks(s.orders, t), SettleCash(s.balances, t), SettleShares(s.positions, t))
  }

  function PayAll(orders: map<Id, Order>, trades: seq<Trade>): (r: map<Id, Order>)
    ensures r.Keys == orders.Keys
    decreases |trades|
  {
    if trades == [] then orders else PayAll(PayLocks(orders, trades[0]), trades[1..])
  }

  function CashAll(balances: map<Id, Holding>, trades: seq<Trade>): map<Id, Holding>
    decreases |trades|
  {
    if trades == [] then balances else CashAll(SettleCash(balances, trades[0]), trades[1..])
  }

  function SharesAll(positions: map<string, Holding>, trades: seq<Trade>): map<string, Holding>
    decreases |trades|
  {
    if trades == [] then positions else SharesAll(SettleShares(positions, trades[0]), trades[1..])
  }

  /** Settles a list of trades front to back. */
  function SettleAll(s: State, trades: seq<Trade>): State {
    State(s.markets, PayAll(s.orders, trades), CashAll(s.balances, trades), SharesAll(s.positions, trades))
  }

  /** Gives back whatever the order still has locked. */
  function Release(s: State, id: Id): State
    requires id in s.orders
  {
    var o := s.orders[id];
    if o.locked <= 0 then s
    else
      var freed := s.(orders := s.orders[id := o.(locked := 0)]);
      if o.side.Buy? then
        PutBalance(freed, o.user, Unfreeze(BalanceOf(s, o.user), o.locked))
      else
        var key := PositionKey(o.user, o.event, o.outcome);
        PutPosition(freed, key, Unfreeze(PositionOf(s, key), o.locked))
  }

  /** Opens an account with the starting balance, once. */
  function OpenAccount(s: State, user: Id): State {
    if user in s.balances then s else PutBalance(s, user, Holding(STARTING_BALANCE, 0))
  }

  // ---------------------------------------------------------------- position keys

  /** `u'` continues `u` with a colon and a part that `e` begins with: the boundary between the
      two ids has moved by that part. */
  ghost predicate Shifted(u: Id, e: Id, u': Id, e': Id) {
    exists x: string :: u' == u + ":" + x && e == x + ":" + e'
  }

  /** Cuts the shorter of two first parts off the longer one. */
  lemma CutFirst(a: string, b: string, x: string, y: string)
    requires a + ":" + x == b + ":" + y && |a| <= |b|
    ensures (a == b && x == y) || (|a| < |b| && b == a + ":" + b[|a| + 1..] && x == b[|a| + 1..] + ":" + y)
  {
    var s := a + ":" + x;
    assert s == b + ":" + y;
    assert a == s[..|a|] && b == s[..|b|];
    assert x == s[|a| + 1..] && y == s[|b| + 1..];
    if |a| < |b| {
      var c := b[|a| + 1..];
      assert b[|a|] == s[|a|] == ':';
      assert b == b[..|a|] + [b[|a|]] + c;
      assert x == s[|a| + 1..|b|] + s[|b|..];
      assert s[|b|..] == ":" + y;
    }
  }

  lemma ShiftedFrom(u: Id, e: Id, u': Id, e': Id, x: string)
    requires u' == u + ":" + x && e == x + ":" + e'
    ensures Shifted(u, e, u', e')
  {
  }

  /** Outcomes are colon-free, so the part behind the last colon is read back. */
  lemma CutOutcome(a: string, o: Outcome, b: string, o': Outcome)
    requires a + ":" + OutcomeName(o) == b + ":" + OutcomeName(o')
    ensures a == b && o == o'
  {
    var s := a + ":" + OutcomeName(o);
    assert s == b + ":" + OutcomeName(o');
    assert s[|s| - 1] == (if o.Yes? then 'S' else 'O') == if o'.Yes? then 'S' else 'O';
    assert a == s[..|a|] && b == s[..|b|];
  }

  lemma KeyParts(u: Id, e: Id, o: Outcome)
    ensures PositionKey(u, e, o) == (u + ":" + e) + ":" + OutcomeName(o)
  {
  }

  /** Exactly when two positions share a key: the same outcome, and the same user and event, or
      ids whose boundary has moved by a part between colons. */
  lemma KeysEqualIff(u: Id, e: Id, o: Outcome, u': Id, e': Id, o': Outcome)
    ensures PositionKey(u, e, o) == PositionKey(u', e', o')
            <==> o == o' && ((u == u' && e == e') || Shifted(u, e, u', e') || Shifted(u', e', u, e))
  {
    KeyParts(u, e, o);
    KeyParts(u', e', o');
    hide PositionKey;
    if PositionKey(u, e, o) == PositionKey(u', e', o') {
      CutOutcome(u + ":" + e, o, u' + ":" + e', o');
      if |u| <= |u'| {
        CutFirst(u, u', e, e');
        if |u| < |u'| {
          ShiftedFrom(u, e, u', e', u'[|u| + 1..]);
        }
      } else {
        CutFirst(u', u, e', e);
        ShiftedFrom(u', e', u, e, u[|u'| + 1..]);
      }
    }
    if Shifted(u, e, u', e') {
      ShiftedJoins(u, e, u', e');
    }
    if Shifted(u', e', u, e) {
      ShiftedJoins(u', e', u, e);
    }
  }

  lemma ShiftedJoins(u: Id, e: Id, u': Id, e': Id)
    requires Shifted(u, e, u', e')
    ensures u + ":" + e == u' + ":" + e'
  {
    var x: string :| u' == u + ":" + x && e == x + ":" + e';
    assert u + ":" + (x + ":" + e') == (u + ":" + x) + ":" + e';
  }

  /** The user and event ids in use. */
  datatype Ids = Ids(users: Id -> bool, events: Id -> bool)

  /** No two positions over these ids share a key. */
  ghost predicate Separable(ids: Ids) {
    forall u, e, o, u', e', o' ::
      ids.users(u) && ids.events(e) && ids.users(u') && ids.events(e')
        && PositionKey(u, e, o) == PositionKey(u', e', o')
      ==> u == u' && e == e' && o == o'
  }

  /** Ids are separable if and only if none of them differ by a moved boundary. */
  lemma SeparableIff(ids: Ids)
    ensures Separable(ids) <==>
              forall u, e, u', e' ::
                ids.users(u) && ids.events(e) && ids.users(u') && ids.events(e') ==> !Shifted(u, e, u', e')
  {
    hide PositionKey;
    if Separable(ids) {
      forall u, e, u', e' | ids.users(u) && ids.events(e) && ids.users(u') && ids.events(e')
        ensures !Shifted(u, e, u', e')
      {
        if Shifted(u, e, u', e') {
          KeysEqualIff(u, e, Yes, u', e', Yes);
          ShiftedIsLonger(u, e, u', e');
        }
      }
    } else {
      var u, e, o, u', e', o' :|
        && ids.users(u) && ids.events(e) && ids.users(u') && ids.events(e')
        && PositionKey(u, e, o) == PositionKey(u', e', o') && !(u == u' && e == e' && o == o');
      KeysEqualIff(u, e, o, u', e', o');
    }
  }

  lemma ShiftedIsLonger(u: Id, e: Id, u': Id, e': Id)
    requires Shifted(u, e, u', e')
    ensures |u| < |u'| && ':' in u' && ':' in e
  {
    var x: string :| u' == u + ":" + x && e == x + ":" + e';
    assert u'[|u|] == ':' && e[|x|] == ':';
  }

  /** It is enough that user ids, or that event ids, contain no colon. */
  lemma ColonFreeIsSeparable(ids: Ids)
    requires (forall u :: ids.users(u) ==> ColonFree(u)) || (forall e :: ids.events(e) ==> ColonFree(e))
    ensures Separable(ids)
  {
    hide PositionKey;
    SeparableIff(ids);
    forall u, e, u', e' | ids.users(u) && ids.events(e) && ids.users(u') && ids.events(e')
      ensures !Shifted(u, e, u', e')
    {
      if Shifted(u, e, u', e') {
        ShiftedIsLonger(u, e, u', e');
      }
    }
  }

  /** With colons in both, keys do collide: one user's shares would be counted for another event. */
  lemma PositionKeyCollides()
    ensures PositionKey("a:b", "c", Yes) == PositionKey("a", "b:c", Yes)
  {
    assert "a:b" == "a" + ":" + "b" && "b:c" == "b" + ":" + "c";
    ShiftedFrom("a", "b:c", "a:b", "c", "b");
    KeysEqualIff("a:b", "c", Yes, "a", "b:c", Yes);
  }
}
