/** The database projection: every emitted trade is settled in one transaction, exactly once.

    Deliveries may repeat, fail anywhere and be dropped as stale; what the tables hold is
    always the initial contents plus the effect of each stored trade, once. */
module Settlement {
  import opened Types
  import opened Sums

  /** A row of the orders table. */
  datatype Row = Row(quantity: int, filled: int, remaining: int, status: Status)

  datatype PosKey = PosKey(user: Id, event: Id, outcome: Outcome)

  /** A row of the transactions table. */
  datatype Entry = Entry(user: Id, order: Id, trade: Id, side: Side, quantity: int, price: int, amount: int)

  /** The tables. Rows of `users` and `volume` exist for registered users and events. */
  datatype Db = Db(
    users: map<Id, int>, orders: map<Id, Row>, shares: map<PosKey, int>,
    trades: map<Id, Trade>, volume: map<Id, int>, entries: seq<Entry>)

  function SharesOf(db: Db, k: PosKey): int { if k in db.shares then db.shares[k] else 0 }

  // ---------------------------------------------------------------- the statements

  /** Foreign keys of the trades table. */
  predicate References(db: Db, t: Trade) {
    && t.event in db.volume && t.taker in db.orders && t.maker in db.orders
    && t.buyer in db.users && t.seller in db.users
  }

  /** UPDATE of one order row: fills add up, the remainder never goes below zero. */
  function FillRow(r: Row, q: int): Row {
    var filled := r.filled + q;
    Row(r.quantity, filled, Max(r.quantity - filled, 0), if filled >= r.quantity then Filled else Partial)
  }

  function BuyerKey(t: Trade): PosKey { PosKey(t.buyer, t.event, t.outcome) }
  function SellerKey(t: Trade): PosKey { PosKey(t.seller, t.event, t.outcome) }

  function FillRows(orders: map<Id, Row>, t: Trade): map<Id, Row>
    requires t.taker in orders && t.maker in orders
  {
    var once := orders[t.taker := FillRow(orders[t.taker], t.quantity)];
    once[t.maker := FillRow(once[t.maker], t.quantity)]
  }

  function MoveBalance(users: map<Id, int>, t: Trade): map<Id, int>
    requires t.buyer in users && t.seller in users
  {
    var paid := users[t.buyer := users[t.buyer] - t.Cost()];
    paid[t.seller := paid[t.seller] + t.Cost()]
  }

  function Upsert(shares: map<PosKey, int>, k: PosKey, n: int): map<PosKey, int> {
    shares[k := (if k in shares then shares[k] else 0) + n]
  }

  /** The committed transaction of one trade. */
  function Settled(db: Db, id: Id, t: Trade): Db
    requires References(db, t)
  {
    Db(MoveBalance(db.users, t),
       FillRows(db.orders, t),
       Upsert(Upsert(db.shares, BuyerKey(t), t.quantity), SellerKey(t), -t.quantity),
       db.trades[id := t],
       db.volume[t.event := db.volume[t.event] + t.Cost()],
       db.entries + [Entry(t.buyer, t.taker, id, Buy, t.quantity, t.price, t.Cost()),
                     Entry(t.seller, t.maker, id, Sell, t.quantity, t.price, t.Cost())])
  }

  predicate ValidTradeMessage(id: Id, t: Trade) {
    && id != "" && t.event != "" && t.taker != "" && t.maker != "" && t.buyer != "" && t.seller != ""
    && t.quantity > 0 && t.price >= 0
  }

  /** Will the transaction commit, if nothing breaks? */
  predicate Settleable(db: Db, id: Id, t: Trade) {
    id !in db.trades && References(db, t) && db.users[t.buyer] >= t.Cost()
  }

  // ---------------------------------------------------------------- deliveries

  datatype Message =
    | TradeMessage(id: Id, trade: Trade)
    | OrderMessage(id: Id, user: Id, event: Id, price: int, row: Row)
    | CancelMessage(id: Id)

  /** One delivery. `stale` is the verdict of the fence; `fault` says that some statement, or
      the commit, failed and the transaction was rolled back. */
  datatype Delivery = Delivery(message: Message, stale: bool, fault: bool)

  /** All ids of a trade can be read as database keys. */
  predicate Readable(parses: Id -> bool, id: Id, t: Trade) {
    && parses(id) && parses(t.event) && parses(t.taker) && parses(t.maker) && parses(t.buyer) && parses(t.seller)
  }

  /** Checks of the orders table. */
  predicate Insertable(db: Db, id: Id, user: Id, event: Id, price: int, row: Row) {
    id !in db.orders && user in db.users && event in db.volume && price >= 0 && row.quantity > 0
  }

  /** One delivery. `parses` says which ids the worker can read; a message with any other is an
      error and changes nothing. */
  function Deliver(parses: Id -> bool, db: Db, d: Delivery): Db {
    if d.stale || d.fault then db
    else
      match d.message
      case TradeMessage(id, t) =>
        if ValidTradeMessage(id, t) && Readable(parses, id, t) && Settleable(db, id, t) then Settled(db, id, t) else db
      case OrderMessage(id, user, event, price, row) =>
        if parses(id) && parses(user) && parses(event) && Insertable(db, id, user, event, price, row)
        then db.(orders := db.orders[id := row]) else db
      case CancelMessage(id) =>
        if parses(id) && id in db.orders then db.(orders := db.orders[id := db.orders[id].(status := Canceled)]) else db
  }

  /** Tables, and the fill each order row was inserted with. */
  datatype Projection = Projection(db: Db, base: map<Id, int>)

  function Receive(parses: Id -> bool, p: Projection, d: Delivery): Projection {
    var db := Deliver(parses, p.db, d);
    Projection(db, if d.message.OrderMessage? && d.message.id !in p.db.orders && d.message.id in db.orders
                   then p.base[d.message.id := d.message.row.filled] else p.base)
  }

  function ReceiveAll(parses: Id -> bool, p: Projection, ds: seq<Delivery>): Projection {
    if ds == [] then p else Receive(parses, ReceiveAll(parses, p, ds[..|ds| - 1]), ds[|ds| - 1])
  }

  // ---------------------------------------------------------------- effects

  ghost function CashEffect(u: Id): (Id, Trade) -> int {
    (id: Id, t: Trade) => (if t.seller == u then t.Cost() else 0) - (if t.buyer == u then t.Cost() else 0)
  }

  ghost function ShareEffect(k: PosKey): (Id, Trade) -> int {
    (id: Id, t: Trade) => (if BuyerKey(t) == k then t.quantity else 0) - (if SellerKey(t) == k then t.quantity else 0)
  }

  ghost function FillEffect(x: Id): (Id, Trade) -> int {
    (id: Id, t: Trade) => (if t.taker == x then t.quantity else 0) + (if t.maker == x then t.quantity else 0)
  }

  ghost function VolumeEffect(e: Id): (Id, Trade) -> int {
    (id: Id, t: Trade) => if t.event == e then t.Cost() else 0
  }

  ghost predicate CashExplained(start: Db, db: Db) {
    && db.users.Keys == start.users.Keys
    && (forall u :: u in db.users ==> db.users[u] == start.users[u] + SumMap(db.trades, CashEffect(u)))
  }

  ghost predicate SharesExplained(start: Db, db: Db) {
    forall k :: SharesOf(db, k) == SharesOf(start, k) + SumMap(db.trades, ShareEffect(k))
  }

  ghost predicate VolumeExplained(start: Db, db: Db) {
    && db.volume.Keys == start.volume.Keys
    && (forall e :: e in db.volume ==> db.volume[e] == start.volume[e] + SumMap(db.trades, VolumeEffect(e)))
  }

  ghost predicate FillsExplained(p: Projection) {
    && p.db.orders.Keys == p.base.Keys
    && (forall x :: x in p.db.orders ==> p.db.orders[x].filled == p.base[x] + SumMap(p.db.trades, FillEffect(x)))
    && (forall id :: id in p.db.trades ==> p.db.trades[id].taker in p.db.orders && p.db.trades[id].maker in p.db.orders)
  }

  /** The tables are the start plus each stored trade once. */
  ghost predicate Explained(start: Db, p: Projection) {
    CashExplained(start, p.db) && SharesExplained(start, p.db) && VolumeExplained(start, p.db) && FillsExplained(p)
  }

  // ---------------------------------------------------------------- one transaction

  lemma MoveBalanceEffect(users: map<Id, int>, id: Id, t: Trade)
    requires t.buyer in users && t.seller in users
    ensures MoveBalance(users, t).Keys == users.Keys
    ensures forall u :: u in users ==> MoveBalance(users, t)[u] == users[u] + CashEffect(u)(id, t)
  {
  }

  lemma FillRowsEffect(orders: map<Id, Row>, id: Id, t: Trade)
    requires t.taker in orders && t.maker in orders
    ensures FillRows(orders, t).Keys == orders.Keys
    ensures forall x :: x in orders ==> FillRows(orders, t)[x].filled == orders[x].filled + FillEffect(x)(id, t)
  {
  }

  lemma SettleExplainsCash(start: Db, db: Db, id: Id, t: Trade)
    requires CashExplained(start, db) && References(db, t) && id !in db.trades
    ensures CashExplained(start, Settled(db, id, t))
  {
    var db' := Settled(db, id, t);
    MoveBalanceEffect(db.users, id, t);
    forall u | u in db'.users ensures db'.users[u] == start.users[u] + SumMap(db'.trades, CashEffect(u)) {
      SumMapPut(db.trades, CashEffect(u), id, t);
    }
  }

  lemma SettleExplainsShares(start: Db, db: Db, id: Id, t: Trade)
    requires SharesExplained(start, db) && References(db, t) && id !in db.trades
    ensures SharesExplained(start, Settled(db, id, t))
  {
    var db' := Settled(db, id, t);
    forall k ensures SharesOf(db', k) == SharesOf(start, k) + SumMap(db'.trades, ShareEffect(k)) {
      SumMapPut(db.trades, ShareEffect(k), id, t);
      assert SharesOf(db', k) == SharesOf(db, k) + ShareEffect(k)(id, t);
    }
  }

  lemma SettleExplainsVolume(start: Db, db: Db, id: Id, t: Trade)
    requires VolumeExplained(start, db) && References(db, t) && id !in db.trades
    ensures VolumeExplained(start, Settled(db, id, t))
  {
    var db' := Settled(db, id, t);
    forall e | e in db'.volume ensures db'.volume[e] == start.volume[e] + SumMap(db'.trades, VolumeEffect(e)) {
      SumMapPut(db.trades, VolumeEffect(e), id, t);
    }
  }

  lemma SettleExplainsFills(p: Projection, id: Id, t: Trade)
    requires FillsExplained(p) && References(p.db, t) && id !in p.db.trades
    ensures FillsExplained(p.(db := Settled(p.db, id, t)))
  {
    var db, db' := p.db, Settled(p.db, id, t);
    FillRowsEffect(db.orders, id, t);
    forall x | x in db'.orders ensures db'.orders[x].filled == p.base[x] + SumMap(db'.trades, FillEffect(x)) {
      SumMapPut(db.trades, FillEffect(x), id, t);
    }
  }

  /** No stored trade mentions an order that is not in the table. */
  lemma NoFills(p: Projection, x: Id)
    requires FillsExplained(p) && x !in p.db.orders
    ensures SumMap(p.db.trades, FillEffect(x)) == 0
  {
    SumMapZero(p.db.trades, FillEffect(x));
  }

  lemma SettleStaysExplained(start: Db, p: Projection, id: Id, t: Trade)
    requires Explained(start, p) && References(p.db, t) && id !in p.db.trades
    ensures Explained(start, p.(db := Settled(p.db, id, t)))
  {
    hide Settled;
    hide CashExplained;
    hide SharesExplained;
    hide VolumeExplained;
    hide FillsExplained;
    SettleExplainsCash(start, p.db, id, t);
    SettleExplainsShares(start, p.db, id, t);
    SettleExplainsVolume(start, p.db, id, t);
    SettleExplainsFills(p, id, t);
  }

  lemma InsertStaysExplained(start: Db, p: Projection, id: Id, row: Row)
    requires Explained(start, p) && id !in p.db.orders
    ensures Explained(start, Projection(p.db.(orders := p.db.orders[id := row]), p.base[id := row.filled]))
  {
    NoFills(p, id);
    hide SumMap;
  }

  lemma CancelStaysExplained(start: Db, p: Projection, id: Id)
    requires Explained(start, p) && id in p.db.orders
    ensures Explained(start, p.(db := p.db.(orders := p.db.orders[id := p.db.orders[id].(status := Canceled)])))
  {
    hide SumMap;
  }

  lemma ReceiveStaysExplained(parses: Id -> bool, start: Db, p: Projection, d: Delivery)
    requires Explained(start, p)
    ensures Explained(start, Receive(parses, p, d))
  {
    hide Explained;
    hide Settled;
    if !d.stale && !d.fault {
      match d.message
      case TradeMessage(id, t) =>
        if Settleable(p.db, id, t) {
          SettleStaysExplained(start, p, id, t);
        }
      case OrderMessage(id, user, event, price, row) =>
        if id !in p.db.orders {
          InsertStaysExplained(start, p, id, row);
        }
      case CancelMessage(id) =>
        if id in p.db.orders {
          CancelStaysExplained(start, p, id);
        }
    }
  }

  /** For any sequence of deliveries, with repeats, faults, refusals and stale drops, balances,
      shares, event volume and fills are the initial values plus each stored trade once. */
  lemma {:induction false} SettlementIsExplained(parses: Id -> bool, start: Db, base: map<Id, int>, ds: seq<Delivery>)
    requires start.trades == map[] && base.Keys == start.orders.Keys
    requires forall x :: x in start.orders ==> base[x] == start.orders[x].filled
    ensures Explained(start, ReceiveAll(parses, Projection(start, base), ds))
  {
    if ds != [] {
      SettlementIsExplained(parses, start, base, ds[..|ds| - 1]);
      ReceiveStaysExplained(parses, start, ReceiveAll(parses, Projection(start, base), ds[..|ds| - 1]), ds[|ds| - 1]);
      hide Explained;
      hide Receive;
    }
  }

  /** The trades table decides everything: two histories that stored the same trades over the
      same rows end with the same balances, shares, volume and fills. */
  lemma TradesDecide(start: Db, p: Projection, p': Projection)
    requires Explained(start, p) && Explained(start, p') && p.db.trades == p'.db.trades && p.base == p'.base
    ensures p.db.users == p'.db.users && p.db.volume == p'.db.volume
    ensures forall k :: SharesOf(p.db, k) == SharesOf(p'.db, k)
    ensures p.db.orders.Keys == p'.db.orders.Keys
    ensures forall x :: x in p.db.orders ==> p.db.orders[x].filled == p'.db.orders[x].filled
  {
  }

  // ---------------------------------------------------------------- conservation

  ghost function Amount(): (Id, int) -> int { (u: Id, n: int) => n }

  ghost function InMarket(e: Id, o: Outcome): (PosKey, int) -> int {
    (k: PosKey, n: int) => if k.event == e && k.outcome == o then n else 0
  }

  ghost function TotalBalance(db: Db): int { SumMap(db.users, Amount()) }
  ghost function TotalShares(db: Db, e: Id, o: Outcome): int { SumMap(db.shares, InMarket(e, o)) }

  lemma SettleConserves(db: Db, id: Id, t: Trade, e: Id, o: Outcome)
    requires References(db, t)
    ensures TotalBalance(Settled(db, id, t)) == TotalBalance(db)
    ensures TotalShares(Settled(db, id, t), e, o) == TotalShares(db, e, o)
  {
    hide SumMap;
    var paid := db.users[t.buyer := db.users[t.buyer] - t.Cost()];
    SumMapPut(db.users, Amount(), t.buyer, db.users[t.buyer] - t.Cost());
    SumMapPut(paid, Amount(), t.seller, paid[t.seller] + t.Cost());
    UpsertAdds(db.shares, BuyerKey(t), t.quantity, e, o);
    UpsertAdds(Upsert(db.shares, BuyerKey(t), t.quantity), SellerKey(t), -t.quantity, e, o);
  }

  lemma UpsertAdds(shares: map<PosKey, int>, k: PosKey, n: int, e: Id, o: Outcome)
    ensures SumMap(Upsert(shares, k, n), InMarket(e, o))
            == SumMap(shares, InMarket(e, o)) + if k.event == e && k.outcome == o then n else 0
  {
    SumMapPut(shares, InMarket(e, o), k, (if k in shares then shares[k] else 0) + n);
    hide SumMap;
  }

  /** No delivery creates or destroys money, or shares of any outcome. */
  lemma {:induction false} SettlementConserves(parses: Id -> bool, p: Projection, ds: seq<Delivery>, e: Id, o: Outcome)
    ensures TotalBalance(ReceiveAll(parses, p, ds).db) == TotalBalance(p.db)
    ensures TotalShares(ReceiveAll(parses, p, ds).db, e, o) == TotalShares(p.db, e, o)
  {
    if ds != [] {
      var before, d := ReceiveAll(parses, p, ds[..|ds| - 1]).db, ds[|ds| - 1];
      SettlementConserves(parses, p, ds[..|ds| - 1], e, o);
      if d.message.TradeMessage? && Settleable(before, d.message.id, d.message.trade) {
        SettleConserves(before, d.message.id, d.message.trade, e, o);
        hide Settled;
      }
      hide SumMap;
    }
  }

  // ---------------------------------------------------------------- the balance guard

  ghost predicate NoDebt(db: Db) { forall u :: u in db.users ==> db.users[u] >= 0 }

  /** The guarded debit keeps balances from going below zero, over any deliveries. */
  lemma {:induction false} NobodyOverdraws(parses: Id -> bool, p: Projection, ds: seq<Delivery>)
    requires NoDebt(p.db)
    ensures NoDebt(ReceiveAll(parses, p, ds).db)
  {
    if ds != [] {
      NobodyOverdraws(parses, p, ds[..|ds| - 1]);
      DeliverKeepsNoDebt(parses, ReceiveAll(parses, p, ds[..|ds| - 1]).db, ds[|ds| - 1]);
      hide Deliver;
    }
  }

  lemma DeliverKeepsNoDebt(parses: Id -> bool, db: Db, d: Delivery)
    requires NoDebt(db)
    ensures NoDebt(Deliver(parses, db, d))
  {
    if d.message.TradeMessage? {
      var t := d.message.trade;
      assert ValidTradeMessage(d.message.id, t) ==> t.Cost() >= 0;
    }
  }

  /** A trade that is not stored yet is stored by a delivery if and only if the fence lets it pass,
      nothing breaks, its fields are filled and readable, its event, orders and users are known,
      and the buyer's balance covers it. */
  lemma StoredIff(parses: Id -> bool, db: Db, id: Id, t: Trade, stale: bool, fault: bool)
    requires id !in db.trades
    ensures id in Deliver(parses, db, Delivery(TradeMessage(id, t), stale, fault)).trades
            <==> && !stale && !fault && t.quantity > 0 && t.price >= 0
                 && "" !in [id, t.event, t.taker, t.maker, t.buyer, t.seller]
                 && (forall x :: x in [id, t.event, t.taker, t.maker, t.buyer, t.seller] ==> parses(x))
                 && t.event in db.volume && {t.taker, t.maker} <= db.orders.Keys
                 && {t.buyer, t.seller} <= db.users.Keys && db.users[t.buyer] >= t.quantity * t.price
  {
    var ids := [id, t.event, t.taker, t.maker, t.buyer, t.seller];
    assert ids[0] == id && ids[1] == t.event && ids[2] == t.taker && ids[3] == t.maker
      && ids[4] == t.buyer && ids[5] == t.seller;
    hide FillRows;
    hide MoveBalance;
    hide Upsert;
  }

  // ---------------------------------------------------------------- order rows

  /** The remainder is what is not filled, and never negative. */
  predicate Counted(row: Row) { row.remaining == if row.filled >= row.quantity then 0 else row.quantity - row.filled }

  /** What last wrote an order row. */
  datatype Writer = Nobody | Insertion | Fill | Cancellation

  function WriterOf(parses: Id -> bool, db: Db, d: Delivery, x: Id, before: Writer): Writer {
    if d.stale || d.fault then before
    else
      match d.message
      case TradeMessage(id, t) =>
        if (t.taker == x || t.maker == x)
          && ValidTradeMessage(id, t) && Readable(parses, id, t) && Settleable(db, id, t)
        then Fill else before
      case OrderMessage(id, user, event, price, row) =>
        if id == x && parses(id) && parses(user) && parses(event) && Insertable(db, id, user, event, price, row)
        then Insertion else before
      case CancelMessage(id) => if id == x && parses(id) && id in db.orders then Cancellation else before
  }

  function LastWriter(parses: Id -> bool, p: Projection, ds: seq<Delivery>, x: Id): Writer {
    if ds == [] then Nobody
    else
      var before := ds[..|ds| - 1];
      WriterOf(parses, ReceiveAll(parses, p, before).db, ds[|ds| - 1], x, LastWriter(parses, p, before, x))
  }

  /** The row of `x` starts with a remainder that is counted, wherever it comes from. */
  ghost predicate StartsCounted(p: Projection, ds: seq<Delivery>, x: Id) {
    && (x in p.db.orders ==> Counted(p.db.orders[x]))
    && (forall i :: 0 <= i < |ds| && ds[i].message.OrderMessage? && ds[i].message.id == x ==>
          Counted(ds[i].message.row))
  }

  /** Status and remainder of a row after whatever last wrote it. */
  ghost predicate RowOk(row: Row, writer: Writer) {
    && Counted(row)
    && (writer.Fill? ==> row.status == if row.remaining == 0 then Filled else Partial)
    && (writer.Cancellation? ==> row.status.Canceled?)
  }

  lemma SettleKeepsRow(db: Db, id: Id, t: Trade, x: Id, writer: Writer)
    requires References(db, t) && x in db.orders && RowOk(db.orders[x], writer)
    ensures RowOk(Settled(db, id, t).orders[x], if t.taker == x || t.maker == x then Fill else writer)
  {
  }

  lemma DeliverKeepsRow(parses: Id -> bool, db: Db, d: Delivery, x: Id, writer: Writer)
    requires x in db.orders ==> RowOk(db.orders[x], writer)
    requires d.message.OrderMessage? && d.message.id == x ==> Counted(d.message.row)
    ensures var db' := Deliver(parses, db, d);
            x in db'.orders ==> RowOk(db'.orders[x], WriterOf(parses, db, d, x, writer))
  {
    if d.message.TradeMessage? && Settleable(db, d.message.id, d.message.trade) && x in db.orders {
      SettleKeepsRow(db, d.message.id, d.message.trade, x, writer);
    }
    hide RowOk;
    if !d.message.TradeMessage? {
      RowBasics(d, db, x, writer);
    }
  }

  lemma RowBasics(d: Delivery, db: Db, x: Id, writer: Writer)
    ensures d.message.OrderMessage? && Counted(d.message.row) ==> RowOk(d.message.row, Insertion)
    ensures x in db.orders && RowOk(db.orders[x], writer) ==> RowOk(db.orders[x].(status := Canceled), Cancellation)
  {
  }

  /** Over any deliveries, with repeats, faults, refusals and stale drops, every order row keeps
      its remainder equal to what is not filled; a row last written by a trade is FILLED exactly
      when nothing remains and PARTIAL otherwise; one last written by a cancel is CANCELED. */
  lemma {:induction false} RowsStayOk(parses: Id -> bool, p: Projection, ds: seq<Delivery>, x: Id)
    requires StartsCounted(p, ds, x)
    ensures var db := ReceiveAll(parses, p, ds).db;
            x in db.orders ==> RowOk(db.orders[x], LastWriter(parses, p, ds, x))
  {
    if ds != [] {
      var before, d := ds[..|ds| - 1], ds[|ds| - 1];
      RowsStayOk(parses, p, before, x);
      DeliverKeepsRow(parses, ReceiveAll(parses, p, before).db, d, x, LastWriter(parses, p, before, x));
      hide Deliver;
      hide WriterOf;
      hide RowOk;
    }
  }

  // ---------------------------------------------------------------- ledger entries

  function BuyEntry(id: Id, t: Trade): Entry {
    Entry(t.buyer, t.taker, id, Buy, t.quantity, t.price, t.quantity * t.price)
  }

  function SellEntry(id: Id, t: Trade): Entry {
    Entry(t.seller, t.maker, id, Sell, t.quantity, t.price, t.quantity * t.price)
  }

  /** Entry `e` is one side of a stored trade. */
  predicate SideOf(trades: map<Id, Trade>, e: Entry) {
    e.trade in trades && (e == BuyEntry(e.trade, trades[e.trade]) || e == SellEntry(e.trade, trades[e.trade]))
  }

  ghost predicate BothEntered(db: Db) {
    forall id :: id in db.trades ==>
      BuyEntry(id, db.trades[id]) in db.entries && SellEntry(id, db.trades[id]) in db.entries
  }

  ghost predicate AllSides(db: Db, from: nat) {
    forall i :: from <= i < |db.entries| ==> SideOf(db.trades, db.entries[i])
  }

  /** Two entries for every stored trade, one per side, and no others. */
  ghost predicate EntriesExplained(start: Db, db: Db) {
    && |db.entries| == |start.entries| + 2 * |db.trades|
    && start.entries <= db.entries
    && BothEntered(db)
    && AllSides(db, |start.entries|)
  }

  predicate Enters(db: Db, db': Db, id: Id, t: Trade) {
    && id !in db.trades && db'.trades == db.trades[id := t]
    && db'.entries == db.entries + [BuyEntry(id, t), SellEntry(id, t)]
  }

  lemma BothStayEntered(db: Db, db': Db, id: Id, t: Trade)
    requires BothEntered(db) && Enters(db, db', id, t)
    ensures BothEntered(db')
  {
    hide BuyEntry;
    hide SellEntry;
    var n := |db.entries|;
    assert db'.entries[n] == BuyEntry(id, t) && db'.entries[n + 1] == SellEntry(id, t);
    assert forall e :: e in db.entries ==> e in db'.entries;
  }

  lemma AllStaySides(db: Db, db': Db, id: Id, t: Trade, from: nat)
    requires AllSides(db, from) && Enters(db, db', id, t)
    ensures AllSides(db', from)
  {
    var n := |db.entries|;
    forall i | from <= i < |db'.entries| ensures SideOf(db'.trades, db'.entries[i]) {
      if i < n {
        assert db'.entries[i] == db.entries[i];
      }
    }
  }

  lemma CountGrows(start: Db, db: Db, db': Db, id: Id, t: Trade)
    requires |db.entries| == |start.entries| + 2 * |db.trades| && start.entries <= db.entries && Enters(db, db', id, t)
    ensures |db'.entries| == |start.entries| + 2 * |db'.trades| && start.entries <= db'.entries
  {
    assert db'.trades.Keys == db.trades.Keys + {id};
    assert |db'.trades.Keys| == |db.trades.Keys| + 1;
  }

  lemma SettleExplainsEntries(start: Db, db: Db, id: Id, t: Trade)
    requires EntriesExplained(start, db) && References(db, t) && id !in db.trades
    ensures EntriesExplained(start, Settled(db, id, t))
  {
    var db' := Settled(db, id, t);
    assert Enters(db, db', id, t);
    hide Settled;
    hide Enters;
    hide BothEntered;
    hide AllSides;
    BothStayEntered(db, db', id, t);
    AllStaySides(db, db', id, t, |start.entries|);
    CountGrows(start, db, db', id, t);
  }

  lemma DeliverExplainsEntries(parses: Id -> bool, start: Db, db: Db, d: Delivery)
    requires EntriesExplained(start, db)
    ensures EntriesExplained(start, Deliver(parses, db, d))
  {
    hide Settled;
    hide SideOf;
    if d.message.TradeMessage? && Settleable(db, d.message.id, d.message.trade) {
      hide EntriesExplained;
      SettleExplainsEntries(start, db, d.message.id, d.message.trade);
    }
  }

  /** Over any deliveries the ledger holds exactly two entries per stored trade: the buyer's and
      the seller's, each with quantity, price and amount. */
  lemma {:induction false} EntriesMatchTrades(parses: Id -> bool, p: Projection, ds: seq<Delivery>)
    requires p.db.trades == map[]
    ensures EntriesExplained(p.db, ReceiveAll(parses, p, ds).db)
  {
    if ds != [] {
      EntriesMatchTrades(parses, p, ds[..|ds| - 1]);
      DeliverExplainsEntries(parses, p.db, ReceiveAll(parses, p, ds[..|ds| - 1]).db, ds[|ds| - 1]);
      hide Deliver;
      hide EntriesExplained;
    }
  }

  // ---------------------------------------------------------------- the worker

  /** The database as the worker changes it, statement by statement. */
  class Database {
    var users: map<Id, int>
    var orders: map<Id, Row>
    var shares: map<PosKey, int>
    var trades: map<Id, Trade>
    var volume: map<Id, int>
    var entries: seq<Entry>

    function Contents(): Db
      reads this
    {
      Db(users, orders, shares, trades, volume, entries)
    }

    /** Undoes an open transaction. */
    method Rollback(db: Db)
      modifies this
      ensures Contents() == db
    {
      users, orders, shares := db.users, db.orders, db.shares;
      trades, volume, entries := db.trades, db.volume, db.entries;
    }

    /** Guarded debit; tells how many rows it touched. */
    method DeductBalance(user: Id, amount: int) returns (rows: nat)
      modifies `users
      ensures rows == if user in old(users) && old(users)[user] >= amount then 1 else 0
      ensures users == if rows == 1 then old(users)[user := old(users)[user] - amount] else old(users)
    {
      if user in users && users[user] >= amount {
        users := users[user := users[user] - amount];
        return 1;
      }
      return 0;
    }

    method AddBalance(user: Id, amount: int)
      modifies `users
      ensures users == if user in old(users) then old(users)[user := old(users)[user] + amount] else old(users)
    {
      if user in users {
        users := users[user := users[user] + amount];
      }
    }

    /** Loads the order and writes back its fill and status; fails if there is no such order. */
    method ApplyOrderFill(order: Id, quantity: int) returns (ok: bool)
      modifies `orders
      ensures ok == (order in old(orders))
      ensures orders == if ok then old(orders)[order := FillRow(old(orders)[order], quantity)] else old(orders)
      ensures ok ==>
                var row, row' := old(orders)[order], orders[order];
                && row'.quantity == row.quantity && row'.filled == row.filled + quantity
                && Counted(row') && row'.status == if row'.remaining == 0 then Filled else Partial
    {
      if order !in orders {
        return false;
      }
      var row := orders[order];
      var filled := row.filled + quantity;
      var status := Partial;
      if filled >= row.quantity {
        status := Filled;
      }
      orders := orders[order := Row(row.quantity, filled, Max(row.quantity - filled, 0), status)];
      return true;
    }

    /** Reflects the trade on the taker's and then on the maker's order. */
    method FillOrders(t: Trade, broken: nat) returns (ok: bool)
      requires t.taker in orders && t.maker in orders
      modifies `orders
      ensures ok == (broken != 1 && broken != 2)
      ensures ok ==> orders == FillRows(old(orders), t)
    {
      var found := ApplyOrderFill(t.taker, t.quantity);
      if broken == 1 || !found {
        return false;
      }
      found := ApplyOrderFill(t.maker, t.quantity);
      return broken != 2 && found;
    }

    /** The buyer pays if the balance allows it, and the seller receives. */
    method Pay(t: Trade, broken: nat) returns (ok: bool)
      requires t.buyer in users && t.seller in users
      modifies `users
      ensures ok == (broken != 3 && broken != 4 && old(users)[t.buyer] >= t.Cost())
      ensures ok ==> users == MoveBalance(old(users), t)
    {
      var total := t.quantity * t.price;
      var rows := DeductBalance(t.buyer, total);
      if broken == 3 || rows == 0 {
        return false;
      }
      AddBalance(t.seller, total);
      return broken != 4;
    }

    /** Positions, ledger entries and event volume. */
    method Book(id: Id, t: Trade, broken: nat) returns (ok: bool)
      requires t.event in volume
      modifies `shares, `entries, `volume
      ensures ok == (broken < 5 || broken > 8)
      ensures ok ==>
                && shares == Upsert(Upsert(old(shares), BuyerKey(t), t.quantity), SellerKey(t), -t.quantity)
                && entries == old(entries) + [Entry(t.buyer, t.taker, id, Buy, t.quantity, t.price, t.Cost()),
                                              Entry(t.seller, t.maker, id, Sell, t.quantity, t.price, t.Cost())]
                && volume == old(volume)[t.event := old(volume)[t.event] + t.Cost()]
    {
      var total := t.quantity * t.price;
      shares := Upsert(shares, BuyerKey(t), t.quantity);
      if broken == 5 {
        return false;
      }
      shares := Upsert(shares, SellerKey(t), -t.quantity);
      if broken == 6 {
        return false;
      }
      entries := entries + [Entry(t.buyer, t.taker, id, Buy, t.quantity, t.price, total)];
      entries := entries + [Entry(t.seller, t.maker, id, Sell, t.quantity, t.price, total)];
      if broken == 7 {
        return false;
      }
      volume := volume[t.event := volume[t.event] + total];
      return broken != 8;
    }

    /** Settles one trade in one transaction. Number `broken`, if it is one of the nine steps,
        fails, the first being to read the ids and open the transaction; every failure rolls the transaction back. */
    method SettleTrade(id: Id, t: Trade, broken: nat) returns (ok: bool)
      modifies this
      ensures Contents() == if broken < 9 || !Settleable(old(Contents()), id, t) then old(Contents())
        else Settled(old(Contents()), id, t)
      ensures ok ==> id in trades
      ensures broken >= 9 ==> ok == (id in old(trades) || Settleable(old(Contents()), id, t))
    {
      hide FillRows;
      hide MoveBalance;
      hide Upsert;
      var before := Contents();
      if broken == 0 {
        return false;
      }
      if id in trades {
        return true;
      }
      if !References(before, t) {
        return false;
      }
      trades := trades[id := t];
      ok := FillOrders(t, broken);
      if ok {
        ok := Pay(t, broken);
      }
      if ok {
        ok := Book(id, t, broken);
      }
      if !ok {
        Rollback(before);
      }
    }
  }
}
