/** Records of the exchange core: orders, trades, books, markets and holdings.

    Amounts are fixed-point integers in units of 1/10000, exactly as the engine
    keeps them. Creation times and generated trade ids carry no behaviour and are
    not part of these records. */
module Types {

  type Id = string

  datatype Side = Buy | Sell
  datatype Outcome = Yes | No
  datatype OrderType = LimitOrder | MarketOrder
  datatype Status = Pending | Partial | Filled | Canceled | Rejected

  const PRICE_SCALE := 10000
  const STARTING_BALANCE := 100 * PRICE_SCALE

  /** One order. The engine shares a single mutable record between its order table and a
      book; here the record lives in the table and books hold its id, so both views always
      read the same fields. */
  datatype Order = Order(
    id: Id, event: Id, user: Id, kind: OrderType, outcome: Outcome, side: Side,
    quantity: int, filled: int, remaining: int, price: int, status: Status, locked: int)
  {
    /** Still able to trade or to be canceled. */
    predicate Active() { status.Pending? || status.Partial? }
  }

  /** One execution; `taker` is the incoming order and `maker` the resting one. */
  datatype Trade = Trade(
    taker: Id, maker: Id, event: Id, outcome: Outcome, buyer: Id, seller: Id,
    takerSide: Side, quantity: int, price: int)
  {
    function Cost(): int { quantity * price }
    function BuyOrder(): Id { if takerSide.Buy? then taker else maker }
    function SellOrder(): Id { if takerSide.Buy? then maker else taker }
  }

  /** Cash of a user, or shares of a user in one (event, outcome). */
  datatype Holding = Holding(available: int, reserved: int)
  {
    function Total(): int { available + reserved }
  }

  const ZERO := Holding(0, 0)

  /** Order ids, best price first and first come first served within a price. */
  datatype Book = Book(bids: seq<Id>, asks: seq<Id>)
  {
    function Half(side: Side): seq<Id> { if side.Buy? then bids else asks }
    function WithHalf(side: Side, ids: seq<Id>): Book {
      if side.Buy? then this.(bids := ids) else this.(asks := ids)
    }
  }

  datatype Market = Market(yes: Book, no: Book)
  {
    function Of(outcome: Outcome): Book { if outcome.Yes? then yes else no }
    function With(outcome: Outcome, book: Book): Market {
      if outcome.Yes? then this.(yes := book) else this.(no := book)
    }
  }

  const NEW_MARKET := Market(Book([], []), Book([], []))

  function Opposite(side: Side): Side { if side.Buy? then Sell else Buy }

  /** The state the engine guards with its mutex. */
  datatype State = State(
    markets: map<Id, Market>,
    orders: map<Id, Order>,
    balances: map<Id, Holding>,
    positions: map<string, Holding>)

  function Max(a: int, b: int): int { if a < b then b else a }
  function Min(a: int, b: int): int { if a < b then a else b }
}
