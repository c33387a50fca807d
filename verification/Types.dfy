/** The engine's records and enumerations. Decimal amounts are exact reals. */
module Types {
  datatype Option<+T> = None | Some(value: T)

  datatype Side = BUY | SELL {
    function Opposite(): Side {
      if this == BUY then SELL else BUY
    }
  }

  datatype OrderType = LIMIT | MARKET | STOP_LOSS | ICEBERG | TRAILING_STOP | FILL_OR_KILL

  datatype OrderStatus = PENDING | OPEN | PARTIALLY_FILLED | FILLED | CANCELLED

  /** An id chosen by a client, or the generated id of an iceberg slice. The
      source makes a slice id from its parent's id, the clock and a random
      suffix; the suffix is replaced by the book's trade counter, so that
      freshness is proved rather than assumed. */
  datatype OrderId = Client(name: string) | Slice(parent: OrderId, stamp: nat)

  /** The value of an order at one moment. */
  datatype OrderData = OrderData(
    id: OrderId, userId: string, symbol: string, side: Side, kind: OrderType, price: real,
    quantity: real, filledQuantity: real, status: OrderStatus,
    stopPrice: Option<real>, trailingDelta: Option<real>,
    displayQty: Option<real>, hiddenQty: Option<real>)

  datatype TradeExecution = TradeExecution(
    number: nat, symbol: string, buyOrderId: OrderId, sellOrderId: OrderId,
    buyerId: string, sellerId: string, price: real, quantity: real)

  function Min(a: real, b: real): real {
    if a <= b then a else b
  }

  function Max(a: real, b: real): real {
    if a >= b then a else b
  }

  /** Unfilled visible quantity. */
  function Remaining(o: OrderData): real {
    o.quantity - o.filledQuantity
  }

  /** Quantity an iceberg still keeps off the book. */
  function Hidden(o: OrderData): real {
    if o.kind == ICEBERG && o.hiddenQty.Some? then o.hiddenQty.value else 0.0
  }

  /** The price as a rank among resting orders of the order's own side: the
      smaller the rank, the better the price for an incoming order. */
  function Rank(o: OrderData): real {
    RankOf(o.side, o.price)
  }

  function RankOf(side: Side, price: real): real {
    if side == SELL then price else -price
  }

  function StatusFor(filled: real): OrderStatus {
    if filled > 0.0 then PARTIALLY_FILLED else OPEN
  }
}
