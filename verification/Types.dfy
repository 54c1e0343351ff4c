/** The exchange's value types: sides, orders, matches and trades, with Rust's integer widths as subset types. */
module Types {

  const U32_MAX: int := 0xFFFF_FFFF

  /** i32: price of one base unit, in quote units. */
  type Price = p: int | -0x8000_0000 <= p <= 0x7FFF_FFFF
  /** u32. */
  type Quantity = q: int | 0 <= q <= 0xFFFF_FFFF
  /** u64 snowflake id. */
  type OrderId = n: int | 0 <= n <= 0xFFFF_FFFF_FFFF_FFFF
  /** A UUID; only compared for equality. */
  type UserId = nat
  type Timestamp = nat

  datatype Option<+T> = None | Some(value: T)

  datatype Side = Buy | Sell {
    function Opposite(): Side {
      if Buy? then Sell else Buy
    }
  }

  datatype OrderType = GoodTillCancel | GoodForDay | FillAndKill | FillOrKill {
    /** Whether an unfilled remainder enters the book. */
    predicate Rests() {
      GoodTillCancel? || GoodForDay?
    }
  }

  datatype OrderStatus = Cancelled | PartiallyFilled | Filled | Empty

  datatype Asset = ETH | SOL | BTC | USDC | USDT

  datatype TradingPair = TradingPair(base: Asset, quote: Asset)

  /** A limit order. Rust's `Order` is `Copy`: the queue entry and the index entry are separate values. */
  datatype Order = Order(
    id: OrderId, kind: OrderType, side: Side, status: OrderStatus, price: Price,
    initial: Quantity, remaining: Quantity, timestamp: Timestamp, user: UserId)
  {
    /** The order after a call of `fills(k)`; an overfill is refused and leaves it unchanged. */
    function Fills(k: Quantity): (r: Order)
      ensures r.Fixed() == Fixed()
      ensures k <= remaining ==> r.remaining == remaining - k
      ensures k == 0 || k > remaining ==> r == this
      ensures 0 < k <= remaining ==> r.status == if r.remaining == 0 then Filled else PartiallyFilled
    {
      if k == 0 || k > remaining then this
      else this.(remaining := remaining - k, status := if remaining == k then Filled else PartiallyFilled)
    }

    /** The fields no fill ever changes. */
    function Fixed(): Order {
      this.(remaining := 0, status := Empty)
    }
  }

  function NewOrder(id: OrderId, kind: OrderType, side: Side, status: OrderStatus, price: Price,
                    quantity: Quantity, user: UserId, now: Timestamp): Order
  {
    Order(id, kind, side, status, price, quantity, quantity, now, user)
  }

  function Min(a: Quantity, b: Quantity): Quantity {
    if a <= b then a else b
  }

  /** A sum as a `Quantity`: the largest one when the sum does not fit. */
  function Clamped(total: nat): (r: Quantity)
    ensures r <= total && (r == total || r == U32_MAX)
  {
    if total <= U32_MAX then total else U32_MAX
  }

  datatype TradeInfo = TradeInfo(orderId: OrderId, price: Price, quantity: Quantity, user: UserId)

  /** What the engine publishes for one fill. */
  datatype Trade = Trade(tradeId: OrderId, timestamp: Timestamp, bid: TradeInfo, ask: TradeInfo)

  /** A trade id and the clock reading taken when the trade is recorded. */
  datatype Stamp = Stamp(id: OrderId, time: Timestamp)

  /** One fill, with both orders as they stood just before it. A `Trade` records less: ids and users only. */
  datatype Match = Match(bid: Order, ask: Order, price: Price, quantity: Quantity)
  {
    function BidInfo(): TradeInfo {
      TradeInfo(bid.id, price, quantity, bid.user)
    }

    function AskInfo(): TradeInfo {
      TradeInfo(ask.id, price, quantity, ask.user)
    }

    function Stamped(s: Stamp): Trade {
      Trade(s.id, s.time, BidInfo(), AskInfo())
    }
  }

  /** The match of an order of the side `side` with one of the opposite side. */
  function Pair(side: Side, mine: Order, theirs: Order, price: Price, k: Quantity): Match {
    if side.Buy? then Match(mine, theirs, price, k) else Match(theirs, mine, price, k)
  }

  function MatchOf(taker: Order, resting: Order, price: Price, k: Quantity): Match {
    Pair(taker.side, taker, resting, price, k)
  }

  /** The trade list that records `ms`; the clock and id source yield `stamp(from)`, `stamp(from + 1)`, ... */
  function Recorded(ms: seq<Match>, stamp: nat -> Stamp, from: nat): (r: seq<Trade>)
    ensures |r| == |ms|
  {
    seq(|ms|, i requires 0 <= i < |ms| => ms[i].Stamped(stamp(from + i)))
  }

  lemma {:induction false} RecordedAppend(ms: seq<Match>, ns: seq<Match>, stamp: nat -> Stamp, from: nat)
    ensures Recorded(ms + ns, stamp, from) == Recorded(ms, stamp, from) + Recorded(ns, stamp, from + |ms|)
  {
  }
}
