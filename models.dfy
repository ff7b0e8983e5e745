/**
 * The stored records of the trading app and the properties computed from
 * them: a stock with its price and inventory, an order with the amount it was
 * settled for, and the derived per-share price, current value and gain.
 */
module Models {
  import opened Wrappers

  /** A trader (the profile of a registered user) is known by its id. */
  type TraderId = nat

  /** The two order types a trader may place. */
  datatype OrderType = Buy | Sell

  /** The status every order is created with. */
  const DefaultStatus: string := "success"

  /** A catalogued stock: its name is its key, its price is set from outside. */
  datatype Stock = Stock(name: string, price: real, quantity: int)

  /**
   * A settled order. `amount` is the price paid or received, fixed when the
   * order is created; `stock` is the name of the stock it refers to.
   */
  datatype Order = Order(
    orderType: OrderType,
    trader: TraderId,
    stock: string,
    quantity: int,
    amount: real,
    status: string)

  /** The code an order type is stored and submitted under. */
  function Code(t: OrderType): string {
    match t
    case Buy => "buy"
    case Sell => "sell"
  }

  /** Accepts exactly the codes of the order-type choice list. */
  function ParseOrderType(code: string): (r: Option<OrderType>)
    ensures r.Some? ==> Code(r.value) == code
    ensures r.None? ==> Code(Buy) != code && Code(Sell) != code
  {
    if code == "buy" then Some(Buy)
    else if code == "sell" then Some(Sell)
    else None
  }

  lemma ParseCodeRoundTrip(t: OrderType)
    ensures ParseOrderType(Code(t)) == Some(t)
  {
  }

  /** What one share cost (or fetched) when the order was settled. */
  function PricePerShare(o: Order): (r: real)
    requires o.quantity >= 1
    ensures r * (o.quantity as real) == o.amount
  {
    o.amount / (o.quantity as real)
  }

  /** What the order's shares are worth at the stock's current price. */
  function CurrentOrderAmount(o: Order, s: Stock): (r: real)
    requires s.name == o.stock
    ensures o.quantity >= 1 ==> (r == o.amount <==> s.price == PricePerShare(o))
  {
    var r := s.price * (o.quantity as real);
    assert o.quantity >= 1 ==> r - o.amount == (s.price - PricePerShare(o)) * (o.quantity as real);
    r
  }

  /**
   * The gain a buy order would realise at the stock's current price; a sell
   * order has none.
   */
  function ProjectedGain(o: Order, s: Stock): (r: Option<real>)
    requires s.name == o.stock
    ensures r.None? <==> o.orderType == Sell
    ensures r.Some? && o.quantity >= 1 ==>
      r.value == (s.price - PricePerShare(o)) * (o.quantity as real)
  {
    if o.orderType == Sell then None
    else Some(CurrentOrderAmount(o, s) - o.amount)
  }

  /** Whether any shares of the stock are left to buy. */
  function IsAvailable(s: Stock): (r: bool)
    ensures s.quantity >= 0 ==> (r <==> s.quantity >= 1)
  {
    s.quantity != 0
  }

  /**
   * The stored amount is a snapshot: once the price moves from the one the
   * order was settled at, the current value moves with it and the stored
   * amount does not.
   */
  lemma AmountIsSnapshot(o: Order, price: real, s: Stock)
    requires s.name == o.stock
    requires o.amount == (o.quantity as real) * price
    ensures CurrentOrderAmount(o, s) - o.amount == (o.quantity as real) * (s.price - price)
  {
  }

  /** After the price rises by `d` over the settlement price, a buy order gains `quantity * d`. */
  lemma ProjectedGainAfterRise(o: Order, price: real, d: real, s: Stock)
    requires s.name == o.stock && o.orderType == Buy
    requires o.amount == (o.quantity as real) * price
    requires s.price == price + d
    ensures ProjectedGain(o, s).Some?
    ensures ProjectedGain(o, s).value == (o.quantity as real) * d
  {
  }
}
