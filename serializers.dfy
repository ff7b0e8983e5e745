/**
 * The business rules an order must pass before it is settled, and the
 * aggregated position a trader holds in one stock.
 *
 * The order log is scanned the way the store's queries do it: filter the
 * trader's orders of one type on one stock, then aggregate with a sum that is
 * absent over no rows. Beside that sit direct reference sums over the whole
 * log (zero over no matching orders), and MatchingSums ties the two together.
 */
module Serializers {
  import opened Wrappers
  import opened Models

  /** Why an order is refused. */
  datatype Error =
    | UnknownStock          // no stock with the requested name
    | UnknownOrderType      // order type outside the choice list
    | InvalidQuantity       // quantity below 1
    | NoSharesToSell        // a sell with no buy of that stock before it
    | InsufficientShares    // a sell of more shares than the trader holds
    | InsufficientFunds     // a buy that costs more than the balance
    | InsufficientInventory // a buy of more shares than the stock has left

  /** Whether an order is the given trader's order of type `t` on `stock`. */
  predicate IsFor(o: Order, trader: TraderId, stock: string, t: OrderType) {
    o.trader == trader && o.stock == stock && o.orderType == t
  }

  // ---------------------------------------------------------------------------
  // The query side: filter, then aggregate

  /** The trader's orders of type `t` on `stock`, in log order. */
  function Matching(orders: seq<Order>, trader: TraderId, stock: string, t: OrderType): (r: seq<Order>)
    ensures |r| <= |orders|
  {
    if orders == [] then []
    else
      var init, last := orders[..|orders| - 1], orders[|orders| - 1];
      var rest := Matching(init, trader, stock, t);
      if IsFor(last, trader, stock, t) then rest + [last] else rest
  }

  function TotalQuantity(os: seq<Order>): int {
    if os == [] then 0 else TotalQuantity(os[..|os| - 1]) + os[|os| - 1].quantity
  }

  function TotalAmount(os: seq<Order>): real {
    if os == [] then 0.0 else TotalAmount(os[..|os| - 1]) + os[|os| - 1].amount
  }

  /** Sum of quantities, absent when there is nothing to sum. */
  function SumQuantity(os: seq<Order>): Option<int> {
    if os == [] then None else Some(TotalQuantity(os))
  }

  /** Sum of amounts, absent when there is nothing to sum. */
  function SumAmount(os: seq<Order>): Option<real> {
    if os == [] then None else Some(TotalAmount(os))
  }

  // ---------------------------------------------------------------------------
  // Reference definitions over the whole log

  predicate HasOrder(orders: seq<Order>, trader: TraderId, stock: string, t: OrderType) {
    exists i :: 0 <= i < |orders| && IsFor(orders[i], trader, stock, t)
  }

  /** Shares the trader bought (t == Buy) or sold (t == Sell) of `stock`. */
  function SharesTraded(orders: seq<Order>, trader: TraderId, stock: string, t: OrderType): int {
    if orders == [] then 0
    else
      var last := orders[|orders| - 1];
      SharesTraded(orders[..|orders| - 1], trader, stock, t)
        + (if IsFor(last, trader, stock, t) then last.quantity else 0)
  }

  /** Money the trader paid (t == Buy) or received (t == Sell) for `stock`. */
  function AmountTraded(orders: seq<Order>, trader: TraderId, stock: string, t: OrderType): real {
    if orders == [] then 0.0
    else
      var last := orders[|orders| - 1];
      AmountTraded(orders[..|orders| - 1], trader, stock, t)
        + (if IsFor(last, trader, stock, t) then last.amount else 0.0)
  }

  /** Shares bought minus shares sold: what the trader still holds. */
  function NetShares(orders: seq<Order>, trader: TraderId, stock: string): int {
    SharesTraded(orders, trader, stock, Buy) - SharesTraded(orders, trader, stock, Sell)
  }

  /** Appending one order to the log moves the reference sums by that order alone. */
  lemma TradedAppend(orders: seq<Order>, o: Order, trader: TraderId, stock: string, t: OrderType)
    ensures SharesTraded(orders + [o], trader, stock, t)
      == SharesTraded(orders, trader, stock, t) + (if IsFor(o, trader, stock, t) then o.quantity else 0)
    ensures AmountTraded(orders + [o], trader, stock, t)
      == AmountTraded(orders, trader, stock, t) + (if IsFor(o, trader, stock, t) then o.amount else 0.0)
    ensures HasOrder(orders + [o], trader, stock, t) <==> HasOrder(orders, trader, stock, t) || IsFor(o, trader, stock, t)
  {
  }

  /** No matching order means nothing traded. */
  lemma {:induction false} NothingTradedWithoutOrders(orders: seq<Order>, trader: TraderId, stock: string, t: OrderType)
    requires !HasOrder(orders, trader, stock, t)
    ensures SharesTraded(orders, trader, stock, t) == 0
    ensures AmountTraded(orders, trader, stock, t) == 0.0
  {
    if orders != [] {
      var init, last := orders[..|orders| - 1], orders[|orders| - 1];
      assert orders == init + [last];
      TradedAppend(init, last, trader, stock, t);
      NothingTradedWithoutOrders(init, trader, stock, t);
    }
  }

  /** Summing the filtered orders gives the reference sums. */
  lemma {:induction false} MatchingTotals(orders: seq<Order>, trader: TraderId, stock: string, t: OrderType)
    ensures TotalQuantity(Matching(orders, trader, stock, t)) == SharesTraded(orders, trader, stock, t)
    ensures TotalAmount(Matching(orders, trader, stock, t)) == AmountTraded(orders, trader, stock, t)
  {
    if orders != [] {
      var init, last := orders[..|orders| - 1], orders[|orders| - 1];
      MatchingTotals(init, trader, stock, t);
      var rest := Matching(init, trader, stock, t);
      if IsFor(last, trader, stock, t) {
        var r := rest + [last];
        assert r[..|r| - 1] == rest;
      }
    }
  }

  /** The filter comes back empty exactly when the trader has no such order. */
  lemma {:induction false} MatchingEmptyIff(orders: seq<Order>, trader: TraderId, stock: string, t: OrderType)
    ensures Matching(orders, trader, stock, t) == [] <==> !HasOrder(orders, trader, stock, t)
  {
    if orders != [] {
      var init, last := orders[..|orders| - 1], orders[|orders| - 1];
      assert orders == init + [last];
      MatchingEmptyIff(init, trader, stock, t);
      TradedAppend(init, last, trader, stock, t);
    }
  }

  /**
   * The aggregate over the filtered orders is absent exactly when the trader
   * has no such order, and otherwise equals the reference sum; read with a
   * default of zero it always equals the reference sum.
   */
  lemma MatchingSums(orders: seq<Order>, trader: TraderId, stock: string, t: OrderType)
    ensures SumQuantity(Matching(orders, trader, stock, t))
      == if HasOrder(orders, trader, stock, t) then Some(SharesTraded(orders, trader, stock, t)) else None
    ensures SumAmount(Matching(orders, trader, stock, t))
      == if HasOrder(orders, trader, stock, t) then Some(AmountTraded(orders, trader, stock, t)) else None
    ensures SumQuantity(Matching(orders, trader, stock, t)).GetOr(0) == SharesTraded(orders, trader, stock, t)
    ensures SumAmount(Matching(orders, trader, stock, t)).GetOr(0.0) == AmountTraded(orders, trader, stock, t)
  {
    MatchingTotals(orders, trader, stock, t);
    MatchingEmptyIff(orders, trader, stock, t);
    if !HasOrder(orders, trader, stock, t) {
      NothingTradedWithoutOrders(orders, trader, stock, t);
    }
  }

  // ---------------------------------------------------------------------------
  // Validation

  /**
   * The business rules applied to an order whose fields are already valid.
   * A sell needs a prior buy of the stock and at most the shares still held;
   * a buy needs the balance first and the stock's inventory second.
   */
  function Validate(orders: seq<Order>, balance: real, stock: Stock, trader: TraderId,
                    t: OrderType, quantity: int, amount: real): (r: Outcome<Error>)
    ensures t == Sell && !HasOrder(orders, trader, stock.name, Buy) ==> r == Fail(NoSharesToSell)
    ensures t == Sell && HasOrder(orders, trader, stock.name, Buy) ==>
      (r == Pass <==> quantity <= NetShares(orders, trader, stock.name))
      && (r != Pass ==> r == Fail(InsufficientShares))
    ensures t == Buy ==> (r == Pass <==> amount <= balance && quantity <= stock.quantity)
    ensures t == Buy && amount > balance ==> r == Fail(InsufficientFunds)
    ensures t == Buy && amount <= balance && quantity > stock.quantity ==> r == Fail(InsufficientInventory)
  {
    if t == Sell then
      var bought := SumQuantity(Matching(orders, trader, stock.name, Buy));
      if bought.None? then
        MatchingSums(orders, trader, stock.name, Buy);
        Fail(NoSharesToSell)
      else
        var sold := SumQuantity(Matching(orders, trader, stock.name, Sell)).GetOr(0);
        var available := bought.value - sold;
        MatchingSums(orders, trader, stock.name, Buy);
        MatchingSums(orders, trader, stock.name, Sell);
        assert available == NetShares(orders, trader, stock.name);
        if quantity > available then Fail(InsufficientShares) else Pass
    else if amount > balance then Fail(InsufficientFunds)
    else if quantity > stock.quantity then Fail(InsufficientInventory)
    else Pass
  }

  /**
   * Field-level checks (the order type must be one of the choices, the
   * quantity at least 1), then the business rules. On success the result is
   * the order type the code stands for.
   */
  function ValidateOrder(orders: seq<Order>, balance: real, stock: Stock, trader: TraderId,
                         code: string, quantity: int, amount: real): (r: Result<OrderType, Error>)
    ensures quantity < 1 ==> r.Failure?
    ensures ParseOrderType(code).None? ==> r == Failure(UnknownOrderType)
    ensures ParseOrderType(code).Some? && quantity < 1 ==> r == Failure(InvalidQuantity)
    ensures r.Success? ==> Code(r.value) == code && quantity >= 1
    ensures r.Success? ==> Validate(orders, balance, stock, trader, r.value, quantity, amount) == Pass
    ensures ParseOrderType(code).Some? && quantity >= 1 && r.Failure? ==>
      Validate(orders, balance, stock, trader, ParseOrderType(code).value, quantity, amount) == Fail(r.error)
    ensures code == Code(Sell) && quantity > NetShares(orders, trader, stock.name) ==> r.Failure?
  {
    match ParseOrderType(code)
    case None => Failure(UnknownOrderType)
    case Some(t) =>
      if quantity < 1 then Failure(InvalidQuantity)
      else
        match Validate(orders, balance, stock, trader, t, quantity, amount)
        case Fail(e) => Failure(e)
        case Pass => Success(t)
  }

  // ---------------------------------------------------------------------------
  // Position aggregation

  /** Money and shares on one side (buy or sell) of a position. */
  datatype Totals = Totals(amount: real, shares: int)

  datatype Position = Position(buy: Totals, sell: Totals, netInvested: real, netShares: int)

  /**
   * The trader's position in `stock`: absent until the first buy; sell totals
   * are zero while there are no sells.
   */
  function Invested(orders: seq<Order>, trader: TraderId, stock: string): (r: Option<Position>)
    ensures r.None? <==> !HasOrder(orders, trader, stock, Buy)
    ensures r.Some? ==>
      && r.value.buy == Totals(AmountTraded(orders, trader, stock, Buy), SharesTraded(orders, trader, stock, Buy))
      && r.value.sell == Totals(AmountTraded(orders, trader, stock, Sell), SharesTraded(orders, trader, stock, Sell))
      && r.value.netShares == NetShares(orders, trader, stock)
      && r.value.netInvested == r.value.buy.amount - r.value.sell.amount
  {
    var buy := Matching(orders, trader, stock, Buy);
    MatchingSums(orders, trader, stock, Buy);
    if |buy| == 0 then None
    else
      var sell := Matching(orders, trader, stock, Sell);
      MatchingSums(orders, trader, stock, Sell);
      var buyAmount := SumAmount(buy).value;
      var boughtShares := SumQuantity(buy).value;
      var sellAmount := if |sell| == 0 then 0.0 else SumAmount(sell).value;
      var soldShares := if |sell| == 0 then 0 else SumQuantity(sell).value;
      Some(Position(
        Totals(buyAmount, boughtShares),
        Totals(sellAmount, soldShares),
        buyAmount - sellAmount,
        boughtShares - soldShares))
  }

  /** With buys but no sells, the sell side of the position is zero, not absent. */
  lemma InvestedWithoutSells(orders: seq<Order>, trader: TraderId, stock: string)
    requires HasOrder(orders, trader, stock, Buy) && !HasOrder(orders, trader, stock, Sell)
    ensures Invested(orders, trader, stock).Some?
    ensures Invested(orders, trader, stock).value.sell == Totals(0.0, 0)
    ensures Invested(orders, trader, stock).value.netShares == SharesTraded(orders, trader, stock, Buy)
  {
    NothingTradedWithoutOrders(orders, trader, stock, Sell);
  }

  /**
   * The shares a sell may not exceed are the net shares the position reports.
   */
  lemma SellLimitIsPositionNetShares(orders: seq<Order>, balance: real, stock: Stock, trader: TraderId,
                                     quantity: int, amount: real)
    requires Invested(orders, trader, stock.name).Some?
    ensures Validate(orders, balance, stock, trader, Sell, quantity, amount) == Pass
      <==> quantity <= Invested(orders, trader, stock.name).value.netShares
  {
  }

  /**
   * A stock with non-negative inventory is available exactly when a buy of
   * one share that the trader can afford passes validation.
   */
  lemma AvailableIffOneShareBuyable(orders: seq<Order>, balance: real, s: Stock, trader: TraderId)
    requires s.quantity >= 0
    requires s.price <= balance
    ensures IsAvailable(s) <==> Validate(orders, balance, s, trader, Buy, 1, 1 as real * s.price) == Pass
  {
  }
}
