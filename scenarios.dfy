/**
 * The endpoint test cases of the trading app, replayed on the model (some
 * trimmed to the orders they check): two traders (balances 1000 and 500)
 * and two stocks (StockA at 9.5 with 100 shares, StockB at 5.7 with 70
 * shares).
 */
module Scenarios {
  import opened Wrappers
  import opened Models
  import opened Serializers
  import opened Views

  const TraderA: TraderId := 1
  const TraderB: TraderId := 2

  function Initial(): LedgerState {
    LedgerState(
      map[TraderA := 1000.0, TraderB := 500.0],
      map["StockA" := Stock("StockA", 9.5, 100), "StockB" := Stock("StockB", 5.7, 70)],
      [])
  }

  /** Trader A buys 10 StockA: the order costs 95, the balance drops to 905 and the inventory to 90. */
  lemma BuyTenShares()
    ensures Settle(Initial(), TraderA, "StockA", "buy", 10) == (
      Success(Order(Buy, TraderA, "StockA", 10, 95.0, "success")),
      LedgerState(
        map[TraderA := 905.0, TraderB := 500.0],
        map["StockA" := Stock("StockA", 9.5, 90), "StockB" := Stock("StockB", 5.7, 70)],
        [Order(Buy, TraderA, "StockA", 10, 95.0, "success")]))
  {
    SettleValidated(Initial(), TraderA, "StockA", "buy", 10, Buy, 95.0);
    var st := Initial();
    assert st.balances[TraderA := 1000.0 - 95.0] == map[TraderA := 905.0, TraderB := 500.0];
    assert st.stocks["StockA" := Stock("StockA", 9.5, 100 - 10)]
      == map["StockA" := Stock("StockA", 9.5, 90), "StockB" := Stock("StockB", 5.7, 70)];
    var res := Settle(st, TraderA, "StockA", "buy", 10);
    assert res.0 == Success(Order(Buy, TraderA, "StockA", 10, 95.0, "success"));
    assert res.1.balances == map[TraderA := 905.0, TraderB := 500.0];
    assert res.1.stocks == map["StockA" := Stock("StockA", 9.5, 90), "StockB" := Stock("StockB", 5.7, 70)];
    assert res.1.orders == [Order(Buy, TraderA, "StockA", 10, 95.0, "success")];
  }

  /** Trader B cannot afford 100 StockA (950 against a balance of 500); nothing changes. */
  lemma BuyBeyondBalance()
    ensures Settle(Initial(), TraderB, "StockA", "buy", 100) == (Failure(InsufficientFunds), Initial())
  {
  }

  /** Trader A can afford 100 StockB (570) but only 70 are left; nothing changes. */
  lemma BuyBeyondInventory()
    ensures Settle(Initial(), TraderA, "StockB", "buy", 100) == (Failure(InsufficientInventory), Initial())
  {
  }

  /** The ledger after trader A bought 20 StockA. */
  function AfterBuyingTwenty(): LedgerState {
    LedgerState(
      map[TraderA := 810.0, TraderB := 500.0],
      map["StockA" := Stock("StockA", 9.5, 80), "StockB" := Stock("StockB", 5.7, 70)],
      [Order(Buy, TraderA, "StockA", 20, 190.0, "success")])
  }

  /** After buying 20 StockA, trader A holds 20 of them. */
  lemma HoldingTwenty()
    ensures HasOrder(AfterBuyingTwenty().orders, TraderA, "StockA", Buy)
    ensures NetShares(AfterBuyingTwenty().orders, TraderA, "StockA") == 20
  {
    var o := AfterBuyingTwenty().orders[0];
    assert AfterBuyingTwenty().orders == [] + [o];
    TradedAppend([], o, TraderA, "StockA", Buy);
    TradedAppend([], o, TraderA, "StockA", Sell);
  }

  lemma BuyTwenty()
    ensures Settle(Initial(), TraderA, "StockA", "buy", 20) == (
      Success(Order(Buy, TraderA, "StockA", 20, 190.0, "success")), AfterBuyingTwenty())
  {
    SettleValidated(Initial(), TraderA, "StockA", "buy", 20, Buy, 190.0);
    var res := Settle(Initial(), TraderA, "StockA", "buy", 20);
    assert res.1.balances == AfterBuyingTwenty().balances;
    assert res.1.stocks == AfterBuyingTwenty().stocks;
    assert res.1.orders == AfterBuyingTwenty().orders;
  }

  /** Having bought 20 StockA, trader A cannot sell 30; nothing changes. */
  lemma SellBeyondHoldings()
    ensures Settle(AfterBuyingTwenty(), TraderA, "StockA", "sell", 30)
      == (Failure(InsufficientShares), AfterBuyingTwenty())
  {
    var st := AfterBuyingTwenty();
    HoldingTwenty();
    SettleRefused(st, TraderA, "StockA", "sell", 30, 285.0);
  }

  /**
   * Having bought 20 StockA, trader A may sell 10: the balance grows by the
   * 95 the shares fetch and the inventory gets the 10 shares back. The
   * endpoint test also buys 30 StockB first; that buy is left out here.
   */
  lemma SellTen()
    ensures Settle(AfterBuyingTwenty(), TraderA, "StockA", "sell", 10) == (
      Success(Order(Sell, TraderA, "StockA", 10, 95.0, "success")),
      LedgerState(
        map[TraderA := 905.0, TraderB := 500.0],
        map["StockA" := Stock("StockA", 9.5, 90), "StockB" := Stock("StockB", 5.7, 70)],
        AfterBuyingTwenty().orders + [Order(Sell, TraderA, "StockA", 10, 95.0, "success")]))
  {
    var st := AfterBuyingTwenty();
    HoldingTwenty();
    assert Validate(st.orders, 810.0, st.stocks["StockA"], TraderA, Sell, 10, 95.0) == Pass;
    assert ValidateOrder(st.orders, 810.0, st.stocks["StockA"], TraderA, "sell", 10, 95.0) == Success(Sell);
    SettleValidated(st, TraderA, "StockA", "sell", 10, Sell, 95.0);
    var res := Settle(st, TraderA, "StockA", "sell", 10);
    assert res.1.balances == map[TraderA := 905.0, TraderB := 500.0];
    assert res.1.stocks == map["StockA" := Stock("StockA", 9.5, 90), "StockB" := Stock("StockB", 5.7, 70)];
  }

  /** Selling exactly the shares held is accepted. */
  lemma SellAllHeld()
    ensures Settle(AfterBuyingTwenty(), TraderA, "StockA", "sell", 20).0.Success?
  {
    var st := AfterBuyingTwenty();
    HoldingTwenty();
    SettleAcceptsExactly(st, TraderA, "StockA", "sell", 20);
  }

  /** A sell of a stock never bought is refused as having no shares at all. */
  lemma SellWithoutBuying()
    ensures Settle(Initial(), TraderA, "StockA", "sell", 1) == (Failure(NoSharesToSell), Initial())
  {
  }

  /** A quantity of zero and an unknown order type are refused before the business rules. */
  lemma MalformedRequests()
    ensures Settle(Initial(), TraderA, "StockA", "buy", 0) == (Failure(InvalidQuantity), Initial())
    ensures Settle(Initial(), TraderA, "StockA", "hold", 1) == (Failure(UnknownOrderType), Initial())
    ensures Settle(Initial(), TraderA, "StockC", "buy", 1) == (Failure(UnknownStock), Initial())
  {
  }

  /**
   * Trader B buys 50 StockA at 9.5; once the price rises by 4.8 the order's
   * projected gain is 50 * 4.8 = 240, while its amount stays 475.
   */
  lemma GainAfterPriceRise()
    ensures var o := Order(Buy, TraderB, "StockA", 50, 475.0, "success");
      && Settle(Initial(), TraderB, "StockA", "buy", 50).0 == Success(o)
      && ProjectedGain(o, Stock("StockA", 9.5 + 4.8, 50)) == Some(240.0)
  {
  }

  /**
   * Buying 50 shares and selling 20 at an unchanged price P leaves 30 shares
   * and 30 * P invested; the sell side shows 20 shares for 20 * P.
   */
  lemma PositionAfterPartialSale(trader: TraderId, stock: string, p: real)
    ensures var orders := [Order(Buy, trader, stock, 50, 50.0 * p, "success"),
                           Order(Sell, trader, stock, 20, 20.0 * p, "success")];
      Invested(orders, trader, stock)
        == Some(Position(Totals(50.0 * p, 50), Totals(20.0 * p, 20), 30.0 * p, 30))
  {
    BoughtFiftySoldTwenty(trader, stock, p);
  }

  /** The reference totals of a log holding a buy of 50 followed by a sell of 20. */
  lemma BoughtFiftySoldTwenty(trader: TraderId, stock: string, p: real)
    ensures var orders := [Order(Buy, trader, stock, 50, 50.0 * p, "success"),
                           Order(Sell, trader, stock, 20, 20.0 * p, "success")];
      && HasOrder(orders, trader, stock, Buy)
      && SharesTraded(orders, trader, stock, Buy) == 50
      && SharesTraded(orders, trader, stock, Sell) == 20
      && AmountTraded(orders, trader, stock, Buy) == 50.0 * p
      && AmountTraded(orders, trader, stock, Sell) == 20.0 * p
  {
    var b := Order(Buy, trader, stock, 50, 50.0 * p, "success");
    var s := Order(Sell, trader, stock, 20, 20.0 * p, "success");
    assert [b, s] == [b] + [s];
    assert [b] == [] + [b];
    TradedAppend([], b, trader, stock, Buy);
    TradedAppend([], b, trader, stock, Sell);
    TradedAppend([b], s, trader, stock, Buy);
    TradedAppend([b], s, trader, stock, Sell);
  }
}
