/**
 * Order settlement: the ledger of trader balances, stock inventories and the
 * append-only order log, and the operation that validates an order and
 * applies it to all three.
 *
 * `Settle` is the settlement as a function of the ledger's contents;
 * `Ledger.PlaceOrder` performs it in place, step by step, and is proved to
 * agree with it. The lemmas state what a settlement promises.
 */
module Views {
  import opened Wrappers
  import opened Models
  import opened Serializers

  /** The contents of the ledger at one moment. */
  datatype LedgerState = LedgerState(
    balances: map<TraderId, real>,
    stocks: map<string, Stock>,
    orders: seq<Order>)

  /** One settlement request of an authenticated trader. */
  datatype Request = Request(trader: TraderId, stock: string, code: string, quantity: int)

  /** The orders a trader is shown: their own, in log order. */
  function OrdersOf(orders: seq<Order>, trader: TraderId): (r: seq<Order>)
    ensures |r| <= |orders|
    ensures forall o :: o in r <==> o in orders && o.trader == trader
    ensures forall o :: multiset(r)[o] == if o.trader == trader then multiset(orders)[o] else 0
  {
    if orders == [] then []
    else
      var init, last := orders[..|orders| - 1], orders[|orders| - 1];
      assert orders == init + [last];
      assert multiset(orders) == multiset(init) + multiset{last};
      var rest := OrdersOf(init, trader);
      if last.trader == trader then rest + [last] else rest
  }

  /**
   * Settles one order of `trader` on the stock named `stockName`: the amount
   * is the quantity at the current price; a buy takes the amount from the
   * balance and the shares from the inventory, a sell gives both back; the
   * new order is appended to the log. A refused order changes nothing.
   */
  function Settle(st: LedgerState, trader: TraderId, stockName: string, code: string, quantity: int)
    : (r: (Result<Order, Error>, LedgerState))
    requires trader in st.balances
    ensures stockName !in st.stocks ==> r == (Failure(UnknownStock), st)
    ensures r.0.Failure? ==> r.1 == st
    ensures r.0.Success? ==> r.1.orders == st.orders + [r.0.value] && r.0.value.trader == trader
  {
    if stockName !in st.stocks then (Failure(UnknownStock), st)
    else
      var stock := st.stocks[stockName];
      var amount := quantity as real * stock.price;
      match ValidateOrder(st.orders, st.balances[trader], stock, trader, code, quantity, amount)
      case Failure(e) => (Failure(e), st)
      case Success(t) =>
        var balance := if t == Buy then st.balances[trader] - amount else st.balances[trader] + amount;
        var left := if t == Buy then stock.quantity - quantity else stock.quantity + quantity;
        var order := Order(t, trader, stockName, quantity, amount, DefaultStatus);
        (Success(order), LedgerState(
           st.balances[trader := balance],
           st.stocks[stockName := stock.(quantity := left)],
           st.orders + [order]))
  }

  /** The ledger a validated order of type `t` leaves behind. */
  lemma SettleValidated(st: LedgerState, trader: TraderId, stockName: string, code: string, quantity: int,
                        t: OrderType, amount: real)
    requires trader in st.balances && stockName in st.stocks
    requires amount == quantity as real * st.stocks[stockName].price
    requires ValidateOrder(st.orders, st.balances[trader], st.stocks[stockName], trader, code, quantity, amount)
      == Success(t)
    ensures Settle(st, trader, stockName, code, quantity) == (
      Success(Order(t, trader, stockName, quantity, amount, DefaultStatus)),
      LedgerState(
        st.balances[trader := if t == Buy then st.balances[trader] - amount else st.balances[trader] + amount],
        st.stocks[stockName := st.stocks[stockName].(
          quantity := if t == Buy then st.stocks[stockName].quantity - quantity
                      else st.stocks[stockName].quantity + quantity)],
        st.orders + [Order(t, trader, stockName, quantity, amount, DefaultStatus)]))
  {
    var stock := st.stocks[stockName];
    assert amount == quantity as real * stock.price;
    var res := Settle(st, trader, stockName, code, quantity);
    assert res.0.Success?;
    assert res.0.value == Order(t, trader, stockName, quantity, amount, DefaultStatus);
    assert res.1.orders == st.orders + [Order(t, trader, stockName, quantity, amount, DefaultStatus)];
    assert res.1.balances == st.balances[trader := if t == Buy then st.balances[trader] - amount else st.balances[trader] + amount];
  }

  /** An order that fails validation comes back with the validation's error and an untouched ledger. */
  lemma SettleRefused(st: LedgerState, trader: TraderId, stockName: string, code: string, quantity: int,
                      amount: real)
    requires trader in st.balances && stockName in st.stocks
    requires amount == quantity as real * st.stocks[stockName].price
    requires ValidateOrder(st.orders, st.balances[trader], st.stocks[stockName], trader, code, quantity, amount)
      .Failure?
    ensures Settle(st, trader, stockName, code, quantity) == (
      Failure(ValidateOrder(st.orders, st.balances[trader], st.stocks[stockName], trader, code, quantity, amount)
        .error),
      st)
  {
  }

  /** Settles the requests one after another. */
  function Run(st: LedgerState, reqs: seq<Request>): LedgerState
    requires forall i :: 0 <= i < |reqs| ==> reqs[i].trader in st.balances
    decreases |reqs|
  {
    if reqs == [] then st
    else
      var q := reqs[0];
      var next := Settle(st, q.trader, q.stock, q.code, q.quantity).1;
      assert next.balances.Keys == st.balances.Keys;
      Run(next, reqs[1..])
  }

  /** Every stock is filed under its own name. */
  predicate Catalogued(st: LedgerState) {
    forall n :: n in st.stocks ==> st.stocks[n].name == n
  }

  /** No trader has ever sold more shares of a stock than they bought. */
  ghost predicate NoOversell(orders: seq<Order>) {
    forall trader: TraderId, stock: string :: NetShares(orders, trader, stock) >= 0
  }

  /**
   * The ledger's invariant: stocks are filed under their names, every logged
   * order has a positive quantity and refers to a known trader and stock, and
   * no trader holds a negative number of shares.
   */
  ghost predicate WellFormed(st: LedgerState) {
    && Catalogued(st)
    && (forall i :: 0 <= i < |st.orders| ==>
          st.orders[i].quantity >= 1 && st.orders[i].trader in st.balances && st.orders[i].stock in st.stocks)
    && NoOversell(st.orders)
  }

  /** No balance and no inventory is negative. */
  predicate Solvent(st: LedgerState) {
    && (forall t :: t in st.balances ==> st.balances[t] >= 0.0)
    && (forall n :: n in st.stocks ==> st.stocks[n].quantity >= 0)
  }

  predicate PricesNonNegative(st: LedgerState) {
    forall n :: n in st.stocks ==> st.stocks[n].price >= 0.0
  }

  // ---------------------------------------------------------------------------
  // What one settlement promises

  /**
   * A settled buy costs the quantity at the price of the moment: the balance
   * drops by that amount and the inventory by the quantity; nothing else in
   * the two ledgers changes.
   */
  lemma SettleBuy(st: LedgerState, trader: TraderId, stockName: string, code: string, quantity: int)
    requires trader in st.balances
    requires Settle(st, trader, stockName, code, quantity).0.Success?
    requires code == Code(Buy)
    ensures stockName in st.stocks
    ensures var (r, post) := Settle(st, trader, stockName, code, quantity);
      var s := st.stocks[stockName];
      && r.value.amount == quantity as real * s.price
      && post.balances == st.balances[trader := st.balances[trader] - r.value.amount]
      && post.stocks == st.stocks[stockName := s.(quantity := s.quantity - quantity)]
  {
  }

  /**
   * A settled sell fetches the quantity at the price of the moment: the
   * balance grows by that amount and the shares go back to the inventory.
   */
  lemma SettleSell(st: LedgerState, trader: TraderId, stockName: string, code: string, quantity: int)
    requires trader in st.balances
    requires Settle(st, trader, stockName, code, quantity).0.Success?
    requires code == Code(Sell)
    ensures stockName in st.stocks
    ensures var (r, post) := Settle(st, trader, stockName, code, quantity);
      var s := st.stocks[stockName];
      && r.value.amount == quantity as real * s.price
      && post.balances == st.balances[trader := st.balances[trader] + r.value.amount]
      && post.stocks == st.stocks[stockName := s.(quantity := s.quantity + quantity)]
  {
  }

  /** A refused order leaves balances, inventories and the log as they were. */
  lemma SettleRejectUnchanged(st: LedgerState, trader: TraderId, stockName: string, code: string, quantity: int)
    requires trader in st.balances
    ensures var (r, post) := Settle(st, trader, stockName, code, quantity);
      r.Failure? ==> post == st
  {
  }

  /** Submitting a refused order again, to the unchanged ledger, is refused the same way. */
  lemma RejectionIsRepeatable(st: LedgerState, trader: TraderId, stockName: string, code: string, quantity: int)
    requires trader in st.balances
    requires Settle(st, trader, stockName, code, quantity).0.Failure?
    ensures var (r, post) := Settle(st, trader, stockName, code, quantity);
      Settle(post, trader, stockName, code, quantity) == (r, post)
  {
  }

  /**
   * A settled order is appended as the log's one new entry, carrying the
   * request's type, trader, stock and quantity, the computed amount and the
   * default status.
   */
  lemma SettleAppendsOne(st: LedgerState, trader: TraderId, stockName: string, code: string, quantity: int)
    requires trader in st.balances
    requires Settle(st, trader, stockName, code, quantity).0.Success?
    ensures stockName in st.stocks
    ensures var (r, post) := Settle(st, trader, stockName, code, quantity);
      && post.orders == st.orders + [r.value]
      && Code(r.value.orderType) == code
      && r.value.trader == trader && r.value.stock == stockName && r.value.quantity == quantity
      && r.value.amount == quantity as real * st.stocks[stockName].price
      && r.value.status == "success"
  {
  }

  /**
   * Exactly which orders are settled: the stock must exist, the type be buy
   * or sell and the quantity at least 1; a buy must be affordable and in
   * stock, a sell must follow a buy of the stock and not exceed the net
   * shares held.
   */
  lemma SettleAcceptsExactly(st: LedgerState, trader: TraderId, stockName: string, code: string, quantity: int)
    requires trader in st.balances && Catalogued(st)
    ensures Settle(st, trader, stockName, code, quantity).0.Success? <==>
      && stockName in st.stocks
      && quantity >= 1
      && ((code == Code(Buy)
             && quantity as real * st.stocks[stockName].price <= st.balances[trader]
             && quantity <= st.stocks[stockName].quantity)
          || (code == Code(Sell)
             && HasOrder(st.orders, trader, stockName, Buy)
             && quantity <= NetShares(st.orders, trader, stockName)))
  {
  }

  /**
   * A settlement keeps balances and inventories non-negative: always for a
   * buy, and for a sell when the stock's price is not negative.
   */
  lemma SettleKeepsSolvent(st: LedgerState, trader: TraderId, stockName: string, code: string, quantity: int)
    requires trader in st.balances
    requires Solvent(st)
    requires code == Code(Buy) || (stockName in st.stocks ==> st.stocks[stockName].price >= 0.0)
    ensures Solvent(Settle(st, trader, stockName, code, quantity).1)
  {
  }

  /** A settlement keeps the ledger's invariant; in particular no trader is left short of shares. */
  lemma SettleKeepsWellFormed(st: LedgerState, trader: TraderId, stockName: string, code: string, quantity: int)
    requires trader in st.balances
    requires WellFormed(st)
    ensures WellFormed(Settle(st, trader, stockName, code, quantity).1)
  {
    var (r, post) := Settle(st, trader, stockName, code, quantity);
    if r.Success? {
      var o := r.value;
      var s := st.stocks[stockName];
      var v := Validate(st.orders, st.balances[trader], s, trader, o.orderType, quantity, o.amount);
      assert v == Pass;
      assert o.orderType == Sell ==> quantity <= NetShares(st.orders, trader, stockName);
      forall u: TraderId, n: string
        ensures NetShares(post.orders, u, n) >= 0
      {
        TradedAppend(st.orders, o, u, n, Buy);
        TradedAppend(st.orders, o, u, n, Sell);
        assert NetShares(st.orders, u, n) >= 0;
      }
      assert forall i :: 0 <= i < |st.orders| ==> post.orders[i] == st.orders[i];
      assert post.orders[|st.orders|] == o;
    }
  }

  /** Over any run of requests the invariant holds: net shares never go negative. */
  lemma {:induction false} RunKeepsWellFormed(st: LedgerState, reqs: seq<Request>)
    requires forall i :: 0 <= i < |reqs| ==> reqs[i].trader in st.balances
    requires WellFormed(st)
    ensures WellFormed(Run(st, reqs))
    ensures NoOversell(Run(st, reqs).orders)
    decreases |reqs|
  {
    if reqs != [] {
      var q := reqs[0];
      SettleKeepsWellFormed(st, q.trader, q.stock, q.code, q.quantity);
      var next := Settle(st, q.trader, q.stock, q.code, q.quantity).1;
      assert next.balances.Keys == st.balances.Keys;
      RunKeepsWellFormed(next, reqs[1..]);
    }
  }

  /** With no negative prices, a run of requests never overdraws a balance or an inventory. */
  lemma {:induction false} RunKeepsSolvent(st: LedgerState, reqs: seq<Request>)
    requires forall i :: 0 <= i < |reqs| ==> reqs[i].trader in st.balances
    requires Solvent(st) && PricesNonNegative(st)
    ensures Solvent(Run(st, reqs))
    decreases |reqs|
  {
    if reqs != [] {
      var q := reqs[0];
      SettleKeepsSolvent(st, q.trader, q.stock, q.code, q.quantity);
      var next := Settle(st, q.trader, q.stock, q.code, q.quantity).1;
      assert next.balances.Keys == st.balances.Keys;
      assert PricesNonNegative(next);
      RunKeepsSolvent(next, reqs[1..]);
    }
  }

  /**
   * After a settled order its trader's list shows it as the newest entry,
   * and every other trader's list is unchanged.
   */
  lemma OrdersOfAfterSettle(st: LedgerState, trader: TraderId, stockName: string, code: string, quantity: int,
                            other: TraderId)
    requires trader in st.balances
    requires Settle(st, trader, stockName, code, quantity).0.Success?
    ensures var (r, post) := Settle(st, trader, stockName, code, quantity);
      && OrdersOf(post.orders, trader) == OrdersOf(st.orders, trader) + [r.value]
      && (other != trader ==> OrdersOf(post.orders, other) == OrdersOf(st.orders, other))
  {
  }

  // ---------------------------------------------------------------------------
  // The ledger, updated in place

  class Ledger {
    var balances: map<TraderId, real>
    var stocks: map<string, Stock>
    var orders: seq<Order>

    function State(): LedgerState
      reads this
    {
      LedgerState(balances, stocks, orders)
    }

    ghost predicate Valid()
      reads this
    {
      WellFormed(State())
    }

    /** A ledger over the given accounts and catalog, with no orders yet. */
    constructor(balances: map<TraderId, real>, stocks: map<string, Stock>)
      requires Catalogued(LedgerState(balances, stocks, []))
      ensures Valid()
      ensures State() == LedgerState(balances, stocks, [])
    {
      this.balances := balances;
      this.stocks := stocks;
      this.orders := [];
    }

    /**
     * Places an order for the authenticated `trader`: looks up the stock,
     * prices the order, validates it, then debits or credits the balance,
     * takes or returns the shares, and appends the order.
     */
    method PlaceOrder(trader: TraderId, stockName: string, code: string, quantity: int)
      returns (r: Result<Order, Error>)
      requires Valid() && trader in balances
      modifies this
      ensures Valid()
      ensures (r, State()) == Settle(old(State()), trader, stockName, code, quantity)
      ensures r.Failure? ==> State() == old(State())
      ensures r.Success? ==> orders == old(orders) + [r.value]
    {
      ghost var before := State();
      SettleKeepsWellFormed(before, trader, stockName, code, quantity);
      if stockName !in stocks {
        return Failure(UnknownStock);
      }
      var stock := stocks[stockName];
      var amount := quantity as real * stock.price;
      var checked := ValidateOrder(orders, balances[trader], stock, trader, code, quantity, amount);
      if checked.Failure? {
        SettleRefused(before, trader, stockName, code, quantity, amount);
        return Failure(checked.error);
      }
      var t := checked.value;
      SettleValidated(before, trader, stockName, code, quantity, t, amount);
      if t == Buy {
        balances := balances[trader := balances[trader] - amount];
        stocks := stocks[stockName := stock.(quantity := stock.quantity - quantity)];
      } else {
        balances := balances[trader := balances[trader] + amount];
        stocks := stocks[stockName := stock.(quantity := stock.quantity + quantity)];
      }
      var order := Order(t, trader, stockName, quantity, amount, DefaultStatus);
      orders := orders + [order];
      r := Success(order);
    }
  }
}
