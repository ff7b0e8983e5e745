# Order settlement ledger of the fsit trading app

This project models the core of a small stock-trading application: traders
hold a cash balance, stocks have a price and a finite inventory, and every
settled buy or sell is kept as an order in an append-only log.

- `models.dfy` (module `Models`) holds the stored records: `Stock`, `Order`,
  the two order types with their codes `"buy"` and `"sell"`, and the default
  status `"success"`. It also holds the order's computed properties: price per
  share, current order amount and projected gain. The stock's availability is
  here too.
- `serializers.dfy` (module `Serializers`) holds the business rules an order
  must pass (`Validate`, and `ValidateOrder` with the field checks in front)
  and the trader's position in one stock (`Invested`). The log is read the way
  the store's queries read it: filter, then a sum that is absent over no rows.
  Beside that are reference sums over the whole log (`SharesTraded`,
  `AmountTraded`, `NetShares`). `MatchingSums` proves that the two agree.
  `Matching` (the filter), `SumQuantity` and `SumAmount` (the `Sum`
  aggregate) are helpers: what they compute is stated by the
  `MatchingTotals`, `MatchingEmptyIff` and `MatchingSums` rows below.
- `views.dfy` (module `Views`) holds settlement. `Settle` is the settlement as
  a function of the ledger's contents. `Ledger` is the ledger as an object
  whose fields are updated in place, and `Ledger.PlaceOrder` performs one
  settlement step by step in the order the view does it: validate, then change
  the balance, then the stock's quantity, then append the order. It is proved
  equal to `Settle`. `OrdersOf` is the per-trader order list.
- `scenarios.dfy` (module `Scenarios`) replays the endpoint test cases.
- `wrappers.dfy` holds `Option`, `Result` and `Outcome`.

Money is exact `real` and share counts are `int`. A refused order comes back
as `Failure(e)`, where `e` is one of `UnknownStock`, `UnknownOrderType`,
`InvalidQuantity`, `NoSharesToSell`, `InsufficientShares`,
`InsufficientFunds` and `InsufficientInventory`. Only an authenticated trader
reaches settlement. That is a precondition: the trader has a balance entry.

Points where the code's behaviour is easy to misread:

- A sell by a trader who has bought the stock but has already sold every
  share is refused as `InsufficientShares`, not as "no shares". Only a trader
  with no buy order on the stock at all gets `NoSharesToSell`.
- The code does its three writes without a transaction. The model performs
  them in one sequential method, where nothing can fail between validation
  and the last write.
- The stock's price has no lower bound. A sell at a negative price lowers the
  balance. Balances stay non-negative only while prices do (see
  `Views.SettleKeepsSolvent`).

## Model

| member | source | states |
|---|---|---|
| `Models.ParseOrderType` | tradingapp/models.py:26-30 | only the codes of the two order choices are accepted, and an accepted code is the code of the type returned |
| `Models.ParseCodeRoundTrip` | tradingapp/models.py:26-30 | parsing the code of an order type gives that type back |
| `Models.PricePerShare` | tradingapp/models.py:49-51 | price per share times the quantity is the order's amount (defined because quantity is at least 1) |
| `Models.CurrentOrderAmount` | tradingapp/models.py:53-55 | the order's value at the current price equals its stored amount exactly when the current price is the price per share it was settled at |
| `Models.ProjectedGain` | tradingapp/models.py:57-61 | absent exactly for sell orders; for a buy it is (current price − price per share) × quantity |
| `Models.IsAvailable` | tradingapp/models.py:20-22 | for a non-negative inventory, a stock is available exactly when at least one share is left |
| `Models.AmountIsSnapshot` | tradingapp/models.py:36-55 | the stored amount stays fixed; the current order amount moves away from it by quantity × the price change since settlement |
| `Models.ProjectedGainAfterRise` | tradingapp/models.py:57-61 | after the price rises by d over the settlement price, a buy order's projected gain is quantity × d |
| `Serializers.MatchingTotals` | tradingapp/api/serializers.py:22-29 | summing the filtered orders gives the shares and money the trader traded of that type and stock |
| `Serializers.MatchingEmptyIff` | tradingapp/api/serializers.py:17-19 | the filter of a trader's orders of one type on one stock is empty exactly when the trader has no such order |
| `Serializers.MatchingSums` | tradingapp/api/serializers.py:64-76 | the Sum aggregate over the filtered orders is absent exactly when there is no such order; otherwise, or read with default 0, it is the shares (or money) traded |
| `Serializers.TradedAppend` | tradingapp/api/serializers.py:64-74 | appending one order moves the traded shares and money by that order alone, and only if it is the trader's order of that type on that stock |
| `Serializers.NothingTradedWithoutOrders` | tradingapp/api/serializers.py:75-76 | with no matching order, the shares and money traded are zero |
| `Serializers.Validate` | tradingapp/api/serializers.py:55-90 | a sell with no prior buy is refused as having no shares; otherwise a sell passes exactly when quantity ≤ bought − sold, else it fails with InsufficientShares; a buy passes exactly when amount ≤ balance and quantity ≤ the stock's quantity; the balance check comes first |
| `Serializers.ValidateOrder` | tradingapp/api/serializers.py:44-90 | an unknown order code is refused with UnknownOrderType; a known code with a quantity below 1 is refused with InvalidQuantity; success means the code names the returned type and the business rules pass; failure after valid fields carries the business rule's error; a sell of more than the net shares is refused whatever the balance or inventory |
| `Serializers.Invested` | tradingapp/api/serializers.py:15-41 | absent exactly when the trader has no buy of the stock; otherwise buy and sell totals are the money and shares traded, net shares are bought − sold, and net invested is buy amount − sell amount |
| `Serializers.InvestedWithoutSells` | tradingapp/api/serializers.py:24-26 | with buys but no sells, the sell side is zero (not absent) and net shares are the bought shares |
| `Serializers.SellLimitIsPositionNetShares` | tradingapp/api/serializers.py:71-83 | once the trader has bought the stock, a sell passes validation exactly when its quantity is at most the position's net shares |
| `Serializers.AvailableIffOneShareBuyable` | tradingapp/models.py:20-22 | with a non-negative inventory, a stock is available exactly when an affordable buy of one share passes validation |
| `Views.OrdersOf` | tradingapp/api/views.py:24-25 | the listed orders are exactly the log's orders whose trader is the caller, each as many times as it occurs in the log, and no other orders |
| `Views.Settle` | tradingapp/api/views.py:30-71 | an unknown stock is refused with UnknownStock before any other check and changes nothing; any refusal leaves the ledger as it was; a settled order belongs to the requesting trader and is appended to the log as its only new entry |
| `Views.OrdersOfAfterSettle` | tradingapp/api/views.py:24-25 | after a settled order, its trader's list gains that order as the newest entry, and every other trader's list is unchanged |
| `Views.SettleBuy` | tradingapp/api/views.py:53-59 | a settled buy costs quantity × the current price; the balance drops by that amount and the stock's quantity by the order quantity; no other entry changes |
| `Views.SettleSell` | tradingapp/api/views.py:60-66 | a settled sell credits quantity × the current price to the balance and returns the shares to the stock; no other entry changes |
| `Views.SettleRejectUnchanged` | tradingapp/api/views.py:49-51 | a refused order leaves balances, stocks and the order log unchanged |
| `Views.RejectionIsRepeatable` | tradingapp/api/views.py:49-51 | resubmitting a refused order to the unchanged ledger is refused the same way |
| `Views.SettleAppendsOne` | tradingapp/api/views.py:43-68 | a settled order is appended as the log's only new entry, with the request's type, trader, stock and quantity, the computed amount and status "success" |
| `Views.SettleAcceptsExactly` | tradingapp/api/views.py:30-51 | an order is settled exactly when the stock exists and quantity ≥ 1, and either it is an affordable in-stock buy or a sell after a buy that does not exceed the net shares |
| `Views.SettleKeepsSolvent` | tradingapp/api/views.py:53-66 | balances and stock quantities stay non-negative after a buy, and after a sell at a non-negative price |
| `Views.SettleKeepsWellFormed` | tradingapp/api/serializers.py:79-80 | a settlement keeps the ledger invariant: every logged order has quantity ≥ 1 and a known trader and stock, and no trader's net shares of any stock are negative |
| `Views.RunKeepsWellFormed` | tradingapp/api/serializers.py:79-80 | over any sequence of requests, every trader's net shares in every stock stay ≥ 0 |
| `Views.RunKeepsSolvent` | tradingapp/api/views.py:53-66 | with non-negative prices, no sequence of requests makes a balance or a stock quantity negative |
| `Views.Ledger.constructor` | tradingapp/tests.py:20-31 | a new ledger holds the given balances and stocks, has an empty log and satisfies the invariant |
| `Views.Ledger.PlaceOrder` | tradingapp/api/views.py:30-71 | updates the balance, then the stock's quantity, then the log, and ends equal to Settle on the old ledger; keeps the invariant; a refusal changes nothing and a success appends exactly the returned order |
| `Scenarios.BuyTenShares` | tradingapp/tests.py:88-105 | balance 1000, price 9.5, quantity 100: buying 10 gives amount 95, balance 905 and quantity 90 |
| `Scenarios.BuyBeyondBalance` | tradingapp/tests.py:175-192 | buying 100 at 9.5 on a balance of 500 is refused for funds; nothing changes |
| `Scenarios.BuyBeyondInventory` | tradingapp/tests.py:194-212 | buying 100 of a stock with 70 left is refused for inventory; nothing changes |
| `Scenarios.BuyTwenty` | tradingapp/tests.py:267-270 | buying 20 at 9.5 gives balance 810 and quantity 80 |
| `Scenarios.SellBeyondHoldings` | tradingapp/tests.py:263-281 | after buying 20, selling 30 is refused for shares; nothing changes |
| `Scenarios.SellTen` | tradingapp/tests.py:239-261 | after buying 20, selling 10 credits 95 and returns 10 shares to the stock (the StockB buy the test places in between is left out) |
| `Scenarios.SellAllHeld` | tradingapp/api/serializers.py:79-83 | selling exactly the shares held is accepted |
| `Scenarios.SellWithoutBuying` | tradingapp/api/serializers.py:64-69 | a sell of a stock never bought is refused as having no shares |
| `Scenarios.MalformedRequests` | tradingapp/api/serializers.py:44-45 | quantity 0, an unknown order type and an unknown stock are each refused with their own error, and nothing changes |
| `Scenarios.GainAfterPriceRise` | tradingapp/tests.py:214-237 | buying 50 at 9.5 and then raising the price by 4.8 gives a projected gain of 240 |
| `Scenarios.PositionAfterPartialSale` | tradingapp/api/serializers.py:15-41 | buying 50 and selling 20 at an unchanged price P gives net shares 30, net invested 30P, and a sell side of 20 shares for 20P |

## Left out

- HTTP and framework plumbing is not modelled: routers, URL configuration, permission classes, token authentication, response status codes and the output representation. An authenticated caller is the precondition "the trader has a balance entry". Every refusal is an error tag.
- Persistence is replaced by two maps and a sequence: `save()`, reloading, `aggregate(Sum)` as a database query, the timestamps and the newest-first ordering. The model's log is oldest-first and the filters keep log order.
- Looking up a stock by id or by name is reduced to membership of the name in the stock map. A missing stock is the `UnknownStock` error.
- The view writes `stock_obj.id` into the request (tradingapp/api/views.py:47), but `Stock` declares `name` as its primary key (tradingapp/models.py:6), so Django gives it no `id` field. Read as written, that line fails before validation. The model assumes the stock reference resolves to the stock's name, which is what the rest of the code and the tests expect.
- Parsing the request quantity with `int()` is left out, and so is the serializer treating quantity as a float. The model takes an integer quantity.
- Floating-point rounding of the money fields is left out. Money is exact `real`.
- Concurrency and transactions are left out. Settlement is one sequential method.
- The framework reports every field error at once. The model reports the first: unknown order type, then a quantity below 1.
- Error message texts are left out, including the "available shares" message that reports the bought shares.
- External price updates are not an operation of the model. The current stock is an argument of `CurrentOrderAmount` and `ProjectedGain`.
- The `remarks` field of an order is not modelled.
- A `status` sent with the request is not modelled. The order serializer accepts every field, so the source would save that status. In the model every settled order gets the default status `"success"`, as `Views.SettleAppendsOne` states.
- Migrations, the stock-seeding command, the profile API and the profile-creation hook are not part of this model. The hook gives a new non-superuser a starting balance of 100.
- Views.SettleKeepsSolvent: for a sell it assumes the stock's price is not negative, because the source puts no lower bound on prices and a sell at a negative price lowers the balance.
