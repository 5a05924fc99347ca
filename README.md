# pols_robot in Dafny

A model of the trading logic of pols_robot, a POLS/USDT monitor. The robot
quotes the token on KuCoin (a centralised order book) and on PancakeSwap (an
AMM router on the BSC chain). It evaluates the two cross-venue arbitrage
routes, alerts on a chat channel when one of them is profitable enough, and
runs a momentum exit strategy on KuCoin. Two stand-alone report scripts
(`get_pols_info.py` for KuCoin and `get_pols_pancake.py` for PancakeSwap)
summarise candles, order books, moving averages and balances.

Every venue read is a parameter of the model:

- the KuCoin order book, account list and order responses;
- the router's `getAmountsOut` output;
- the raw `balanceOf` amounts;
- the kline rows.

Amounts are exact `real`s. One module models each source file:

| module | file | form |
|---|---|---|
| `ExchangeBase` | exchange_base.py | the `PriceInfo` and `BalanceInfo` records |
| `KucoinExchange` | kucoin_exchange.py | the ladder walk is a method proved against the recursive `Walk`; balance and order prechecks are functions; the venue object is a class |
| `PancakeSwapExchange` | pancakeswap_exchange.py | quote and balance functions; the venue object is a class |
| `TelegramNotifier` | telegram_notifier.py | the fee-only evaluator and the significance gate are functions; the `Notifier` class holds the threshold, trade size, registered venues and sent alerts |
| `Monitor` | main.py | the transfer-loss evaluator |
| `TradingStrategy` | trading_strategy.py | the `Step` state machine on values; the `TradingStrategy` class updates its fields as `Step` says |
| `PolsPancake` | get_pols_pancake.py | the fill loop, order-book and moving-average loops as methods proved against recursive functions |
| `PolsInfo` | get_pols_info.py | credential check, kline parsing loops, candle statistics, order-book totals, account loop |
| `Wrappers`, `OrderBook`, `Series` | (shared) | Option/Result, price levels and their totals, sums |

Python's `except` clauses are modelled as error values:

- every `raise` and every exception the code lets escape (`IndexError`, `ZeroDivisionError`) becomes an `Err`;
- an exception that the code catches becomes whatever the handler produces: `None`, a reset, or an unchanged state.

## Model

| member | source | states |
|---|---|---|
| KucoinExchange.Walk | kucoin_exchange.py:46-60 | the ladder walk as a value: stops once nothing remains, takes a whole level while it fits, otherwise takes what remains; it returns the cost and the unfilled quantity (its properties are `WalkTakes` through `WalkCostAtMost`) |
| KucoinExchange.WalkLadder | kucoin_exchange.py:44-60 | the imperative ladder loop leaves exactly the cost and unfilled quantity of the recursive `Walk` |
| KucoinExchange.KucoinExchange.GetPriceInfo | kucoin_exchange.py:35-101 | the quote method returns, for the object's trade size, the quote function's result, including each way it raises |
| KucoinExchange.WalkTakes | kucoin_exchange.py:48-60 | the taken quantities sum to what was filled, each is at most its level's listed quantity, and the cost is the sum of price times taken |
| KucoinExchange.WalkRemainingNonNegative | kucoin_exchange.py:52-60 | starting from a non-negative size, the unfilled quantity never goes negative |
| KucoinExchange.WalkDepth | kucoin_exchange.py:48-63 | with non-negative quantities the walk leaves exactly the part of the order beyond the ladder's total depth |
| KucoinExchange.WalkIgnoresLaterLevels | kucoin_exchange.py:52-53 | once nothing remains, appending more levels changes neither the fill nor the quantities taken |
| KucoinExchange.WalkCostAtLeast | kucoin_exchange.py:55-60 | if every price is at least `lo`, the cost is at least `lo` times the filled quantity |
| KucoinExchange.WalkCostAtMost | kucoin_exchange.py:76-81 | if every price is at most `hi`, the revenue is at most `hi` times the filled quantity |
| KucoinExchange.Taken | kucoin_exchange.py:48-60 | the walk reaches at most as many levels as the ladder has |
| KucoinExchange.Quote | kucoin_exchange.py:35-100 | get_price_info as a value of the book read and the trade size. A missing book, then short asks, then short bids, then empty asks, then a size of 0 give their errors in that order; otherwise spot = first ask, and buy/sell price = cost/revenue over the size (its properties are `QuoteFillsExactly` through `QuoteWithinSpread`) |
| KucoinExchange.QuoteFillsExactly | kucoin_exchange.py:44-84 | a successful quote takes exactly the trade size from each side, at most the listed quantity per level, and costs price times taken |
| KucoinExchange.QuoteLiquidity | kucoin_exchange.py:62-63 | on non-negative quantities, the buy-liquidity error happens iff ask depth < size, the sell error iff asks suffice and bid depth < size, and the quote succeeds iff both sides suffice; no partial fill is ever returned |
| KucoinExchange.QuotePrices | kucoin_exchange.py:86-96 | on success the spot price is the first ask, buy/sell prices are cost and revenue over the size, and cost = price × size holds |
| KucoinExchange.AverageAtLeastFirst | kucoin_exchange.py:48-60 | filling a positive size from an ascending ladder averages at least the first price |
| KucoinExchange.AverageAtMostFirst | kucoin_exchange.py:69-81 | filling a positive size from a descending ladder averages at most the first price |
| KucoinExchange.QuoteWithinSpread | kucoin_exchange.py:48-89 | with ascending asks and descending bids, the average buy price is ≥ the spot price and the average sell price is ≤ the best bid |
| KucoinExchange.FirstAccount | kucoin_exchange.py:110-111 | a selected account has the requested currency |
| KucoinExchange.FirstAccountFound | kucoin_exchange.py:110-111 | no account is found iff none has the currency; a found one is in the list with no earlier account of that currency |
| KucoinExchange.Balance | kucoin_exchange.py:103-131 | the call fails iff the account read or its inner quote fails, the account read first; free and locked amounts are those of the first account of each currency, 0 when absent; the POLS value is free POLS × spot price |
| KucoinExchange.LockedPolsNotValued | kucoin_exchange.py:114-120 | two account lists differing only in holds give the same POLS valuation |
| KucoinExchange.FirstAccountIgnoresHolds | kucoin_exchange.py:110-117 | account selection and the available amount found do not depend on holds |
| KucoinExchange.LimitOrderRequest | kucoin_exchange.py:183-203 | the order is sent, unchanged, iff the balance read succeeds and neither a sell has free POLS < size nor a buy has free USDT < size × price; each shortfall gives its own error |
| KucoinExchange.MarketBuyOrder | kucoin_exchange.py:145-169 | a failed balance read or price read gives its own error; a shortfall below amount × buy price × 1.001 is rejected before sending; with enough USDT the venue's answer is the order id, and an empty answer is the order-failed error; an order id is returned only on that path |
| KucoinExchange.KucoinExchange.constructor | kucoin_exchange.py:14-17 | the venue starts with the given trade size |
| PancakeSwapExchange.Quote | pancakeswap_exchange.py:81-112 | get_price_info as a value of the router output: a router failure, then a size of 0, give their errors; otherwise spot = output / (size × 10^18), buy/sell = spot × 1.001 / × 0.999, and cost/revenue = price × size (its properties are `QuoteShape` and `QuoteOrdered`) |
| PancakeSwapExchange.QuoteShape | pancakeswap_exchange.py:81-109 | on success spot × (size × 10^18) is the router output, buy/sell are spot × 1.001 / × 0.999, cost = price × size, and buy cost − sell revenue = 0.002 × spot × size |
| PancakeSwapExchange.QuoteOrdered | pancakeswap_exchange.py:92-96 | for a non-negative router output and a positive size, buy ≥ spot ≥ sell ≥ 0 |
| PancakeSwapExchange.Balance | pancakeswap_exchange.py:114-143 | the call fails iff a `balanceOf` read or the inner quote fails, the reads first; locked amounts are always 0, free amounts are raw / 10^18, and the POLS value is free POLS × spot price |
| PancakeSwapExchange.PancakeSwapExchange.constructor | pancakeswap_exchange.py:55-58 | the venue starts with the given trade size |
| PancakeSwapExchange.PancakeSwapExchange.GetPriceInfo | pancakeswap_exchange.py:81-112 | the venue's quote for its current trade size, read from the object |
| TelegramNotifier.GainsAsWritten | telegram_notifier.py:212-270 | _calculate_arbitrage_gains as written: both profits and gross-cost percentages, but the K→P fee lines reuse the fees reassigned for P→K (exhibited by `AsWrittenStepsDisagree`) |
| TelegramNotifier.ArbitrageGains | telegram_notifier.py:212-270 | the same evaluation with each route's fee lines showing that route's fees (proved by `ArbitrageGainsCorrect`, and tied to the source by `ArbitrageGainsAgreesWithSource`) |
| TelegramNotifier.ArbitrageGainsCorrect | telegram_notifier.py:221-261 | the evaluator fails iff a gross buy cost is 0; otherwise both routes add up; K→P profit = net Pancake revenue − fee-inclusive KuCoin cost, and P→K mirrors it; percentage × gross buy cost = profit × 100 |
| TelegramNotifier.ArbitrageGainsAgreesWithSource | telegram_notifier.py:212-270 | the evaluator with corrected fee lines fails exactly when the source's does, and has the source's profits, percentages and P→K route |
| TelegramNotifier.AsWrittenStepsDisagree | telegram_notifier.py:224-255 | for concrete quotes, the source's K→P fee line shows the P→K KuCoin fee and the K→P steps do not add up to the profit |
| TelegramNotifier.KucoinToPancakeswapSection | telegram_notifier.py:292-301 | the K→P alert section: purchase at the KuCoin buy cost and its 0.1% fee, the transfer note, the sale shown at the PancakeSwap buy cost and its 0.25% fee, then the profit and percentage |
| TelegramNotifier.PancakeswapToKucoinSection | telegram_notifier.py:303-312 | the P→K alert section: purchase at the PancakeSwap buy cost and its 0.25% fee, the transfer note, the sale shown at the KuCoin buy cost and its 0.1% fee, then the profit and percentage |
| TelegramNotifier.SignificantArbitrage | telegram_notifier.py:272-325 | no alert on a zero buy cost; otherwise an alert iff some percentage strictly exceeds the threshold; its sections are exactly the K→P section (with the gate's six lines) if that direction exceeds the threshold, followed by the P→K section if that one does, and nothing else |
| TelegramNotifier.GateBoundary | telegram_notifier.py:289 | a percentage equal to the threshold sends nothing; one above it sends an alert |
| TelegramNotifier.Sent | telegram_notifier.py:289-318 | the gate sends no message or exactly the one alert |
| TelegramNotifier.RemoveDots | telegram_notifier.py:87 | removing the dots never lengthens the text |
| TelegramNotifier.CharClassesConcat | telegram_notifier.py:87 | the digit, digit-or-dot and non-zero-digit classes of a concatenation are those of its parts |
| TelegramNotifier.CharClassesHead | telegram_notifier.py:87 | the same classes split at the first character |
| TelegramNotifier.ReadDecimalFailsOnSecondDot | telegram_notifier.py:94 | on digits and dots, `float()` fails iff a second dot appears |
| TelegramNotifier.ReadDecimalPositive | telegram_notifier.py:94-95 | a parsed decimal is ≥ 0, and > 0 iff some digit is not zero |
| TelegramNotifier.ReadIntPositive | telegram_notifier.py:117-118 | `int()` of a digit text is > 0 iff some digit is not zero |
| TelegramNotifier.RemoveDotsDigits | telegram_notifier.py:87 | the text without dots is all digits iff the text is digits and dots, and it keeps the non-zero digits |
| TelegramNotifier.ThresholdReply | telegram_notifier.py:84-105 | an update carries a positive value that is `float()` of the argument; usage is replied iff there is no argument or it is not digits after removing dots; it never updates the quantity |
| TelegramNotifier.ThresholdReplyCases | telegram_notifier.py:87-99 | on a guarded argument: error iff two or more dots ("1.2.3"); update iff at most one dot and a non-zero digit; "must be positive" iff at most one dot and only zeros |
| TelegramNotifier.QuantityReply | telegram_notifier.py:107-136 | an update carries the positive `int()` of a digit argument; usage iff no argument or not all digits; never a threshold update or an error |
| TelegramNotifier.QuantityReplyCases | telegram_notifier.py:110-120 | a digit argument updates iff some digit is not zero, and is rejected as non-positive otherwise |
| TelegramNotifier.Notifier.constructor | telegram_notifier.py:16-24 | a new notifier has the given trade size and threshold 0.5, no venues and no alerts; with a positive size it is valid |
| TelegramNotifier.Notifier.Register | main.py:105-107 | the venue objects are stored in the bot's data |
| TelegramNotifier.Notifier.CheckSignificantArbitrage | telegram_notifier.py:272-325 | the sent alerts grow by the gate's alert for the current threshold, or not at all |
| TelegramNotifier.Notifier.CalculateArbitrageGains | telegram_notifier.py:212-270 | returns the evaluation as the source builds it (`GainsAsWritten`, with the reassigned fee lines in the K→P route); it fails iff a buy cost is 0, its profits, percentages and P→K route are the corrected evaluator's, and it sends the gate's alert for the routes' profits and gross buy costs |
| TelegramNotifier.Notifier.HandleSetThreshold | telegram_notifier.py:84-105 | the reply is the command's reply; the threshold changes only to the accepted positive value; validity (everything positive) is kept |
| TelegramNotifier.Notifier.HandleSetQuantity | telegram_notifier.py:107-136 | the reply is the command's reply; an accepted size is written to the notifier and to every registered venue, and nothing changes otherwise; validity is kept |
| Monitor.TransferGains | main.py:36-89 | calculate_arbitrage_gains: fees folded into the buy cost and the sell revenue, 999 of the 1000 POLS sold after the transfer, percentages over the fee-inclusive buy cost, and an error when that cost is 0 (proved by `TransferGainsCorrect`) |
| Monitor.TransferGainsCorrect | main.py:36-89 | fails iff a buy cost is 0; both routes have six steps that reconcile, including the transfer line; the net sale plus the sell fee is the gross sale of 999 POLS; the percentage is over the fee-inclusive buy cost |
| Monitor.TransferGainsVersusNotifier | main.py:48-62 | on quotes for n POLS, each transfer route's profit is the notifier's plus the net value of (999 − n) POLS at the selling venue |
| Monitor.TransferLossAtConfiguredSize | main.py:48-62 | at the configured 1000 POLS, each transfer route earns exactly the transfer loss (0.001 × net sell revenue) less than the notifier's |
| TradingStrategy.Appended | trading_strategy.py:46-54 | the history after a read: the old prices plus the new one, cut to the newest 100 (proved by `AppendedShape` and `AppendedNewest`) |
| TradingStrategy.AppendedShape | trading_strategy.py:47-54 | after an append the history has at most 100 prices, ends with the new one, and keeps the newest old prices in order |
| TradingStrategy.AppendedNewest | trading_strategy.py:47-54 | the newest k prices of the appended history are the newest k − 1 old ones followed by the new price |
| TradingStrategy.MovingAverage | trading_strategy.py:62-74 | no average below 10 prices, otherwise the mean of the newest 10 (proved by `MovingAverageBounds`) |
| TradingStrategy.MovingAverageBounds | trading_strategy.py:62-74 | the average exists iff there are at least 10 prices, and it lies within the prices' bounds |
| TradingStrategy.Step | trading_strategy.py:76-148 | one check_and_update tick as a state transition. A failed read changes nothing; otherwise the price is appended, then the idle machine arms on a rise and the monitoring machine ratchets its peak and sells on a 2% pullback; every caught exception resets to idle (proved by `StepPreservesValid` through `FailedSellOutcomes`) |
| TradingStrategy.StepPreservesValid | trading_strategy.py:76-148 | every tick keeps the history bounded and a peak exactly while monitoring |
| TradingStrategy.StepHistory | trading_strategy.py:79-81 | a failed price read changes nothing; otherwise the price is appended whatever else happens |
| TradingStrategy.ArmTrigger | trading_strategy.py:84-91 | idle to monitoring happens iff the price strictly rises more than 10% over the moving average; the peak becomes the price and no drop is checked on that tick |
| TradingStrategy.PeakRatchets | trading_strategy.py:104-105 | while monitoring, the kept peak is never below the old peak or the price, and is one of them |
| TradingStrategy.DropInUnitInterval | trading_strategy.py:107 | for a positive price at or below the peak the pullback is in [0, 1) |
| TradingStrategy.SellTrigger | trading_strategy.py:107-139 | the sell is placed iff monitoring, the peak is positive, the pullback is ≥ 2%, ≥ 10 POLS are free and the venue accepts; it sells 10 at price × 0.99 and returns to idle without a peak |
| TradingStrategy.FailedSellOutcomes | trading_strategy.py:140-148 | a short balance or a falsy order keeps monitoring with the peak; a raised call resets to idle but keeps the appended price |
| TradingStrategy.FlatHistoryArmingLevel | trading_strategy.py:69-89 | on a flat history at m, a new price arms iff 89 × price > 99 × m, because the average includes the new price |
| TradingStrategy.ArmThenSellCycle | trading_strategy.py:84-139 | ten prices of 1.0 then 1.12 arm with peak 1.12; a price 3% lower with POLS free sells and returns to idle |
| TradingStrategy.TradingStrategy.constructor | trading_strategy.py:36-38 | a new strategy has an empty history, is idle, has no peak, and is valid |
| TradingStrategy.TradingStrategy.CalculateMa | trading_strategy.py:62-74 | no average iff there are fewer than 10 prices |
| TradingStrategy.TradingStrategy.UpdatePriceHistory | trading_strategy.py:40-60 | returns the price read; a price is appended with the 100-price bound and a failed read appends nothing |
| TradingStrategy.TradingStrategy.CheckAndUpdate | trading_strategy.py:76-148 | the new fields and the outcome are `Step` of the old fields, and validity is kept |
| PolsPancake.MissingVars | get_pols_pancake.py:94-95 | a variable is listed iff it is required and unset or empty |
| PolsPancake.LoadEnvFile | get_pols_pancake.py:82-98 | accepted iff the file exists and every required variable is set; the template error iff there is no file; the missing list is exactly the unset required variables |
| PolsPancake.FillTarget | get_pols_pancake.py:124-140 | the fill loop as a value: a level is taken whole while it fits under the target, the first level that does not fit only up to the target (proved by `FillWithinTarget`, `FillDepth`, `FillCostAtLeast`, `FillCostAtMost`) |
| PolsPancake.FillTargetHead | get_pols_pancake.py:128-140 | one step of the fill loop: partial take and stop, whole take and stop, or whole take and continue |
| PolsPancake.FillTargetAt | get_pols_pancake.py:124-140 | the same step at level i of the ladder |
| PolsPancake.FillLadder | get_pols_pancake.py:121-140 | the imperative fill loop with its two `break`s ends with the fill `FillTarget` computes |
| PolsPancake.AveragePrice | get_pols_pancake.py:119-153 | calculate_average_price as a value: nothing filled, or cost/filled with slippage against the first level, or the division by a zero price (proved by `AveragePriceFill`, `AverageWithin` and the slippage lemmas) |
| PolsPancake.CalculateAveragePrice | get_pols_pancake.py:119-153 | the method returns the average of the recursive fill: None when nothing is filled, cost over filled, and slippage against the first level |
| PolsPancake.FillWithinTarget | get_pols_pancake.py:128-140 | started at or under the target, the loop never fills more than the target |
| PolsPancake.FillDepth | get_pols_pancake.py:124-140 | on non-negative volumes the fill reaches min(target, filled + depth) |
| PolsPancake.AveragePriceFill | get_pols_pancake.py:142-145 | the filled amount is ≤ target; on non-negative volumes nothing is filled iff the target or the depth is 0; a short depth gives a partial fill of the whole depth |
| PolsPancake.PricedWithinTail | get_pols_pancake.py:124-126 | price bounds and non-negative volumes carry over to the rest of the ladder |
| PolsPancake.FillCostAtLeastLast | get_pols_pancake.py:128-137 | the last level taken costs at least its amount priced at `lo` |
| PolsPancake.FillCostAtLeastNext | get_pols_pancake.py:128-131 | a whole level plus the rest of the walk cost at least the amount priced at `lo` |
| PolsPancake.FillCostAtLeast | get_pols_pancake.py:124-140 | the loop's added cost is at least the added amount priced at `lo` |
| PolsPancake.FillCostAtMostLast | get_pols_pancake.py:128-137 | the last level taken costs at most its amount priced at `hi` |
| PolsPancake.FillCostAtMostNext | get_pols_pancake.py:128-131 | a whole level plus the rest of the walk cost at most the amount priced at `hi` |
| PolsPancake.FillCostAtMost | get_pols_pancake.py:124-140 | the loop's added cost is at most the added amount priced at `hi` |
| PolsPancake.AverageWithin | get_pols_pancake.py:145 | a non-empty fill's average price lies within the ladder's price range |
| PolsPancake.BuySlippageNonNegative | get_pols_pancake.py:146 | on an ascending ladder with a positive best ask, buy slippage ≥ 0 |
| PolsPancake.SellSlippageNonNegative | get_pols_pancake.py:146 | on a descending ladder with positive prices, sell slippage ≥ 0 |
| PolsPancake.TokenPrice | get_pols_pancake.py:314-331 | the router output for 10^18 wei divided by 10^18, or None when the call raised |
| PolsPancake.AskLevel | get_pols_pancake.py:176-179 | the i-th simulated ask: price × (1 + (i + 1) × 0.001), volume 1000 / (1 + 0.2 i) |
| PolsPancake.BidLevel | get_pols_pancake.py:182-185 | the i-th simulated bid: price × (1 − (i + 1) × 0.001), volume 1000 × (1 + 0.1 i) |
| PolsPancake.GetOrderBook | get_pols_pancake.py:155-258 | None iff the router read fails or gives 0, or the depth is 0; otherwise `depth` levels per side at the 0.1% price steps and the shrinking and growing volumes; the totals cover the first 10 levels; the spread is asks[0] − bids[0] with its percentage over the best bid; the two averages are those of the fill |
| PolsPancake.SimulatedFills | get_pols_pancake.py:171-225 | on the simulated ladders asks strictly ascend and bids strictly descend; the buy and sell averages are p × 1.001 and p × 0.999 with zero slippage; the spread is 0.002 p |
| PolsPancake.AsksAscend | get_pols_pancake.py:176-179 | the simulated asks strictly ascend |
| PolsPancake.BidsDescend | get_pols_pancake.py:182-185 | the simulated bids strictly descend |
| PolsPancake.SimulatedBuyFill | get_pols_pancake.py:176-193 | the first ask alone fills 1000 POLS at p × 1.001 |
| PolsPancake.SimulatedSellFill | get_pols_pancake.py:182-194 | the first bid alone fills 1000 POLS at p × 0.999 |
| PolsPancake.MovingAverages | get_pols_pancake.py:344-359 | calculate_moving_average as a value: [] for no prices or fewer than the period, otherwise None before the first full window and the window's mean after it; a period of 0 is the division error (proved by `MovingAveragesShape`) |
| PolsPancake.CalculateMovingAverage | get_pols_pancake.py:344-359 | the append loop returns the list of averages `MovingAverages` defines |
| PolsPancake.MovingAveragesShape | get_pols_pancake.py:346-357 | with at least `period` prices, the list has one entry per price, None exactly before the first full window, and every average within the prices' range |
| PolsPancake.MovingAveragesMatchStrategy | get_pols_pancake.py:355-356 | the last 10-period entry equals the strategy's moving average of the same prices |
| PolsInfo.Lower | get_pols_info.py:41 | `lower()` keeps the length and maps each character |
| PolsInfo.Placeholder | get_pols_info.py:41 | the placeholder is `votre_` + the lower-cased name + `_ici`: 10 characters longer than the name, with each name character lower-cased in between |
| PolsInfo.MissingVars | get_pols_info.py:41 | a variable is listed iff it is required and unset, empty or equal to its placeholder |
| PolsInfo.LoadEnvFile | get_pols_info.py:24-44 | accepted iff the file exists and no credential is missing; the template error iff there is no file; the missing list is exactly the missing credentials |
| PolsInfo.TemplatePassesCheck | get_pols_info.py:31-41 | an unedited template passes the check |
| PolsInfo.TemplateValueNotPlaceholder | get_pols_info.py:31-33 | each template value is 7 characters shorter than its variable's placeholder |
| PolsInfo.PlaceholderRejected | get_pols_info.py:41-44 | a credential set to its placeholder is reported missing |
| PolsInfo.UnconfiguredVars | get_pols_info.py:41 | a variable is listed iff it is required and unset, empty or equal to its template value |
| PolsInfo.LoadEnvFileChecked | get_pols_info.py:24-44 | the check compared against the template values, with the same accept and error conditions |
| PolsInfo.TemplateRejected | get_pols_info.py:31-44 | with that comparison an unedited template reports all three credentials missing |
| PolsInfo.KeptRows | get_pols_info.py:130-144 | skipping keeps at most as many rows as were read |
| PolsInfo.KeptRowsConcat | get_pols_info.py:131-144 | skipping is row by row: the kept rows of two batches are the concatenation of each batch's kept rows |
| PolsInfo.KeptRowsAll | get_pols_info.py:131-144 | every row is kept iff every row converts, and then the result is each row's conversion in order |
| PolsInfo.KeptRowsFromRows | get_pols_info.py:131-144 | every kept entry is the conversion of some input row |
| PolsInfo.ParseMinuteRow | get_pols_info.py:133-135 | a 1-minute row converts to timestamp, price and volume from columns 0, 2 and 5, or raises (None) on a short row or a failed conversion |
| PolsInfo.ParseHourRow | get_pols_info.py:220-225 | a 5-minute row converts to a candle from columns 0 to 5, or raises (None) on a short row or a failed conversion |
| PolsInfo.ParseMinuteRows | get_pols_info.py:130-144 | the 1-minute loop keeps exactly the converting rows, in order |
| PolsInfo.ParseHourRows | get_pols_info.py:217-237 | the 5-minute loop keeps exactly the converting rows, in order |
| PolsInfo.MaxHigh | get_pols_info.py:88 | the highest high bounds every high and is one of them |
| PolsInfo.MinLow | get_pols_info.py:89 | the lowest low bounds every low and is one of them |
| PolsInfo.Volumes | get_pols_info.py:90 | the volumes of the history, in order |
| PolsInfo.Closes | get_pols_info.py:190 | the closes of the history, in order |
| PolsInfo.CandleStats | get_pols_info.py:85-91 | the empty-history error iff there are no candles; the zero-start error iff the first open is 0; otherwise start = first open, current = last close, highest and lowest over the highs and lows, total volume, and change × start = (current − start) × 100 |
| PolsInfo.SampleCandles | get_pols_info.py:156-161 | one flat candle per sample, with the sample's price as open, close, high and low |
| PolsInfo.SampleStats | get_pols_info.py:156-161 | the 1-minute statistics are the first and last price, the extremes of the prices, and the sum of the sample volumes |
| PolsInfo.Last30MinHistory | get_pols_info.py:108-176 | None without data; otherwise the kept samples, unless the first price is 0, which is caught as None |
| PolsInfo.LastHourHistoryAsWritten | get_pols_info.py:195-279 | get_last_hour_history as written: None without data; [] for no kept candles; None when the 5-period averages are shorter than the history (1 to 4 candles, the IndexError) or the variation divides by a first open of 0; otherwise the kept candles |
| PolsInfo.ShortHourHistoryDropped | get_pols_info.py:240-251 | as written, a history of one to four valid candles gives None |
| PolsInfo.SingleCandleDropped | get_pols_info.py:217-251 | a concrete valid candle converts, yet the report as written returns None |
| PolsInfo.LastHourHistory | get_pols_info.py:195-279 | None without data or on a zero first open; otherwise the kept candles |
| PolsInfo.LastHourHistoryAgrees | get_pols_info.py:240-251 | the as-written and corrected reports agree on empty histories and on five or more candles |
| PolsInfo.CalculateMovingAverage | get_pols_info.py:178-193 | the append loop returns the moving averages of the candle closes |
| PolsInfo.Truncated | get_pols_info.py:295-296 | an absent side is empty; otherwise the first min(limit, length) levels, unchanged |
| PolsInfo.GetOrderBook | get_pols_info.py:281-356 | None iff there is no data, a truncated side is empty, or the best bid is 0; otherwise the truncated sides, their total volumes, spread = best ask − best bid, and spread % × best bid = spread × 100 |
| PolsInfo.TotalQuantitySplit | get_pols_info.py:308-327 | a ladder's total is the total of a prefix plus the total of the rest |
| PolsInfo.TruncatedVolumeAtMost | get_pols_info.py:295-327 | on non-negative quantities, truncating never increases a side's total volume |
| PolsInfo.LastAccount | get_pols_info.py:413-419 | a selected account has the requested currency |
| PolsInfo.LastAccountFound | get_pols_info.py:413-419 | no account is found iff none has the currency; a found one is in the list with no later account of that currency |
| PolsInfo.ParseBalances | get_pols_info.py:408-419 | each balance is that of the last account of its currency, 0 when absent |
| PolsInfo.LastIsFirstWhenUnique | get_pols_info.py:413-419 | with at most one account per currency, the report and the KuCoin venue select the same account |
| PolsInfo.DuplicateAccountsDisagree | get_pols_info.py:413-419 | with two POLS accounts, the report and the KuCoin venue report different free POLS |
| Series.SumAppend | get_pols_info.py:90 | the sum of a concatenation is the sum of its parts |
| Series.SumBounds | get_pols_pancake.py:356 | a sum of n values within [lo, hi] lies within [n × lo, n × hi] |
| OrderBook.TotalQuantityNonNegative | get_pols_info.py:308-327 | a ladder with non-negative quantities has a non-negative total |

## Left out

- Network and SDK calls are not modelled. Each call's result is a parameter, or `None` where the call raised. This covers the KuCoin order book, account, kline and order calls, web3 `getAmountsOut`, ERC20 `balanceOf` (`PancakeSwapExchange.Balance` takes the two reads as `Option`s) and the BSCScan request. Token `decimals` are not read: both tokens are taken to have 18, as the source's divisions by 1e18 do.
- The chat transport, that is bot setup, handlers, keyboards and the callback's string slicing. The model stops where an alert is handed to `send_message`: it only records the alert in `Notifier.sent`.
- The async polling loop of `main.py` and the strategy's unawaited `send_message` coroutines are not modelled, because they are concurrency and orchestration.
- The constructors' environment checks (`_load_config`, `_init_web3`) and dotenv loading. The environment is an input of the two `load_env_file` models only.
- Logging, `print_exchange_info`, `format_exchange_info` and every `:.2f`/`:.4f` rounding. Route steps are structured lines, not formatted text.
- `datetime.now` timestamps are opaque strings. `datetime.fromtimestamp` is not modelled, so it never raises.
- IEEE-754 rounding, `Decimal` and `float('nan'/'inf')` texts. Amounts are exact reals. `float()` and `int()` on command arguments are modelled only on ASCII digits and dots. `str.isdigit()` and `str.lower()` are modelled on ASCII only.
- get_pols_pancake.py's `bids.sort`/`asks.sort` is not modelled. On the generated ladders it is the identity: `AsksAscend` and `BidsDescend` show they are already ordered.
- get_pols_pancake.py's `get_pair_address`, `get_reserves`, `get_historical_trades`, `get_token_balance` and the report driver are SDK plumbing outside the named core.
- get_pols_info.py's `get_price_history` and `get_pols_info`: only the candle statistics of `get_price_history` are modelled (`CandleStats`). Its row formatting and the driver are SDK plumbing.
- `create_market_buy_order` and `create_limit_order` send orders through the SDK. Only their prechecks and the handling of the answer are modelled. `cancel_order` and `get_order` are single SDK calls.
- trading_bot.py duplicates the account loop of get_pols_info.py and is not part of this model.
- pandas is not modelled: `DataFrame.append`, which exists only in pandas < 2.0, and `rolling().mean()`. The history is a `seq<real>`, and the moving average is the mean of the last 10 prices.
- `TradingStrategy.Rises`: with a zero moving average (only possible with zero prices), numpy gives +inf or NaN. The model states the outcome of that comparison (arms iff the price is positive) directly instead of modelling floats.
- `PolsPancake.MovingAverages`: the period is a `nat`, so a negative period is not modelled.
- `KucoinExchange.LimitOrderRequest`: the price sent is the caller's real; the 4-decimal formatting of the price string is not modelled.
- On a caught exception, `check_and_update` resets to idle but keeps the price it has already appended; the model does the same.
- The notifier's percentage is taken over the gross buy cost, not over the buy cost plus its fee; the model does the same.

## Findings

| source | as written | input that shows it | evidently intended | confidence | as-written member | corrected member |
|---|---|---|---|---|---|---|
| telegram_notifier.py:224-255 | `kucoin_fee` and `pancakeswap_fee` are reassigned for the P→K route before the dictionary is built, so the K→P fee lines show the P→K fees | KuCoin quote buy cost 1000, sell revenue 990 and PancakeSwap sell revenue 1050: the K→P "Frais KuCoin" line shows 0.99 instead of 1.0, and the lines do not add up to the profit 46.375 | each route lists the fees it pays | high (not executed) | TelegramNotifier.AsWrittenStepsDisagree | TelegramNotifier.ArbitrageGainsCorrect |
| get_pols_info.py:31-41 | the template writes `votre_api_key_ici`, but the check compares against `votre_kucoin_api_key_ici`, so an unedited template passes | the environment exactly as the template writes it | an unedited template is reported as unconfigured | high (not executed) | PolsInfo.TemplatePassesCheck | PolsInfo.TemplateRejected |
| get_pols_info.py:240-251 | `moving_averages[i]` is read for every candle, but the list is empty below 5 candles: the IndexError drops the whole history | one valid 5-minute row | the history is returned with no moving average shown | high (not executed) | PolsInfo.SingleCandleDropped | PolsInfo.LastHourHistory |
