# AutoTrading core, modelled in Dafny

A model of the decision and order logic of a small Upbit (KRW market) trading
bot, with proofs of what that logic promises.

- `series.dfy` (`Series`): candles, column extraction, sums, means and affine
  re-pricing of a series.
- `extensions.dfy` (`Extensions`): the indicator library.
  - the volume-spike test;
  - the least-squares trend slope, as the exact closed-form slope over `real`;
  - the bullish-candle ratio;
  - the per-market PnL rate (the balance scan is a loop with `break`);
  - the buy/sell trade-strength ratio.
- `utils.dfy` (`Utils`): an exchange account class `Upbit`.
  - Its fields are the KRW balance, the coin holdings, the open orders, a log
    of the orders sent and a log of the cancel requests.
  - It has the eight market/limit, amount/percentage order functions and the
    per-market cancel of open orders.
  - Each order function is first a pure outcome function: skipped, simulated
    (dry run), submitted, or raised. A method then performs it on the account
    and is proved equal to that function.
- `strategy.dfy` (`Strategy`): the 5/20 moving-average cross classifier.
- `template_bot.dfy` (`TemplateBot`): the template bot's own copy of the cross
  rule, its budget-capped buy, its sell of the whole holding, and one
  per-ticker pass of its loop.
- `scalping.dfy` (`Scalping`):
  - the surging-market scan (a loop proved against an order-preserving filter);
  - the stop-loss / entry / take-profit rule chain, as a pure decision over
    the indicators;
  - a class holding the bot's cooldown map, whose `Algorithm` method computes
    the indicators, decides, and calls the one order function the rule names.

A pandas NaN, such as a rolling mean over too few rows, is `None`, and every
comparison with it is false. A Python exception that aborts a call becomes an
explicit result: `Raised` or `None`.

## Model

| member | source | states |
|---|---|---|
| Extensions.IsVolumeSpike | extensions.py:5-20 | no frame, or fewer than n + 1 candles, is never a spike; with n > 0, a zero mean of the n volumes before the last is never a spike |
| Extensions.VolumeSpikeByTotals | extensions.py:12-20 | with non-negative volumes: a spike iff the prior sum is positive and n · last ≥ threshold · prior sum |
| Extensions.VolumeSpikeScaleInvariant | extensions.py:12-20 | scaling every volume by k > 0 leaves the answer unchanged |
| Extensions.SlopeDenominatorPositive | extensions.py:34-38 | the regression over x = 0..n-1 is well defined from n = 2 on: 12 · D = n²(n−1)(n+1) > 0 |
| Extensions.LeastSquaresSlope | extensions.py:37-38 | through exactly two points the slope is the second minus the first |
| Extensions.CalculateTrendSlope | extensions.py:22-40 | no frame, or fewer than n candles, gives slope 0.0 |
| Extensions.LeastSquaresSlopeAffine | extensions.py:37-38 | prices mapped by k·y + d have slope k times the slope |
| Extensions.LeastSquaresSlopeOfLine | extensions.py:34-38 | points on a + b·i have slope exactly b |
| Extensions.TrendSlopeOfLines | extensions.py:32-40 | lows on a1 + b1·i and highs on a2 + b2·i over the last n candles give the trend slope (b1 + b2)/2 |
| Extensions.CountBullish | extensions.py:57 | never more bullish candles than candles |
| Extensions.GetBullishRatio | extensions.py:53-59 | the ratio lies in [0, 1], and is 0 without a frame or with fewer than n candles |
| Extensions.BullishRatioExtremes | extensions.py:56-59 | the ratio is 1 iff each of the last n candles closed above its open, and 0 iff none did |
| Extensions.BaseAsset | extensions.py:73 | the coin field of a symbol is absent iff the symbol has no '-'; the field itself holds no '-' |
| Extensions.BaseAssetOfMarket | extensions.py:73 | "KRW" + "-" + coin (+ further '-' fields) names that coin |
| Extensions.FirstHolding | extensions.py:77-81 | the first balance entry for the coin, or none iff no entry is for the coin |
| Extensions.PnlRate | extensions.py:73 | the rate is undefined (the split raises) iff the symbol has no '-' |
| Extensions.PnlRateNotHeld | extensions.py:77-84 | a coin with no balance entry has rate 0.0 |
| Extensions.PnlRateEmptyEntry | extensions.py:77-84 | a first entry with zero average price or zero balance gives 0.0, whatever later entries say |
| Extensions.PnlRateNoPrice | extensions.py:86-88 | a missing or zero current price gives 0.0 |
| Extensions.PnlRateHeld | extensions.py:77-90 | for a first matching entry with any non-zero average and balance and a non-zero price, the rate is (price − avg)/avg; with avg > 0 it is ≤ r iff price ≤ (1 + r)·avg |
| Extensions.PnlRateExample | extensions.py:90 | average 100 and price 96.9 give −0.031 |
| Extensions.GetTickerPnlRate | extensions.py:61-91 | the scanning loop with its break returns exactly the rate above |
| Extensions.SideVolume | extensions.py:112-113 | non-negative tick volumes give a non-negative side total |
| Extensions.TradeStrength | extensions.py:107-122 | a failed fetch gives strength 1.0; the strength is infinite iff the fetch succeeded, nobody sold and somebody bought |
| Extensions.StrengthAboveOneIffBuyersLead | extensions.py:112-118 | with non-negative volumes the strength exceeds 1.0 iff buy volume exceeds sell volume (infinite when nobody sold); equal volumes give exactly 1.0 |
| Utils.Clamp01 | Utils.py:38 | the clamped fraction lies in [0, 1], equals a fraction already in range, and saturates outside it |
| Utils.CappedBuy | Utils.py:17-27 | skipped iff min(balance, request) < 5000; otherwise an order of exactly min(balance, request), between 5000 and both; sent iff not dry run |
| Utils.PercentageBuy | Utils.py:37-41 | never raises; skipped iff min(balance, balance × clamped fraction) < 5000; an accepted order is balance × clamped fraction, between 5000 and the balance; sent iff not dry run |
| Utils.SellMarketOutcome | Utils.py:50-59 | raised iff the symbol has no '-'; skipped iff the holding is ≤ 0; otherwise the requested amount unchanged; sent iff not dry run |
| Utils.SellMarketPercentageOutcome | Utils.py:64-75 | raised iff the symbol has no '-'; skipped iff the coin's holding is ≤ 0; an accepted order is a market sell of holding × clamped fraction, within [0, holding]; sent iff not dry run |
| Utils.SellLimitOutcome | Utils.py:122-132 | skipped iff the holding is ≤ the requested amount; otherwise a limit sell of that amount at the target price |
| Utils.SellLimitPercentageOutcome | Utils.py:137-149 | raised iff the symbol has no '-'; skipped iff the holding is ≤ holding × clamped fraction, so a fraction that clamps to 1 never places an order; an accepted order is a limit sell of that share at the target price; sent iff not dry run |
| Utils.SellLimitPercentageAcceptsBelowAll | Utils.py:125-149 | with a positive holding, a limit sell by percentage goes through iff the fraction is below 1 |
| Utils.BuyMarket | Utils.py:11-28 | the account method returns the CappedBuy outcome, and the sent log grows by exactly the submitted order |
| Utils.BuyMarketPercentage | Utils.py:32-41 | returns the PercentageBuy outcome (market), and logs only a submitted order |
| Utils.SellMarket | Utils.py:45-60 | returns the SellMarketOutcome, and logs only a submitted order |
| Utils.SellMarketPercentage | Utils.py:64-75 | returns the SellMarketPercentageOutcome, and logs only a submitted order |
| Utils.BuyLimit | Utils.py:79-97 | returns the CappedBuy outcome for a limit buy at the target price, and logs only a submitted order |
| Utils.BuyLimitPercentage | Utils.py:101-111 | returns the PercentageBuy outcome (limit), and logs only a submitted order |
| Utils.SellLimit | Utils.py:115-133 | returns the SellLimitOutcome, and logs only a submitted order |
| Utils.SellLimitPercentage | Utils.py:137-149 | returns the SellLimitPercentageOutcome, and logs only a submitted order |
| Utils.UuidsOn | Utils.py:181-183 | never more cancel targets than open orders |
| Utils.UuidsOnTargetsMarket | Utils.py:181-183 | a uuid is targeted iff some open order on exactly that market carries it; orders on other markets are never targeted |
| Utils.CancelAllOrders | Utils.py:170-183 | the loop requests cancellation of exactly the open orders on the market, in list order; nothing when there are no open orders |
| Strategy.RollingMean | Strategy.py:6-9 | a rolling mean is defined iff the window fits in the closes seen so far |
| Strategy.CrossSignal | Strategy.py:11-15 | BUY iff both previous means exist with 5-mean ≤ 20-mean and both current means exist with 20-mean < 5-mean; SELL iff the same with the roles swapped |
| Strategy.Algorithm | Strategy.py:1-15 | no signal (the previous-row read raises) iff there is no frame or it has fewer than two candles |
| Strategy.BuyIffUpwardCross | Strategy.py:11-12 | BUY iff 21 candles exist, the previous 5-mean ≤ the previous 20-mean and the current 5-mean > the current 20-mean |
| Strategy.SellIffDownwardCross | Strategy.py:13-14 | SELL iff 21 candles exist, the previous 5-mean ≥ the previous 20-mean and the current 5-mean < the current 20-mean |
| Strategy.CrossRulesExclusive | Strategy.py:11-15 | the BUY and SELL conditions never hold together |
| Strategy.EqualMeansHold | Strategy.py:11-15 | equal current means always give HOLD |
| Strategy.ShortFrameHolds | Strategy.py:6-15 | with 2 to 20 candles the previous 20-mean is NaN and the answer is HOLD |
| Strategy.ConstantClosesHold | Strategy.py:6-15 | identical closes never signal |
| Strategy.RollingMeanAffine | Strategy.py:6-9 | re-pricing closes by k·x + d maps each rolling mean the same way, NaN staying NaN |
| Strategy.OrdersAffine | Strategy.py:11-14 | a k > 0 affine map of two means keeps both ≤ and < between them, a NaN staying NaN |
| Strategy.CrossSignalAffine | Strategy.py:11-15 | a k > 0 affine map of all four means keeps the signal |
| Strategy.AffinePricesSameSignal | Strategy.py:6-15 | re-denominating closes (k > 0, any offset) never changes the signal |
| TemplateBot.Algorithm | Main.py:39-53 | the template's cross rule gives the same answer as the strategy module's on every frame |
| TemplateBot.BuyOutcome | Main.py:63-74 | skipped iff the balance is under 5000; otherwise a market buy of min(balance, 10000), so never above 10000 or the balance; sent iff not dry run |
| TemplateBot.SellOutcome | Main.py:81-91 | raised iff no '-'; skipped iff the holding is ≤ 0; otherwise a market sell of the entire holding; sent iff not dry run |
| TemplateBot.BuyIsBudgetedBuyMarket | Main.py:63-74 | the template's buy is the library's capped market buy with the budget as the request |
| TemplateBot.SellIsFullSellMarketPercentage | Main.py:81-91 | the template's sell is the library's market sell of 100 percent |
| TemplateBot.ConfiguredDryRunSendsNothing | Main.py:70-90 | with the configured DRY_RUN neither buy nor sell sends an order |
| TemplateBot.Buy | Main.py:58-74 | the account method returns BuyOutcome and logs only a submitted order |
| TemplateBot.Sell | Main.py:76-91 | the account method returns SellOutcome and logs only a submitted order |
| TemplateBot.Step | Main.py:113-123 | BUY runs the buy, SELL runs the sell, anything else sends nothing |
| Scalping.VolumeSurged | strategy_scalping.py:31-43 | a surge needs a frame of at least two candles and a non-zero previous volume; with a positive previous volume it is a surge iff last ≥ threshold · previous |
| Scalping.Surging | strategy_scalping.py:27-51 | the report is never longer than the market list |
| Scalping.SurgingMembers | strategy_scalping.py:31-45 | a market is reported iff it is listed, has ≥ 2 candles, a non-zero previous volume and last/previous ≥ threshold |
| Scalping.SurgingIsSubsequence | strategy_scalping.py:27-51 | the report is a subsequence of the market list, so it keeps their order |
| Scalping.FindTickers | strategy_scalping.py:14-51 | the appending loop returns exactly the filtered list |
| Scalping.Decide | strategy_scalping.py:109-119 | stop-loss forces a full sell; a buy happens iff there is no stop-loss, the entry holds and the delay passed; any other sell is the 0.5 take-profit on a trend break; no order iff no rule fires |
| Scalping.ComputeIndicators | strategy_scalping.py:79-100 | the bullish ratio fed to the rules lies in [0, 1], and the PnL is passed through |
| Scalping.DecideFor | strategy_scalping.py:57-122 | no frame, fewer than 100 candles or a symbol without '-' decide nothing |
| Scalping.ActionOutcome | strategy_scalping.py:109-119 | exactly one order function is called iff an order was decided, and only a live account can submit |
| Scalping.StopLossPriority | strategy_scalping.py:109-110 | a PnL ≤ −0.03 sells fraction 1, whatever the other indicators |
| Scalping.BuyIff | strategy_scalping.py:113-115 | a 0.1 buy iff 100 candles, PnL > −0.03, bullish ≥ 0.6, slope5 > 0, slope100 > 0.2, strength > 1 and the delay passed |
| Scalping.TakeProfitIff | strategy_scalping.py:117-119 | a 0.5 sell iff 100 candles, no stop-loss, no buy, and slope3 ≤ −0.7 or slope10 ≤ −0.5 or slope30 ≤ −0.3 |
| Scalping.DelayPassed | strategy_scalping.py:103-105 | a market never bought always passes; a stamped one passes iff its stamp is at least 5 seconds before now |
| Scalping.CooldownBlocksBuy | strategy_scalping.py:103-105 | a buy stamped less than 5 seconds before now blocks every buy |
| Scalping.EmptyBuyTimeMapNeverDelays | strategy_scalping.py:55 | against the initial empty map the delay always counts as passed |
| Scalping.StopLossSellsWholeHolding | strategy_scalping.py:110 | on a live account a stop-loss submits a market sell of the whole positive holding |
| Scalping.TakeProfitWithoutPositionSkips | strategy_scalping.py:119 | a take-profit without a position reaches the sell function and is skipped there |
| Scalping.BuyOrderIsTenPercent | strategy_scalping.py:115 | an entry spends a tenth of the KRW balance, and passes the minimum iff the balance is at least 50000 |
| Scalping.StopLossExample | strategy_scalping.py:109-110 | 100 candles, average 100 and price 96.9 choose the stop-loss |
| Scalping.StopLossExampleOrder | strategy_scalping.py:110 | holding 1 BTC on a live account, that stop-loss submits a market sell of 1 BTC |
| Scalping.Scalper.constructor | strategy_scalping.py:55 | the buy-time map starts empty |
| Scalping.Scalper.Algorithm | strategy_scalping.py:57-122 | the method decides DecideFor, calls the matching order function, logs at most that one order, and leaves the buy-time map unchanged |

## Left out

- The template bot's endless loop, its sleeps, its per-ticker exception catching and its start-up checks (Main.py:96-135) are not modelled. `TemplateBot.Step` models one ticker's signal and order.
- Network and library calls are not modelled: fetching candles, market lists, balances, prices and trade ticks, and placing or cancelling orders. Their results are inputs (`frames`, `df`, `balances`, `prices`, `trades`, `now`), and placing an order appends it to the account's log.
- `np.polyfit` is replaced by the exact least-squares slope over `real`. Floating-point rounding is not modelled.
- Float overflow, NaN and infinity are not modelled beyond the cases the code handles: NaN rolling means, infinite trade strength, and 0/0 in the volume scan.
- `MIN_ORDER_KRW` and `DRY_RUN` in Utils.py are read from the environment as strings. The model uses the number 5000 and a boolean `dryRun` parameter. Compared as written, a string minimum would raise, and any non-empty string would count as dry run.
- Console output is not modelled.
- Orders do not fill. Balances and holdings are not changed by placing an order.
- A coin the account does not list counts as holding 0.
- `get_amount` is the KRW value of a coin while the sell functions pass it on as a quantity (Utils.py:200-201). This is one abstract holdings number in the model.
- `TemplateBot.SellIsFullSellMarketPercentage`: the template's `sell` reads `upbit.get_balance(coin)`, a coin quantity (Main.py:82), while `sell_market_percentage` reads `get_amount(coin)` (Utils.py:73). The two sells are equal only under the single holdings number above.
- The first, shadowed `cancel_all_orders` (Utils.py:153-166) is not modelled.
- The per-market `cancel_all_orders` calls `cancel_order` with one argument instead of two, which would raise (Utils.py:183). The model records the intended cancel request for each matching uuid.
- The scalping module imports names that the utility and extension modules do not define: a lower-case `utils`, and `get_trade_strength` in place of `get_recent_trade_strength` (strategy_scalping.py:3-10). The model calls the functions that exist. The trade ticks behind the strength are an input.
- Some values in `algorithm` are computed but never read: the volume spike, the 4-candle high and the current candle's change rate (strategy_scalping.py:69-76). They are not modelled. Because numpy float division of `change_rate` by a zero open price does not raise, omitting it changes no decision.
- Nothing in the code writes `buy_time_map`. The model does not stamp it on a buy.
- `find_tickers` sleeps after each hit and catches per-market errors. A market whose fetch fails or returns no frame is simply absent from `frames`.
- `Extensions.GetBullishRatio`: stated for n > 0 only. In Python, n = 0 divides by zero, and the only caller uses n = 10.
- `Extensions.CalculateTrendSlope`: stated for n ≥ 2 only. `polyfit` on fewer than two points is degenerate, and the callers use n = 3, 5, 10, 30 and 100.
- `Extensions.IsVolumeSpike` with n = 0 averages an empty window. That mean is NaN, so the model answers false.
