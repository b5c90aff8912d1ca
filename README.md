# Paper trading: a verified model of the ledger, the panels, the alerts and the chart

The system is a browser paper-trading terminal with a small Python backend. The model covers:

- **The ledger** (`frontend/src/context/TradingContext.jsx`). It holds the cash, the open positions and pending limit orders, the trade history and the set of positions being closed. It can deposit, withdraw, open market or limit trades, close positions, cancel or fill limit orders, reprice on every tick with take-profit and stop-loss, and edit thresholds.
- **The order form** (`OrderForm.jsx`). It covers lot sizes, the margin shown and the execute guard, TP/SL validation and the liquidation price.
- **The positions panel** (`PositionsPanel.jsx`). It covers the tabs, the close button and the TP/SL dialog.
- **The analytics panel** (`AnalyticsPanel.jsx`). It covers realised P&L, win rate, averages, profit factor, the trade filter and the open-position aggregates.
- **The portfolio panel** (`PortfolioPanel.jsx`). It covers position value, fees, unrealised P&L, margin used, equity and the fund buttons.
- **Price alerts, in three places:**
  - the browser's edge-triggered engine with its per-alert last price and one-minute cooldown (`AlertsContext.jsx`);
  - the level rule and the in-memory fallback store of `frontend/src/services/api.js`;
  - the backend's polling loop and its alert list (`backend/app.py`).
- **The chart arithmetic** (`TradingChart.jsx`). It covers the SMA-seeded EMA, live candle aggregation, the timeframe table, the IST shift and the price-scale precision.
- **The shared formatter** (`frontend/src/utils/formatters.js`).
- **The list of active indicators** (`IndicatorsContext.jsx`).

Pure logic is modelled as datatypes and functions. State that the source updates in place is modelled as classes:

- `Trading.Ledger`
- `ClientAlerts.AlertMonitor`
- `AlertApi.MockAlertStore`
- `BackendAlerts.AlertService`
- `Chart.LiveChart`
- `Indicators.IndicatorList`

Each method is specified by the pure transition it performs. The loops of the source are loops here too, each proved against a specification function:

- `Trading.Reprice`
- `ClientAlerts.AlertMonitor.CheckAlertsForSymbol`
- `BackendAlerts.AlertService.CheckAlerts`
- `Chart.CalculateEma`

Wall-clock time, generated ids and fetched prices are parameters. `now` is in milliseconds for the trading and alert code and in seconds for the chart.

Four behaviours of the code are worth stating plainly, since the model follows them:

- Nothing auto-closes a position at its liquidation price. The price is only displayed.
- Closed and cancelled positions are removed from the list. No terminal status is stored.
- In the browser engine, a check skipped by the cooldown does not update the alert's last price.
- The backend's `above` and `below` are strict level tests, not crossings.

## Model

| member | source | states |
|---|---|---|
| Common.Divide | frontend/src/components/PortfolioPanel.jsx:161 | JavaScript division: finite exactly when the divisor is non-zero, and then the quotient times the divisor is the dividend; NaN exactly for 0/0 |
| Trading.PnlSign | frontend/src/context/TradingContext.jsx:163-171 | with positive quantity a buy gains iff the price rose, a sell iff it fell, and P&L is zero iff the price equals the entry |
| Trading.Find | frontend/src/context/TradingContext.jsx:148 | `find` returns the first position with the id (and, for orders, pending status), and none exactly when no position matches |
| Trading.Without | frontend/src/context/TradingContext.jsx:196 | `filter(p => p.id !== id)` keeps exactly the positions with another id |
| Trading.WithoutAbsent | frontend/src/context/TradingContext.jsx:196 | filtering out an absent id leaves the list unchanged |
| Trading.ReservedPointwise | frontend/src/context/TradingContext.jsx:340-352 | lists with the same margins index by index reserve the same amount |
| Trading.ReservedWithout | frontend/src/context/TradingContext.jsx:193-196 | with unique ids, removing a position releases exactly its margin from the reserve |
| Trading.Deposit | frontend/src/context/TradingContext.jsx:44-53 | a deposit touches only the balance |
| Trading.Withdraw | frontend/src/context/TradingContext.jsx:56-70 | a withdrawal touches only the balance |
| Trading.FundsMovement | frontend/src/context/TradingContext.jsx:44-70 | deposits add positive amounts and refuse others; withdrawals take positive amounts up to the balance and refuse others, so a non-negative balance stays non-negative |
| Trading.OpenTrade | frontend/src/context/TradingContext.jsx:73-137 | a refused trade (margin over balance) changes nothing; an accepted one appends the position and moves its margin out of cash, and only market orders add an `open` history record |
| Trading.OpenTradeConservesFunds | frontend/src/context/TradingContext.jsx:87-117 | cash plus reserved margin is unchanged by opening, accepted or not |
| Trading.OpenTradeKeepsUniqueIds | frontend/src/context/TradingContext.jsx:96-117 | a fresh id keeps position ids unique |
| Trading.CloseTrade | frontend/src/context/TradingContext.jsx:140-209 | a close of an id being closed or absent changes nothing; otherwise margin plus P&L returns to cash, one `close` record is logged, the positions become exactly those with another id, and the id is marked closing |
| Trading.ReleaseClosing | frontend/src/context/TradingContext.jsx:198-205 | the timer removes exactly that id from the closing set and changes nothing else |
| Trading.CloseTradeRealisesPnl | frontend/src/context/TradingContext.jsx:163-196 | a close changes cash plus reserved margin by exactly the position's P&L at the close price |
| Trading.CloseAtMostOnce | frontend/src/context/TradingContext.jsx:142-160 | after a successful close, a second close of the same id before the timer changes nothing |
| Trading.CancelPending | frontend/src/context/TradingContext.jsx:295-311 | cancelling an absent or non-pending id changes nothing; otherwise the order's margin returns to cash and the id's positions are removed |
| Trading.CancelPendingConservesFunds | frontend/src/context/TradingContext.jsx:295-311 | cancelling never changes cash plus reserved margin |
| Trading.LimitCancelRoundTrip | frontend/src/context/TradingContext.jsx:73-137 | placing a limit order under a fresh id and cancelling it restores the book exactly |
| Trading.MarketCloseRoundTrip | frontend/src/context/TradingContext.jsx:140-209 | a fresh market position closed at its entry price restores the cash and the positions, and the history grows by an `open` and a zero-P&L `close` record |
| Trading.FillAll | frontend/src/context/TradingContext.jsx:340-352 | the fill `map` keeps the number of positions |
| Trading.FillOrder | frontend/src/context/TradingContext.jsx:332-372 | an absent order changes nothing; a fill opens every position with the id at the execution price, keeps the cash and logs one `open` record |
| Trading.FillOrderKeepsMargin | frontend/src/context/TradingContext.jsx:332-372 | a fill leaves cash plus reserved margin and the filled order's margin unchanged |
| Trading.PendingFor | frontend/src/context/TradingContext.jsx:315-317 | the selection is exactly the pending orders of the symbol |
| Trading.FillReachedConservesFunds | frontend/src/context/TradingContext.jsx:314-329 | a run of limit fills changes neither the cash nor cash plus reserved margin |
| Trading.Trigger | frontend/src/context/TradingContext.jsx:243-263 | a trigger names the take-profit or the stop-loss price, and none fires exactly when no threshold is crossed on its side |
| Trading.TriggerUnambiguous | frontend/src/context/TradingContext.jsx:243-263 | with thresholds on their proper sides, take-profit and stop-loss never both hold, so the branch order does not matter |
| Trading.RepricedChangesOnlyMarks | frontend/src/context/TradingContext.jsx:212-292 | a tick changes only `pnl` and `currentPrice`, and only of open, not-closing positions of its symbol |
| Trading.RequestsAreTracked | frontend/src/context/TradingContext.jsx:265-288 | every scheduled close names a tracked position and the threshold it hit |
| Trading.SetTpSl | frontend/src/context/TradingContext.jsx:375-400 | editing keeps the cash, history, closing set and the number of positions |
| Trading.SetTpSlChangesOnlyThresholds | frontend/src/context/TradingContext.jsx:385-395 | only the thresholds of positions with that id change; a blank field clears the threshold |
| Trading.BtcLongScenario | frontend/src/context/TradingContext.jsx:73-209 | buying 1 BTC at 50000 with 10x leverage leaves 5000 in cash, a tick at 55000 marks a P&L of 5000, and closing there leaves 15000 |
| Trading.Ledger.AddFunds | frontend/src/context/TradingContext.jsx:44-53 | answers whether the amount was positive and performs `Deposit` |
| Trading.Ledger.WithdrawFunds | frontend/src/context/TradingContext.jsx:56-70 | answers whether the withdrawal was accepted and performs `Withdraw` |
| Trading.Ledger.ExecuteTrade | frontend/src/context/TradingContext.jsx:73-137 | returns the new position exactly when accepted and performs `OpenTrade` |
| Trading.Ledger.ClosePosition | frontend/src/context/TradingContext.jsx:140-209 | answers whether the close was accepted and performs `CloseTrade` |
| Trading.Ledger.ClearClosing | frontend/src/context/TradingContext.jsx:198-205 | performs `ReleaseClosing` |
| Trading.Ledger.UpdatePositionPnl | frontend/src/context/TradingContext.jsx:212-292 | reprices as `Repriced` and returns the closes `Requests` lists |
| Trading.Ledger.CloseTriggered | frontend/src/context/TradingContext.jsx:283-288 | performs the deferred closes in order |
| Trading.Ledger.CancelOrder | frontend/src/context/TradingContext.jsx:295-311 | answers whether a pending order was found and performs `CancelPending` |
| Trading.Ledger.ExecuteOrder | frontend/src/context/TradingContext.jsx:332-372 | answers whether a pending order was found and performs `FillOrder` |
| Trading.Ledger.CheckLimitOrders | frontend/src/context/TradingContext.jsx:314-329 | fills, in order, the pending orders of the symbol whose limit is reached |
| Trading.Ledger.ModifyPositionTpSl | frontend/src/context/TradingContext.jsx:375-400 | answers whether the position exists and performs `SetTpSl` |
| Trading.Reprice | frontend/src/context/TradingContext.jsx:214-281 | the loop computes exactly the repriced list and the close requests |
| OrderEntry.LiquidationSide | frontend/src/components/OrderForm.jsx:75-81 | for leverage up to 100 a buy's liquidation price is at or under the entry and a sell's at or over it, equal only at 100x |
| OrderEntry.OfferedLeveragesAreSafe | frontend/src/components/OrderForm.jsx:387 | every leverage the selector offers gives a liquidation price on the safe side of the entry |
| OrderEntry.QuantityPrecisionNeverZero | frontend/src/components/OrderForm.jsx:60-72 | the `|| 8` fallback turns a listed precision of 0 and an unlisted symbol into 8 |
| OrderEntry.LotsToQuantity | frontend/src/components/OrderForm.jsx:195-201 | quantity is lots times the symbol's lot size, 0 for an empty field |
| OrderEntry.LotsToQuantitySign | frontend/src/components/OrderForm.jsx:15-27 | lot sizes are positive, so the quantity is positive iff the lots are; unlisted symbols use lot size 1 |
| OrderEntry.MarginCheck | frontend/src/components/OrderForm.jsx:204-218 | with a price and positive quantity, margin times leverage is price times quantity and the order can execute iff 0 < margin <= balance; otherwise margin is 0 |
| OrderEntry.CanExecuteMatchesLedger | frontend/src/components/OrderForm.jsx:204-218 | the form's execute guard agrees with the ledger's acceptance test |
| OrderEntry.ValidateOrderTpSl | frontend/src/components/OrderForm.jsx:221-244 | a take-profit is accepted iff blank or on the profit side of the price, a stop-loss iff blank or on the loss side |
| OrderEntry.MissingPriceReadsAsZero | frontend/src/components/OrderForm.jsx:222-240 | before the first tick the `null` market price compares as 0, so a positive sell take-profit and a positive buy stop-loss are flagged |
| OrderEntry.ValidatedOrderSurvivesEntryTick | frontend/src/components/OrderForm.jsx:246-284 | a validated market order, once opened, is not closed by a tick at its own entry price |
| PositionsView.LiquidationPrice | frontend/src/components/PositionsPanel.jsx:15-21 | the panel's formula is the order form's |
| PositionsView.TabFilter | frontend/src/components/PositionsPanel.jsx:70-74 | a tab shows exactly the positions of its status |
| PositionsView.TabsPartition | frontend/src/components/PositionsPanel.jsx:70-74 | the `all` tab is the whole list, and the open and pending tabs split it |
| PositionsView.ManualCloseRealisesShownPnl | frontend/src/components/PositionsPanel.jsx:84-89 | closing from the panel at the shown mark realises exactly the shown P&L |
| PositionsView.ValidateTpSl | frontend/src/components/PositionsPanel.jsx:123-156 | no selection gives no verdict; otherwise each threshold is accepted iff blank or on its side of the entry price |
| PositionsView.ConfirmedEditIsOnProperSides | frontend/src/components/PositionsPanel.jsx:158-173 | a confirmed edit writes thresholds that lie on their proper sides of the entry |
| PositionsView.ConfirmedEditIsUnambiguous | frontend/src/components/PositionsPanel.jsx:158-173 | after a confirmed edit setting both thresholds, no price meets the take-profit condition and the stop-loss condition at once |
| Analytics.PnlSplits | frontend/src/components/AnalyticsPanel.jsx:15-21 | realised P&L is gross profit plus gross loss, each signed, non-zero iff there is a win or a loss |
| Analytics.CloseCountsOnce | frontend/src/components/AnalyticsPanel.jsx:15-21 | a close record adds its P&L once and counts as one win or loss; an open record changes nothing |
| Analytics.WinRateRange | frontend/src/components/AnalyticsPanel.jsx:22-24 | the win rate is 0 for no history, NaN iff there are records but no decided trade, otherwise in 0..100 |
| Analytics.AverageOf | frontend/src/components/AnalyticsPanel.jsx:231-251 | the average profit and loss shown is never negative |
| Analytics.AveragesScale | frontend/src/components/AnalyticsPanel.jsx:231-251 | average times count is the gross profit (loss), and 0 with no trades |
| Analytics.ProfitFactorCases | frontend/src/components/AnalyticsPanel.jsx:264-278 | the factor is unbounded iff there are wins but no losses, 0 with no wins, otherwise the ratio |
| Analytics.Select | frontend/src/components/AnalyticsPanel.jsx:34-45 | the filter keeps exactly the positions passing it |
| Analytics.FilteredTrades | frontend/src/components/AnalyticsPanel.jsx:34-45 | the table shows exactly the open positions passing the filter |
| Analytics.TotalLeverageAtLeastCount | frontend/src/components/AnalyticsPanel.jsx:49-53 | total leverage is at least the number of positions |
| Analytics.AverageLeverageRange | frontend/src/components/AnalyticsPanel.jsx:49-53 | average leverage is 0 for no positions and at least 1 otherwise |
| Analytics.ProfitLossTotals | frontend/src/components/AnalyticsPanel.jsx:34-53 | the profitable filter sums to a non-negative P&L, positive iff non-empty; the losing filter to a non-positive one |
| Analytics.PnlPercentageIsPriceMove | frontend/src/components/AnalyticsPanel.jsx:56-60 | the P&L percentage of a marked position is the signed price move in percent of the entry |
| Portfolio.MarginUsedPercent | frontend/src/components/PortfolioPanel.jsx:161 | finite iff the balance is non-zero, and then it is margin used over balance in percent |
| Portfolio.FundRequest | frontend/src/components/PortfolioPanel.jsx:45-58 | an amount is forwarded iff entered and positive |
| Portfolio.FundButtonsReachLedger | frontend/src/components/PortfolioPanel.jsx:45-58 | a forwarded deposit is always booked; a forwarded withdrawal iff it does not exceed the cash |
| Portfolio.MarginSplit | frontend/src/components/PortfolioPanel.jsx:40-42 | margin used plus pending margin is the whole reserve |
| Portfolio.LedgerWritesNoFees | frontend/src/components/PortfolioPanel.jsx:21-27 | opening, closing and filling never introduce a fee |
| Portfolio.EquityEqualsTotalWithoutFees | frontend/src/components/PortfolioPanel.jsx:92-156 | without fees the equity card equals the total-balance card |
| Portfolio.MarketOpenMovesMarginOutOfTotal | frontend/src/components/PortfolioPanel.jsx:35-92 | a market open keeps displayed total plus margin used |
| AlertModel.Band | frontend/src/services/api.js:589 | the proximity band is at least 0.5 and at least 0.1% of the value |
| AlertModel.NearThresholdCovers | frontend/src/services/api.js:588-590 | a price within 0.5 of the value is always near it |
| AlertModel.FirstIndex | frontend/src/services/api.js:439 | `findIndex` gives the first alert with the id, none iff absent |
| AlertModel.RemoveFirst | frontend/src/services/api.js:439-442 | `splice` removes just the first match, or nothing |
| AlertModel.RemoveFirstTakesOne | frontend/src/services/api.js:439-442 | the removal takes out exactly one copy of the matching alert |
| ClientAlerts.CrossedMeaning | frontend/src/context/AlertsContext.jsx:216-234 | above fires iff last < value <= price, below iff price <= value < last, crosses iff either; never both, and never without movement |
| ClientAlerts.ObserveCases | frontend/src/context/AlertsContext.jsx:191-250 | a first sighting stores the price only; a cooldown skip changes nothing; otherwise the last price is updated and a fire stamps the time |
| ClientAlerts.RepeatIsInCooldown | frontend/src/context/AlertsContext.jsx:194-214 | within a minute after firing, the same alert does not fire again |
| ClientAlerts.ResetReenables | frontend/src/context/AlertsContext.jsx:304-316 | a reset ends the cooldown and keeps the last price |
| ClientAlerts.Relevant | frontend/src/context/AlertsContext.jsx:177-180 | the checked alerts are exactly the active alerts of the symbol |
| ClientAlerts.FiredAreStamped | frontend/src/context/AlertsContext.jsx:240-246 | every fired alert was checked and has its trigger time set to now |
| ClientAlerts.SweepLeavesOthers | frontend/src/context/AlertsContext.jsx:191-250 | alerts not checked keep their last price and trigger time |
| ClientAlerts.AboveScenario | frontend/src/context/AlertsContext.jsx:191-250 | prices 90, 95, 105, 102, 108 fire an above-100 alert only at 105; a minute later 108 does not fire it again |
| ClientAlerts.ReplaceById | frontend/src/context/AlertsContext.jsx:292-294 | the update `map` keeps the number of alerts |
| ClientAlerts.ReplaceByIdOnlyMatches | frontend/src/context/AlertsContext.jsx:292-294 | only alerts with the id are replaced; an unknown id changes nothing |
| ClientAlerts.AlertMonitor.FinishInitialLoad | frontend/src/context/AlertsContext.jsx:57-61 | the initial-load flag clears and nothing else changes |
| ClientAlerts.AlertMonitor.CheckAlertsForSymbol | frontend/src/context/AlertsContext.jsx:173-253 | the loop fires and records exactly what `Check` specifies, and checks nothing during the initial load |
| ClientAlerts.AlertMonitor.CheckAlertsAgainstPrice | frontend/src/context/AlertsContext.jsx:256-263 | records the symbol's latest price, then checks as above |
| ClientAlerts.AlertMonitor.ResetTriggeredAlert | frontend/src/context/AlertsContext.jsx:304-316 | removes the trigger time only |
| ClientAlerts.AlertMonitor.CreateAlertWithoutRefresh | frontend/src/context/AlertsContext.jsx:266-281 | appends the created alert |
| ClientAlerts.AlertMonitor.UpdateAlertWithoutRefresh | frontend/src/context/AlertsContext.jsx:284-301 | replaces the alerts with the id |
| AlertApi.CheckAlertTrigger | frontend/src/services/api.js:560-600 | no alert, no price, a zero price or an unparsable value never triggers |
| AlertApi.CheckAlertTriggerLevels | frontend/src/services/api.js:575-597 | above is price >= value, below price <= value, crosses inside the band, any other condition never |
| AlertApi.EdgeImpliesLevel | frontend/src/services/api.js:575-597 | every live crossing is a level hit, but a price that stays over the value is a level hit without a crossing |
| AlertApi.NewMockAlert | frontend/src/services/api.js:407-414 | a fallback alert gets the new id and creation time and is active |
| AlertApi.Patched | frontend/src/services/api.js:645-650 | the patch keeps the id and the creation time |
| AlertApi.UpdateMockContract | frontend/src/services/api.js:643-655 | the fallback update fails iff the id is unknown, takes every field the patch gives and keeps the rest |
| AlertApi.EmptyPatchIsIdentity | frontend/src/services/api.js:643-655 | an empty patch returns the stored alert |
| AlertApi.MockAlertStore.CreateAlert | frontend/src/services/api.js:407-416 | appends the fallback alert |
| AlertApi.MockAlertStore.DeleteAlert | frontend/src/services/api.js:438-444 | always answers true and removes the first match |
| AlertApi.MockAlertStore.UpdateAlert | frontend/src/services/api.js:643-655 | answers `UpdateMock` and writes it at the first match |
| AlertApi.CreateDeleteRoundTrip | frontend/src/services/api.js:407-444 | creating under a fresh id and deleting it restores the store |
| BackendAlerts.CrossesIsUnionOfClientRules | backend/app.py:79-95 | the backend's crosses is the browser's crossing rule or its proximity rule |
| BackendAlerts.StrictAtThreshold | backend/app.py:73-78 | at the threshold itself the backend's above and below do not fire, while the browser's level rule does |
| BackendAlerts.FirstCheckOnlyByProximity | backend/app.py:67-95 | with no remembered price, crosses fires only by proximity |
| BackendAlerts.CheckOneContract | backend/app.py:59-102 | one alert's turn changes only its status, only from active to triggered and only when the condition holds; a value `float` rejects skips the alert untouched, and a checked alert leaves its price behind |
| BackendAlerts.CheckPass | backend/app.py:59-120 | a pass keeps the number of alerts |
| BackendAlerts.TriggeredIsPermanent | backend/app.py:59-102 | a pass never reactivates an alert, leaves triggered ones as they were, and changes nothing but status |
| BackendAlerts.NewAlert | backend/app.py:140-148 | a created alert is active with the new id and time (the record the route intends; see Left out) |
| BackendAlerts.Updated | backend/app.py:159-172 | an update keeps id, creation time and status |
| BackendAlerts.UpdateKeepsStatus | backend/app.py:159-172 | an update cannot revive an alert, and takes the body whole |
| BackendAlerts.AlertService.CheckAlerts | backend/app.py:59-120 | the loop computes exactly one `CheckPass` |
| BackendAlerts.AlertService.CreateAlert | backend/app.py:140-148 | appends the new alert (the intended append; see Left out) |
| BackendAlerts.AlertService.DeleteAlert | backend/app.py:151-156 | answers 404 iff the id is unknown, and removes the first match |
| BackendAlerts.AlertService.UpdateAlert | backend/app.py:159-174 | answers 404 iff the id is unknown, and replaces the first match |
| Chart.IntervalSeconds | frontend/src/components/TradingChart.jsx:130-135 | every interval is a positive whole number of minutes, and an unknown timeframe is one minute |
| Chart.BucketStartBounds | frontend/src/components/TradingChart.jsx:137-138 | the bucket start is a multiple of the interval, at or before now and less than one interval before it |
| Chart.TickCandleContract | frontend/src/components/TradingChart.jsx:142-163 | in the same bucket the candle keeps time and open, widens to the price and closes at it, staying well formed; a new bucket opens at the previous close, later in time |
| Chart.NewCandleOpenOutsideRange | frontend/src/components/TradingChart.jsx:142-153 | a new candle's open can lie outside its own high-low range |
| Chart.LiveChart.Load | frontend/src/components/TradingChart.jsx:474-507 | the series is stored with IST times, and the last candle is remembered only for non-empty data |
| Chart.LiveChart.OnTick | frontend/src/components/TradingChart.jsx:119-170 | without a last candle nothing happens; otherwise a new bucket appends and the same bucket overwrites the last element (or leaves an empty series unchanged), keeping the last candle in step with the series |
| Chart.Ema | frontend/src/components/TradingChart.jsx:721-756 | the EMA has one point per candle from the period-th on, none for fewer candles |
| Chart.EmaShape | frontend/src/components/TradingChart.jsx:724-753 | its times are the candles' from the period-th on, and its first value is the mean of the first period closes |
| Chart.SmoothBetween | frontend/src/components/TradingChart.jsx:742-747 | one smoothing step lands between the previous value and the close |
| Chart.EmaSteps | frontend/src/components/TradingChart.jsx:742-753 | each later point is the previous one smoothed towards its close, so it lies between them |
| Chart.CalculateEma | frontend/src/components/TradingChart.jsx:721-756 | the two loops compute exactly `Ema` |
| Chart.MinMoveMatchesPrecision | frontend/src/components/TradingChart.jsx:266-309 | every branch's minimum move is one unit of its last decimal place |
| Chart.DecimalPrecisionMonotone | frontend/src/components/TradingChart.jsx:638-646 | higher prices never get more decimals, and from 100 up it is 2 |
| Formatters.DecimalPrecision | frontend/src/utils/formatters.js:7-26 | listed symbols get their fixed precision regardless of price; others get the chart's price thresholds |
| Formatters.DecimalPrecisionRange | frontend/src/utils/formatters.js:19-25 | the result is one of 1, 2, 3, 4, 5, 6, 8, non-increasing in price without an override, and the empty symbol never overrides |
| Formatters.OverridesAgreeWithChart | frontend/src/utils/formatters.js:9-16 | for DOGE, XRP, BTC and ETH the formatter and the chart's price scale agree |
| Formatters.FormatPrice | frontend/src/utils/formatters.js:34-39 | a missing price prints `--`; otherwise the price with the chosen decimals |
| Indicators.Stamped | frontend/src/context/IndicatorsContext.jsx:38-47 | the added entry is the input with instance id `id-time` |
| Indicators.WithoutInstance | frontend/src/context/IndicatorsContext.jsx:53-55 | removal keeps exactly the entries with another instance id |
| Indicators.WithoutAbsentInstance | frontend/src/context/IndicatorsContext.jsx:53-55 | removing an unknown instance id changes nothing |
| Indicators.ReplacedContract | frontend/src/context/IndicatorsContext.jsx:58-65 | an update keeps the length, replaces exactly the matching entries and is the identity for an unknown id |
| Indicators.IndicatorList.AddIndicator | frontend/src/context/IndicatorsContext.jsx:38-50 | appends one stamped entry and returns it |
| Indicators.IndicatorList.RemoveIndicator | frontend/src/context/IndicatorsContext.jsx:53-55 | performs `WithoutInstance` |
| Indicators.IndicatorList.UpdateIndicator | frontend/src/context/IndicatorsContext.jsx:58-65 | performs `Replaced` and returns the update |
| Indicators.AddRemoveRoundTrip | frontend/src/context/IndicatorsContext.jsx:38-55 | adding and removing by the fresh instance id restores the list |

## Left out

- Persistence in `localStorage` is left out. The ledger and the indicator list start from a given state.
- Network calls are left out: price feeds, WebSockets, candle fetches and the backend routes' HTTP layer. Their results are parameters.
- Timers are not modelled as timers. The one-second closing timer is `ClearClosing`, the deferred TP/SL closes are `CloseTriggered`, the initial-load timeout is `FinishInitialLoad`, and the backend's ten-second sleep is one `CheckAlerts` call per pass.
- Generated ids and `Date.now()` are parameters. Operations that need a fresh id say so in a `requires` clause.
- Floating-point arithmetic, `toFixed` rounding of quantities and prices, and string formatting are not modelled. Reals are exact.
- React's batched state updates and stale closures are not modelled. Each ledger method acts on the current state.
- Toasts, Discord messages, logging and all rendering are left out.
- Leverage 0 cannot be represented, because the selector offers only 1 to 100.
- Trading.Ledger.UpdatePositionPnl: a position whose `currentPrice` is null is not compared as 0. The ledger always writes numbers there.
- Portfolio.UnrealizedPnl: the `pnl || 0` fallback is not modelled separately. The ledger always stores a number.
- Portfolio.LedgerWritesNoFees: the ledger never writes `fees`, so the fee cards are modelled but are always 0.
- The browser's `triggeredAlerts` map and `handleAlertTriggered` are left out. `handleAlertTriggered` only notifies, and it re-stamps a trigger time that has already been stamped.
- ClientAlerts.AlertMonitor.UpdateAlertWithoutRefresh: the `skipTestNotification` flag that the fallback store keeps on the record is not modelled.
- BackendAlerts.AlertService.CheckAlerts: an alert value of `nan` or `inf`, which Python's `float` accepts, is read as `Invalid` and skipped; the source instead stores the last price for it and compares with the non-finite value. The Discord call, and an exception it might raise after the status is set, are left out.
- BackendAlerts.AlertService.CreateAlert: `create_alert` as written fails at id generation, because `uuid` is not imported, so the route answers with an error and appends nothing. The model describes the append the route intends, with the id as a parameter.
- BackendAlerts.NewAlert: for the same reason, the source never builds this record. The model states the record the route intends.
- The backend loop as deployed is left out: it is never started, and the module imports it needs are missing. The model describes one pass as written.
- Chart.LiveChart.Load: a load that returns no candles keeps the previous last candle while the series is empty. A later same-bucket tick then writes to index -1, which the model treats as no change to the series.
- Chart.CalculateEma: it requires a period of at least 1. A period of 0 would read `candles[-1].time` and throw, and the chart calls it only with 9, 21 and 200.
- The chart's drawing, series setup and indicator rendering are left out.
