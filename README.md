# TradeUp trading core, modelled in Dafny

TradeUp is an automated stock-trading backend. This project models its
decision-making core and proves properties of that model:

- **Risk manager.** Fixed-fractional position sizing, the Average True Range
  (ATR) and the ATR-based stop (`RiskManager`).
- **Backtester.** The simulator replays a position-change series over
  historical bars. It buys a fixed tenth of the initial capital on +1,
  liquidates on -1 and summarises the run (`Backtest`). The class
  `Backtest.Backtester` changes its fields in place. Each method is proved
  equal to a pure step function, and the lemmas are stated on those
  functions.
- **Strategies.** Each strategy has its signal rule and its live-cycle
  decision:
  - SMA crossover and Awesome Oscillator, which are meant to send orders. As written, neither can send one; each is modelled both as written and as intended (see Findings);
  - MACD, stochastic oscillator, mean reversion and VWAP, which also build a
    backtest `signal` column by masked writes into a fresh array;
  - EMA crossover, momentum, RSI, Bollinger Bands and Ichimoku cloud, which
    only log a decision;
  - the AI strategy: feature and label construction, the training guard,
    signal generation and a risk-managed bracket order.
- **Market scanner.** A filter loop over symbols that keeps, in input order,
  those passing a price, dollar-volume, volatility and trend filter
  (`MarketScanner.Scan`). It is proved equal to the order-preserving
  selection `Promising`.
- **Strategy registry.** A fixed name-to-strategy table with lookup and
  listing (`StrategyManager`).

Shared pieces live in `Series` and `Orders`:

- `Series` holds bars, sums, rolling means, `diff`, and the generic "keep the
  defined entries" selection `Somes` (pandas `dropna`, or a filter loop).
- `Orders` holds decisions, order intents, the outcome of a live cycle, the
  crossover rule and the masked column write.

A pandas value that may be NaN is an `Option<real>` with `None` for NaN.
Every comparison involving `None` is false, as in numpy.

**What is an input.**
- Indicator columns the source gets from its indicator library: MACD and
  signal line, EMAs, RSI, %K/%D, Bollinger bands, Ichimoku spans, VWAP, the
  Awesome Oscillator, the rolling standard deviation.
- The broker's answers: the fetched bars or the exception message, the
  position lookup, buying power and the asset listing.
- The AI classifier's predictions.

Moving averages, ATR, momentum, `diff`, labels and features are computed in
the repository, so the model computes them too.

## Model

| member | source | states |
|---|---|---|
| RiskManager.New | backend/app/core/risk_manager.py:7-10 | construction succeeds exactly for positive equity and stores it unchanged; otherwise it fails with "Account equity must be positive." |
| RiskManager.PositionSize | backend/app/core/risk_manager.py:15-43 | 0 when a price is not positive or the stop is not below the entry; otherwise size × (entry − stop) = equity × risk |
| RiskManager.PositionSizeDecreasesWithRisk | backend/app/core/risk_manager.py:30-38 | with positive capital at risk, the size is positive and strictly decreases as the risk per share grows |
| RiskManager.TrueRange | backend/app/core/risk_manager.py:50-54 | no contract of its own: the row-wise max of high − low and the two distances from the previous close (high − low alone on the first bar); `TrueRangeBounds` characterises it |
| RiskManager.TrueRanges | backend/app/core/risk_manager.py:50-54 | one entry per bar, entry i being `TrueRange` at bar i |
| RiskManager.Atr | backend/app/core/risk_manager.py:45-56 | its own contract is only the length (one entry per bar); `AtrAt` characterises every entry |
| RiskManager.TrueRangeBounds | backend/app/core/risk_manager.py:50-54 | the true range is at least high − low and at least both distances from the previous close; it equals one of them; it is high − low on the first bar and is non-negative when high ≥ low |
| RiskManager.AtrAt | backend/app/core/risk_manager.py:45-56 | with fewer bars than the period, every entry is undefined (never 0); otherwise entry i is defined exactly from i = period − 1 on, and is then the mean of true ranges i − period + 1 .. i |
| RiskManager.AtrNonNegative | backend/app/core/risk_manager.py:50-55 | when every bar has high ≥ low, each defined ATR is ≥ 0 |
| RiskManager.TrueRangesNonNegative | backend/app/core/risk_manager.py:50-54 | when every bar has high ≥ low, every true range is ≥ 0 |
| RiskManager.StopLoss | backend/app/core/risk_manager.py:58-64 | entry × 0.98 when the ATR is missing, NaN or ≤ 0; otherwise entry − stop = ATR × multiplier; the stop is strictly below a positive entry in both cases |
| Backtest.MarkToMarket | backend/app/backtester/backtester.py:64-66 | the portfolio value becomes cash + holding × price; cash, positions and trades are unchanged |
| Backtest.BuyStep | backend/app/backtester/backtester.py:68-82 | when cash > 0 and covers the cost: cash drops by 0.10 × initial capital, the holding grows by that amount / price (it accumulates), other symbols keep their holding, and one buy record is appended; else no change; cash + holding × price is conserved, and cash stays non-negative |
| Backtest.SellStep | backend/app/backtester/backtester.py:84-93 | with a positive holding: cash grows by holding × price, the holding becomes 0, other symbols keep theirs, and one sell record is appended; else no change; value is conserved |
| Backtest.Step | backend/app/backtester/backtester.py:47-59 | no contract of its own: one loop iteration, marking to market and then buying on +1 or selling on −1; `StepMarksToMarket`, `StepRecordsAtMostOne` and `StepNoTradesWithoutCapital` characterise it |
| Backtest.Replay | backend/app/backtester/backtester.py:47-59 | no contract of its own: the left fold of `Step` over the bars in order; `ReplayNoTradesWithoutCapital`, `ReplayCashNonNegative`, `ReplayFinalValue`, `ReplayTradesAppendOnly` and `FlatChangesTradeNothing` characterise it, and `Backtester.Simulate` is proved equal to it |
| Backtest.Performance | backend/app/backtester/backtester.py:95-117 | no contract of its own beyond requiring a non-zero initial capital once there are trades (the return divides by it); `FlatBacktestSummary` states the no-trade summary and `Backtester.CalculatePerformance` is proved equal to it |
| Backtest.StepMarksToMarket | backend/app/backtester/backtester.py:47-66 | after every bar, whatever the action, portfolio value = cash + holding × that bar's close |
| Backtest.StepRecordsAtMostOne | backend/app/backtester/backtester.py:47-92 | a bar appends at most one record, only on +1 (buy) or −1 (sell), dated at the bar and priced at its close |
| Backtest.StepNoTradesWithoutCapital | backend/app/backtester/backtester.py:68-88 | a simulator started without positive capital stays untouched and without trades after any bar |
| Backtest.ReplayNoTradesWithoutCapital | backend/app/backtester/backtester.py:47-59 | the previous invariant holds over a whole replay, so the return-percentage division is never by zero when trades exist |
| Backtest.ReplayCashNonNegative | backend/app/backtester/backtester.py:47-88 | with non-negative prices, cash never goes negative over a replay |
| Backtest.ReplayFinalValue | backend/app/backtester/backtester.py:47-66 | after a non-empty replay, the final portfolio value is cash + holding × last close |
| Backtest.ReplayTradesAppendOnly | backend/app/backtester/backtester.py:47-92 | the trade list is append-only and grows by at most the number of ±1 changes |
| Backtest.FlatChangesTradeNothing | backend/app/backtester/backtester.py:47-59 | a series without ±1 changes leaves cash, positions and trades unchanged |
| Backtest.FlatBacktestSummary | backend/app/backtester/backtester.py:96-104 | a fresh simulator fed such a series reports the no-trade summary: final value = initial capital, net profit 0, return 0, no trades |
| Backtest.Backtester.constructor | backend/app/backtester/backtester.py:8-17 | cash = portfolio value = initial capital, with no positions and no trades |
| Backtest.Backtester.UpdatePortfolioValue | backend/app/backtester/backtester.py:64-66 | the new state is MarkToMarket of the old one |
| Backtest.Backtester.ExecuteBuy | backend/app/backtester/backtester.py:68-82 | the new state is BuyStep of the old one |
| Backtest.Backtester.ExecuteSell | backend/app/backtester/backtester.py:84-93 | the new state is SellStep of the old one |
| Backtest.Backtester.CalculatePerformance | backend/app/backtester/backtester.py:95-117 | the result is the summary of the current state: zeros and no trade count without trades; otherwise net profit = final − initial, return = net / initial × 100, and the trade count |
| Backtest.Backtester.ProcessBar | backend/app/backtester/backtester.py:47-59 | one loop iteration: mark at the close, then buy on +1, sell on −1, nothing otherwise |
| Backtest.Backtester.Simulate | backend/app/backtester/backtester.py:47-59 | after the loop, the state is the left fold of the step over all bars, in order |
| Backtest.Backtester.Run | backend/app/backtester/backtester.py:19-62 | a failed fetch returns its message and an empty one returns "No data found.", both leaving the state unchanged; otherwise the replayed state and its summary; cash stays non-negative for non-negative closes |
| Orders.HeldQuantity | backend/app/strategies/sma_crossover.py:18-23 | the held quantity is the broker's quantity, or 0 when the lookup raised |
| Orders.CrossedAbove | backend/app/strategies/macd.py:41 | no contract of its own: above now and at most equal before, false on NaN; `CrossingsExclusive` and `CrossoverDecision` characterise it |
| Orders.CrossedBelow | backend/app/strategies/macd.py:43 | no contract of its own: below now and at least equal before, false on NaN; `CrossingsExclusive` and `CrossoverDecision` characterise it |
| Orders.CrossingsExclusive | backend/app/strategies/macd.py:41-44 | an upward and a downward crossover never hold together, and a NaN on either bar gives neither |
| Orders.CrossoverDecision | backend/app/strategies/ema_crossover.py:39-42 | buy exactly on an upward crossover, sell exactly on a downward one, no signal exactly when neither holds |
| Orders.MaskedWrite | backend/app/strategies/macd.py:57-59 | every masked row takes the value and every other row keeps its old value |
| Orders.MaskedSignal | backend/app/strategies/macd.py:57-59 | its own contract is only the length; `MaskedSignalAt` characterises every entry |
| Orders.MaskedSignalAt | backend/app/strategies/stochastic_oscillator.py:56-58 | the zero/buy/sell write sequence gives −1 exactly on the sell mask, 1 exactly on buy-but-not-sell, and 0 elsewhere; the later sell write wins |
| Orders.WriteSignalColumn | backend/app/strategies/macd.py:57-59 | the fresh column equals MaskedSignal of the two masks |
| Series.RollingMeanAt | backend/app/strategies/sma_crossover.py:41-42 | a rolling mean is undefined before the first full window, and is then the mean of the last w values |
| Series.RollingMeanDefinedIff | backend/app/strategies/ai_strategy.py:36-39 | a rolling mean is defined exactly from index w − 1 on, and then times w is the window's sum |
| Series.RollingMeanNonNegative | backend/app/core/risk_manager.py:55 | the rolling mean of non-negative values is non-negative |
| Series.DiffOfBinaryIsSignal | backend/app/strategies/sma_crossover.py:50 | `diff` is undefined exactly at index 0, and the diff of a 0/1 series lies in −1..1 |
| Series.SomesIsSubsequence | backend/app/services/market_scanner.py:73-80 | the kept entries are an order-preserving selection: each comes from a strictly increasing position, and a position is selected exactly when its entry is defined |
| Series.SomesOfSuffix | backend/app/strategies/ai_strategy.py:40 | when entries are undefined exactly before k, the kept entries are those from k on, in order |
| SmaCrossover.Signals | backend/app/strategies/sma_crossover.py:41-48 | its own contract is only the length (one signal per close); `SignalIff` characterises every entry |
| SmaCrossover.PositionChanges | backend/app/strategies/sma_crossover.py:50 | its own contract is only the length; `PositionChangeRange` states NaN at 0 and −1..1 after |
| SmaCrossover.SignalIff | backend/app/strategies/sma_crossover.py:41-48 | the signal is 0 or 1; it is 0 before the short window; it is 1 exactly when past the short window, the long window is full and the short mean exceeds the long mean |
| SmaCrossover.PositionChangeRange | backend/app/strategies/sma_crossover.py:50 | the position change is undefined exactly at index 0 and lies in −1..1 after |
| SmaCrossover.Run | backend/app/strategies/sma_crossover.py:25-78 | the intended cycle raises exactly on a failed fetch (the bar request is unguarded) |
| SmaCrossover.RunDecision | backend/app/strategies/sma_crossover.py:36-78 | for fetched bars: skipped exactly with fewer than long-window bars; otherwise buy 1 share iff change +1 and flat; sell the whole holding iff change −1 and something is held; no order otherwise |
| SmaCrossover.RunAsWritten | backend/app/strategies/sma_crossover.py:55-78 | as written, the unawaited position lookup means no order is ever sent; the cycle raises exactly on a failed fetch or a −1 change on a full frame |
| SmaCrossover.AsWrittenDropsEveryOrder | backend/app/strategies/sma_crossover.py:56-73 | every buy of the intended cycle becomes no order as written, every sell becomes a TypeError, and where the intended cycle sends nothing and the written one does not raise, both send nothing |
| SmaCrossover.UnawaitedLookupDropsBuy | backend/app/strategies/sma_crossover.py:56-66 | closes 10, 11 with windows 1/2 and nothing held: the intended cycle buys one share, the written one sends nothing |
| SmaCrossover.UnawaitedLookupRaisesOnSell | backend/app/strategies/sma_crossover.py:56-74 | closes 10, 11, 10 with windows 1/2 and a holding: the intended cycle sells it, the written one raises |
| SmaCrossover.SignalOfPair | backend/app/strategies/sma_crossover.py:41-48 | with windows 1/2, the signal on a later bar is 1 exactly when its close is above the mean of it and the previous close |
| SmaCrossover.AlternatingClosesSendNothing | backend/tests/test_sma_crossover.py:166-209 | 20 alternating closes 10/11 with windows 2/4 send no order, whatever is held |
| AwesomeOscillator.TruncToInt | backend/app/strategies/awesome_oscillator.py:77 | `int()` truncates toward zero, for either sign |
| AwesomeOscillator.BuyQuantity | backend/app/strategies/awesome_oscillator.py:74-77 | it raises exactly on a zero close; otherwise it is the quotient buying power × share / close truncated toward zero: for a non-negative quotient x, 0 ≤ q ≤ x < q + 1; for a negative one q ≤ 0; and q is positive exactly when x ≥ 1 |
| AwesomeOscillator.RunOnTrade | backend/app/strategies/awesome_oscillator.py:46-109 | the intended cycle raises on a failed fetch (the bar request is unguarded), is skipped with fewer than `slow` fetched bars, and only submits with at least two bars |
| AwesomeOscillator.RunOnTradeAsWritten | backend/app/strategies/awesome_oscillator.py:35-109 | as written, no order is ever submitted: the awaited synchronous lookup (:37) always reads a holding of 0, so the sell branch at :94 never runs, and the unset `telegram_service` raises at :71 before the buy; skipped exactly with fewer than `slow` fetched bars |
| AwesomeOscillator.AsWrittenRaisesOnUpCross | backend/app/strategies/awesome_oscillator.py:35-109 | as written, the cycle raises exactly on a failed fetch, a one-bar frame past the guard, or an upward cross, whatever is held; a downward cross gives no order; whenever it does not raise it agrees with the intended cycle with nothing held |
| AwesomeOscillator.TelegramRaisesBeforeBracket | backend/app/strategies/awesome_oscillator.py:68-91 | AO −1 then 1, nothing held, buying power 1000, close 10: the intended cycle sends BracketBuy(5, 10.5, 9.8), the written one raises |
| AwesomeOscillator.AwaitedLookupDropsSell | backend/app/strategies/awesome_oscillator.py:35-41 | AO 1 then −1 with 3 shares held: the intended cycle sells the 3 shares, the written one sends nothing |
| AwesomeOscillator.AwaitedLookupRaisesWhileHolding | backend/app/strategies/awesome_oscillator.py:35-71 | AO −1 then 1 with 3 shares held: the intended cycle buys nothing more, the written one reads 0 held and raises at the notification |
| AwesomeOscillator.PositiveQuantity | backend/app/strategies/awesome_oscillator.py:77-79 | the quantity is positive exactly when the quotient is at least 1, and then lies within 1 below it |
| AwesomeOscillator.CrossoversExclusive | backend/app/strategies/awesome_oscillator.py:68-94 | the two crossovers are exclusive, and an AO exactly 0 or NaN on either bar triggers neither |
| AwesomeOscillator.BracketAroundClose | backend/app/strategies/awesome_oscillator.py:88-90 | with percentages in (0, 1) and a positive close: 0 < stop < close < take-profit |
| AwesomeOscillator.RunOnTradeBuy | backend/app/strategies/awesome_oscillator.py:68-93 | in the intended cycle, a bracket buy is sent iff the AO crossed up, nothing is held, the close is not 0 and buying power × share / close ≥ 1; the order carries the truncated quantity q with q ≤ quotient < q + 1, and close × (1 + tp), close × (1 − sl) |
| AwesomeOscillator.RunOnTradeSell | backend/app/strategies/awesome_oscillator.py:94-103 | in the intended cycle, the whole holding is sold iff the AO crossed down and something is held; with a holding no buy is sent |
| AwesomeOscillator.RunOnTradeRaises | backend/app/strategies/awesome_oscillator.py:51-77 | the intended cycle raises exactly on a failed fetch, a one-bar frame that passes the length guard, or a buy with a zero close |
| Macd.BuyMask | backend/app/strategies/macd.py:58 | its own contract is only the length (one flag per row); `Macd.SignalsAt` characterises the column built from it |
| Macd.SellMask | backend/app/strategies/macd.py:59 | its own contract is only the length (one flag per row); `Macd.SignalsAt` characterises the column built from it |
| Macd.Signals | backend/app/strategies/macd.py:57-59 | its own contract is only the length (one signal per row); `Macd.SignalsAt` characterises every entry and `Macd.GenerateSignals` is proved equal to it |
| Macd.SignalsAt | backend/app/strategies/macd.py:57-59 | row i is 1 exactly on an upward crossover from row i − 1, −1 exactly on a downward one, and the first row is 0 |
| Macd.GenerateSignals | backend/app/strategies/macd.py:46-61 | no column exactly for empty bars; otherwise a fresh column equal to the signal rule |
| Macd.RunOnTrade | backend/app/strategies/macd.py:21-44 | raises exactly on a failed fetch (unguarded bar request) or a one-row frame (`iloc[-2]`); nothing exactly on an empty frame |
| Macd.RunOnTradeMatchesSignals | backend/app/strategies/macd.py:41-59 | on fetched bars of at least two rows, the live cycle logs exactly the decision the signal column holds on the last row |
| StochasticOscillator.BuyMask | backend/app/strategies/stochastic_oscillator.py:57 | its own contract is only the length (one flag per row); `StochasticOscillator.SignalsAt` characterises the column built from it |
| StochasticOscillator.SellMask | backend/app/strategies/stochastic_oscillator.py:58 | its own contract is only the length (one flag per row); `StochasticOscillator.SignalsAt` characterises the column built from it |
| StochasticOscillator.Signals | backend/app/strategies/stochastic_oscillator.py:56-58 | its own contract is only the length (one signal per row); `StochasticOscillator.SignalsAt` characterises every entry and `StochasticOscillator.GenerateSignals` is proved equal to it |
| StochasticOscillator.SignalsAt | backend/app/strategies/stochastic_oscillator.py:56-58 | −1 exactly when both lines are overbought; 1 exactly when oversold and not overbought; 0 otherwise; with oversold ≤ overbought, 1 exactly when oversold |
| StochasticOscillator.GenerateSignals | backend/app/strategies/stochastic_oscillator.py:45-60 | no column exactly for empty bars; otherwise a fresh column equal to the signal rule |
| StochasticOscillator.RunOnTrade | backend/app/strategies/stochastic_oscillator.py:22-43 | raises exactly on a failed fetch (unguarded bar request); nothing exactly on an empty frame |
| StochasticOscillator.RunOnTradeMatchesSignals | backend/app/strategies/stochastic_oscillator.py:40-58 | for any thresholds, the live cycle's sell-first test logs exactly the last row's column value |
| MeanReversion.LowerBand | backend/app/strategies/mean_reversion.py:53 | the lower band is defined exactly when the SMA and the deviation are |
| MeanReversion.UpperBand | backend/app/strategies/mean_reversion.py:54 | the upper band is defined exactly when the SMA and the deviation are |
| MeanReversion.BandsExclusive | backend/app/strategies/mean_reversion.py:38-41 | with threshold ≥ 0 and deviation ≥ 0, no close is both below and above; a close on a band, or an undefined SMA or deviation, is neither |
| MeanReversion.BuyMask | backend/app/strategies/mean_reversion.py:53 | its own contract is only the length (one flag per row); `MeanReversion.SignalsAt` characterises the column built from it |
| MeanReversion.SellMask | backend/app/strategies/mean_reversion.py:54 | its own contract is only the length (one flag per row); `MeanReversion.SignalsAt` characterises the column built from it |
| MeanReversion.Signals | backend/app/strategies/mean_reversion.py:52-54 | its own contract is only the length (one signal per row); `MeanReversion.SignalsAt` characterises every entry and `MeanReversion.GenerateSignals` is proved equal to it |
| MeanReversion.SignalsAt | backend/app/strategies/mean_reversion.py:52-54 | for a non-negative threshold and deviation: 1 exactly below the lower band, −1 exactly above the upper band, 0 otherwise |
| MeanReversion.GenerateSignals | backend/app/strategies/mean_reversion.py:43-56 | no column exactly for empty bars; otherwise a fresh column equal to the signal rule |
| MeanReversion.RunOnTrade | backend/app/strategies/mean_reversion.py:20-41 | raises exactly on a failed fetch (unguarded bar request); nothing exactly on an empty frame |
| MeanReversion.RunOnTradeMatchesSignals | backend/app/strategies/mean_reversion.py:38-54 | for a non-negative threshold and deviation, the live cycle logs exactly the last row's column value |
| Vwap.BuyMask | backend/app/strategies/vwap.py:46 | its own contract is only the length (one flag per row); `Vwap.SignalsAt` characterises the column built from it |
| Vwap.SellMask | backend/app/strategies/vwap.py:47 | its own contract is only the length (one flag per row); `Vwap.SignalsAt` characterises the column built from it |
| Vwap.Signals | backend/app/strategies/vwap.py:45-47 | its own contract is only the length (one signal per row); `Vwap.SignalsAt` characterises every entry and `Vwap.GenerateSignals` is proved equal to it |
| Vwap.SignalsAt | backend/app/strategies/vwap.py:45-47 | the signal is the sign of close − VWAP; it is 0 when they are equal or VWAP is NaN |
| Vwap.GenerateSignals | backend/app/strategies/vwap.py:37-49 | no column exactly for empty bars; otherwise a fresh column equal to the signal rule |
| Vwap.RunOnTrade | backend/app/strategies/vwap.py:18-35 | raises exactly on a failed fetch (unguarded bar request); nothing exactly on an empty frame |
| Vwap.RunOnTradeMatchesSignals | backend/app/strategies/vwap.py:32-47 | the live cycle logs exactly the last row's column value |
| EmaCrossover.RunOnTrade | backend/app/strategies/ema_crossover.py:20-42 | raises exactly on a failed fetch (unguarded bar request) or a one-row frame (`iloc[-2]`); nothing exactly on an empty frame; otherwise buy iff the fast EMA crossed above the slow one; sell iff it crossed below; no signal iff a NaN, equal EMAs now, or the same side on both bars |
| Momentum.MomentumSeries | backend/app/strategies/momentum.py:30 | its own contract is only the length; `Momentum.RunOnTradeDecision` states the last entry in terms of the closes |
| Momentum.RunOnTrade | backend/app/strategies/momentum.py:19-37 | raises exactly on a failed fetch (unguarded bar request); nothing exactly on an empty frame |
| Momentum.RunOnTradeDecision | backend/app/strategies/momentum.py:30-37 | buy iff the last close is above the close `period` bars earlier; sell iff below; nothing when they are equal or the frame is too short |
| Rsi.RunOnTrade | backend/app/strategies/rsi.py:21-39 | raises exactly on a failed fetch (unguarded bar request); nothing exactly on an empty frame |
| Rsi.RunOnTradeDecision | backend/app/strategies/rsi.py:34-39 | sell iff RSI > overbought (sell first); buy iff RSI < oversold and not overbought, which with oversold ≤ overbought is just RSI < oversold; nothing for NaN or between the levels |
| BollingerBands.RunOnTrade | backend/app/strategies/bollinger_bands.py:20-38 | raises exactly on a failed fetch (unguarded bar request); nothing exactly on an empty frame |
| BollingerBands.RunOnTradeDecision | backend/app/strategies/bollinger_bands.py:31-38 | buy iff the close is below the lower band; with lower ≤ upper, sell iff above the upper band and nothing iff within; NaN bands give nothing |
| IchimokuCloud.RunOnTrade | backend/app/strategies/ichimoku_cloud.py:21-43 | raises exactly on a failed fetch (unguarded bar request); nothing exactly on an empty frame |
| IchimokuCloud.RunOnTradeDecision | backend/app/strategies/ichimoku_cloud.py:36-43 | buy iff the close is above both spans; sell iff below both; nothing iff on or between them, or when a span is NaN |
| AiStrategy.RawFeatures | backend/app/strategies/ai_strategy.py:36-39 | its own contract is only the length (one row per close); `RawFeaturesDefinedIff` says which rows are defined |
| AiStrategy.PrepareFeatures | backend/app/strategies/ai_strategy.py:31-41 | no contract of its own: the defined rows of `RawFeatures`; `PrepareFeaturesRows` gives their number and their bars |
| AiStrategy.PrepareLabels | backend/app/strategies/ai_strategy.py:43-48 | its own contract is only the length; `PrepareLabelsAt` characterises every entry |
| AiStrategy.TrainingSet | backend/app/strategies/ai_strategy.py:50-68 | no contract of its own; `TrainingSetShape` states the 100-bar guard and the aligned samples |
| AiStrategy.BuyStop | backend/app/strategies/ai_strategy.py:126-128 | no contract of its own: `StopLoss` at the last close with the 14-bar ATR; `AIStrategy.RunBracketOrder` states the order's stop through it |
| AiStrategy.BuySize | backend/app/strategies/ai_strategy.py:129 | no contract of its own: `PositionSize` at the last close and `BuyStop`; `AIStrategy.RunBracketOrder` states the order's quantity through it |
| AiStrategy.RawFeaturesDefinedIff | backend/app/strategies/ai_strategy.py:36-40 | a feature row is defined exactly from the 50th bar on, and carries its own bar position |
| AiStrategy.PrepareFeaturesRows | backend/app/strategies/ai_strategy.py:31-41 | after `dropna` there are n − 49 rows (none below 50 bars); row j is bar j + 49 |
| AiStrategy.PrepareLabelsAt | backend/app/strategies/ai_strategy.py:43-48 | labels are 0/1; 1 exactly where the close five bars later is higher; 0 on the last five bars |
| AiStrategy.TrainingSetShape | backend/app/strategies/ai_strategy.py:50-68 | fewer than 100 bars are refused with "Not enough data."; from 100 bars there are n − 49 samples pairing bar j + 49's features with its label; the "Could not prepare features." branch is unreachable |
| AiStrategy.AIStrategy.constructor | backend/app/strategies/ai_strategy.py:13-24 | the invariant holds; a model is present, and fitted, exactly when one was saved to disk |
| AiStrategy.AIStrategy.Train | backend/app/strategies/ai_strategy.py:50-82 | keeps the invariant (only a present model is fitted); a failed fetch returns its message and fewer than 100 bars return "Not enough data.", both keeping the model as it was; otherwise a fresh estimator is present: a fit that raises returns its message and leaves it unfitted, a fit that succeeds returns "Training successful" with a fitted model |
| AiStrategy.AIStrategy.GenerateSignals | backend/app/strategies/ai_strategy.py:84-99 | both columns have the frame's length; without a model or without feature rows both are all 0; it raises exactly when an unfitted model would predict on feature rows |
| AiStrategy.AIStrategy.GenerateSignalsWithModel | backend/app/strategies/ai_strategy.py:93-97 | with a fitted model, each feature row's signal is its own prediction, and the rows before the features are 0 |
| AiStrategy.AIStrategy.GenerateSignalsPosition | backend/app/strategies/ai_strategy.py:97 | the position is the signal's diff, undefined exactly on the first row, in −1..1 for 0/1 predictions |
| AiStrategy.AIStrategy.Run | backend/app/strategies/ai_strategy.py:101-122 | without a model, or with fewer than 50 bars, the cycle does nothing; with a model it raises exactly on a failed fetch or when an unfitted model would predict |
| AiStrategy.AIStrategy.RunBracketOrder | backend/app/strategies/ai_strategy.py:125-140 | a bracket buy is sent exactly on a fitted model, at least 50 fetched bars, prediction 1, nothing held and a positive size; its stop is the 2-ATR(14) stop below the close and its quantity the 1%-risk size for it, so the stop is strictly between 0 and the close, the take-profit is twice as far above as the stop is below, and a loss at the stop costs exactly 1% of equity |
| AiStrategy.AIStrategy.RunClosesPosition | backend/app/strategies/ai_strategy.py:141-145 | the position is closed exactly on prediction 0 of a fitted model with something held, once bars and features are present |
| MarketScanner.ScannerTrueRanges | backend/app/services/market_scanner.py:55-58 | its own contract is only the length; `TrueRangesAgree` and `TrueRangeAgrees` prove it equal to the risk manager's true ranges |
| MarketScanner.ScannerAtr | backend/app/services/market_scanner.py:55-59 | no contract of its own beyond requiring 14 bars; `ScannerAtrIsRiskManagerAtr` and `ScannerAtrOfTrueRanges` characterise it |
| MarketScanner.TrendSma | backend/app/services/market_scanner.py:66 | no contract of its own beyond requiring 20 bars; `TrendSmaIsRollingMean` characterises it |
| MarketScanner.MeanDollarVolume | backend/app/services/market_scanner.py:46 | no contract of its own beyond requiring a bar: the mean of volume × close; `Measure` and `AssessKept` use it |
| MarketScanner.ScannerAtrIsRiskManagerAtr | backend/app/services/market_scanner.py:55-59 | the scanner's ATR is the risk manager's 14-bar ATR at the last bar |
| MarketScanner.ScannerAtrOfTrueRanges | backend/app/services/market_scanner.py:55-59 | the scanner's ATR is the mean of the risk manager's true ranges over the last 14 bars |
| MarketScanner.TrueRangesAgree | backend/app/services/market_scanner.py:55-58 | the scanner's true-range column equals the risk manager's |
| MarketScanner.TrueRangeAgrees | backend/app/services/market_scanner.py:55-58 | row by row, the scanner's true range equals the risk manager's |
| MarketScanner.TrendSmaIsRollingMean | backend/app/services/market_scanner.py:66 | the trend figure is the 20-bar rolling mean of the closes at the last bar |
| MarketScanner.Measure | backend/app/services/market_scanner.py:45-66 | the measured price is the last close |
| MarketScanner.Filter | backend/app/services/market_scanner.py:45-80 | a candidate is kept iff price ≥ minimum, dollar volume ≥ minimum, ATR / price ≥ threshold and price ≥ the 20-bar SMA (and the price is not 0); the candidate holds exactly those figures |
| MarketScanner.Assess | backend/app/services/market_scanner.py:38-84 | only a successful fetch of at least 30 bars can yield a candidate |
| MarketScanner.AssessKept | backend/app/services/market_scanner.py:41-68 | a kept candidate carries its symbol, its last close (≥ minimum, ≥ 20-bar SMA), its mean dollar volume (≥ minimum) and an ATR share ≥ threshold |
| MarketScanner.FilterAtrPct | backend/app/services/market_scanner.py:59-60 | a kept candidate's ATR share times its price is the ATR |
| MarketScanner.Assessments | backend/app/services/market_scanner.py:38-84 | its own contract is only the length (one assessment per symbol, each `Assess` of its fetch) |
| MarketScanner.Promising | backend/app/services/market_scanner.py:34-89 | no contract of its own: the kept assessments in order; `PromisingIsSubsequence` and `PromisingStep` characterise it and `Scan` is proved equal to it |
| MarketScanner.PromisingIsSubsequence | backend/app/services/market_scanner.py:34-89 | the result is an order-preserving selection of the input; a symbol appears exactly when it passes, and a failure skips only that symbol |
| MarketScanner.PromisingStep | backend/app/services/market_scanner.py:73-80 | scanning one more symbol appends its candidate if it has one |
| MarketScanner.Scan | backend/app/services/market_scanner.py:24-89 | the filter loop returns exactly Promising |
| MarketScanner.TradableSymbols | backend/app/services/market_scanner.py:17-19 | no contract of its own; `TradableSymbolsExact` and `TradableSymbolsInOrder` characterise it |
| MarketScanner.TradableSymbolsExact | backend/app/services/market_scanner.py:17-19 | a symbol is returned exactly when some listed asset with it is tradable and shortable |
| MarketScanner.TradableSymbolsInOrder | backend/app/services/market_scanner.py:17-19 | the symbols are an order-preserving selection of the listing: the k-th comes from a strictly increasing position holding a tradable, shortable asset, and every such asset is selected |
| MarketScanner.GetTradableAssets | backend/app/services/market_scanner.py:13-22 | a failed listing gives no symbols; otherwise the tradable, shortable ones |
| MarketScanner.SampleSymbols | backend/app/services/market_scanner.py:92-93 | a prefix of the tradable symbols of length min(count, 200) |
| MarketScanner.RunScan | backend/app/services/market_scanner.py:91-95 | the result is the scan of the first 200 tradable symbols with the default thresholds |
| StrategyManager.New | backend/app/core/strategy_manager.py:6-11 | the registry has two entries |
| StrategyManager.Keys | backend/app/core/strategy_manager.py:16-17 | the listing has one name per entry, in entry order |
| StrategyManager.Find | backend/app/core/strategy_manager.py:13-14 | no contract of its own: the last entry under the name, as a dict keeps; `FindIff` and `FindDistinct` characterise it |
| StrategyManager.GetStrategy | backend/app/core/strategy_manager.py:13-14 | no contract of its own; `GetRegistered` and `GetStrategyIffListed` characterise it |
| StrategyManager.GetAvailableStrategies | backend/app/core/strategy_manager.py:16-17 | no contract of its own: the registry's `Keys`; `AvailableStrategiesExact` characterises it |
| StrategyManager.FindIff | backend/app/core/strategy_manager.py:13-14 | a lookup finds something exactly when the name is registered, and what it finds is registered under that name |
| StrategyManager.FindDistinct | backend/app/core/strategy_manager.py:13-14 | with distinct names, looking up the i-th name gives the i-th strategy |
| StrategyManager.AvailableStrategiesExact | backend/app/core/strategy_manager.py:7-11 | the listing is exactly ["sma_crossover", "adaptive_strategy"] |
| StrategyManager.GetRegistered | backend/app/core/strategy_manager.py:7-14 | each registered name resolves to its instance |
| StrategyManager.GetStrategyIffListed | backend/app/core/strategy_manager.py:13-17 | a name resolves exactly when it is listed; every other name gives None |

## Left out

- Macd.GenerateSignals: the model assumes the indicator library adds its MACD columns for a frame of any length. The library adds no column to a frame shorter than its slow lookback (26 bars by default), and the column lookup at macd.py:58-59 then raises a KeyError; the model gives a signal column instead.
- StochasticOscillator.GenerateSignals: the model assumes the library adds its `STOCHk`/`STOCHd` columns for a frame of any length. A frame shorter than the %K lookback gets no column, and the lookup at stochastic_oscillator.py:57-58 then raises a KeyError; the model gives a signal column instead.
- MeanReversion.GenerateSignals: the model assumes the library adds its `SMA_<period>` column for a frame of any length. A frame shorter than the period gets no column, and the lookup at mean_reversion.py:53-54 then raises a KeyError; the model gives a signal column instead.
- Macd.RunOnTrade: the model assumes the library's MACD columns are present, under the names the cycle reads, for a frame of any length. A non-empty frame shorter than the slow lookback gets no column, so the lookup raises a KeyError where the model logs a decision.
- EmaCrossover.RunOnTrade: the model assumes both `EMA_<fast>` and `EMA_<slow>` columns are present for a frame of any length. A frame shorter than a period gets no column, so the lookup raises a KeyError where the model logs a decision.
- Rsi.RunOnTrade: the model assumes the `RSI_<period>` column is present for a frame of any length. A frame shorter than the period gets no column, so the lookup raises a KeyError where the model logs a decision.
- StochasticOscillator.RunOnTrade: the model assumes the `STOCHk`/`STOCHd` columns are present for a frame of any length. A frame shorter than the %K lookback gets no column, so the lookup raises a KeyError where the model logs a decision.
- BollingerBands.RunOnTrade: the model assumes the band columns are present for a frame of any length. A frame shorter than the band period gets no column, so the lookup raises a KeyError where the model logs a decision.
- MeanReversion.RunOnTrade: the model assumes the `SMA_<period>` column is present for a frame of any length. A frame shorter than the period gets no column, so the lookup raises a KeyError where the model logs a decision.
- IchimokuCloud.RunOnTrade: the model assumes the span columns are present, under the names `ISA_<tenkan>_<kijun>_<senkou>` and `ISB_<kijun>_<senkou>` read at ichimoku_cloud.py:37-38, for a frame of any length. A frame shorter than the longest lookback gets no column, and a library that names its spans differently leaves no column under those names either; both raise a KeyError where the model logs a decision.
- Broker, notification and storage I/O: order submission side effects, Telegram, the WebSocket broadcast, Google Sheets export and trade records in the database. A live cycle's outcome is the order it would send, or none.
- Bars, position lookups, buying power and asset listings come from the broker, so they are inputs. Each strategy's requested bar count is the constant `BarLimit`. The broker returns any number of bars.
- Indicator-library columns (MACD, EMA, RSI, stochastic, Bollinger, Ichimoku, VWAP, AO, the rolling standard deviation) are inputs with NaN as `None`.
- The AI classifier: fitting, the train/test split, prediction, accuracy, and loading or saving the model. Predictions and the success or error message of `fit` are inputs; `hasModel` stands for `self.model` being set and `fitted` for that estimator having been fitted.
- Floating point: prices are exact reals, and `round(…, 2)` in the backtest summary and the AI bracket prices is not modelled.
- async/await: calls are sequential.
- Window lengths: the model assumes windows of at least 1 (`Window`).
- The adaptive strategy and the strategy base class are placeholders. The registry holds the adaptive strategy as a tag, and the broker service handed to each strategy is not modelled.
- The strategies' `run` methods that only `pass` are not modelled.
- SmaCrossover.Run: the trade record written after each order is left out with the database. As written, `create_trade` is called without its required `strategy` and `entry_reason` arguments and would raise right after the order is sent; the missing `await` on the position lookup (see Findings) keeps that line from being reached.
- SmaCrossover.RunDecision: it speaks of fetched bars; a failed fetch raises, as `Run` states.
- AwesomeOscillator.RunOnTrade: the trade-record calls are not modelled. As written they pass an undefined `db` and lack two required arguments of `create_trade`; they follow the order, which as written is never sent (see Findings).
- AiStrategy.AIStrategy: as written the class cannot be built. Its constructor (ai_strategy.py:14) passes `alpaca_service, risk_manager, name` to `BaseStrategy.__init__`, which takes only `alpaca_service` (base.py:5), so every `AIStrategy(...)` raises a TypeError and none of the class runs. The model describes the class as intended: it gives the class its risk manager and takes the holding as an input, since the base class provides no `risk_manager` or `get_position`. It also treats the notification before the bracket order as sent, although as written the unset `telegram_service` would raise at ai_strategy.py:135 before the order at :136.
- Backtest.Backtester.Run: the source reads a `position` column that only the AI strategy produces. The model takes the position-change series directly.
- MarketScanner.Filter: a zero last close is skipped. The source divides by it, giving an infinite or NaN `atr_pct` that its filters then compare.
- MarketScanner: NaN inside the fetched bars is not modelled; bar values are reals.
- MeanReversion.BandsExclusive: it requires a non-negative threshold and deviation; a standard deviation is never negative.
- MarketScanner.AssessKept: it states the ATR share through `FilterAtrPct`, and the ATR itself through `ScannerAtrIsRiskManagerAtr`, rather than in one contract.

## Findings

| source | as written | input that shows it | evidently intended | confidence | as-written member | corrected member |
|---|---|---|---|---|---|---|
| backend/app/strategies/sma_crossover.py:56-67 | `get_position` is a coroutine called without `await`, so `current_position == 0` is always false and `current_position > 0` raises a TypeError: no buy is ever sent and every sell signal raises | windows 1/2, closes 10, 11, nothing held: no order instead of a one-share buy; closes 10, 11, 10 with a holding: TypeError instead of a sell | await the lookup, buy one share on +1 when flat and sell the holding on −1 | not executed | SmaCrossover.RunAsWritten, with SmaCrossover.UnawaitedLookupDropsBuy and SmaCrossover.UnawaitedLookupRaisesOnSell | SmaCrossover.Run |
| backend/app/strategies/awesome_oscillator.py:71-72 | `self.telegram_service` is never assigned (not by this constructor, not by `BaseStrategy` at base.py:5-6), so the buy notification raises an AttributeError before the account is read or an order sent | AO −1 then 1, nothing held, buying power 1000, last close 10: AttributeError instead of a bracket buy of 5 shares at take-profit 10.5 and stop 9.8 | notify, then send the bracket buy | not executed | AwesomeOscillator.RunOnTradeAsWritten, with AwesomeOscillator.TelegramRaisesBeforeBracket | AwesomeOscillator.RunOnTrade |
| backend/app/strategies/awesome_oscillator.py:35-41 | `get_position` awaits the broker client's `get_position`, an ordinary call (the same client is used without `await` at sma_crossover.py:20), so the `await` raises a TypeError that the `except` turns into 0.0: every cycle reads a holding of 0, the sell branch at :94 never runs, and an upward cross with a holding takes the buy branch | AO 1 then −1 with 3 shares held: no order instead of a sell of 3 shares; AO −1 then 1 with 3 shares held: the buy branch raises instead of no order | call the lookup without `await` and read the real holding | not executed | AwesomeOscillator.RunOnTradeAsWritten, with AwesomeOscillator.AwaitedLookupDropsSell and AwesomeOscillator.AwaitedLookupRaisesWhileHolding | AwesomeOscillator.RunOnTrade |
