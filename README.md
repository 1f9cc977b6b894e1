# MacroSim and the backtesting engine in Dafny

This project models two parts of the MESA repository and proves properties
of the model.

**The macro-simulator prototype** (`prototype/opus.jsx`). It has six
macroeconomic indicators with observed baselines and slider ranges. The user
moves the sliders, which gives each indicator a delta against its baseline;
each delta is shown as a signed label. The start button is enabled only once
some indicator has changed. Pressing it arms one timer per agent, staggered
1200 ms apart (agent `idx` at `idx * 1200` ms, the fifth and last at
4800 ms), and then a final timer at `n * 1200 + 800` = 6800 ms, 2000 ms
after the last activation, which ends the analysis and shows the consensus. The agent cards show which
agent is active and which have completed.

- `indicators.dfy` holds the tables and the pure computations: `getDelta`,
  `formatDelta` and the `some`/`every` start gate.
- `simulator.dfy` holds the screen state. React's `useState` slots become
  one `UiState` record, and every setter call replaces it with a new value.
  The `setTimeout` calls become data: a list of (delay, event) timers built
  by a `for` loop (`ScheduleTimers`). The screen `t` ms after the press is
  the result of firing the due timers in order (`RunTimers`).

**The Python backtester and its strategies** (`src/backtesting/__init__.py`,
`src/strategies/__init__.py`, `src/strategies/sma_strategy.py`).

- `strategies.dfy`: the base `Strategy` is a class whose position and entry
  price are updated in place. Its candle-to-row conversion is a function.
- `sma_strategy.dfy`: the simple-moving-average crossover strategy. The
  pandas rolling means are `Option<real>`, with `None` standing for NaN, and
  every comparison with an undefined mean is false, as with NaN. The rule is
  the specification function `Evaluate`, and the class method `Analyze` is
  proved against it.
- `backtesting.dfy`: the `Backtester` class. Its fields are updated by
  `Run`, whose loop is proved against the specification functions `Step`,
  `Replay`, `CloseAtEnd` and `RunAccount` on an `Account` value. On those
  functions the model proves:
  - the warm-up of 30 candles;
  - a trade log that alternates buy and sell from a flat start;
  - as many sells as buys at the end of a run;
  - cash conservation: after a run from a flat account, the final balance
    is the starting balance plus the sum of the logged profits.

  `_calculate_results` is the function `Summarise` of the initial balance,
  the balance and the trade log, with its zero-division error path as a
  `Result`. Every count, the win rate and both averages are tied to the
  closed, winning and losing trades of the log.

How the code behaves at the end of a run: the closing sale in `run`
(`src/backtesting/__init__.py:110-124`) credits the proceeds and logs a sell
record. It does not reset `position`, `position_size` or `entry_price`, and
it does not call `set_position(None)`. `CloseAtEnd` models exactly that, and
`Backtester.CloseOpenPosition` promises it. As a result, a second `run` on
the same engine starts out long. `RunBalanced` and `RunCashIsProfit`
therefore assume a flat starting account.

The prototype has no per-agent timeouts, cancellation, failure states or
consensus rule. It runs fixed `setTimeout` callbacks
(`prototype/opus.jsx:113-123`) and shows hard-coded texts
(`prototype/opus.jsx:557-591`). The model covers what the prototype does.

## Model

| member | source | states |
|---|---|---|
| Indicators.Baseline | prototype/opus.jsx:13-18 | the observed baseline of each indicator; `RangesWellFormed` and `BaselineOnStepGrid` state that it lies in its slider range, on the step grid |
| Indicators.RangeOf | prototype/opus.jsx:32-37 | the slider range of each indicator; `RangesWellFormed` states min < max, a positive step, and the baseline inside |
| Indicators.KeysListEveryKey | prototype/opus.jsx:11-18 | the key list names every one of the six indicators |
| Indicators.KeysAreDistinct | prototype/opus.jsx:11-18 | no indicator appears twice in the key list |
| Indicators.RangesWellFormed | prototype/opus.jsx:31-38 | every slider range is non-empty, has a positive step and contains the indicator's baseline |
| Indicators.BaselineOnStepGrid | prototype/opus.jsx:31-38 | every baseline is the minimum plus a whole number of steps, so the slider can return to it exactly |
| Indicators.ListedKeysTotal | prototype/opus.jsx:22-29 | a map that holds every key of the key list holds every indicator |
| Indicators.InitialSimValues | prototype/opus.jsx:22-29 | the literal initial slider table covers every indicator, and each value equals that indicator's baseline |
| Indicators.GetDelta | prototype/opus.jsx:93-98 | baseline plus delta is the simulated value; the delta is zero iff the value is at its baseline, and positive iff it is above |
| Indicators.FormatDelta | prototype/opus.jsx:100-106 | no label iff the value is at its baseline; otherwise the label's delta plus the baseline is the value, the sign is "+" iff above and "" iff below |
| Indicators.Decimals | prototype/opus.jsx:104 | the decimals of a label; `LabelDecimals` states 0 for the exchange rate and the oil price, 1 for the four percentages |
| Indicators.LabelDecimals | prototype/opus.jsx:104 | a changed label has 0 decimals iff the indicator is the exchange rate or the oil price, and 1 decimal iff it is one of the four percentages |
| Indicators.SomeFormatted | prototype/opus.jsx:433 | `some(formatDelta)` over a key list; `SomeFormattedIff` states it holds iff a listed key is off its baseline |
| Indicators.EveryUnformatted | prototype/opus.jsx:435 | `every(!formatDelta)` over a key list; `GateComplement` states it is the negation of `SomeFormatted` |
| Indicators.GateComplement | prototype/opus.jsx:433-435 | the `every(!formatDelta)` disable test is exactly the negation of the `some(formatDelta)` opacity test |
| Indicators.SomeFormattedIff | prototype/opus.jsx:433 | `some(formatDelta)` over a key list holds iff one of those keys is off its baseline (both directions) |
| Indicators.AnyChangedIff | prototype/opus.jsx:433 | over the full table, `some(formatDelta)` holds iff some indicator is off its baseline |
| Indicators.StartEnabled | prototype/opus.jsx:429-435 | the start button is enabled iff some indicator differs from its baseline, and iff the `every` disable test is false |
| Simulator.AgentIdsDistinct | prototype/opus.jsx:40-91 | the five agent ids are pairwise distinct |
| Simulator.Initial | prototype/opus.jsx:4-9 | the first screen is step 1 with no active agent, no analysis and no consensus, and its start button is disabled |
| Simulator.MoveSlider | prototype/opus.jsx:345-348 | a slider change sets exactly its own key to the new value, keeps every other indicator and every other state field, and keeps the state valid |
| Simulator.SliderBackToBaseline | prototype/opus.jsx:345-348 | moving a slider away and back to its baseline restores the original screen |
| Simulator.NavClick | prototype/opus.jsx:149 | a click on the navigation bar never moves forward; it changes the step to `idx + 1` iff that step is already reached, and nothing else |
| Simulator.OpenScenario | prototype/opus.jsx:220 | the step-1 button moves to step 2 and changes nothing else |
| Simulator.OpenReport | prototype/opus.jsx:603 | the report button moves to step 4 and changes nothing else |
| Simulator.PressStart | prototype/opus.jsx:108-111 | when disabled a press leaves the screen unchanged; otherwise it moves to step 3 and raises the analysing flag, leaving the values, the active agent and the consensus flag alone |
| Simulator.Fire | prototype/opus.jsx:114-123 | an activation timer sets only the active agent; the conclusion timer lowers the analysing flag and shows the consensus |
| Simulator.Schedule | prototype/opus.jsx:113-123 | the timers the start handler arms; `ScheduleChronological` states one per agent plus the conclusion with increasing delays, and `ScheduleTimers` is proved equal to it |
| Simulator.RunTimers | prototype/opus.jsx:113-123 | the screen once every due timer has fired in order; `ActivationsUpTo` and `TimelineAt` state the active agent, the analysing flag and the consensus at each time |
| Simulator.ScheduleChronological | prototype/opus.jsx:113-123 | one timer per agent plus the conclusion, with strictly increasing delays, so arming order is firing order |
| Simulator.ScheduleTimers | prototype/opus.jsx:113-123 | the `forEach` arms agent `idx` at `idx * 1200` and then the conclusion at `n * 1200 + 800`, after every activation |
| Simulator.ActivationsUpTo | prototype/opus.jsx:113-117 | after the first `k` activation timers have had their chance to fire, the active agent is the one of slot `min(t / 1200, k - 1)` |
| Simulator.TimelineAt | prototype/opus.jsx:113-123 | at time `t` the active agent is `agents[min(t / 1200, n - 1)]`, analysis runs iff `t < n * 1200 + 800`, the consensus is shown from then on, and step and values are untouched |
| Simulator.FindIndex | prototype/opus.jsx:469 | `findIndex` returns -1 iff the active id is absent; otherwise it returns the first index holding that id |
| Simulator.IsActive | prototype/opus.jsx:468 | the highlighted card; `AtMostOneActive` states that with distinct ids at most one card is highlighted |
| Simulator.IsCompleted | prototype/opus.jsx:469 | the completed mark; `CompletedIffBeforeActive` and `LastNeverCompleted` state it holds iff a later card is highlighted, so never on the last card |
| Simulator.AtMostOneActive | prototype/opus.jsx:468 | with distinct ids, at most one agent card is highlighted |
| Simulator.CompletedIffBeforeActive | prototype/opus.jsx:468-469 | a card is marked completed iff a later card is the active one, and it is never both active and completed |
| Simulator.LastNeverCompleted | prototype/opus.jsx:469 | the last agent's card is never marked completed |
| Simulator.AfterStart | prototype/opus.jsx:108-123 | the screen `t` ms after a press; `StartedRun` and `DisabledStartIsInert` state it for an enabled and a disabled button |
| Simulator.StartedRun | prototype/opus.jsx:108-123 | after an enabled press, at time `t`, agent `idx` is active iff `idx == min(t / 1200, 4)` and completed iff `idx` is smaller; analysis runs iff `t < 6800`, and the consensus shows from 6800 ms on |
| Simulator.DisabledStartIsInert | prototype/opus.jsx:435 | a press of the disabled button arms no timer, so the screen never changes |
| Strategies.ConvertToDataFrame | src/strategies/__init__.py:43-58 | one row per candle, with the six columns taken in field order, so that the row read back as a list is the candle |
| Strategies.Closes | src/strategies/__init__.py:53-56 | the close column holds the rows' closes in order |
| Strategies.ConvertPrefix | src/strategies/__init__.py:43-58 | converting the first `n` candles gives the first `n` rows of the full conversion |
| Strategies.Strategy.constructor | src/strategies/__init__.py:19-28 | a new strategy has its name, no position and an entry price of 0.0 |
| Strategies.Strategy.SetPosition | src/strategies/__init__.py:60-69 | sets position and entry price (0.0 by default), keeps the name, and `get_position` then reports exactly the pair that was set |
| Strategies.Strategy.GetPosition | src/strategies/__init__.py:72-82 | reports the current position and entry price |
| SmaStrategy.SumBounds | src/strategies/sma_strategy.py:51-52 | a sum of values in `[lo, hi]` lies between `n * lo` and `n * hi` |
| SmaStrategy.RollingMean | src/strategies/sma_strategy.py:51-52 | a rolling mean is undefined (NaN) iff the window is 0 or fewer than `w` closes are available up to that row |
| SmaStrategy.MeanWithinWindow | src/strategies/sma_strategy.py:51-52 | a defined rolling mean lies between the smallest and the largest close in its window |
| SmaStrategy.Le | src/strategies/sma_strategy.py:69 | `<=` of two means, false when either is NaN; `UndefinedMeanHolds` states that a NaN mean gives `hold` |
| SmaStrategy.Ge | src/strategies/sma_strategy.py:76 | `>=` of two means, false when either is NaN; used by `SellIff` |
| SmaStrategy.Lt | src/strategies/sma_strategy.py:77 | `<` of two means, false when either is NaN; used by `SellIff` |
| SmaStrategy.Gt | src/strategies/sma_strategy.py:70 | `>` of two means, false when either is NaN; used by `BuyIff` |
| SmaStrategy.MeansAt | src/strategies/sma_strategy.py:51-61 | the short and long means at the previous and the last row; `RollingMean` and `MeanWithinWindow` state when each is defined and where it lies |
| SmaStrategy.Crossover | src/strategies/sma_strategy.py:66-80 | the crossover rule; `BuyIff` and `SellIff` state both directions of each signal |
| SmaStrategy.Evaluate | src/strategies/sma_strategy.py:43-83 | the answer of `analyze` and whether it records `last_signal`; `BuyIff`, `SellIff`, `RecordedIff`, `ShortHistoryHolds`, `ZeroWindowHolds` and `UndefinedMeanHolds` state it |
| SmaStrategy.ShortHistoryHolds | src/strategies/sma_strategy.py:43-45 | with fewer candles than the long window the answer is `hold`, and `last_signal` is not assigned |
| SmaStrategy.RecordedIff | src/strategies/sma_strategy.py:43-82 | `last_signal` is assigned iff both windows are at least 1, there are at least two rows, and both windows are filled |
| SmaStrategy.ZeroWindowHolds | src/strategies/sma_strategy.py:51-63 | with a window of 0 every mean is NaN, so the answer is `hold` and `last_signal` is not assigned |
| SmaStrategy.BuyIff | src/strategies/sma_strategy.py:66-73 | the answer is `buy` iff all four means are defined, the short mean was at or below the long one and is now above it, and no long position is held |
| SmaStrategy.SellIff | src/strategies/sma_strategy.py:75-80 | the answer is `sell` iff all four means are defined, the short mean was at or above the long one and is now below it, and a long position is held |
| SmaStrategy.UndefinedMeanHolds | src/strategies/sma_strategy.py:61-77 | if any of the four means is undefined the answer is `hold` |
| SmaStrategy.SimpleMovingAverage.constructor | src/strategies/sma_strategy.py:20-31 | a new strategy has the name "SimpleMovingAverage", no position, the given windows (10 and 30 by default) and a last signal of `hold` |
| SmaStrategy.SimpleMovingAverage.Analyze | src/strategies/sma_strategy.py:33-83 | returns the signal of `Evaluate` for the candles and the held position, assigns `last_signal` exactly when the rule ran, and leaves the position untouched |
| Backtesting.SaleRecord | src/backtesting/__init__.py:92-101 | the record of a sale; `SellRealisesProfit` states its proceeds and its profit `size * (close - entry)` |
| Backtesting.Step | src/backtesting/__init__.py:69-108 | one candle after the warm-up; `StepGuards`, `BuyConservesValue` and `SellRealisesProfit` state when it trades and what it records |
| Backtesting.Replay | src/backtesting/__init__.py:55-108 | the trading loop; `WarmupNoTrades`, `WarmupIgnoresSignals` and `ReplayKeepsCash` state the warm-up, the log shape and the cash equation |
| Backtesting.CloseAtEnd | src/backtesting/__init__.py:110-124 | the closing sale; `StaleLongAfterRun` states that it logs a sell but leaves the position long |
| Backtesting.RunAccount | src/backtesting/__init__.py:55-124 | a whole run; `RunBalanced` and `RunCashIsProfit` state the balanced log and the final balance from a flat start |
| Backtesting.StepGuards | src/backtesting/__init__.py:69-108 | a step appends a record iff it buys while flat or sells while long; otherwise the account is unchanged; earlier records are never changed |
| Backtesting.BuyConservesValue | src/backtesting/__init__.py:69-85 | a buy moves `balance * trade_amount` out of cash and into a long position entered at the close, whose value at entry equals the amount invested, and logs a buy without profit |
| Backtesting.SellRealisesProfit | src/backtesting/__init__.py:88-108 | a sell credits `size * close`, logs a sell whose profit is `size * (close - entry)`, and resets the position, size and entry price |
| Backtesting.WarmupNoTrades | src/backtesting/__init__.py:57-61 | while fewer than 30 candles have been seen, the account is untouched |
| Backtesting.WarmupIgnoresSignals | src/backtesting/__init__.py:57-64 | the signals of the first 29 candles never affect the account |
| Backtesting.AppendAlternating | src/backtesting/__init__.py:77-101 | appending the record that the buy/sell parity calls for keeps the log alternating, with profits exactly on sells |
| Backtesting.StepFromFlat | src/backtesting/__init__.py:69-108 | one step keeps the new records alternating, starting with a buy, and the position is long iff their count is odd |
| Backtesting.AlternatingBalanced | src/backtesting/__init__.py:77-101 | an alternating log of even length has as many buys as sells, namely half its length |
| Backtesting.StaleLongAfterRun | src/backtesting/__init__.py:110-124 | a position still open after the loop is sold by the closing sale but stays long with the same size and entry, so a later closing sale sells it again |
| Backtesting.RunBalanced | src/backtesting/__init__.py:55-124 | from a flat account, a whole run (loop plus closing sale) appends records that alternate, carry profits exactly on sells, and pair every buy with a sell |
| Backtesting.ProfitOrZero | src/backtesting/__init__.py:142-143 | `t.get('profit', 0)`; `Winning` and `Losing` classify records by it |
| Backtesting.Winning | src/backtesting/__init__.py:142 | the winning trades are exactly the records of the log whose profit, read as 0 when absent, is positive; the list is no longer than the log |
| Backtesting.Losing | src/backtesting/__init__.py:143 | the losing trades are exactly the records of the log whose profit, read as 0 when absent, is negative; the list is no longer than the log |
| Backtesting.WinningMultiset | src/backtesting/__init__.py:142 | every record occurs in the winners exactly as often as in the log when its profit is positive, and never otherwise |
| Backtesting.LosingMultiset | src/backtesting/__init__.py:143 | every record occurs in the losers exactly as often as in the log when its profit is negative, and never otherwise |
| Backtesting.Closed | src/backtesting/__init__.py:145 | the records that carry a profit; `ClosedAreSells` states that on a run's log they are the sells |
| Backtesting.SumProfit | src/backtesting/__init__.py:148-149 | the profit sum of a list; `SumProfitAppend` states how it grows, and `RunCashIsProfit` ties it to the final balance |
| Backtesting.SumProfitAppend | src/backtesting/__init__.py:148-149 | the profit sum of a log with one more record grows by that record's profit, or by 0 if it has none |
| Backtesting.StepKeepsCash | src/backtesting/__init__.py:69-108 | one step keeps the equation "cash plus the open position's cost equals starting cash plus logged profits" |
| Backtesting.ReplayKeepsCash | src/backtesting/__init__.py:55-108 | the trading loop keeps the log shape and the cash equation from a flat start |
| Backtesting.RunCashIsProfit | src/backtesting/__init__.py:55-124 | after a whole run from a flat account, the final balance is the starting balance plus the sum of the logged profits |
| Backtesting.WinLoseWithinClosed | src/backtesting/__init__.py:142-145 | winning plus losing trades never exceed the closed trades |
| Backtesting.AllClosedWon | src/backtesting/__init__.py:142-146 | the winners are never more than the closed trades, and are as many exactly when every closed trade won |
| Backtesting.ClosedAreSells | src/backtesting/__init__.py:145 | on a log whose profits sit exactly on its sells, the closed-trade count is the number of sells |
| Backtesting.SumPositive | src/backtesting/__init__.py:148 | the profit sum of winning trades is positive when there is one, so `average_win` is positive |
| Backtesting.SumNegative | src/backtesting/__init__.py:149 | the profit sum of losing trades is negative when there is one, so `average_loss` is negative |
| Backtesting.PercentageBounds | src/backtesting/__init__.py:146 | a part no larger than a positive total, as a percentage, lies in [0, 100] |
| Backtesting.WinRate | src/backtesting/__init__.py:146 | the win rate is 0 when there are no closed trades; otherwise it times the total is 100 times the winners, and it is 0 iff none wins; when winners do not exceed the total it lies in [0, 100] and is 100 iff every closed trade wins |
| Backtesting.LogWinRateBounds | src/backtesting/__init__.py:142-146 | the win rate of a log lies in [0, 100] and is 100 iff the log has a closed trade and every closed trade won |
| Backtesting.LogAverages | src/backtesting/__init__.py:142-149 | the average win times the number of winners is their profit sum, and is positive iff there is a winner; likewise the average loss is negative iff there is a loser |
| Backtesting.AverageProfit | src/backtesting/__init__.py:148-149 | the average is 0 for an empty list; otherwise it times the count is the sum, and it has the sign of the sum |
| Backtesting.ReturnPercentage | src/backtesting/__init__.py:140 | the return percentage times the initial balance is 100 times the total return |
| Backtesting.Summarise | src/backtesting/__init__.py:139-163 | fails iff the initial balance is 0 (ZeroDivisionError); otherwise the balances and return, return percentage times initial balance is 100 times the return, the closed count is the number of records with a profit, the winning and losing counts are the lengths of the log's winners and losers (together at most the closed count), the win rate is the rate of those counts, the averages are the mean profits of the winners and the losers, and the log is returned |
| Backtesting.AnalyzedPrefixEndsAtRow | src/backtesting/__init__.py:57-64 | the frame the strategy builds from `ohlcv[:i+1]` is the first `i + 1` rows of the engine's frame, so its last row is the candle traded on |
| Backtesting.Backtester.constructor | src/backtesting/__init__.py:18-30 | a new engine (initial balance 10000.0 by default) holds all its capital in cash, no position, size and entry 0.0, and an empty log |
| Backtesting.Backtester.CalculateResults | src/backtesting/__init__.py:132-163 | the summary is `Summarise` of the engine's initial balance, balance and trade log; it fails iff the initial balance is 0 |
| Backtesting.Backtester.Run | src/backtesting/__init__.py:32-130 | with `trade_amount` 0.1 by default, the new engine state is `RunAccount` of the old one, the strategy's position mirrors the last change the loop made (or is untouched if the loop traded nothing), and the results are `CalculateResults` of the new state |
| Backtesting.Backtester.TradeOn | src/backtesting/__init__.py:63-108 | one loop iteration changes the engine state exactly as `Step` and tells the strategy the position it now holds |
| Backtesting.Backtester.CloseOpenPosition | src/backtesting/__init__.py:110-124 | the closing sale changes the engine state exactly as `CloseAtEnd`: proceeds credited and a sell logged, with position, size and entry left as they were |

## Left out

- Rendering: the JSX markup, styles, icons, the slider fill percentage, and the `toFixed` digit string. The model decides the sign, the value and the number of decimals of a delta label, but not the characters of the string.
- The natural-language input box and the input-mode switch: their state is never read by the computations modelled here.
- The hard-coded agent texts, the consensus verdict text and the report contents: they are constants with no logic.
- Real timers: the `setTimeout` callbacks are modelled as data (delay, event) and fired in delay order. Wall-clock scheduling, and clicks that arrive while timers are pending, are not modelled.
- `src/exchange.py`, `src/bot.py`, `main.py` and `example_backtest.py` are not part of this model: they are the exchange adapter, the live loop and the command-line entry points.
- Floating point: prices and balances are exact reals. pandas `float64` rounding, `inf` and NaN arithmetic are not modelled. A NaN rolling mean is `None`. On the prototype side, the indicator values, baselines and deltas are exact reals too, not JavaScript doubles, so the rounding of `value - baseline` is not modelled.
- Timestamps stay numbers (milliseconds). The `pd.to_datetime` conversion and logging are not modelled.
- Backtesting.Backtester.Run: the strategy is an oracle. `signals[i]` stands for what `await strategy.analyze(ohlcv[:i+1])` returns at candle `i`, so the async call and the link to `SimpleMovingAverage.Analyze` are not modelled inside `run`.
- Backtesting.Backtester.Run: requires candles with six fields and a positive close. Python would raise on a malformed row. It divides by the price only on a buy candle (`src/backtesting/__init__.py:72`), so a zero or negative close on a warm-up, hold or sell candle would not fail there; the requirement is stronger than the source needs on those candles.
- Backtesting.Backtester.Run: requires at least one candle when the engine starts long. Python's `df.iloc[-1]` raises IndexError on an empty frame in that case.
- Backtesting.Backtester.Run: `trade_amount` is any real. The source does not check that it lies in [0, 1], and neither does the model.
- SmaStrategy.SimpleMovingAverage.constructor: the windows are natural numbers. A negative window, which pandas rejects with an error inside `analyze`, is not modelled.
- SmaStrategy.SimpleMovingAverage.Analyze: requires every candle to have six fields, even when the history is short and Python would return `hold` before converting.
- Strategies.Strategy: `analyze` is abstract in the base class and has no body to model. The SMA strategy holds a base `Strategy` object for its name and position instead of inheriting from it.
