# AlphaGate, modelled and verified in Dafny

AlphaGate backtests trading strategies on candles, trades them on paper, and keeps the market data both need.
This project models the parts of it that decide what happens to money and data, and proves what they promise:

- **The backtest engine** (`BacktestRequest` .. `BacktestEngine`, `CandleSeries`, `Atr`). `BacktestModel` gives one bar
  of the loop as functions on the loop's variables; `Session` in `BacktestEngine` is the loop itself, proved to compute
  them. On top: conservation of money, pairing of trades, timing of fills, exactly which bars reverse a position
  (`BacktestReversal`), where stops lie and when they fire (`BacktestStops`), every trade of a run explained by its signal,
  filters, candle and balance (`BacktestAudit`), the figures and the status of a report (`BacktestFigures`), solvency, the
  online drawdown against its quadratic definition (`BacktestDrawdown`, `BacktestShortfall`), no lookahead, and exactly
  which runs complete (`BacktestOutcome`).
- **The Pine front end** (`PineLexer`, `PineGrammar`, `PineStatements`, `PineParser`, `PinePrinter`, `PineShortest`,
  `PineText`, `PineWellFormed`, `PineAssignments`, `PineStatementText`, `PineSource`). The lexer and parser objects
  move their own cursors; their methods are proved to compute functions, and a printer is proved to be inverted by
  them, on tokens and on text, and to write the shortest token sequence that parses to its expression. The expressions
  that can come out of the parser are exactly the grammatical ones. Each kind of statement has a round trip of its own,
  from its text to what it adds to the program.
- **The Pine evaluator and the native strategies** (`Indicators`, `IndicatorShape`, `Resolution`, `PineEvaluator`,
  `PineMeaning`, `PineTyping`, `Native`, `NativeSides`, `Agreement`, `AgreementRsi`). One-pass indicators against their
  bar-by-bar definitions and what fixes their weights, both native strategies against the same strategies in Pine, an
  indicator worklist over every iteration order and when that order does not matter, series evaluation that refines
  evaluating every window, and a type discipline that decides which conditions evaluate.
- **The paper pipeline** (`Idempotency`, `PaperTrading`). All interleavings of workers, crashes and lost replies over the
  idempotency table; risk approval, fills, and the agreement of account and ledger.
- **Market data** (`Aggregation`, `AggregationComposes`, `Gaps`, `Backfill`) and **the rate limiter** (`RateLimiter`).

Prices and quantities are real numbers, times are integers (nanoseconds), the source's `(value, error)` returns are a
`Result`, and a price field is missing, garbled or a number. Outside calls that can fail are methods that choose whether
their effect lands and whether the caller learns of it.

## What the proofs brought to light

- `not` never parses: its precedence is looked up as -1, so the loop that reads its operand takes every following token
  for an operator and can only end in an error (`PineGrammar.NotNeverParses`).
- A ternary or an inline indicator call parses without complaint, but a condition that holds one fails on every bar: the
  evaluator knows neither operator (`PineTyping.UnplainFails`).
- docs/backtesting.md says that `cooldown_bars` counts from any trade. With shorting on, a bar whose signal opposes the
  position can exit and enter at once, whatever the cooldown: `BacktestReversal.ReversalIff` says exactly which bars do,
  a run keeps the documented cooldown if and only if it has no such bar (`BacktestReversal.RunKeepsCooldown`), and
  `BacktestReversal.ReversalHappens` is a run that has one. Long-only runs have none. Entries are always a cooldown apart.
- The drawdown kept in one pass can miss a deeper fall once a short account goes below zero: it is right if and only if
  no shortfall, relative to the lowest positive equity before it, is deeper than one that comes while the account has had
  no positive equity other than its starting balance (`BacktestDrawdown.BoundsEveryFallIff`).
  `BacktestShortfall.ShortfallHappens` is a run in which it is wrong.
- A backtest of a custom Pine program never starts: to count the candles it needs, the request asks its strategy settings,
  which ask the request again (`BacktestRequest.CountReturnsIff`). Pine programs are run as strategy templates.
- Validation accepts RSI periods that no run survives: one of 250 or more needs more candles than the evaluator looks at
  (`BacktestOutcome.NativeFinishes`, `BacktestOutcome.LongPeriodFails`).
- The fee of a short entry is reported in the total but never charged to the account; `BacktestReport.ReportBalances`
  has the exact identity.
- The fixed-window limiter grants a key at most 2·limit − 1 calls in any interval one window long, whatever other keys do,
  and that is attained (`RateLimiter.AnyIntervalBound`, `RateLimiter.BoundIsTight`).
- When the day's statistics cannot be read the orchestrator goes on with zeros, which switches the daily limits and the
  cooldown off (`PaperTrading.UnreadStatistics`, `PaperTrading.UnreadDayUnbounded`).
- A worker that goes away while it holds a key leaves it processing for good (`Idempotency.AbandonedIsFinal`).
- A run that fails after it has recorded its execution is retried and can record a second one
  (`Idempotency.RetryCanExecuteTwice`); a key executes at most once in exactly the histories of `Idempotency.AtMostOnce`.
- An indicator that writes a name another one writes, or replaces a base series that another one reads, can make the
  result depend on map iteration order (`Resolution.CollisionOrderMatters`); otherwise no order matters
  (`Resolution.ResolutionConfluent`). A base series that is replaced and that no other indicator reads is harmless.
- Aggregation in two stages differs from aggregation in one exactly when an unreadable high or low that opens an inner
  bucket hides one behind it that matters (`AggregationComposes.AggregationComposes`,
  `AggregationComposes.UnreadableHighBreaks`); an unreadable price anywhere else is skipped by both.
- Paper balances stay non-negative exactly when the fee rate is at most one (`PaperTrading.FeeRateLimit`).

## Model

| member | source | states |
|---|---|---|
| CandleSeries.ValidateCandleSeries | internal/backtest/validation.go:35-97 | the loop accepts a series exactly when it is well formed and evenly spaced, and its seven counters are the exact numbers of candles with each defect |
| CandleSeries.InspectCandle | internal/backtest/validation.go:55-66 | one candle adds one to exactly the counters of the defects it has |
| CandleSeries.PricesOrderedIff | internal/backtest/validation.go:99-129 | prices are valid if and only if, with missing ones filled in from the close, the low is positive and at most open and close, and the high at least both |
| MarketData.UnitsAgree | internal/marketdata/interval.go:9-32 | minutes, hours, days and weeks agree with one another |
| CandleSeries.InspectTiming | internal/backtest/validation.go:67-83 | a candle counts as a repeat exactly when an earlier one opens at its time, and as out of order or a gap against its predecessor |
| CandleSeries.FlawlessIffValid | internal/backtest/validation.go:54-97 | no candle has a defect if and only if every candle is well formed and each opens one step after the last |
| CandleSeries.CleanIffValid | internal/backtest/validation.go:86-96 | all seven counters are zero if and only if the series is valid |
| CandleSeries.SeriesValidIff | internal/backtest/validation.go:35-97 | a series is valid if and only if no candle names another symbol or interval, all are closed and well priced, and they open one interval apart from the first on |
| CandleSeries.OpensOnGrid | internal/backtest/validation.go:76-83 | open times of a valid series are an arithmetic progression |
| CandleSeries.OpensIncrease | internal/backtest/validation.go:76-83 | open times of a valid series strictly increase |
| Atr.TrueRange | internal/indicator/atr.go:22-37 | the true range is the largest of the three distances, and one of them |
| Atr.AverageTrueRange | internal/indicator/atr.go:11-39 | it succeeds exactly when the period is positive, shorter than the series, and every price it needs is readable |
| Atr.ComputeAverageTrueRange | internal/indicator/atr.go:11-39 | the accumulating loop gives the mean true range of the last bars, and fails exactly when that is undefined |
| BacktestRequest.NormalizeCompletes | internal/backtest/types.go:204-269 | afterwards every field that has a default is set, and a request is left as it is if and only if they all were |
| BacktestRequest.NormalizeIdempotent | internal/backtest/types.go:204-269 | defaults are applied once and for all |
| BacktestRequest.NormalizeKeeps | internal/backtest/types.go:204-269 | what the caller set is kept, and everything without a default |
| BacktestRequest.NormalizeFillsIn | internal/backtest/types.go:204-269 | the documented defaults, each by its value |
| BacktestRequest.AcceptedIff | internal/backtest/types.go:204-380 | which requests are accepted once normalised, in terms of what the caller wrote: the periods, cooldown and holding time that have defaults never refuse one |
| BacktestRequest.CountReturnsIff | internal/backtest/types.go:395-449 | counting the candles a request needs comes to an end if and only if its strategy is not a custom Pine program |
| BacktestRequest.WithFilters | internal/backtest/types.go:382-393 | the least number of candles that the strategy and every filter that is on can work with |
| BacktestRequest.RequiredSuffices | internal/backtest/types.go:271-432 | an accepted request has enough history for its trend filter, ATR exits and regime filter from the first evaluated bar on |
| BacktestAccounting.AtrPricesNeverFail | internal/backtest/engine.go:500-525 | past the preflight checks the ATR exit prices never fail, so no position opens without its trade |
| BacktestAccounting.QuantityTimesPrice | internal/backtest/engine.go:248-253 | the quantity bought times its price is the amount less the fee |
| BacktestAccounting.SettledLong | internal/backtest/engine.go:85-96 | selling out of a long pays the move from the entry reference less slippage and fee, and nets the round trip's profit |
| BacktestAccounting.SettledShort | internal/backtest/engine.go:97-108 | buying back a short pays the move the other way less slippage and fee |
| BacktestAccounting.CloseSound | internal/backtest/engine.go:77-180 | closing never fails, ends flat, completes the pair, and keeps the books and extremes |
| BacktestAccounting.CloseExtremes | internal/backtest/engine.go:120-132 | after one more trade best and worst still bound the net of every round trip and are attained |
| BacktestAccounting.EnterShape | internal/backtest/engine.go:243-320 | an entry either changes nothing or opens one position whose quantity, price, quote and fee agree |
| BacktestAccounting.EnteredSound | internal/backtest/engine.go:254-316 | opening a position keeps pairing, books and extremes |
| BacktestAccounting.AtrStepSound | internal/backtest/engine.go:204-216 | the ATR exit never fails on a valid series and keeps the invariant |
| BacktestAccounting.SignalExitSound | internal/backtest/engine.go:219-239 | a signal exit never fails and keeps the invariant |
| BacktestAccounting.EntryStepSound | internal/backtest/engine.go:242-322 | the entry branches keep the invariant |
| BacktestAccounting.BarSound | internal/backtest/engine.go:193-337 | one bar never fails on a valid series and keeps pairing, money and extremes |
| BacktestAccounting.RunSound | internal/backtest/engine.go:182-337 | a run succeeds exactly when every signal it asks for does, and then its trades pair up and its money adds up |
| BacktestAccounting.LiquidateSound | internal/backtest/engine.go:339-361 | the forced close never fails and leaves the account flat |
| BacktestTiming.CloseTimed | internal/backtest/engine.go:113-146 | a close at or after its entry keeps the order of fills and the holding time |
| BacktestTiming.OpenTimed | internal/backtest/engine.go:254-276 | an entry a cooldown after the last trade, or a reversal on the exit's bar, keeps the timing invariant |
| BacktestTiming.BarTimed | internal/backtest/engine.go:198-322 | one bar keeps the order of fills, the minimum holding and the cooldown between entries |
| BacktestTiming.RunTimed | internal/backtest/engine.go:182-337 | so does every run |
| BacktestTiming.LiquidateTimed | internal/backtest/engine.go:339-347 | so does the forced close |
| BacktestTiming.FillTimesNeverDecrease | internal/backtest/engine.go:610-625 | trades are executed in the order they are recorded, for candles that open after the last has closed |
| BacktestTiming.EntriesSpread | internal/backtest/engine.go:242-315 | the j-th entry fills no earlier than j cooldowns after the first evaluated bar |
| BacktestTiming.RoundTripsBounded | internal/backtest/engine.go:643-649 | all round trips but one, times the cooldown, fit into the candles after the required ones |
| BacktestTiming.LongOnlyCooldown | internal/backtest/engine.go:198-242 | with shorting off an entry waits a cooldown after the exit before it |
| BacktestTiming.CooldownUnlessReversal | internal/backtest/engine.go:198-242 | of the fills of any run, an entry waits a cooldown after the exit before it or stands on that exit's own bar, never between |
| BacktestReversal.BarFills | internal/backtest/engine.go:198-322 | the fills one bar adds: none, an exit, an entry a cooldown after the last trade, or, exactly when the bar reverses, an exit and an entry on one bar |
| BacktestReversal.ReversalIff | internal/backtest/engine.go:198-322 | a bar closes and reopens inside the cooldown if and only if no ATR exit fires, the signal opposes a position old enough to leave, and the guards of the entry hold with the quote the close leaves |
| BacktestReversal.EntryAffordable | internal/backtest/engine.go:242-259 | with fee and slippage below one the amount and quantity guards never stop an entry of an account with money |
| BacktestReversal.BuyReversal | internal/backtest/engine.go:198-258 | then a short is reversed exactly when its exit and entry guards hold and the close leaves money |
| BacktestReversal.SellReversal | internal/backtest/engine.go:198-300 | and a long exactly when its exit and entry guards hold and shorting is on |
| BacktestReversal.RunKeepsCooldown | internal/backtest/engine.go:182-337 | in a run every entry waits a cooldown after the exit before it, as docs/backtesting.md:48 has it, if and only if no bar of the run reverses |
| BacktestReversal.FinalKeepsCooldown | internal/backtest/engine.go:339-347 | the forced close changes nothing about that |
| BacktestReversal.LongOnlyNeverReverses | internal/backtest/engine.go:242-322 | with shorting off no bar reverses |
| BacktestReversal.ReversalHappens | internal/backtest/engine.go:182-337 | a whole run from its first bar, with a cooldown of two, that enters on bar 2 and both exits and enters on bar 4 |
| BacktestStops.AverageIsMean | internal/indicator/atr.go:11-39 | on the candles up to a bar it is the mean of the true ranges of the last bars up to that bar |
| BacktestStops.StopsAround | internal/backtest/engine.go:500-525 | the stop lies its multiplier times that mean behind the entry and the target its multiplier times it ahead, on whichever side the position was opened |
| BacktestStops.StopBehind | internal/backtest/engine.go:508-523 | a stop is never on the winning side of its entry, and a target never on the losing side |
| BacktestStops.CloseStops | internal/backtest/engine.go:77-180 | a close at the stop makes no gross profit, and one at the target makes no gross loss when there is no slippage |
| BacktestStops.RunStops | internal/backtest/engine.go:182-337 | at every point of every run the stops of the open position lie where the mean range of its signal bar puts them, and every stopped trip has the sign of its reason |
| BacktestStops.FinalStops | internal/backtest/engine.go:339-361 | and so it is in what the run reports |
| BacktestStops.AtrStepFires | internal/backtest/engine.go:204-216 | the step closes at the stop, else at the target, exactly when the bar may exit and reaches it |
| BacktestStops.StopsFireIff | internal/backtest/engine.go:527-555 | over a whole bar a trip ends on its stop if and only if the bar reaches it, on its target if and only if it reaches that and not the stop, at that price less slippage |
| BacktestAudit.TrendMeans | internal/backtest/engine.go:655-670 | the trend filter passes a buy exactly above the mean of the last closes and a short exactly below it |
| BacktestAudit.RegimeMeans | internal/backtest/engine.go:672-691 | the regime filter passes exactly when the mean range is between the given percentages of the close |
| BacktestAudit.SizeExplained | internal/backtest/engine.go:631-641 | an entry of a flat account is the fixed amount or what is left, the given share of the balance, or all of it |
| BacktestAudit.EntryRecords | internal/backtest/engine.go:243-320 | the trade an entry records: side, time, price with slippage, amount, fee, and a quantity worth the amount less the fee |
| BacktestAudit.CloseRecords | internal/backtest/engine.go:77-180 | the trade a close records: the opposite side, the price with slippage, the fee, and the balance it leaves |
| BacktestAudit.BarExplained | internal/backtest/engine.go:193-337 | every trade that a bar adds acts on a signal of its own side, or ends a position at a stop, at the candle, price and time the fill mode says |
| BacktestAudit.RunExplained | internal/backtest/engine.go:182-337 | so every trade of every run is explained: its signal, the filters it passed, its fill, its fee, and its size out of what the exit before it left |
| BacktestAudit.FinalExplained | internal/backtest/engine.go:339-361 | the forced close included, which sells at the last close |
| BacktestAudit.EntersIff | internal/backtest/engine.go:242-322 | a flat account enters on a bar if and only if it has money, the cooldown is over, the signal names a side it may take, the filters agree and there is a price |
| BacktestAudit.ClosesIff | internal/backtest/engine.go:198-239 | an open position is closed on a signal if and only if no stop or target ends it first, the signal is against it, it has been held long enough and there is a price |
| BacktestDrawdown.Highest | internal/backtest/engine.go:324-327 | the peak is one of the equity values and none is above it |
| BacktestDrawdown.MarkTracked | internal/backtest/engine.go:324-336 | one equity mark keeps the peak, the curve and the running drawdown in step |
| BacktestDrawdown.RunTracked | internal/backtest/engine.go:324-336 | over every run the curve has one point per evaluated bar and its drawdowns are those below the running peak |
| BacktestDrawdown.MaxDrawdownIsQuadratic | internal/backtest/engine.go:324-360 | the online maximum drawdown is the fall between some earlier and some later equity, the starting balance included, and none is deeper unless one below zero is, measured from the lowest positive equity before it |
| BacktestDrawdown.BoundsEveryFallIff | internal/backtest/engine.go:324-360 | it is the largest fall over all pairs if and only if every equity below zero is matched by one at least as far below, relative to what it fell from, that comes while the account has had no positive equity other than its starting balance |
| BacktestDrawdown.NeverNegativeBounded | internal/backtest/engine.go:324-360 | so it is the largest fall over all pairs whenever equity never goes below zero |
| BacktestShortfall.ShortfallHappens | internal/backtest/engine.go:182-337 | a whole short run whose equity goes 12, 6, -2: the drawdown kept is the fall from 12, and the one from 6 is deeper |
| BacktestDrawdown.LiquidateTracked | internal/backtest/engine.go:348-360 | the last equity point is tracked like the others |
| BacktestDrawdown.CloseSolvent | internal/backtest/engine.go:85-96 | selling out of a long leaves both balances non-negative |
| BacktestDrawdown.EnterSolvent | internal/backtest/engine.go:248-259 | an entry never spends more than the account has |
| BacktestDrawdown.AmountAvailable | internal/backtest/engine.go:631-641 | the order amount is at most the quote balance, however orders are sized |
| BacktestDrawdown.RunSolvent | internal/backtest/engine.go:182-337 | a long-only run with slippage at most one keeps balances and equity non-negative |
| BacktestDrawdown.LiquidateSolvent | internal/backtest/engine.go:339-360 | so does the forced close |
| BacktestDrawdown.DrawdownsArePercentages | internal/backtest/engine.go:328-335 | every recorded drawdown lies between 0 and 100 |
| BacktestCausality.FillCausal | internal/backtest/engine.go:610-625 | where and at what price an order fills depends on the candles up to the signal and the next open |
| BacktestCausality.BarCausal | internal/backtest/engine.go:193-337 | two series that agree up to a bar, and on the next open, give the same state after it |
| BacktestCausality.RunCausal | internal/backtest/engine.go:182-337 | so do whole runs on equal signals |
| BacktestCausality.NoLookahead | internal/backtest/engine.go:65-337 | no lookahead: balances, stops, trades, round trips and curve after a bar are fixed by the candles up to it and the next open, for native strategies and for Pine ones, whose indicators are resolved in the same order or in any where order does not matter |
| BacktestReport.ReportBalances | internal/backtest/engine.go:363-497 | profit is the sum of the round trips' nets, and gross less slippage less fees with short-entry fees added back; long-only runs need no correction |
| BacktestReport.ReportPairs | internal/backtest/engine.go:363-497 | total trades are twice the round trips and buys plus sells; a candidate has at least 200 |
| BacktestReport.RunFinishes | internal/backtest/engine.go:182-361 | a run completes exactly when its signals do, and then ends flat, sound, timed, tracked, and solvent when long-only |
| BacktestReport.ActivationIff | internal/activation/service.go:186-236 | a report is activated if and only if it and its evidence pass every gate |
| BacktestFigures.GainsIff | internal/backtest/engine.go:120-138 | there are gains exactly when some round trip gained, and losses exactly when some lost |
| BacktestFigures.CloseTallied | internal/backtest/engine.go:113-180 | a close counts and adds up wins and losses by the net of its trip, and measures holding time and percent profit |
| BacktestFigures.RunTallied | internal/backtest/engine.go:182-337 | so over every run the tallies are those of its round trips |
| BacktestFigures.FiguresMean | internal/backtest/engine.go:363-420 | win rate, average win and loss, profit factor, average trade and holding time, trades a day, churn and return of a finished run are those of its round trips |
| BacktestFigures.BenchmarkMeans | internal/backtest/engine.go:708-727 | buying and holding grows the balance by the ratio of last to first close, less slippage on both and the fee twice |
| BacktestFigures.CandidateIff | internal/backtest/engine.go:840-872 | a run is a candidate if and only if its figures keep every limit, each spelled out |
| BacktestFigures.StatusMeans | internal/backtest/engine.go:840-898 | every other status names a limit that the report breaks |
| BacktestReport.CandidateGates | internal/activation/service.go:186-236 | for a candidate the trade-count, benchmark, expectancy and fill-mode gates cannot block; what is left decides, exactly |
| BacktestEngine.Session.constructor | internal/backtest/engine.go:38-63 | the loop variables start as the model's initial state |
| BacktestEngine.Session.ClosePosition | internal/backtest/engine.go:77-180 | the closure's step-by-step updates give exactly the modelled close, or its error |
| BacktestEngine.Session.SettleBalance | internal/backtest/engine.go:85-111 | the two settlement branches move balances, fees, slippage and counters as modelled |
| BacktestEngine.Session.Enter | internal/backtest/engine.go:243-320 | both entry branches give exactly the modelled entry |
| BacktestEngine.Session.TakePosition | internal/backtest/engine.go:254-277 | the fields a filled entry sets |
| BacktestEngine.Session.MarkEquity | internal/backtest/engine.go:324-336 | the peak, drawdown and curve updates |
| BacktestEngine.Session.ProcessBar | internal/backtest/engine.go:193-337 | one iteration gives exactly the modelled bar, or its error |
| BacktestEngine.Session.LiquidateAtEnd | internal/backtest/engine.go:339-361 | the forced close gives exactly the modelled one |
| BacktestOutcome.FailureIsFinal | internal/backtest/engine.go:188-235 | a bar that fails ends the run with its error |
| BacktestEngine.Simulate | internal/backtest/engine.go:182-361 | the loop over candles computes the final state |
| BacktestOutcome.OnlySignalsFail | internal/backtest/engine.go:182-337 | past the preflight a run can only fail because a strategy does |
| BacktestOutcome.FinalFailures | internal/backtest/engine.go:339-347 | the same with the forced close included |
| BacktestOutcome.NativeSide | internal/strategy/rsi.go:27-58 | past the preflight a native strategy gives a side on every bar when it is the average crossover or its RSI period is below 250, and on none otherwise |
| BacktestOutcome.RequiredIsLeast | internal/backtest/types.go:395-430 | without filters a native request asks for exactly as many candles as its strategy needs for a first signal |
| NativeSides.RsiExtremes | internal/strategy/rsi.go:106-142 | the index is 0 while closes fall and 100 while they rise |
| NativeSides.ReversionSide | internal/strategy/rsi.go:29-58 | on every window it can evaluate the strategy buys exactly when the index of the last 250 closes is at most oversold, sells exactly when it is at least overbought, and holds in between |
| NativeSides.ReversionExtremes | internal/strategy/rsi.go:29-58 | strictly falling closes buy and strictly rising ones sell, for every period and thresholds it accepts |
| BacktestOutcome.NativeFinishes | internal/backtest/engine.go:182-361 | so its run completes if and only if that holds, and otherwise fails for want of candles |
| BacktestOutcome.LongPeriodFails | internal/backtest/types.go:295-301 | an RSI period of 250, which validation accepts, fails on the first bar of a valid series, however long it is |
| BacktestOutcome.SeriesFinishes | internal/backtest/engine.go:57-75 | a template that has a series of signals completes |
| BacktestEngine.Run | internal/backtest/engine.go:24-497 | each refusal happens exactly when its check fails, and a custom program overflows the stack; past the preflight a native strategy completes exactly when it can be evaluated, a template fails only for unreadable prices, indicators that do not resolve or a condition that fails on a bar, and where resolution order does not matter it completes exactly when it has a series of signals; a report comes from a run on the strategy's signals with all the properties above |
| Indicators.SlideWindow | internal/strategy/pine_evaluator.go:245-252 | sliding the window drops one value and gains one |
| Indicators.CalculateSMA | internal/strategy/pine_evaluator.go:239-254 | the running sum gives the mean of each window |
| Indicators.CalculateEMA | internal/strategy/pine_evaluator.go:256-272 | the one-pass form gives the recursively defined average |
| Indicators.TotalMoves | internal/strategy/pine_evaluator.go:287-296 | the seeding loop gives total gain and total loss |
| Indicators.CalculateRSI | internal/strategy/pine_evaluator.go:274-330 | the one-pass form gives Wilder's index at every bar |
| Indicators.RsiBounded | internal/strategy/pine_evaluator.go:298-327 | the index lies between 0 and 100, whatever the prices |
| Indicators.AveragesNonNegative | internal/strategy/pine_evaluator.go:287-327 | smoothed gains and losses are never negative |
| Indicators.TrueRanges | internal/strategy/pine_evaluator.go:338-352 | the true range of every bar |
| Indicators.CalculateATR | internal/strategy/pine_evaluator.go:332-363 | the one-pass form gives the smoothed true range at every bar |
| Indicators.CalculateMACD | internal/strategy/pine_evaluator.go:365-378 | line, signal and histogram |
| Indicators.CalculateStdev | internal/strategy/pine_evaluator.go:380-396 | the deviation of each window from its mean |
| Indicators.CalculateBB | internal/strategy/pine_evaluator.go:398-410 | the bands lie the given number of deviations above and below the average |
| Indicators.SmaPrefix | internal/strategy/pine_evaluator.go:239-254 | later bars do not change earlier values |
| Indicators.EmaPrefix | internal/strategy/pine_evaluator.go:256-272 | the same for the exponential average |
| Indicators.RsiPrefix | internal/strategy/pine_evaluator.go:274-330 | the same for the strength index |
| Indicators.AtrPrefix | internal/strategy/pine_evaluator.go:332-363 | the same for the average true range |
| Indicators.MacdPrefix | internal/strategy/pine_evaluator.go:365-378 | the same for MACD, whose signal averages a difference |
| Indicators.BandPrefix | internal/strategy/pine_evaluator.go:398-410 | the same for the bands |
| IndicatorShape.AveragesLag | internal/strategy/pine_evaluator.go:239-272 | on a straight line the simple and the exponential average both lag exactly half a period less half a bar |
| IndicatorShape.QuietDecay | internal/strategy/pine_evaluator.go:298-327 | while prices stand still both smoothed averages lose one part in period a bar |
| IndicatorShape.SteadyAverages | internal/strategy/pine_evaluator.go:287-327 | prices that move by the same step gain, or lose, exactly that on average |
| Native.ComputeAverageClose | internal/strategy/sma.go:99-116 | the summing loop gives the mean close, and fails exactly on an empty or unreadable window |
| Native.NativeRsi | internal/strategy/rsi.go:85-143 | the native index equals the last value of the Pine one, and exists exactly when the window is long enough and readable |
| Native.CollectChanges | internal/strategy/rsi.go:93-104 | the appended changes are the differences of consecutive closes |
| Native.ComputeRsi | internal/strategy/rsi.go:85-143 | the loops compute the native index |
| Resolution.CalculateAndResolve | internal/strategy/pine_evaluator.go:172-237 | an indicator fails exactly when its kind is unknown or parameters are missing, and otherwise adds exactly its outputs |
| Resolution.TowardsZero | internal/strategy/pine_evaluator.go:178-232 | periods are cut towards zero |
| Resolution.ResolutionConfluent | internal/strategy/pine_evaluator.go:74-112 | two orders that finish every indicator end with the same series, unless two write one name or one replaces a base series that another reads |
| Resolution.GroundedIsClosed | internal/strategy/pine_evaluator.go:88-112 | the least set of resolvable indicators is closed under the source relation |
| Resolution.LeastIsGrounded | internal/strategy/pine_evaluator.go:88-112 | the set the worklist ends with is that least set |
| Resolution.CompleteMeansGrounded | internal/strategy/pine_evaluator.go:88-112 | once everything is resolved, everything was within reach and well formed |
| Resolution.ResolvedShape | internal/strategy/pine_evaluator.go:74-112 | in any order the resolved names are the base series and what the finished indicators write, each series empty or as long as the candles |
| Resolution.FinishOne | internal/strategy/pine_evaluator.go:88-106 | an indicator whose source is there is within reach, and well formed it extends the order by its outputs |
| Resolution.Stuck | internal/strategy/pine_evaluator.go:108-111 | a pass without progress has finished exactly the indicators within reach |
| Resolution.ResolveIndicators | internal/strategy/pine_evaluator.go:74-112 | for any program the worklist ends: with the series of some order of all indicators, the only ones where order does not matter; with the refusal of a malformed one within reach; or with a cycle, which means some are out of reach and none of the others is malformed |
| Resolution.CollisionOrderMatters | internal/strategy/pine_evaluator.go:74-112 | two orders of the worklist, both complete, over the same candles: with an indicator that replaces the close another reads they give 3.5 and 5 for the same bar |
| PineEvaluator.EvaluateSeries | internal/strategy/pine_evaluator.go:38-170 | the signals are those of every bar with the indicators resolved in some order; an error is that of the candles, of the resolution or of a bar; and where order does not matter there is an error only if no series exists |
| PineEvaluator.EvaluateWindow | internal/strategy/pine_evaluator.go:30-36 | evaluating a window gives the last signal of its series, and fails for the same reasons |
| PineEvaluator.SeriesUnique | internal/strategy/pine_evaluator.go:38-170 | the same order, or any two where order does not matter, give the same signals |
| PineEvaluator.ResolvedPrefix | internal/strategy/pine_evaluator.go:74-112 | in whatever order, cutting the candles cuts every resolved series and nothing else |
| PineEvaluator.EvaluatePrefix | internal/strategy/pine_evaluator.go:412-543 | an expression at a bar sees only the values up to it |
| PineEvaluator.FirstTriggeredPrefix | internal/strategy/pine_evaluator.go:114-165 | so does the choice of the rule that fires |
| PineEvaluator.SeriesRefinesWindows | internal/strategy/pine_evaluator.go:30-170 | whenever the series form succeeds, every window succeeds in the same order with the same signal |
| PineEvaluator.SignalsCausal | internal/strategy/pine_evaluator.go:38-170 | candles that agree up to a bar give the same signals up to it |
| PineEvaluator.ComparisonMeans | internal/strategy/pine_evaluator.go:461-481 | each of the six comparisons of two numbers is true exactly when they stand in that relation |
| PineEvaluator.ConnectiveMeans | internal/strategy/pine_evaluator.go:433-492 | and, or and not have their truth tables |
| PineEvaluator.CrossingMeans | internal/strategy/pine_evaluator.go:494-540 | a crossing is a change of sides between two bars by more than a ten-thousandth of the second series |
| PineEvaluator.LevelCrossed | internal/strategy/pine_evaluator.go:494-540 | a series crosses a number when it passes that level, by more than the gap |
| PineMeaning.PricesRead | internal/strategy/pine_evaluator.go:412-431 | open, high, low, close and volume read those figures of the bar, whatever indicators have been resolved |
| PineMeaning.SourcelessReadsZero | internal/strategy/pine_evaluator.go:172-176 | an indicator without a source, other than the average true range, reads 0 on every bar |
| PineMeaning.RuleDecides | internal/strategy/pine_evaluator.go:114-165 | the first rule whose condition is true decides: entering long and covering buy, entering short and leaving sell, and without one the bar is held |
| PineMeaning.UnconditionalRule | internal/strategy/pine_evaluator.go:118-126 | a rule of a directive on a line of its own holds on every bar |
| PineTyping.EvaluatesIffTyped | internal/strategy/pine_evaluator.go:412-543 | from the second bar on an expression evaluates if and only if it has a type, to a value of that type |
| PineTyping.OneBarDecides | internal/strategy/pine_evaluator.go:412-543 | whether an expression evaluates does not depend on the bar or on prices |
| PineTyping.TypedEvaluatesAtOnce | internal/strategy/pine_evaluator.go:494-497 | what has a type evaluates on the first bar too |
| PineTyping.UnplainFails | internal/strategy/pine_evaluator.go:412-543 | a condition with a ternary or an inline indicator call fails on every bar, the first included, whatever is resolved |
| PineTyping.TypedIsPlain | internal/strategy/pine_evaluator.go:448-542 | so no such condition has a type |
| PineTyping.TypedRulesDecide | internal/strategy/pine_evaluator.go:114-165 | typed rules never fail on any bar |
| PineTyping.TypedStrategySucceeds | internal/strategy/pine_evaluator.go:38-170 | a strategy whose indicators resolve and whose conditions have types gives a signal on every bar |
| Agreement.CrossoverResolvable | internal/strategy/pine_evaluator.go:74-112 | the two averages of a crossover strategy always resolve, in an order that does not matter |
| Agreement.CrossoverResolved | internal/strategy/pine_evaluator.go:172-195 | and to the averages of the closes |
| Agreement.WindowAverage | internal/strategy/sma.go:99-116 | the native average of a window is the Pine average at its last bar |
| Agreement.WindowSide | internal/strategy/sma.go:33-93 | the native side of a window is decided by the Pine averages of its last two bars |
| Agreement.NativeAgreesWithPine | internal/strategy/sma.go:33-93 | the crossover written in Pine never fails and, however its averages are resolved, gives the native side at every bar from the slow period on |
| AgreementRsi.ReversionResolved | internal/strategy/pine_evaluator.go:172-195 | the index of the closes resolves under its name |
| AgreementRsi.RulesDecide | internal/strategy/pine_evaluator.go:114-165 | closing at overbought before entering at oversold decides as the native strategy does on the same index |
| AgreementRsi.NativeIndex | internal/strategy/rsi.go:29-58 | below 250 bars the native strategy trades on the Pine index of the bar |
| AgreementRsi.ReversionAgreesWithPine | internal/strategy/rsi.go:29-58 | RSI mean reversion written in Pine never fails, and from bar period on, while the native strategy looks at every candle, its side is the native one |
| PineLexer.Lexer.SkipWhitespaceAndComments | internal/pine/parser.go:227-257 | the loop ends just past blanks, comments, and newlines inside parentheses |
| PineLexer.Lexer.ScanString | internal/pine/parser.go:69-82 | a string runs to its own quote, or to the end of the text as an error |
| PineLexer.Lexer.ScanNumber | internal/pine/parser.go:175-192 | a number takes digits and one point |
| PineLexer.Lexer.ScanName | internal/pine/parser.go:194-206 | a name takes letters, digits, underscores and points |
| PineLexer.Lexer.NextToken | internal/pine/parser.go:60-225 | the method gives the token at the cursor and moves past exactly it |
| PineLexer.Tokenize | internal/pine/parser.go:270-279 | the loop terminates with the whole stream, which ends in its one end-of-file token |
| PineLexer.TokenAt | internal/pine/parser.go:60-225 | end of file exactly at the end of the text, and progress everywhere else |
| PineLexer.OneEOF | internal/pine/parser.go:270-279 | the stream of any text is finite and ends in exactly one end-of-file token |
| PineLexer.FewTokens | internal/pine/parser.go:270-279 | there are at most as many tokens as characters, and the end of file |
| PineGrammar.ParseExpression | internal/pine/parser.go:652-703 | it stays within the tokens, only adds errors and names, and consumes a token when it succeeds |
| PineGrammar.ParseLoop | internal/pine/parser.go:658-702 | the climbing loop terminates and never moves back, ternary branches included |
| PineGrammar.ParsePrimary | internal/pine/parser.go:705-833 | a primary that is read consumes a token, on the `not` path too |
| PineGrammar.ParseArguments | internal/pine/parser.go:764-777 | argument lists terminate within the tokens |
| PineGrammar.OperandLoopFails | internal/pine/parser.go:658-702 | with a minimum precedence of -1 the loop can only end in an error |
| PineGrammar.NotNeverParses | internal/pine/parser.go:719-729 | `not` never parses, whatever follows it |
| PineGrammar.AutoNamesDistinct | internal/pine/parser.go:322-326 | no two automatic names are the same |
| PineWellFormed.TokensLexed | internal/pine/parser.go:130-173 | every comparison token is one of the six comparisons |
| PineWellFormed.ExpressionGrammatical | internal/pine/parser.go:652-703 | every expression that parses has documented operators with the right number of operands, over known indicators |
| PineWellFormed.ArgumentsGrammatical | internal/pine/parser.go:764-777 | so has every argument |
| PineWellFormed.CallGrammatical | internal/pine/parser.go:783-825 | calls move nested indicator calls to variables of their own |
| PineWellFormed.FlattenGrammatical | internal/pine/parser.go:787-796 | what is left of the arguments holds no indicator call, and the new definitions have known kinds |
| PinePrinter.ParsePrinted | internal/pine/parser.go:652-717 | parsing a print comes to entering the climbing loop just after it with the expression in hand |
| PinePrinter.ParserInvertsPrinter | internal/pine/parser.go:652-833 | the parser rebuilds every printed expression, ternaries without parentheses included, stops at the first token that follows, and touches nothing else |
| PinePrinter.ReparsingIsStable | internal/pine/parser.go:652-833 | parsing, printing and parsing again is parsing once |
| PinePrinter.ParsedIffGrammatical | internal/pine/parser.go:652-833 | an expression can come out of the parser if and only if it is grammatical |
| PineShortest.PrintIsShortest | internal/pine/parser.go:652-833 | whatever parses to an expression has at least as many tokens as its print |
| PineShortest.NothingShorter | internal/pine/parser.go:652-833 | so the print with any of its parentheses left out does not parse to the expression |
| PineShortest.LoopEnough | internal/pine/parser.go:658-702 | the climbing loop never ends with an expression whose print there is longer than what was read |
| PineText.LexInvertsRender | internal/pine/parser.go:60-257 | tokens spelled out with blanks between them lex to themselves and nothing else |
| PineText.SourceRoundTrip | internal/pine/parser.go:60-833 | an expression written as text is lexed and parsed to itself with every token consumed |
| PineStatements.StatementEnd | internal/pine/parser.go:369-390 | skipping a statement consumes at least one token unless the file is at its end |
| PineStatements.StatementEndFirst | internal/pine/parser.go:369-390 | the skip ends at the first newline outside parentheses and brackets, or at the end of the file, and at nothing before |
| PineStatements.DirectiveArguments | internal/pine/parser.go:562-590 | reading directive arguments terminates, moves only forwards and keeps earlier errors |
| PineStatements.DirectiveAt | internal/pine/parser.go:550-594 | a directive that starts with a name consumes it |
| PineStatements.EntryRoundTrip | internal/pine/parser.go:550-617 | an entry written out reads as exactly that entry, with nothing left over |
| PineAssignments.CallReadBack | internal/pine/parser.go:736-826 | a call of a ta function written out is read as what its name makes of its arguments |
| PineAssignments.UnknownCallRead | internal/pine/parser.go:823-825 | a ta function that is neither an indicator nor a crossing is read as the number 0 |
| PineAssignments.InputRead | internal/pine/parser.go:739-762 | an input is read as its default value, and the rest of its arguments are passed over |
| PineAssignments.AssignmentRoundTrip | internal/pine/parser.go:458-511 | for every definition over a named source with literal or constant parameters, reading n = ta.name(source, parameters) leaves exactly that definition under n, an average true range with its period alone, and changes nothing else |
| PineAssignments.NestedRoundTrip | internal/pine/parser.go:783-801 | a call inside a call becomes a definition of its own under an automatic name, and the outer one reads it |
| PineAssignments.CrossingRoundTrip | internal/pine/parser.go:803-820 | a crossing of two calls becomes two definitions and the condition that the first crosses the second |
| PineAssignments.FreeNames | internal/pine/parser.go:354-367 | a name without points is skipped or taken for a modifier only if it is a reserved word |
| PineAssignments.StatementRoundTrip | internal/pine/parser.go:400-438 | a whole statement that assigns an indicator call, with or without var and type, compiles to exactly that definition, and the parser goes on right behind it |
| PineAssignments.ParametersNeeded | internal/strategy/pine_evaluator.go:178-232 | an indicator can be computed exactly when its call has the parameters its name needs |
| PineAssignments.StatementComputes | internal/strategy/pine_evaluator.go:172-237 | and when the evaluator resolves it, the name holds at every bar the values of the indicator that the text names, of its source and with its parameters |
| PineStatementText.ConditionRoundTrip | internal/pine/parser.go:458-473 | a condition written out is recorded under its name, and a number as a constant as well |
| PineStatementText.DirectiveRoundTrip | internal/pine/parser.go:550-649 | entries and closes written out, with one name, two, or a setting, read as what they say |
| PineStatementText.DirectiveStatement | internal/pine/parser.go:437-441 | on a line of its own a directive adds one rule that always holds |
| PineStatementText.IfRoundTrip | internal/pine/parser.go:525-548 | under an if it adds its rule under the condition written, named automatically unless it is a name |
| PineStatementText.PassedOverStatement | internal/pine/parser.go:354-390 | drawing calls and tails of broken statements change nothing, and the parser goes on behind them |
| PineStatementText.DepthCounts | internal/pine/parser.go:369-390 | a statement is nested as deep as it has opened more than it has closed, parentheses and brackets apart |
| PineStatementText.QuotesTrimmed | internal/pine/parser.go:576 | quotes of either kind around an argument are trimmed, however many |
| PineSource.CaseIgnored | internal/pine/parser.go:193-222 | keywords are recognised in any case |
| PineSource.BreaksOutside | internal/pine/parser.go:60-257 | a line break ends up among the tokens only where no parenthesis and no bracket is open |
| PineSource.AssignmentSource | internal/pine/parser.go:60-257 | from characters to definitions: the text of an assignment, with = or :=, compiles to exactly the indicator it spells |
| PineSource.IfSource | internal/pine/parser.go:60-257 | from characters to rules: the text of an if with an entry behind it adds the rule that enters on its side under the condition written |
| PineStatements.DirectiveCompiled | internal/pine/parser.go:596-648 | a directive adds at most one rule, which enters or closes, and keeps the configuration well formed |
| PineStatements.MisdirectedIff | internal/pine/parser.go:600-613 | a directive is complained about exactly when it is an entry whose second argument names neither side |
| PineStatements.AssignmentCompiled | internal/pine/parser.go:473-510 | an assignment keeps the configuration well formed |
| PineStatements.ComplaintsIff | internal/pine/parser.go:479-500 | an indicator call draws no error if and only if its source and parameters can be resolved |
| PineStatements.IfStandsUnder | internal/pine/parser.go:525-548 | a rule that an if statement adds stands under the condition the statement was read with |
| PineParser.Parser.constructor | internal/pine/parser.go:270-290 | a new parser holds the text's tokens and an empty configuration |
| PineParser.Parser.Step | internal/pine/parser.go:299-303 | the cursor moves one token and never past the end |
| PineParser.Parser.Expect | internal/pine/parser.go:305-312 | an expected token is consumed, anything else is an error at its line |
| PineParser.Parser.ReadExpression | internal/pine/parser.go:652-703 | the loop over the shared cursor computes the grammar's expression and terminates |
| PineParser.Parser.ReadPrimary | internal/pine/parser.go:705-833 | the method computes the grammar's primary |
| PineParser.Parser.ReadCall | internal/pine/parser.go:740-826 | the method computes the grammar's call |
| PineParser.Parser.ReadArguments | internal/pine/parser.go:764-777 | the loop computes the grammar's argument list |
| PineParser.Parser.SkipToClose | internal/pine/parser.go:750-760 | the loop passes the matching parenthesis |
| PineParser.Parser.BuildCall | internal/pine/parser.go:783-825 | indicator and crossing calls, and a placeholder for every other call |
| PineParser.Parser.FlattenArguments | internal/pine/parser.go:787-796 | the loop moves nested indicator calls to variables, left to right |
| PineParser.Parser.BuildDefinition | internal/pine/parser.go:835-862 | the definition an indicator call stands for |
| PineParser.Parser.SkipNewlines | internal/pine/parser.go:348-352 | the loop ends at the first token that is not a newline |
| PineParser.Parser.SkipRestOfStatement | internal/pine/parser.go:369-390 | the loop ends where the statement does |
| PineParser.Parser.ReadDirectiveArguments | internal/pine/parser.go:562-590 | the loop reads the modelled argument list |
| PineParser.Parser.ReadDirective | internal/pine/parser.go:550-649 | a directive adds the one rule it means under its condition and the one error of an entry that names no side, or nothing but its errors when it is cut short |
| PineParser.Parser.ReadAssignment | internal/pine/parser.go:458-511 | an assignment binds its name to the indicator or condition read, records constants, adds exactly the errors of what it cannot resolve, and skips the statement on an error |
| PineParser.Parser.Complain | internal/pine/parser.go:479-500 | adds exactly the errors of a source and of parameters that cannot be resolved |
| PineParser.Parser.ReadIf | internal/pine/parser.go:525-548 | the condition is kept by its own or an automatic name, and the directive that follows stands under it |
| PineParser.Parser.ReadIfBody | internal/pine/parser.go:542-548 | a directive after the condition stands under it; any other statement is passed over |
| PineParser.Parser.NameCondition | internal/pine/parser.go:534-540 | a bare name is a condition already; anything else becomes one under an automatic name |
| PineParser.Parser.ReadStatement | internal/pine/parser.go:400-449 | every statement consumes at least one token, loses nothing built before, and does exactly what its form says, errors included |
| PineParser.Parser.ReadBareStatement | internal/pine/parser.go:426-448 | the same after `var` and type names, the step back before a directive included |
| PineParser.Parser.WarnHardcoded | internal/pine/parser.go:903-917 | exactly the numbers that comparisons have for operands, at any depth, are warned about |
| PineParser.Parser.ValidateStrategy | internal/pine/parser.go:877-901 | warnings are exact: missing entries, missing closes, hardcoded numbers |
| PineParser.Parser.Parse | internal/pine/parser.go:329-346 | parsing any text terminates at its end, one statement after another, with known indicators, grammatical conditions and rules that enter or close |
| Aggregation.AggregateBucket | internal/marketdata/aggregation.go:65-113 | the accumulating loop gives first open, last close, extremes and totals, and fails exactly on an unreadable volume |
| Aggregation.CollectBucket | internal/marketdata/aggregation.go:34-63 | a bucket is collected exactly when every step of it is there, and then its opens are evenly spaced |
| Aggregation.WalkBuckets | internal/marketdata/aggregation.go:31-54 | the outer loop visits every bucket in range and keeps the complete ones |
| Aggregation.ComputeAggregates | internal/marketdata/aggregation.go:9-54 | the method computes the modelled aggregation, errors included |
| Aggregation.ByOpenTimeKeyed | internal/marketdata/aggregation.go:27-30 | the index holds a candle exactly for the times at which one opens |
| AggregationComposes.AggregatesListed | internal/marketdata/aggregation.go:33-53 | there is one aggregate for each complete bucket in range, in time order, and no other |
| AggregationComposes.FoldsAgree | internal/marketdata/aggregation.go:66-95 | volumes, counts, open and close of parts and whole agree, whatever the highs and lows are |
| AggregationComposes.ExtremesAgreeIff | internal/marketdata/aggregation.go:71-88 | the highest of the parts' highs is the highest of all if and only if the first is unreadable or no high hidden behind an unreadable lead beats every one that is not; the same for lows |
| AggregationComposes.CombineComposes | internal/marketdata/aggregation.go:65-113 | combining the parts gives the same candle as combining the whole if and only if nothing hidden matters |
| AggregationComposes.CompleteTogether | internal/marketdata/aggregation.go:34-46 | a large bucket is complete exactly when all its parts have an aggregate |
| AggregationComposes.StagesAgree | internal/marketdata/aggregation.go:33-53 | both walks succeed, and walking the aggregates gives what walking the candles gives if and only if every bucket on the way is legible |
| AggregationComposes.RangeIrrelevant | internal/marketdata/aggregation.go:31-33 | where the walk starts and ends does not matter beyond the complete buckets |
| AggregationComposes.AggregationComposes | internal/marketdata/aggregation.go:9-113 | whenever the first stage succeeds, aggregating in two stages gives the same candles as in one, gaps and dropped partial buckets included, if and only if every bucket is legible |
| AggregationComposes.ReadableLeadsCompose | internal/marketdata/aggregation.go:9-113 | so it does whenever the candle that opens each inner bucket has a readable high and low |
| AggregationComposes.AggregationSucceeds | internal/marketdata/aggregation.go:9-54 | readable volumes and a target interval that is a larger multiple are enough for aggregation to succeed |
| AggregationComposes.UnreadableHighBreaks | internal/marketdata/aggregation.go:74-80 | a sorted series with one unreadable high that aggregates to different candles in two stages and in one |
| Gaps.ScanMissing | internal/marketdata/gaps.go:31-38 | a missing instant opens a gap or extends the open one |
| Gaps.ScanPresent | internal/marketdata/gaps.go:40-43 | a present instant closes the open gap |
| Gaps.ScanFinished | internal/marketdata/gaps.go:46-48 | the end of the range closes the last gap |
| Gaps.DetectGaps | internal/marketdata/gaps.go:14-54 | the gaps cover exactly the missing instants of the grid, each as wide as it can be, in order and apart; it fails exactly on an unknown interval or an empty range |
| Backfill.BetweenExact | internal/marketdata/backfill.go:185-191 | a request asks for exactly the exchange candles that open in its range |
| Backfill.PageLeavesNoHoles | internal/marketdata/backfill.go:198-204 | the cursor advances strictly, and nothing below it is outside the page |
| Backfill.ShortPageExhausts | internal/marketdata/backfill.go:211-213 | a page shorter than the limit means the range is exhausted |
| Backfill.BackfillService.constructor | internal/marketdata/backfill.go:122-144 | a new job starts with its cursor at its first instant |
| Backfill.BackfillService.SaveJob | internal/marketdata/backfill.go:206-210 | a save that is reported persists the job |
| Backfill.BackfillService.FetchWithRetry | internal/marketdata/backfill.go:240-262 | a page is the exchange's, and none comes only after three failed attempts |
| Backfill.BackfillService.StoreCandles | internal/marketdata/backfill.go:264-274 | nothing is lost, nothing but the page is added, and success stores all of it |
| Backfill.BackfillService.RunJob | internal/marketdata/backfill.go:146-238 | through any faults and resumes every exchange candle below the persisted cursor is stored; a finished job has its whole range; a run without faults finishes |
| Backfill.BackfillService.TakePage | internal/marketdata/backfill.go:198-213 | a stored page moves the cursor strictly and leaves no hole below it; a short one completes the range |
| Backfill.BackfillService.FailJob | internal/marketdata/backfill.go:276-284 | what is persisted is as before or the failed job, which keeps its cursor and leaves no hole |
| RateLimiter.FixedWindowLimiter.constructor | internal/api/middleware.go:172-178 | a new limiter has seen nobody |
| RateLimiter.FixedWindowLimiter.Allow | internal/api/middleware.go:180-195 | the verdict and the new state of the key, and no other key touched |
| RateLimiter.HistoriesCompose | internal/api/middleware.go:180-195 | the decisions on a history are those on its first part and then, from the state that leaves, on the rest |
| RateLimiter.KeysDoNotInterfere | internal/api/middleware.go:180-195 | a key's verdicts over any history are those it would get alone |
| RateLimiter.GrantedIsAdmitted | internal/api/middleware.go:180-195 | how many calls of a key the limiter grants in an interval, over a history of all keys, is what counting that key alone gives |
| RateLimiter.AnchoredWindow | internal/api/middleware.go:184-194 | whatever other keys do, of the calls of a key in a window that one of them opens, exactly the smaller of their number and the limit are granted |
| RateLimiter.AnyIntervalBound | internal/api/middleware.go:180-195 | over any history of all keys, no interval one window long sees more than 2·limit − 1 calls of a key granted |
| RateLimiter.BoundIsTight | internal/api/middleware.go:180-195 | in some history it sees exactly that many granted |
| Idempotency.IdempotencyTable.Begin | internal/orchestration/idempotency.go:39-95 | a key starts exactly when it is new or has failed |
| Idempotency.IdempotencyTable.Complete | internal/orchestration/idempotency.go:51-65 | a reported completion is in the table, a lost one is all or nothing |
| Idempotency.IdempotencyTable.Fail | internal/orchestration/idempotency.go:67-80 | the same for a failure |
| Idempotency.StepExclusive | internal/orchestration/orchestrator.go:119-156 | every step keeps at most one owner for a key |
| Idempotency.StepTallied | internal/orchestration/orchestrator.go:119-156 | every step keeps attempts equal to failures plus the live run |
| Idempotency.StepAccounted | internal/orchestration/orchestrator.go:216-270 | every step keeps executions equal to the failures of runs that had recorded theirs plus the one that the present run has |
| Idempotency.PlayGuarded | internal/orchestration/orchestrator.go:119-156 | all three hold after any interleaving of deliveries, crashes and lost replies |
| Idempotency.OneRunPerKey | internal/orchestration/orchestrator.go:132-141 | at most one worker is inside run for a key |
| Idempotency.AttemptsAndExecutions | internal/orchestration/orchestrator.go:132-151 | attempts are the failures written plus the live run; executions are the failures written after recording plus the one the present run has recorded |
| Idempotency.AtMostOnce | internal/orchestration/orchestrator.go:119-156 | a key executes at most once if and only if no run of it failed after recording, or one did and none has recorded since |
| Idempotency.CompletedIsFinal | internal/orchestration/idempotency.go:82-95 | a completed key stays completed and is never attempted or executed again |
| Idempotency.AbandonedIsFinal | internal/orchestration/idempotency.go:39-95 | a key whose row says processing and that no worker holds is never attempted or executed again, however often it is delivered |
| Idempotency.GivingUpAbandons | internal/orchestration/orchestrator.go:132-151 | and a crash, or a lost reply to Begin, is all it takes |
| Idempotency.RetryCanExecuteTwice | internal/orchestration/orchestrator.go:216-232 | a run that fails after recording its execution is retried and records another |
| PaperTrading.ApprovedIffWithinLimits | internal/risk/evaluator.go:24-111 | an order is approved if and only if symbol, side, strength and amount are permitted, the day may be traded on, and every limit that is on holds with the order in |
| PaperTrading.RefusalMeans | internal/risk/evaluator.go:24-111 | every refusal names a rule that the order breaks, measured with the order in |
| PaperTrading.OrderWithinLimits | internal/risk/evaluator.go:75-83 | an order approved on statistics that were read is within the daily number and a cooldown after the one before |
| PaperTrading.DayWithinLimits | internal/risk/evaluator.go:75-83 | over a whole day approved trades stay within the daily number and are cooldowns apart, as far as the day's statistics could be read |
| PaperTrading.UnreadStatistics | internal/orchestration/orchestrator.go:298-304 | when the statistics cannot be read, the decision is the one of a configuration without daily trade limit, daily loss limit and cooldown |
| PaperTrading.UnreadDayUnbounded | internal/orchestration/orchestrator.go:298-304 | so a day on which they never can has no bound on its trades, all of them at one moment |
| PaperTrading.ApprovalMonotone | internal/risk/evaluator.go:24-111 | a smaller order, less at stake and more time never turn an approval into a rejection |
| PaperTrading.FillRatio | internal/execution/paper_engine.go:81-86 | the ratio that is used lies in (0, 1] |
| PaperTrading.ApprovedIsExecutable | internal/risk/evaluator.go:60-65 | an approved decision on a snapshot executes on it exactly when the engine is on with a price and an amount; balance never refuses it |
| PaperTrading.FillMatchesRow | internal/execution/paper_engine.go:43-79 | a fill moves the account by its ledger row's flows and costs exactly its fee at the fill price |
| PaperTrading.FillAmount | internal/execution/paper_engine.go:43-86 | a fill is its share of the order: a buy spends exactly that with the fee in it, a sell brings exactly that in less the fee, the fee is the rate times it, and it is partial exactly below the whole |
| PaperTrading.PartialScales | internal/execution/paper_engine.go:43-79 | quantity, fee and cash flow of a partial fill are those of the full fill times the ratio |
| PaperTrading.RefusedIff | internal/execution/paper_engine.go:19-79 | each refusal happens exactly in its case; for balance, when the account does not cover the share that would be filled |
| PaperTrading.FillNonNegative | internal/execution/paper_engine.go:43-79 | with a fee rate of at most one no fill makes a balance negative |
| PaperTrading.FeeRateLimit | internal/execution/paper_engine.go:43-79 | and with a larger one some fill does |
| PaperTrading.Desk.SaveResult | internal/execution/repository.go:34-68 | the order row, then the trade row unless the order failed; a reported save has both |
| PaperTrading.Desk.SaveFailure | internal/orchestration/orchestrator.go:236-270 | a refused execution leaves a failed order and no trade |
| PaperTrading.Desk.SaveFill | internal/orchestration/orchestrator.go:220-229 | a fill is recorded before the account moves, and the books say which rows have moved it |
| PaperTrading.Desk.SaveAccount | internal/orchestration/orchestrator.go:227-229 | the account write either moves the account by the row that is in the ledger already or leaves that row lost |
| PaperTrading.Desk.Difference | internal/orchestration/orchestrator.go:216-229 | account and ledger differ by exactly the cash flows and quantities of the rows whose account write was lost |
| PaperTrading.Desk.Settle | internal/orchestration/orchestrator.go:203-234 | what each outcome leaves behind: a run is broken exactly when a write of it fails, and any other leaves exactly what one fault-free settlement does; the account is the initial one plus the ledger's cash flows and quantities less those of lost account writes |
| PaperTrading.LedgerAgrees | internal/execution/repository.go:177-188 | over any serial history the account is the initial one plus the ledger's cash flows and quantities, and stays non-negative |

## Left out

- IEEE arithmetic: prices are exact reals, so rounding, infinities and NaN are not modelled. Where the code divides by a
  price that slippage of exactly one has brought to zero it gets an infinite short; the model's `Ratio` is zero there and
  the entry is declined.
- RunError: error texts are not modelled, only which check failed; where an error is returned after some of the loop's
  variables have changed, those variables are not described, since the run ends there.
- Resolution.ResolutionConfluent: goes one way; colliding names can still be harmless, for example when one of the two
  indicators has to be resolved first. Which malformed indicator is refused first is left to the iteration order.
- PineEvaluator.EvaluateSeries: takes the square root of the bands as a parameter.
- BacktestEngine.Session: the loop's variables are one record field, updated step by step; `bars`, the bar of each fill, is
  an addition that no branch reads.
- BacktestReport.Summarize: Sharpe and Sortino ratios and the request's echo in the report are left out.
- BacktestRequest.Program: how many candles a Pine program asks for is an input of at least three, not computed from it.
- BacktestRequest.Template: stands for any Pine program, not only for the ones that ship.
- The trend-pullback strategy, the comparison and the optimizer are left out: they only choose requests.
- PineLexer.Alphabet: the Unicode letter and digit classes are parameters; `ToLower` is the ASCII one, which all keywords use.
- PineGrammar.Context: number parsing is a parameter; error texts of expressions are reduced to their kind.
- PinePrinter.ParsedIffGrammatical: is about token streams; for text, names must be writable without quotes (`PineText.SourceRoundTrip`).
- PineStatementText.DirectiveRoundTrip: is about one name, two names, or a name and one setting; longer argument lists are
  read by the same loop (`PineParser.Parser.ReadDirectiveArguments`), and only the first two arguments matter.
- PineSource.AssignmentSource: is about one statement with a blank behind every token, the form `PineText.Render` writes.
- BacktestRequest.Normalize: text fields are taken as already trimmed and symbols as upper case.
- Native.RsiReversion: the trading thresholds are modelled, the signal strengths are not.
- AggregationComposes.AggregationComposes: asks that the candles be sorted and the first stage succeed; an unreadable
  volume fails whichever stage meets it first.
- Backfill.BackfillService: the exchange is a fixed list of open times at least one step apart, candles are identified by
  their open time, and request delays, context cancellation and the batch store appear only as faults; validation of
  requests is left out.
- RateLimiter.AnyIntervalBound: is stated for clocks that never run backwards and never read the zero time, which marks an unseen key.
- Idempotency.PlayGuarded: a failed or lost write, a crash and a lost reply are one step, after which the message may be delivered again.
- PaperTrading.Desk: runs are serial, with no account resets and no manual runner beside them; candle, signal and decision
  stores, publishing and a failing kill-switch read come before or after the part that is modelled.
- PaperTrading.EvaluateRisk: symbols are compared as they are, without trimming or case folding; the daily statistics are inputs.
- HTTP, SQL text, Redis, the Binance client, the dashboard, lifecycle records, audit and metrics are left out: they are
  input and output around the modelled parts.
