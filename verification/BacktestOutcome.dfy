/** How a run ends (internal/backtest/engine.go:24-75, 182-361): what can fail past the preflight, and exactly when. */
module BacktestOutcome {
  import opened Common
  import opened MarketData
  import opened CandleSeries
  import opened Signals
  import opened Native
  import opened Resolution
  import opened PineEvaluator
  import opened BacktestRequest
  import opened BacktestModel
  import opened BacktestAccounting
  import opened BacktestDrawdown
  import opened BacktestTiming
  import opened BacktestCausality
  import opened BacktestReport

  // Failures ------------------------------------------------------------------------------------------------------

  /** A bar that fails ends the run with its error. */
  lemma {:induction false} FailureIsFinal(r: Request, source: SignalSource, cs: seq<Candle>, failed: int, upto: int)
    requires 1 <= RequiredCandles(r) && RequiredCandles(r) - 1 <= failed <= upto <= |cs|
    requires RunBars(r, source, cs, failed).Err?
    ensures RunBars(r, source, cs, upto) == RunBars(r, source, cs, failed)
    decreases upto
  {
    hide Bar, SideAt;
    if failed < upto {
      FailureIsFinal(r, source, cs, failed, upto - 1);
    }
  }

  lemma SignalFailure(source: SignalSource, cs: seq<Candle>, i: int)
    requires 0 <= i < |cs| && SideAt(source, cs, i).Err?
    ensures SideAt(source, cs, i).error.StrategyFailed?
  {
  }

  lemma {:induction false} OnlySignalsFail(r: Request, source: SignalSource, cs: seq<Candle>, upto: int)
    requires Ready(r, cs) && 1 <= RequiredCandles(r) && RequiredCandles(r) - 1 <= upto <= |cs|
    requires RunBars(r, source, cs, upto).Err?
    ensures RunBars(r, source, cs, upto).error.StrategyFailed?
    decreases upto
  {
    hide Sound, Bar, Ready, SideAt;
    if upto > RequiredCandles(r) - 1 && RunBars(r, source, cs, upto - 1).Ok? {
      RunSound(r, source, cs, upto - 1);
      var side := SideAt(source, cs, upto - 1);
      if side.Ok? {
        BarSound(r, cs, side.value, RunBars(r, source, cs, upto - 1).value, upto - 1);
      } else {
        SignalFailure(source, cs, upto - 1);
      }
    } else if upto > RequiredCandles(r) - 1 {
      OnlySignalsFail(r, source, cs, upto - 1);
    }
  }

  lemma FinalFailures(r: Request, source: SignalSource, cs: seq<Candle>)
    requires Ready(r, cs) && 1 <= RequiredCandles(r) && FinalState(r, source, cs).Err?
    ensures FinalState(r, source, cs).error.StrategyFailed?
  {
    hide Sound, RunBars, Liquidate, ValidSeries;
    RunSound(r, source, cs, |cs|);
    if RunBars(r, source, cs, |cs|).Ok? {
      LiquidateSound(r, cs, RunBars(r, source, cs, |cs|).value);
    } else {
      OnlySignalsFail(r, source, cs, |cs|);
    }
  }

  // Native strategies ---------------------------------------------------------------------------------------------

  /** The native strategy can be evaluated: the RSI one looks at no more than its last 250 candles, and needs one more
      than its period. Validation accepts longer periods. */
  predicate Evaluable(r: Request) {
    r.strategy == SmaCross || (r.strategy == RsiMeanReversion && r.rsiPeriod < RSI_LOOKBACK)
  }

  lemma ReadyParses(r: Request, cs: seq<Candle>)
    requires Ready(r, cs)
    ensures Parsed(cs)
  {
    hide Ready;
    forall i | 0 <= i < |cs|
      ensures cs[i].close.Number?
    {
      CandlePrices(r, cs, i);
    }
  }

  lemma AverageSucceeds(cs: seq<Candle>, from: int, to: int)
    requires Parsed(cs) && 0 <= from < to <= |cs|
    ensures AverageClose(cs[from..to]).Ok?
  {
  }

  lemma CrossoverSucceeds(fast: int, slow: int, cs: seq<Candle>)
    requires 0 < fast < slow < |cs| && Parsed(cs)
    ensures SmaCrossover(fast, slow, cs).Ok?
  {
    hide AverageClose;
    assert cs[|cs| - fast..] == cs[|cs| - fast..|cs|] && cs[|cs| - slow..] == cs[|cs| - slow..|cs|];
    AverageSucceeds(cs, |cs| - fast - 1, |cs| - 1);
    AverageSucceeds(cs, |cs| - slow - 1, |cs| - 1);
    AverageSucceeds(cs, |cs| - fast, |cs|);
    AverageSucceeds(cs, |cs| - slow, |cs|);
  }

  lemma ReversionSucceedsIff(period: int, oversold: real, overbought: real, cs: seq<Candle>)
    requires 0 < period < |cs| && Parsed(cs) && 0.0 < oversold < overbought < 100.0
    ensures var r := RsiReversion(period, oversold, overbought, cs);
      if period < RSI_LOOKBACK then r.Ok? else r == Err(TooFewCandles)
  {
    var window := if |cs| > RSI_LOOKBACK then cs[|cs| - RSI_LOOKBACK..] else cs;
    assert Parsed(window);
  }

  /** On every bar of an accepted request, the native strategy gives a side exactly when it is evaluable. */
  lemma NativeSide(r: Request, cs: seq<Candle>, i: int)
    requires Ready(r, cs) && r.strategy != Template && 0 <= RequiredCandles(r) - 1 <= i < |cs|
    ensures var side := SideAt(Windows(r), cs, i);
      if Evaluable(r) then side.Ok? else side == Err(StrategyFailed(TooFewCandles))
  {
    ReadyParses(r, cs);
    var window := cs[..i + 1];
    assert Parsed(window);
    hide SmaCrossover, RsiReversion;
    if r.strategy == SmaCross {
      CrossoverSucceeds(r.fastPeriod, r.slowPeriod, window);
    } else {
      ReversionSucceedsIff(r.rsiPeriod, r.rsiOversold, r.rsiOverbought, window);
    }
  }

  lemma TooShort(r: Request, cs: seq<Candle>, k: nat)
    requires Valid(r) && k <= |cs|
    ensures r.strategy == SmaCross && k <= r.slowPeriod ==> SmaCrossover(r.fastPeriod, r.slowPeriod, cs[..k]) == Err(TooFewCandles)
    ensures r.strategy == RsiMeanReversion && k <= r.rsiPeriod ==>
              RsiReversion(r.rsiPeriod, r.rsiOversold, r.rsiOverbought, cs[..k]) == Err(TooFewCandles)
  {
  }

  /** Without filters and exits a request asks for exactly as many candles as its native strategy needs for its first signal. */
  lemma RequiredIsLeast(r: Request, cs: seq<Candle>, i: int)
    requires Valid(r) && Evaluable(r) && !r.trendFilter && !r.atrExit && !r.regimeFilter && Parsed(cs) && 0 <= i < |cs|
    ensures SideAt(Windows(r), cs, i).Ok? <==> i >= RequiredCandles(r) - 1
  {
    hide SmaCrossover, RsiReversion, Valid;
    var window := cs[..i + 1];
    assert Parsed(window);
    PeriodsKnown(r);
    TooShort(r, cs, i + 1);
    if r.strategy == SmaCross {
      if i + 1 > r.slowPeriod {
        CrossoverSucceeds(r.fastPeriod, r.slowPeriod, window);
      }
    } else if i + 1 > r.rsiPeriod {
      ReversionSucceedsIff(r.rsiPeriod, r.rsiOversold, r.rsiOverbought, window);
    }
  }

  lemma PeriodsKnown(r: Request)
    requires Valid(r)
    ensures r.strategy == SmaCross ==> 0 < r.fastPeriod < r.slowPeriod
    ensures r.strategy == RsiMeanReversion ==> r.rsiPeriod > 0 && 0.0 < r.rsiOversold < r.rsiOverbought < 100.0
  {
  }

  /** A native run of an accepted request on a valid series completes if and only if its strategy is evaluable. */
  lemma NativeFinishes(r: Request, cs: seq<Candle>)
    requires Ready(r, cs) && r.strategy != Template
    ensures 1 <= RequiredCandles(r) <= |cs|
    ensures var final := FinalState(r, Windows(r), cs);
      if Evaluable(r) then final.Ok? else final == Err(StrategyFailed(TooFewCandles))
  {
    hide SideAt, Sound, Timed, Tracked, Solvent, Valid, ValidSeries, Liquidate, Bar, Evaluable;
    RunFinishes(r, Windows(r), cs);
    var first := RequiredCandles(r) - 1;
    forall i | first <= i < |cs|
      ensures var side := SideAt(Windows(r), cs, i);
        if Evaluable(r) then side.Ok? else side == Err(StrategyFailed(TooFewCandles))
    {
      NativeSide(r, cs, i);
    }
    if !Evaluable(r) {
      assert RunBars(r, Windows(r), cs, first + 1) == Err(StrategyFailed(TooFewCandles));
      FailureIsFinal(r, Windows(r), cs, first + 1, |cs|);
    }
  }

  // A period that validation accepts and no evaluation survives ------------------------------------------------

  const LONG_PERIOD: Request :=
    Request(RsiMeanReversion, "BTCUSDT", Every(1, 'm'), MINUTE, 300 * MINUTE, 9, 21, 250, 30.0, 70.0,
            100.0, 0.001, 0.0, AllIn, 100.0, false, 0, 1, 1, false, 0, 0.0, 0.0, false, 0, 0.0, 0.0,
            NextOpen, false, None)

  /** n minutes at one price. */
  function Flat(n: nat): seq<Candle> {
    seq(n, i => Candle("binance", "BTCUSDT", Every(1, 'm'), (i + 1) * MINUTE, (i + 2) * MINUTE, (i + 2) * MINUTE,
                       Number(10.0), Number(10.0), Number(10.0), Number(10.0), Number(1.0), Missing, 1, true))
  }

  lemma FlatReady(n: nat)
    requires n >= 251
    ensures Ready(LONG_PERIOD, Flat(n)) && Normalize(LONG_PERIOD) == LONG_PERIOD && RequiredCandles(LONG_PERIOD) == 251
  {
    var cs := Flat(n);
    assert IntervalDuration(Every(1, 'm')) == Ok(MINUTE);
    forall i | 0 <= i < n
      ensures ValidOHLC(cs[i]) && cs[i].openTime == (i + 1) * MINUTE
    {
    }
    assert forall i :: 0 < i < n ==> cs[i].openTime == cs[i - 1].openTime + MINUTE;
  }

  /** An RSI period of 250 is valid, and its run fails on its first bar however many candles there are. */
  lemma LongPeriodFails(n: nat)
    requires n >= 251
    ensures Ready(LONG_PERIOD, Flat(n)) && Normalize(LONG_PERIOD) == LONG_PERIOD && RequiredCandles(LONG_PERIOD) == 251
    ensures FinalState(LONG_PERIOD, Windows(LONG_PERIOD), Flat(n)) == Err(StrategyFailed(TooFewCandles))
  {
    hide Ready, FinalState, Flat;
    FlatReady(n);
    NativeFinishes(LONG_PERIOD, Flat(n));
  }

  // Pine programs ---------------------------------------------------------------------------------------------------

  /** Why a Pine program can fail on a series that passed the preflight. */
  ghost predicate PineFails(host: Host, r: Request, cs: seq<Candle>, cause: StrategyError) {
    r.program.Some? &&
    var cfg := r.program.value.config;
    (cause == Data(BadField) && !AllParse(cs)) || Unresolvable(cfg.indicators, cause) || BarFails(host, cfg, cs, cause)
  }

  ghost predicate OrderIrrelevant(r: Request) {
    r.program.Some? && Unambiguous(r.program.value.config.indicators)
  }

  lemma PineRefused(host: Host, r: Request, cs: seq<Candle>, cause: StrategyError)
    requires Ready(r, cs) && 1 <= RequiredCandles(r) && r.strategy == Template && r.program.Some?
    requires var cfg := r.program.value.config;
      && ((cause == NoCandles && cs == []) || (cause == Data(BadField) && !AllParse(cs))
          || Unresolvable(cfg.indicators, cause) || BarFails(host, cfg, cs, cause))
      && (Unambiguous(cfg.indicators) ==> !exists signals :: IsSeries(host, cfg, cs, signals))
    ensures PineFails(host, r, cs, cause)
    ensures OrderIrrelevant(r) ==> !exists source :: SignalsOf(host, r, cs, source)
  {
    hide Unresolvable, BarFails, Unambiguous, SeriesBy, AllParse;
    if OrderIrrelevant(r) {
      if source :| SignalsOf(host, r, cs, source) {
        SourceIsSeries(host, r, cs, source);
        assert false;
      }
    }
  }

  lemma SourceIsSeries(host: Host, r: Request, cs: seq<Candle>, source: SignalSource)
    requires SignalsOf(host, r, cs, source) && r.strategy == Template
    ensures r.program.Some? && source.Series? && IsSeries(host, r.program.value.config, cs, source.signals)
  {
    hide SeriesBy;
  }

  /** A program with a series of signals completes. */
  lemma SeriesFinishes(host: Host, r: Request, cs: seq<Candle>, signals: seq<Signal>)
    requires Ready(r, cs) && r.program.Some? && IsSeries(host, r.program.value.config, cs, signals)
    ensures 1 <= RequiredCandles(r) <= |cs| && FinalState(r, Series(signals), cs).Ok?
  {
    hide Exhaustive, SignalsIn, FinalState, Sound, Timed, Tracked, Solvent, Valid, ValidSeries;
    RunFinishes(r, Series(signals), cs);
  }

  lemma Sourced(host: Host, r: Request, cs: seq<Candle>, source: SignalSource)
    requires if r.strategy == Template
             then r.program.Some? && source.Series? && IsSeries(host, r.program.value.config, cs, source.signals)
             else source == Windows(r)
    ensures SignalsOf(host, r, cs, source)
  {
    hide SeriesBy;
    if r.strategy == Template {
      var order :| SeriesBy(host, r.program.value.config, cs, order, source.signals);
      assert SignalsBy(host, r, cs, order, source);
    } else {
      assert SignalsBy(host, r, cs, [], source);
    }
  }

  lemma ProgramGiven(r: Request)
    requires Valid(r) && r.strategy == Template
    ensures r.program.Some?
  {
  }
}
