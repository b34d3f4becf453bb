/** Backtest requests: defaults, validation, and how many candles a run needs (internal/backtest/types.go). */
module BacktestRequest {
  import opened Common
  import opened MarketData
  import opened PineIR

  /** A template is a Pine program that ships with the system; a custom one comes with the request. */
  datatype StrategyName = SmaCross | RsiMeanReversion | Template | PineCustom | UnsupportedStrategy

  datatype Sizing = DefaultSizing | AllIn | FixedQuote | PercentEquity | UnsupportedSizing

  datatype FillMode = DefaultFill | SameClose | NextOpen | UnsupportedFill

  /** A compiled Pine program with the number of candles its indicators ask for (at least three). */
  datatype Program = Program(config: Config, lookback: Lookback)
  type Lookback = n: int | n >= 3 witness 3

  datatype Request = Request(
    strategy: StrategyName, symbol: string, interval: Interval, from: Time, to: Time,
    fastPeriod: int, slowPeriod: int, rsiPeriod: int, rsiOversold: real, rsiOverbought: real,
    startingBalance: real, feeRate: real, slippageRate: real, sizing: Sizing, sizeValue: real,
    trendFilter: bool, trendPeriod: int, cooldownBars: int, minHoldingBars: int,
    atrExit: bool, atrPeriod: int, atrStop: real, atrTakeProfit: real,
    regimeFilter: bool, regimePeriod: int, regimeMin: real, regimeMax: real,
    fillMode: FillMode, shorting: bool, program: Option<Program>)

  function AtLeast(value: int, fallback: int): int {
    if value <= 0 then fallback else value
  }

  function AtLeastReal(value: real, fallback: real): real {
    if value <= 0.0 then fallback else value
  }

  function Normalize(r: Request): (n: Request)
    ensures n.cooldownBars >= 1 && n.minHoldingBars >= 1
    ensures n.cooldownBars == r.cooldownBars || r.cooldownBars <= 0
  {
    var sizing := if r.sizing == DefaultSizing then PercentEquity else r.sizing;
    r.(sizing := sizing,
       fillMode := if r.fillMode == DefaultFill then NextOpen else r.fillMode,
       sizeValue := if sizing == PercentEquity then AtLeastReal(r.sizeValue, 10.0)
                    else if sizing == AllIn then AtLeastReal(r.sizeValue, 100.0) else r.sizeValue,
       cooldownBars := AtLeast(r.cooldownBars, 1),
       minHoldingBars := AtLeast(r.minHoldingBars, 1),
       trendPeriod := if r.trendFilter then AtLeast(r.trendPeriod, 200) else r.trendPeriod,
       rsiPeriod := AtLeast(r.rsiPeriod, 14),
       rsiOversold := AtLeastReal(r.rsiOversold, 30.0),
       rsiOverbought := AtLeastReal(r.rsiOverbought, 70.0),
       atrPeriod := if r.atrExit then AtLeast(r.atrPeriod, 14) else r.atrPeriod,
       regimePeriod := if r.regimeFilter then AtLeast(r.regimePeriod, 14) else r.regimePeriod,
       fastPeriod := if r.strategy == RsiMeanReversion then AtLeast(r.fastPeriod, 9) else r.fastPeriod,
       slowPeriod := if r.strategy == RsiMeanReversion && r.slowPeriod <= AtLeast(r.fastPeriod, 9) then 21 else r.slowPeriod)
  }

  /** Every field that has a default is set. A slow period of 21 may stand below the fast one: it is the default. */
  predicate AllSet(r: Request) {
    && r.sizing != DefaultSizing && r.fillMode != DefaultFill
    && (r.sizing == PercentEquity || r.sizing == AllIn ==> r.sizeValue > 0.0)
    && r.cooldownBars > 0 && r.minHoldingBars > 0
    && r.rsiPeriod > 0 && r.rsiOversold > 0.0 && r.rsiOverbought > 0.0
    && (r.trendFilter ==> r.trendPeriod > 0)
    && (r.atrExit ==> r.atrPeriod > 0)
    && (r.regimeFilter ==> r.regimePeriod > 0)
    && (r.strategy == RsiMeanReversion ==> r.fastPeriod > 0 && (r.slowPeriod > r.fastPeriod || r.slowPeriod == 21))
  }

  /** Every field with a default is set afterwards, and a request is left alone exactly when it was complete. */
  lemma NormalizeCompletes(r: Request)
    ensures AllSet(Normalize(r))
    ensures Normalize(r) == r <==> AllSet(r)
  {
    hide AtLeast, AtLeastReal;
    forall v: int, f: int | f > 0
      ensures AtLeast(v, f) > 0 && (AtLeast(v, f) == v <==> v > 0)
    {
      AtLeastSets(v, f);
    }
    forall v: real, f: real | f > 0.0
      ensures AtLeastReal(v, f) > 0.0 && (AtLeastReal(v, f) == v <==> v > 0.0)
    {
      AtLeastRealSets(v, f);
    }
  }

  lemma AtLeastSets(v: int, f: int)
    requires f > 0
    ensures AtLeast(v, f) > 0 && (AtLeast(v, f) == v <==> v > 0)
  {
  }

  lemma AtLeastRealSets(v: real, f: real)
    requires f > 0.0
    ensures AtLeastReal(v, f) > 0.0 && (AtLeastReal(v, f) == v <==> v > 0.0)
  {
  }

  /** Defaults are applied once and for all. */
  lemma NormalizeIdempotent(r: Request)
    ensures Normalize(Normalize(r)) == Normalize(r)
  {
    NormalizeCompletes(r);
    NormalizeCompletes(Normalize(r));
  }

  /** What the caller set is kept, and everything without a default. */
  lemma NormalizeKeeps(r: Request)
    ensures var n := Normalize(r);
      && (r.sizing != DefaultSizing ==> n.sizing == r.sizing) && (r.fillMode != DefaultFill ==> n.fillMode == r.fillMode)
      && (r.sizeValue > 0.0 ==> n.sizeValue == r.sizeValue)
      && (r.cooldownBars > 0 ==> n.cooldownBars == r.cooldownBars)
      && (r.minHoldingBars > 0 ==> n.minHoldingBars == r.minHoldingBars)
      && (r.trendPeriod > 0 ==> n.trendPeriod == r.trendPeriod) && (r.rsiPeriod > 0 ==> n.rsiPeriod == r.rsiPeriod)
      && (r.rsiOversold > 0.0 ==> n.rsiOversold == r.rsiOversold)
      && (r.rsiOverbought > 0.0 ==> n.rsiOverbought == r.rsiOverbought)
      && (r.atrPeriod > 0 ==> n.atrPeriod == r.atrPeriod) && (r.regimePeriod > 0 ==> n.regimePeriod == r.regimePeriod)
      && (r.fastPeriod > 0 ==> n.fastPeriod == r.fastPeriod)
      && (r.slowPeriod > n.fastPeriod ==> n.slowPeriod == r.slowPeriod)
      && n == r.(sizing := n.sizing, fillMode := n.fillMode, sizeValue := n.sizeValue, cooldownBars := n.cooldownBars,
                 minHoldingBars := n.minHoldingBars, trendPeriod := n.trendPeriod, rsiPeriod := n.rsiPeriod,
                 rsiOversold := n.rsiOversold, rsiOverbought := n.rsiOverbought, atrPeriod := n.atrPeriod,
                 regimePeriod := n.regimePeriod, fastPeriod := n.fastPeriod, slowPeriod := n.slowPeriod)
  {
  }

  /** The documented defaults: a tenth of the equity on the next open, one bar of cooldown and of holding, and the periods. */
  lemma NormalizeFillsIn(r: Request)
    requires r.sizing == DefaultSizing && r.fillMode == DefaultFill && r.sizeValue <= 0.0
    requires r.cooldownBars <= 0 && r.minHoldingBars <= 0 && r.trendPeriod <= 0 && r.rsiPeriod <= 0
    requires r.rsiOversold <= 0.0 && r.rsiOverbought <= 0.0 && r.atrPeriod <= 0 && r.regimePeriod <= 0
    requires r.fastPeriod <= 0 && r.slowPeriod <= 0
    requires r.strategy == RsiMeanReversion && r.trendFilter && r.atrExit && r.regimeFilter
    ensures var n := Normalize(r);
      && n.sizing == PercentEquity && n.sizeValue == 10.0 && n.fillMode == NextOpen
      && n.cooldownBars == 1 && n.minHoldingBars == 1 && n.trendPeriod == 200
      && n.rsiPeriod == 14 && n.rsiOversold == 30.0 && n.rsiOverbought == 70.0 && n.atrPeriod == 14 && n.regimePeriod == 14
      && n.fastPeriod == 9 && n.slowPeriod == 21
  {
  }

  predicate Valid(r: Request) {
    && r.symbol != "" && r.interval != Unlabelled
    && r.from != 0 && r.to != 0 && r.from < r.to
    && (match r.strategy
        case SmaCross => 0 < r.fastPeriod < r.slowPeriod
        case RsiMeanReversion => r.rsiPeriod > 0 && 0.0 < r.rsiOversold < r.rsiOverbought < 100.0
        case Template | PineCustom => r.program.Some?
        case UnsupportedStrategy => false)
    && r.startingBalance > 0.0 && r.feeRate >= 0.0 && r.slippageRate >= 0.0
    && (match r.sizing
        case AllIn => true
        case FixedQuote => r.sizeValue > 0.0
        case PercentEquity => 0.0 < r.sizeValue <= 100.0
        case _ => false)
    && (r.fillMode == SameClose || r.fillMode == NextOpen)
    && (r.trendFilter ==> r.trendPeriod > 0)
    && r.cooldownBars >= 0 && r.minHoldingBars >= 0
    && (r.atrExit ==> r.atrPeriod > 0 && (r.atrStop > 0.0 || r.atrTakeProfit > 0.0) && r.atrStop >= 0.0 && r.atrTakeProfit >= 0.0)
    && (r.regimeFilter ==>
          && r.regimePeriod > 0 && r.regimeMin >= 0.0 && r.regimeMax >= 0.0
          && (r.regimeMin > 0.0 || r.regimeMax > 0.0) && (r.regimeMax > 0.0 ==> r.regimeMin <= r.regimeMax))
  }

  /** Which requests are accepted once their defaults are filled in: cooldown, holding time and the periods of filters and exits
      never refuse one, and a size in percent does only above a hundred. */
  lemma AcceptedIff(r: Request)
    ensures Valid(Normalize(r)) <==>
      && r.symbol != "" && r.interval != Unlabelled && r.from != 0 && r.to != 0 && r.from < r.to
      && r.startingBalance > 0.0 && r.feeRate >= 0.0 && r.slippageRate >= 0.0
      && (r.strategy == SmaCross ==> 0 < r.fastPeriod < r.slowPeriod)
      && (r.strategy == RsiMeanReversion ==>
            var (low, high) := (if r.rsiOversold > 0.0 then r.rsiOversold else 30.0,
                                if r.rsiOverbought > 0.0 then r.rsiOverbought else 70.0);
            low < high < 100.0)
      && (r.strategy == Template || r.strategy == PineCustom ==> r.program.Some?) && r.strategy != UnsupportedStrategy
      && r.sizing != UnsupportedSizing && r.fillMode != UnsupportedFill
      && (r.sizing == FixedQuote ==> r.sizeValue > 0.0)
      && (r.sizing == PercentEquity || r.sizing == DefaultSizing ==> r.sizeValue <= 100.0)
      && (r.atrExit ==> r.atrStop >= 0.0 && r.atrTakeProfit >= 0.0 && r.atrStop + r.atrTakeProfit > 0.0)
      && (r.regimeFilter ==>
            && r.regimeMin >= 0.0 && r.regimeMax >= 0.0 && r.regimeMin + r.regimeMax > 0.0
            && (r.regimeMin <= r.regimeMax || r.regimeMax == 0.0))
  {
  }

  function WithFilters(r: Request, required: int): (n: int)
    ensures n >= required
    ensures r.trendFilter ==> n >= r.trendPeriod
    ensures r.atrExit ==> n >= r.atrPeriod + 1
    ensures r.regimeFilter ==> n >= r.regimePeriod + 1
    ensures n == required || (r.trendFilter && n == r.trendPeriod) || (r.atrExit && n == r.atrPeriod + 1)
            || (r.regimeFilter && n == r.regimePeriod + 1)
  {
    var a := if r.trendFilter && r.trendPeriod > required then r.trendPeriod else required;
    var b := if r.atrExit && r.atrPeriod + 1 > a then r.atrPeriod + 1 else a;
    if r.regimeFilter && r.regimePeriod + 1 > b then r.regimePeriod + 1 else b
  }

  /** For a custom program this is what the count would be if it came to an end: see CountReturnsIff. */
  function RequiredCandles(r: Request): int {
    match r.strategy
    case RsiMeanReversion => WithFilters(r, r.rsiPeriod + 1)
    case Template | PineCustom => WithFilters(r, if r.program.Some? then r.program.value.lookback else 100)
    case _ => WithFilters(r, r.slowPeriod + 1)
  }

  /** Every filter and ATR exit of an accepted request has enough history from the first evaluated bar on. */
  lemma RequiredSuffices(r: Request)
    requires Valid(r)
    ensures RequiredCandles(r) >= 1
    ensures r.trendFilter ==> RequiredCandles(r) >= r.trendPeriod
    ensures r.atrExit ==> RequiredCandles(r) > r.atrPeriod
    ensures r.regimeFilter ==> RequiredCandles(r) > r.regimePeriod
  {
  }

  // Counting candles for a custom program ---------------------------------------------------------------------

  /** The two functions that count candles call each other: the settings of a request hold its count, and the count of
      a custom program asks the settings. */
  datatype Call = RequiredCandlesOf | StrategySettingsOf

  /** The call, if any, that one of them waits for before it returns. */
  function Awaits(strategy: StrategyName, call: Call): Option<Call> {
    match call
    case StrategySettingsOf => Some(RequiredCandlesOf)
    case RequiredCandlesOf => if strategy == PineCustom then Some(StrategySettingsOf) else None
  }

  /** The call returns without more than `depth` calls waiting at a time. */
  predicate Returns(strategy: StrategyName, call: Call, depth: nat)
    decreases depth
  {
    match Awaits(strategy, call)
    case None => true
    case Some(next) => depth > 0 && Returns(strategy, next, depth - 1)
  }

  lemma {:induction false} NeverReturns(call: Call, depth: nat)
    ensures !Returns(PineCustom, call, depth)
    decreases depth
  {
    if depth > 0 {
      NeverReturns(if call == RequiredCandlesOf then StrategySettingsOf else RequiredCandlesOf, depth - 1);
    }
  }

  ghost predicate ComesBack(strategy: StrategyName, call: Call) {
    exists depth :: Returns(strategy, call, depth)
  }

  lemma BackAt(strategy: StrategyName, call: Call, depth: nat)
    requires Returns(strategy, call, depth)
    ensures ComesBack(strategy, call)
  {
  }

  /** Counting the candles a request needs comes to an end if and only if its program is not a custom one. */
  lemma CountReturnsIff(strategy: StrategyName)
    ensures ComesBack(strategy, RequiredCandlesOf) <==> strategy != PineCustom
  {
    if strategy == PineCustom {
      forall depth
        ensures !Returns(strategy, RequiredCandlesOf, depth)
      {
        NeverReturns(RequiredCandlesOf, depth);
      }
    } else {
      BackAt(strategy, RequiredCandlesOf, 0);
    }
  }
}
