/** The figures a finished run reports, its validation status, and the activation gate that reads them
    (internal/backtest/engine.go:363-497, 708-753, 823-898; internal/activation/service.go:186-236). */
module BacktestReport {
  import opened Common
  import opened RealArithmetic
  import opened MarketData
  import opened CandleSeries
  import opened BacktestRequest
  import opened BacktestModel
  import opened BacktestAccounting
  import opened BacktestDrawdown
  import opened BacktestTiming

  datatype Status =
    | Candidate | LowBullMarketCapture | InsufficientSample | Overtrading | CostDrag | UnderperformsBenchmark
    | WeakProfitFactor | HighDrawdown | NegativeAverageTrade | UnsafeExecutionTiming

  datatype Report = Report(
    endingBalance: real, profitLoss: real, gross: real, totalFees: real, slippageCost: real,
    returnPercent: real, winRate: real, maxDrawdown: real,
    totalTrades: int, buyCount: int, sellCount: int, completed: int,
    best: real, worst: real, averageWin: real, averageLoss: real, openPosition: bool,
    profitFactor: real, averageTrade: real, expectancy: real, averageHoldingSeconds: real,
    tradesPerDay: real, churnRatio: real, benchmarkReturn: real, excessReturn: real,
    fillMode: FillMode, status: Status, roundTrips: seq<RoundTrip>, curve: seq<EquityPoint>)

  const DAY: int := 24 * 60 * MINUTE

  function Share(part: real, whole: int): real {
    if whole > 0 then part / whole as real else 0.0
  }

  function ProfitFactor(winTotal: real, lossTotal: real): real {
    if lossTotal < 0.0 then winTotal / Abs(lossTotal) else if winTotal > 0.0 then 999999.0 else 0.0
  }

  function TradesPerDay(from: Time, to: Time, trades: int): real {
    if trades <= 0 || from == 0 || to == 0 || to <= from then 0.0
    else trades as real / ((to - from) as real / DAY as real)
  }

  function MaxTradesPerDay(interval: Interval): real {
    if interval == Every(1, 'm') then 20.0
    else if interval == Every(5, 'm') then 12.0
    else if interval == Every(15, 'm') then 4.0
    else if interval == Every(1, 'h') then 2.0
    else 6.0
  }

  function TotalHolding(trips: seq<RoundTrip>): int {
    if trips == [] then 0 else TotalHolding(trips[..|trips| - 1]) + trips[|trips| - 1].holdingSeconds
  }

  /** Percent return of buying on the first close and selling on the last, with the same costs. */
  function BenchmarkReturn(r: Request, first: real, last: real): real
    requires first > 0.0 && r.slippageRate >= 0.0 && r.startingBalance > 0.0
  {
    FillAround(first, r.slippageRate);
    var quantity := (r.startingBalance - r.startingBalance * r.feeRate) / BuyFill(first, r.slippageRate);
    var proceeds := quantity * SellFill(last, r.slippageRate);
    (proceeds - proceeds * r.feeRate - r.startingBalance) / r.startingBalance * 100.0
  }

  /** validateRunCandidate: the first rule a run breaks names its status. */
  function RunStatus(r: Request, completed: int, totalTrades: int, profitFactor: real, maxDrawdown: real, averageTrade: real,
                     returnPercent: real, benchmark: real, tradesPerDay: real): Status
  {
    var breakEven := (r.feeRate * 2.0 + r.slippageRate * 2.0) * 100.0;
    if benchmark >= 20.0 && returnPercent < benchmark * 0.25 then LowBullMarketCapture
    else if completed < 100 then InsufficientSample
    else if tradesPerDay > 50.0 && r.interval == Every(1, 'm') then Overtrading
    else if breakEven > 0.0 && averageTrade > 0.0 && averageTrade < breakEven then CostDrag
    else if returnPercent - benchmark <= 0.0 then UnderperformsBenchmark
    else if profitFactor <= 1.2 then WeakProfitFactor
    else if maxDrawdown > 30.0 then HighDrawdown
    else if averageTrade <= 0.0 then NegativeAverageTrade
    else if TradesPerDay(r.from, r.to, totalTrades) > MaxTradesPerDay(r.interval) then Overtrading
    else if r.fillMode != NextOpen then UnsafeExecutionTiming
    else Candidate
  }

  function Summarize(r: Request, cs: seq<Candle>, s: State): Report
    requires Ready(r, cs)
  {
    CandlePrices(r, cs, 0);
    CandlePrices(r, cs, |cs| - 1);
    var (first, last) := (ParsePositive(cs[0].close).value, ParsePositive(cs[|cs| - 1].close).value);
    var ending := Equity(s.quote, s.base, last);
    var profitLoss := ending - r.startingBalance;
    var trades := |s.trades|;
    var averageTrade := Share(s.winTotal + s.lossTotal, s.completed);
    var profitFactor := ProfitFactor(s.winTotal, s.lossTotal);
    var perDay := TradesPerDay(r.from, r.to, trades);
    var evaluated := |cs| - RequiredCandles(r) + 1;
    var benchmark := BenchmarkReturn(r, first, last);
    var returnPercent := profitLoss / r.startingBalance * 100.0;
    Report(
      ending, profitLoss, s.gross, s.fees, s.slippage,
      returnPercent, Share(s.wins as real, s.completed) * 100.0, s.maxDrawdown,
      trades, s.buys, s.sells, s.completed,
      s.best, s.worst, Share(s.winTotal, s.wins), Share(s.lossTotal, s.losses), s.base > 0.0,
      profitFactor, averageTrade, averageTrade,
      if s.completed > 0 then Share(TotalHolding(s.roundTrips) as real, |s.roundTrips|) else 0.0,
      perDay, if trades <= 0 then 0.0 else Share(trades as real, evaluated) * 100.0, benchmark, returnPercent - benchmark,
      r.fillMode, RunStatus(r, s.completed, trades, profitFactor, s.maxDrawdown, averageTrade, returnPercent, benchmark, perDay),
      s.roundTrips, s.curve)
  }

  // What a finished run reports ---------------------------------------------------------------------------

  /** A run that got through: its books balance, its trades pair off, and it ends flat. */
  ghost predicate Finished(r: Request, s: State) {
    Sound(r, s) && s.base == 0.0
  }

  /** The profit is the sum of the round trips, and equally the gross moves less slippage and fees -
      except for short entries' fees, which are reported but never charged. */
  lemma ReportBalances(r: Request, cs: seq<Candle>, s: State)
    requires Ready(r, cs) && Finished(r, s)
    ensures var report := Summarize(r, cs, s);
      && report.profitLoss == Nets(report.roundTrips)
      && report.profitLoss == report.gross - report.slippageCost - report.totalFees + ShortEntryFees(s.trades)
      && report.totalFees == Fees(s.trades)
      && (!r.shorting ==> report.profitLoss == report.gross - report.slippageCost - report.totalFees)
      && report.expectancy * report.completed as real == report.profitLoss
      && report.endingBalance == s.quote
  {
    hide *;
    Flat(r, s);
    SummaryFields(r, cs, s);
    FlatBooks(r, s);
    ShareTimes(s.winTotal + s.lossTotal, s.completed);
  }

  lemma Flat(r: Request, s: State)
    requires Finished(r, s)
    ensures s.base == 0.0
  {
  }

  /** The books of an account that ended flat. */
  lemma FlatBooks(r: Request, s: State)
    requires Finished(r, s)
    ensures s.quote - r.startingBalance == Nets(s.roundTrips) == s.winTotal + s.lossTotal
    ensures s.quote - r.startingBalance == s.gross - s.slippage - s.fees + ShortEntryFees(s.trades)
    ensures s.fees == Fees(s.trades)
    ensures !r.shorting ==> ShortEntryFees(s.trades) == 0.0
    ensures s.completed <= 0 ==> Nets(s.roundTrips) == 0.0
  {
    hide Paired, Extremes, ShortEntryFees, Fees;
    if !r.shorting {
      OnlyBuysPayNoShortFees(r, s, |s.trades|);
      assert s.trades[..|s.trades|] == s.trades;
    }
  }

  /** What the report takes over from a run that ended flat. */
  lemma SummaryFields(r: Request, cs: seq<Candle>, s: State)
    requires Ready(r, cs) && s.base == 0.0
    ensures var report := Summarize(r, cs, s);
      && report.profitLoss == s.quote - r.startingBalance && report.endingBalance == s.quote
      && report.gross == s.gross && report.slippageCost == s.slippage && report.totalFees == s.fees
      && report.roundTrips == s.roundTrips && report.completed == s.completed
      && report.expectancy == Share(s.winTotal + s.lossTotal, s.completed)
  {
    hide BenchmarkReturn, RunStatus, ProfitFactor, TradesPerDay, TotalHolding, Share;
  }

  lemma ShareTimes(part: real, whole: int)
    ensures Share(part, whole) * whole as real == if whole > 0 then part else 0.0
  {
    if whole > 0 {
      QuotientTimes(part, whole as real);
    }
  }

  lemma {:induction false} OnlyBuysPayNoShortFees(r: Request, s: State, n: nat)
    requires Pairing(r, s) && !r.shorting && n <= |s.trades|
    ensures ShortEntryFees(s.trades[..n]) == 0.0
    decreases n
  {
    if n > 0 {
      OnlyBuysPayNoShortFees(r, s, n - 1);
      assert s.trades[..n][..n - 1] == s.trades[..n - 1];
      var k := (n - 1) / 2;
      if (n - 1) % 2 == 0 && k < |s.roundTrips| {
        assert Paired(s.trades[2 * k], s.trades[2 * k + 1], s.roundTrips[k]);
      }
    }
  }

  /** Trades come in pairs: as many buys as sells as round trips, and nothing left open. */
  lemma ReportPairs(r: Request, cs: seq<Candle>, s: State)
    requires Ready(r, cs) && Finished(r, s)
    ensures var report := Summarize(r, cs, s);
      && report.totalTrades == 2 * |report.roundTrips| == report.buyCount + report.sellCount
      && report.buyCount == report.sellCount == report.completed == |report.roundTrips|
      && !report.openPosition
      && (report.status == Candidate ==> report.totalTrades >= 200)
  {
    hide Paired, BenchmarkReturn, ProfitFactor, TradesPerDay, TotalHolding, Extremes, Books;
  }

  /** Past the preflight a run ends in a finished state whenever its signals are defined, and that state
      obeys the books, the pairing, the timing and the drawdown rules. */
  lemma RunFinishes(r: Request, source: SignalSource, cs: seq<Candle>)
    requires Ready(r, cs)
    ensures 1 <= RequiredCandles(r)
    ensures FinalState(r, source, cs).Ok? <==> forall i :: RequiredCandles(r) - 1 <= i < |cs| ==> SideAt(source, cs, i).Ok?
    ensures FinalState(r, source, cs).Ok? ==>
      var s := FinalState(r, source, cs).value;
      Finished(r, s) && Timed(r, cs, s, |cs|) && Tracked(r, s) && (LongOnly(r) ==> Solvent(r, s))
  {
    hide Sound, Timed, Tracked, Solvent, SideAt, RunBars, Liquidate, ValidSeries;
    RequiredSuffices(r);
    RunSound(r, source, cs, |cs|);
    if RunBars(r, source, cs, |cs|).Ok? {
      var s := RunBars(r, source, cs, |cs|).value;
      RunTimed(r, source, cs, |cs|);
      RunTracked(r, source, cs, |cs|);
      LiquidateSound(r, cs, s);
      LiquidateTimed(r, cs, s);
      LiquidateTracked(r, cs, s);
      if LongOnly(r) {
        RunSolvent(r, source, cs, |cs|);
        LiquidateSolvent(r, cs, s);
      }
    }
  }

  // Activation ----------------------------------------------------------------------------------------------

  /** The evidence a comparison adds to a run; None is an empty status. */
  datatype Evidence = Evidence(train: Option<Status>, test: Option<Status>, folds: int, walkForward: Option<Status>)

  datatype Gate =
    | NotACandidate | BelowBenchmark | TooMuchDrawdown | TooFewTrades | LowProfitFactor | LowExpectancy | WrongFillMode
    | NoTrainTest | TrainTestFailed | NoWalkForward | WalkForwardFailed

  /** validateActivationCandidate: the first gate that blocks, if any. */
  function BlockedBy(report: Report, e: Evidence): Option<Gate> {
    if report.status != Candidate then Some(NotACandidate)
    else if report.excessReturn <= 0.0 then Some(BelowBenchmark)
    else if report.maxDrawdown > 20.0 then Some(TooMuchDrawdown)
    else if report.totalTrades < 100 then Some(TooFewTrades)
    else if report.profitFactor < 1.3 then Some(LowProfitFactor)
    else if report.expectancy <= 0.0 then Some(LowExpectancy)
    else if report.fillMode != NextOpen then Some(WrongFillMode)
    else if e.train.None? || e.test.None? then Some(NoTrainTest)
    else if e.train != Some(Candidate) || e.test != Some(Candidate) then Some(TrainTestFailed)
    else if e.folds <= 0 || e.walkForward.None? then Some(NoWalkForward)
    else if e.walkForward != Some(Candidate) then Some(WalkForwardFailed)
    else None
  }

  /** What activation asks of a report and its evidence, all of it. */
  lemma ActivationIff(report: Report, e: Evidence)
    ensures BlockedBy(report, e) == None <==>
      && report.status == Candidate && report.excessReturn > 0.0 && report.expectancy > 0.0
      && report.maxDrawdown <= 20.0 && report.profitFactor >= 1.3 && report.totalTrades >= 100 && report.fillMode == NextOpen
      && e.train == e.test == e.walkForward == Some(Candidate) && e.folds > 0
  {
  }

  /** For a finished candidate run the trade-count, benchmark, expectancy and fill-mode gates can never block:
      activation comes down to the stricter drawdown and profit-factor limits and the comparison's evidence. */
  lemma CandidateGates(r: Request, cs: seq<Candle>, s: State, e: Evidence)
    requires Ready(r, cs) && Finished(r, s) && Summarize(r, cs, s).status == Candidate
    ensures var report := Summarize(r, cs, s);
      && BlockedBy(report, e) !in {Some(NotACandidate), Some(BelowBenchmark), Some(TooFewTrades), Some(LowExpectancy), Some(WrongFillMode)}
      && (BlockedBy(report, e) == None <==>
            && report.maxDrawdown <= 20.0 && report.profitFactor >= 1.3
            && e.train == e.test == e.walkForward == Some(Candidate) && e.folds > 0)
  {
    hide Paired, BenchmarkReturn, ProfitFactor, TradesPerDay, TotalHolding, Extremes, Books, Sound;
    ReportPairs(r, cs, s);
  }
}
