/** What the figures of a finished run say about its round trips, and what its status says about the figures
    (internal/backtest/engine.go:109-180, 363-420, 708-753, 823-898). */
module BacktestFigures {
  import opened Common
  import opened RealArithmetic
  import opened MarketData
  import opened CandleSeries
  import opened Atr
  import opened Signals
  import opened BacktestRequest
  import opened BacktestModel
  import opened BacktestAccounting
  import opened BacktestStops
  import opened BacktestReport

  // Counting round trips ----------------------------------------------------------------------------------------------

  function Gainers(trips: seq<RoundTrip>): nat {
    if trips == [] then 0 else Gainers(trips[..|trips| - 1]) + if trips[|trips| - 1].net > 0.0 then 1 else 0
  }

  function Losers(trips: seq<RoundTrip>): nat {
    if trips == [] then 0 else Losers(trips[..|trips| - 1]) + if trips[|trips| - 1].net < 0.0 then 1 else 0
  }

  function Gained(trips: seq<RoundTrip>): real {
    if trips == [] then 0.0 else Gained(trips[..|trips| - 1]) + Max(trips[|trips| - 1].net, 0.0)
  }

  function Lost(trips: seq<RoundTrip>): real {
    if trips == [] then 0.0 else Lost(trips[..|trips| - 1]) + Max(-trips[|trips| - 1].net, 0.0)
  }

  lemma TalliesAppend(trips: seq<RoundTrip>, t: RoundTrip)
    ensures Gainers(trips + [t]) == Gainers(trips) + (if t.net > 0.0 then 1 else 0)
    ensures Losers(trips + [t]) == Losers(trips) + (if t.net < 0.0 then 1 else 0)
    ensures Gained(trips + [t]) == Gained(trips) + Max(t.net, 0.0)
    ensures Lost(trips + [t]) == Lost(trips) + Max(-t.net, 0.0)
  {
    assert (trips + [t])[..|trips|] == trips;
  }

  /** There are gains exactly when some trip gained, and losses exactly when some trip lost. */
  lemma {:induction false} GainsIff(trips: seq<RoundTrip>)
    ensures Gained(trips) >= 0.0 && (Gained(trips) > 0.0 <==> Gainers(trips) > 0)
    ensures Lost(trips) >= 0.0 && (Lost(trips) > 0.0 <==> Losers(trips) > 0)
    decreases |trips|
  {
    if trips != [] {
      GainsIff(trips[..|trips| - 1]);
    }
  }

  /** Whole seconds between entry and exit, rounded down. */
  predicate HeldFor(trip: RoundTrip) {
    trip.entryTime <= trip.exitTime ==>
      trip.holdingSeconds * SECOND <= trip.exitTime - trip.entryTime < (trip.holdingSeconds + 1) * SECOND
  }

  /** The net of a trip in percent of what its entry paid, or of what it brought in. */
  predicate EarnedOn(entry: Trade, trip: RoundTrip) {
    trip.profitPercent * (Amount(entry.quantity, entry.price) + (if entry.side == Buy then entry.fee else 0.0)) == trip.net * 100.0
  }

  predicate TripMeasured(trades: seq<Trade>, trips: seq<RoundTrip>, k: nat)
    requires k < |trips|
  {
    2 * k < |trades| && HeldFor(trips[k]) && EarnedOn(trades[2 * k], trips[k])
  }

  ghost predicate TripsTallied(s: State) {
    && s.wins == Gainers(s.roundTrips) && s.losses == Losers(s.roundTrips)
    && s.winTotal == Gained(s.roundTrips) && s.lossTotal == -Lost(s.roundTrips)
    && forall k: nat :: k < |s.roundTrips| ==> TripMeasured(s.trades, s.roundTrips, k)
  }

  // Steps ---------------------------------------------------------------------------------------------------------------

  lemma SecondsMeasure(span: int)
    requires span >= 0
    ensures WholeSeconds(span) * SECOND <= span < (WholeSeconds(span) + 1) * SECOND
  {
  }

  /** What a close adds to the tallies. */
  lemma CloseAdds(r: Request, s: State, bar: int, price: real, at: Time, reason: ExitReason)
    requires s.base != 0.0 && s.trades != [] && s.open.Some? && s.completed >= 0
    ensures var t := ClosePosition(r, s, bar, price, at, reason);
      && t.Ok? && |t.value.roundTrips| == |s.roundTrips| + 1
      && var (u, trip) := (t.value, t.value.roundTrips[|s.roundTrips|]);
         && u.roundTrips == s.roundTrips + [trip] && s.trades <= u.trades
         && u.wins == s.wins + (if trip.net > 0.0 then 1 else 0) && u.losses == s.losses + (if trip.net < 0.0 then 1 else 0)
         && u.winTotal == s.winTotal + Max(trip.net, 0.0) && u.lossTotal == s.lossTotal - Max(-trip.net, 0.0)
         && trip.entryTime == s.open.value.executedAt && trip.exitTime == at
         && trip.holdingSeconds == WholeSeconds(at - s.open.value.executedAt)
         && trip.profitPercent == Ratio(trip.net, s.entryQuote) * 100.0
  {
    hide Settlement, Ratio, WholeSeconds, MoveOn, SlippageOn;
  }

  lemma PercentEarned(net: real, stake: real)
    requires stake != 0.0
    ensures Ratio(net, stake) * 100.0 * stake == net * 100.0
  {
    QuotientTimes(net, stake);
  }

  lemma CloseTallied(r: Request, s: State, bar: int, price: real, at: Time, reason: ExitReason)
    requires TripsTallied(s) && Pairing(r, s) && s.base != 0.0
    ensures var t := ClosePosition(r, s, bar, price, at, reason); t.Ok? && TripsTallied(t.value)
  {
    hide ClosePosition, WholeSeconds, Ratio, Gainers, Losers, Gained, Lost, Paired;
    CloseAdds(r, s, bar, price, at, reason);
    var (t, o, n) := (ClosePosition(r, s, bar, price, at, reason).value, s.open.value, |s.roundTrips|);
    var trip := t.roundTrips[n];
    TalliesAppend(s.roundTrips, trip);
    PercentEarned(trip.net, s.entryQuote);
    if trip.entryTime <= trip.exitTime {
      SecondsMeasure(at - o.executedAt);
    }
    assert t.trades[2 * n] == s.trades[2 * n] == o;
    assert TripMeasured(t.trades, t.roundTrips, n);
    forall k: nat | k < n
      ensures TripMeasured(t.trades, t.roundTrips, k)
    {
      assert TripMeasured(s.trades, s.roundTrips, k) && t.trades[2 * k] == s.trades[2 * k];
    }
  }

  /** Nothing but a close touches the tallies. */
  lemma TalliedBeside(s: State, t: State)
    requires TripsTallied(s) && t.roundTrips == s.roundTrips && s.trades <= t.trades
    requires t.wins == s.wins && t.losses == s.losses && t.winTotal == s.winTotal && t.lossTotal == s.lossTotal
    ensures TripsTallied(t)
  {
    hide HeldFor, EarnedOn;
    forall k: nat | k < |t.roundTrips|
      ensures TripMeasured(t.trades, t.roundTrips, k)
    {
      assert TripMeasured(s.trades, s.roundTrips, k) && t.trades[2 * k] == s.trades[2 * k];
    }
  }

  lemma EntryBeside(r: Request, cs: seq<Candle>, side: Side, s: State, lastTrade: int, exited: bool, i: int, price: real)
    requires 0 <= i < |cs| && TripsTallied(s)
    ensures TripsTallied(EntryStep(r, cs, side, s, lastTrade, exited, i, price))
  {
    hide TripsTallied, PassesEntryFilters, FillOf, EntryPrice, EntryQuoteAmount, EntryQuantity, AtrExitPrices, Fee, SlippageOn, Equity;
    TalliedBeside(s, EntryStep(r, cs, side, s, lastTrade, exited, i, price));
  }

  lemma MarkBeside(s: State, at: Time, equity: real)
    requires TripsTallied(s)
    ensures TripsTallied(Mark(s, at, equity))
  {
    hide TripsTallied, Drawdown;
    TalliedBeside(s, Mark(s, at, equity));
  }

  lemma AtrStepTallied(r: Request, cs: seq<Candle>, s: State, i: int)
    requires Ready(r, cs) && 0 <= i < |cs| && Sound(r, s) && TripsTallied(s)
    ensures AtrStep(r, cs, s, i).Ok? && TripsTallied(AtrStep(r, cs, s, i).value.0)
  {
    hide TripsTallied, ClosePosition, Ready, Sound, CanExit, HighOf, LowOf;
    AtrStepSound(r, cs, s, i);
    SoundPairs(r, s);
    var exit := AtrExit(r, cs[i], s.stopLoss, s.takeProfit, s.base < 0.0);
    if s.base != 0.0 && exit.Ok? && exit.value.Some? {
      CloseTallied(r, s, i, exit.value.value.price, cs[i].closeTime, exit.value.value.reason);
    }
  }

  lemma SignalExitTallied(r: Request, cs: seq<Candle>, side: Side, s: State, i: int)
    requires Ready(r, cs) && 0 <= i < |cs| && Sound(r, s) && TripsTallied(s)
    ensures SignalExit(r, cs, side, s, i).Ok? && TripsTallied(SignalExit(r, cs, side, s, i).value)
  {
    hide TripsTallied, ClosePosition, Ready, Sound, FillOf, CanExit;
    SignalExitSound(r, cs, side, s, i);
    SoundPairs(r, s);
    var fill := FillOf(r, cs, i);
    if s.base != 0.0 && fill.Some? {
      CloseTallied(r, s, fill.value.bar, fill.value.price, fill.value.at, if s.base > 0.0 then SellSignal else BuySignal);
    }
  }

  lemma BarTallied(r: Request, cs: seq<Candle>, side: Side, s: State, i: int)
    requires Ready(r, cs) && 0 <= RequiredCandles(r) - 1 <= i < |cs| && Sound(r, s) && TripsTallied(s)
    ensures Bar(r, cs, side, s, i).Ok? && TripsTallied(Bar(r, cs, side, s, i).value)
  {
    hide TripsTallied, Sound, AtrStep, SignalExit, EntryStep, Mark, Ready, Equity, ParsePositive, RequiredCandles;
    CandlePrices(r, cs, i);
    AtrStepSound(r, cs, s, i);
    AtrStepTallied(r, cs, s, i);
    var (t, exited) := AtrStep(r, cs, s, i).value;
    SignalExitSound(r, cs, side, t, i);
    SignalExitTallied(r, cs, side, t, i);
    var u := SignalExit(r, cs, side, t, i).value;
    var price := ParsePositive(cs[i].close).value;
    EntryBeside(r, cs, side, u, s.lastTrade, exited, i, price);
    var v := EntryStep(r, cs, side, u, s.lastTrade, exited, i, price);
    MarkBeside(v, cs[i].closeTime, Equity(v.quote, v.base, price));
  }

  lemma {:induction false} RunTallied(r: Request, source: SignalSource, cs: seq<Candle>, upto: int)
    requires Ready(r, cs) && 1 <= RequiredCandles(r) && RequiredCandles(r) - 1 <= upto <= |cs|
    requires RunBars(r, source, cs, upto).Ok?
    ensures TripsTallied(RunBars(r, source, cs, upto).value)
    decreases upto
  {
    hide TripsTallied, Sound, Bar, Ready, SideAt, Initial, RequiredCandles;
    if upto == RequiredCandles(r) - 1 {
      InitiallyTallied(r);
    } else {
      RunTallied(r, source, cs, upto - 1);
      RunSound(r, source, cs, upto - 1);
      BarTallied(r, cs, SideAt(source, cs, upto - 1).value, RunBars(r, source, cs, upto - 1).value, upto - 1);
    }
  }

  lemma InitiallyTallied(r: Request)
    ensures TripsTallied(Initial(r))
  {
  }

  lemma FinalTallied(r: Request, source: SignalSource, cs: seq<Candle>)
    requires Ready(r, cs) && 1 <= RequiredCandles(r) && FinalState(r, source, cs).Ok?
    ensures TripsTallied(FinalState(r, source, cs).value)
  {
    hide TripsTallied, Sound, RunBars, Ready, ClosePosition, Mark, ParsePositive, RequiredCandles;
    RequiredFits(r, cs);
    RunTallied(r, source, cs, |cs|);
    RunSound(r, source, cs, |cs|);
    var s := RunBars(r, source, cs, |cs|).value;
    if s.base != 0.0 {
      CandlePrices(r, cs, |cs| - 1);
      SoundPairs(r, s);
      var last := cs[|cs| - 1];
      CloseTallied(r, s, |cs| - 1, ParsePositive(last.close).value, last.closeTime, EndOfBacktest);
      var t := ClosePosition(r, s, |cs| - 1, ParsePositive(last.close).value, last.closeTime, EndOfBacktest).value;
      MarkBeside(t, last.closeTime, t.quote);
    }
  }

  // The report ------------------------------------------------------------------------------------------------------------

  /** The average of so many values with this total. */
  predicate AverageOf(average: real, total: real, count: int) {
    average * count as real == total
  }

  predicate PercentOfWhole(percent: real, part: real, whole: real) {
    percent * whole == part * 100.0
  }

  lemma ShareMeans(part: real, whole: int)
    requires whole >= 0 && (whole == 0 ==> part == 0.0)
    ensures AverageOf(Share(part, whole), part, whole)
    ensures PercentOfWhole(Share(part, whole) * 100.0, part, whole as real)
  {
    ShareTimes(part, whole);
  }

  /** Gains are so many times losses. */
  predicate FactorOf(factor: real, lost: real, gained: real) {
    factor * lost == gained
  }

  lemma FactorMeans(gained: real, lost: real)
    requires lost >= 0.0
    ensures lost > 0.0 ==> FactorOf(ProfitFactor(gained, -lost), lost, gained)
    ensures lost == 0.0 ==> ProfitFactor(gained, -lost) == if gained > 0.0 then 999999.0 else 0.0
  {
    if lost > 0.0 {
      QuotientTimes(gained, lost);
    }
  }

  /** At this many trades a day, so many are made in a span of time. */
  predicate Daily(perDay: real, span: int, trades: int) {
    perDay * span as real == trades as real * DAY as real
  }

  lemma PerDayMeans(from: Time, to: Time, trades: int)
    requires trades >= 0 && from != 0 && to != 0 && from < to
    ensures Daily(TradesPerDay(from, to, trades), to - from, trades)
  {
    var span := (to - from) as real;
    QuotientTimes(span, DAY as real);
    if trades > 0 {
      QuotientTimes(trades as real, span / DAY as real);
    }
  }

  /** What a report takes over from the tallies of its run. */
  lemma ReportTallies(r: Request, cs: seq<Candle>, s: State)
    requires Ready(r, cs)
    ensures var report := Summarize(r, cs, s);
      && report.winRate == Share(s.wins as real, s.completed) * 100.0
      && report.averageWin == Share(s.winTotal, s.wins) && report.averageLoss == Share(s.lossTotal, s.losses)
      && report.averageTrade == Share(s.winTotal + s.lossTotal, s.completed)
      && report.profitFactor == ProfitFactor(s.winTotal, s.lossTotal)
      && report.averageHoldingSeconds ==
         (if s.completed > 0 then Share(TotalHolding(s.roundTrips) as real, |s.roundTrips|) else 0.0)
      && report.tradesPerDay == TradesPerDay(r.from, r.to, |s.trades|)
      && report.churnRatio ==
         (if |s.trades| <= 0 then 0.0 else Share(|s.trades| as real, |cs| - RequiredCandles(r) + 1) * 100.0)
      && report.excessReturn == report.returnPercent - report.benchmarkReturn
      && report.maxDrawdown == s.maxDrawdown && report.best == s.best && report.worst == s.worst && report.curve == s.curve
      && report.roundTrips == s.roundTrips && report.totalTrades == |s.trades| && report.fillMode == r.fillMode
      && report.completed == s.completed
  {
    hide BenchmarkReturn, RunStatus, ProfitFactor, TradesPerDay, TotalHolding, Share, Equity, Ready, RequiredCandles, ParsePositive;
  }

  lemma ReturnMeans(r: Request, cs: seq<Candle>, s: State)
    requires Ready(r, cs)
    ensures var report := Summarize(r, cs, s);
      PercentOfWhole(report.returnPercent, report.profitLoss, r.startingBalance)
  {
    hide BenchmarkReturn, RunStatus, ProfitFactor, TradesPerDay, TotalHolding, Share, Equity, RequiredCandles, ParsePositive;
    QuotientTimes(Summarize(r, cs, s).profitLoss, r.startingBalance);
  }

  /** Every average and rate of a finished run, in terms of its round trips: how many gained and lost, how much, for how
      long, and how often it traded. */
  lemma FiguresMean(r: Request, source: SignalSource, cs: seq<Candle>)
    requires Ready(r, cs) && 1 <= RequiredCandles(r) && FinalState(r, source, cs).Ok?
    ensures var report := Summarize(r, cs, FinalState(r, source, cs).value);
      var (trips, n) := (report.roundTrips, |report.roundTrips|);
      && PercentOfWhole(report.winRate, Gainers(trips) as real, n as real)
      && AverageOf(report.averageWin, Gained(trips), Gainers(trips))
      && AverageOf(report.averageLoss, -Lost(trips), Losers(trips))
      && AverageOf(report.averageTrade, Gained(trips) - Lost(trips), n)
      && (Losers(trips) > 0 ==> FactorOf(report.profitFactor, Lost(trips), Gained(trips)))
      && (Losers(trips) == 0 ==> report.profitFactor == if Gainers(trips) > 0 then 999999.0 else 0.0)
      && AverageOf(report.averageHoldingSeconds, TotalHolding(trips) as real, n)
      && Daily(report.tradesPerDay, r.to - r.from, report.totalTrades)
      && PercentOfWhole(report.churnRatio, report.totalTrades as real, (|cs| - RequiredCandles(r) + 1) as real)
      && PercentOfWhole(report.returnPercent, report.profitLoss, r.startingBalance)
      && report.excessReturn == report.returnPercent - report.benchmarkReturn
  {
    hide *;
    RequiredFits(r, cs);
    FinalTallied(r, source, cs);
    var s := FinalState(r, source, cs).value;
    EndsFinished(r, source, cs);
    ReportTallies(r, cs, s);
    ReturnMeans(r, cs, s);
    TalliesKnown(r, s);
    GainsIff(s.roundTrips);
    NoTrips(s.roundTrips);
    ShareMeans(s.wins as real, s.completed);
    ShareMeans(s.winTotal, s.wins);
    ShareMeans(s.lossTotal, s.losses);
    ShareMeans(s.winTotal + s.lossTotal, s.completed);
    HoldingMeans(s);
    FactorMeans(s.winTotal, -s.lossTotal);
    WindowSpans(r, cs);
    PerDayMeans(r.from, r.to, |s.trades|);
    ChurnMeans(|s.trades|, |cs| - RequiredCandles(r) + 1);
  }

  lemma HoldingMeans(s: State)
    requires s.completed == |s.roundTrips|
    ensures AverageOf(if s.completed > 0 then Share(TotalHolding(s.roundTrips) as real, |s.roundTrips|) else 0.0,
                      TotalHolding(s.roundTrips) as real, |s.roundTrips|)
  {
    if s.completed > 0 {
      ShareMeans(TotalHolding(s.roundTrips) as real, |s.roundTrips|);
    }
  }

  lemma ChurnMeans(trades: nat, evaluated: int)
    requires evaluated > 0
    ensures PercentOfWhole(if trades <= 0 then 0.0 else Share(trades as real, evaluated) * 100.0, trades as real, evaluated as real)
  {
    ShareMeans(trades as real, evaluated);
  }

  lemma TalliesKnown(r: Request, s: State)
    requires Sound(r, s) && TripsTallied(s)
    ensures s.wins == Gainers(s.roundTrips) && s.losses == Losers(s.roundTrips) && s.completed == |s.roundTrips|
    ensures s.winTotal == Gained(s.roundTrips) && s.lossTotal == -Lost(s.roundTrips)
  {
  }

  lemma NoTrips(trips: seq<RoundTrip>)
    ensures |trips| == 0 ==> Gainers(trips) == 0 && Gained(trips) == Lost(trips) == 0.0 && TotalHolding(trips) == 0
  {
  }

  lemma WindowSpans(r: Request, cs: seq<Candle>)
    requires Ready(r, cs)
    ensures r.from != 0 && r.to != 0 && r.from < r.to && |cs| - RequiredCandles(r) + 1 > 0
  {
  }

  lemma EndsFinished(r: Request, source: SignalSource, cs: seq<Candle>)
    requires Ready(r, cs) && 1 <= RequiredCandles(r) && FinalState(r, source, cs).Ok?
    ensures Sound(r, FinalState(r, source, cs).value)
  {
    hide *;
    RequiredFits(r, cs);
    RunFinishes(r, source, cs);
    FinishedIsSound(r, FinalState(r, source, cs).value);
  }

  lemma FinishedIsSound(r: Request, s: State)
    requires Finished(r, s)
    ensures Sound(r, s)
  {
  }

  // The benchmark -----------------------------------------------------------------------------------------------------------

  /** What buying on the first close and selling on the last leaves of one unit of the starting balance. */
  lemma BenchmarkMeans(r: Request, first: real, last: real)
    requires first > 0.0 && r.slippageRate >= 0.0 && r.startingBalance > 0.0
    ensures var growth := 1.0 + BenchmarkReturn(r, first, last) / 100.0;
      growth * (first * (1.0 + r.slippageRate)) == last * (1.0 - r.slippageRate) * ((1.0 - r.feeRate) * (1.0 - r.feeRate))
  {
    FillAround(first, r.slippageRate);
    var (start, keep) := (r.startingBalance, 1.0 - r.feeRate);
    var (buy, sell) := (BuyFill(first, r.slippageRate), SellFill(last, r.slippageRate));
    var quantity := (start - start * r.feeRate) / buy;
    QuotientTimes(start - start * r.feeRate, buy);
    var ending := quantity * sell - quantity * sell * r.feeRate;
    QuotientTimes(ending - start, start);
    var growth := 1.0 + BenchmarkReturn(r, first, last) / 100.0;
    GrowthFollows(start, quantity, keep, buy, sell, growth);
  }

  lemma GrowthFollows(start: real, quantity: real, keep: real, buy: real, sell: real, growth: real)
    requires start > 0.0 && quantity * buy == start * keep && growth * start == quantity * sell * keep
    ensures growth * buy == sell * (keep * keep)
  {
    calc {
      growth * buy * start;
    ==
      growth * start * buy;
    ==
      quantity * sell * keep * buy;
    ==
      quantity * buy * (sell * keep);
    ==
      start * keep * (sell * keep);
    ==
      sell * (keep * keep) * start;
    }
    CancelFactor(growth * buy, sell * (keep * keep), start);
    CancelFactor(sell * (keep * keep), growth * buy, start);
  }

  // Status ------------------------------------------------------------------------------------------------------------------

  /** How many trades a day an interval allows. */
  function Allowed(interval: Interval): real {
    if interval == Every(1, 'm') then 20.0
    else if interval == Every(5, 'm') then 12.0
    else if interval == Every(15, 'm') then 4.0
    else if interval == Every(1, 'h') then 2.0
    else 6.0
  }

  /** A report is a candidate's if and only if it keeps every limit: at least a hundred round trips, more than the benchmark
      and at least a quarter of a strong one, a profit factor above 1.2, a drawdown of at most 30 percent, an average trade
      above zero and its costs, no more trades a day than the interval allows, and fills on the next open. */
  lemma CandidateIff(r: Request, cs: seq<Candle>, s: State)
    requires Ready(r, cs)
    ensures var report := Summarize(r, cs, s);
      report.status == Candidate <==>
        && report.completed >= 100 && report.excessReturn > 0.0
        && (report.benchmarkReturn >= 20.0 ==> report.returnPercent * 4.0 >= report.benchmarkReturn)
        && report.profitFactor > 1.2 && report.maxDrawdown <= 30.0
        && report.averageTrade > 0.0 && report.averageTrade >= 200.0 * (r.feeRate + r.slippageRate)
        && report.tradesPerDay <= Allowed(r.interval) && report.fillMode == NextOpen
  {
    hide BenchmarkReturn, ProfitFactor, TradesPerDay, TotalHolding, Share, Equity, Ready, RequiredCandles, ParsePositive;
  }

  /** And every other status names a limit the report breaks. */
  lemma StatusMeans(r: Request, cs: seq<Candle>, s: State)
    requires Ready(r, cs)
    ensures var report := Summarize(r, cs, s);
      match report.status
      case Candidate => true
      case LowBullMarketCapture => report.benchmarkReturn >= 20.0 && report.returnPercent * 4.0 < report.benchmarkReturn
      case InsufficientSample => report.completed < 100
      case Overtrading => report.tradesPerDay > Allowed(r.interval)
      case CostDrag => 0.0 < report.averageTrade < 200.0 * (r.feeRate + r.slippageRate)
      case UnderperformsBenchmark => report.excessReturn <= 0.0
      case WeakProfitFactor => report.profitFactor <= 1.2
      case HighDrawdown => report.maxDrawdown > 30.0
      case NegativeAverageTrade => report.averageTrade <= 0.0
      case UnsafeExecutionTiming => report.fillMode != NextOpen
  {
    hide BenchmarkReturn, ProfitFactor, TradesPerDay, TotalHolding, Share, Equity, Ready, RequiredCandles, ParsePositive;
  }
}
