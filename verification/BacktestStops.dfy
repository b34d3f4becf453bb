/** ATR stops and targets over whole runs (internal/backtest/engine.go:198-216, 500-560): where they lie, when they fire,
    and what the round trips they end come to. */
module BacktestStops {
  import opened Common
  import opened RealArithmetic
  import opened MarketData
  import opened Atr
  import opened Signals
  import opened BacktestRequest
  import opened BacktestModel
  import opened BacktestAccounting

  // The mean true range --------------------------------------------------------------------------------------------

  /** The true ranges of `count` bars from one on, added up. */
  function RangeTotal(cs: seq<Candle>, from: int, count: nat): real {
    if count == 0 then 0.0 else RangeTotal(cs, from, count - 1) + TrueRange(cs, from + count - 1)
  }

  /** The mean of the true ranges of the `period` bars that end with bar i. */
  function MeanRange(cs: seq<Candle>, i: int, period: int): real
    requires period > 0
  {
    RangeTotal(cs, i + 1 - period, period) / period as real
  }

  lemma RangeNonNegative(cs: seq<Candle>, i: int)
    ensures TrueRange(cs, i) >= 0.0
  {
  }

  lemma {:induction false} TotalNonNegative(cs: seq<Candle>, from: int, count: nat)
    ensures RangeTotal(cs, from, count) >= 0.0
    decreases count
  {
    if count > 0 {
      TotalNonNegative(cs, from, count - 1);
      RangeNonNegative(cs, from + count - 1);
    }
  }

  lemma MeanNonNegative(cs: seq<Candle>, i: int, period: int)
    requires period > 0
    ensures MeanRange(cs, i, period) >= 0.0
  {
    TotalNonNegative(cs, i + 1 - period, period);
    QuotientTimes(RangeTotal(cs, i + 1 - period, period), period as real);
    CancelFactor(0.0, MeanRange(cs, i, period), period as real);
  }

  lemma RangeOfPrefix(cs: seq<Candle>, n: nat, i: int)
    requires i < n <= |cs|
    ensures TrueRange(cs[..n], i) == TrueRange(cs, i)
  {
  }

  lemma {:induction false} TotalOfRanges(cs: seq<Candle>, n: nat, period: nat, k: nat)
    requires k <= period <= n <= |cs|
    ensures Sum(TrueRanges(cs[..n], period)[..k]) == RangeTotal(cs, n - period, k)
    decreases k
  {
    hide TrueRange;
    if k > 0 {
      TotalOfRanges(cs, n, period, k - 1);
      var ranges := TrueRanges(cs[..n], period);
      assert ranges[..k] == ranges[..k - 1] + [ranges[k - 1]];
      SumAppend(ranges[..k - 1], ranges[k - 1]);
      RangeOfPrefix(cs, n, n - period + k - 1);
    }
  }

  /** What the code computes on the candles up to bar i. */
  lemma AverageIsMean(cs: seq<Candle>, i: int, period: int)
    requires 0 <= i < |cs| && AverageTrueRange(cs[..i + 1], period).Ok?
    ensures 0 < period <= i && AverageTrueRange(cs[..i + 1], period) == Ok(MeanRange(cs, i, period))
  {
    hide TrueRange, Readable;
    TotalOfRanges(cs, i + 1, period, period);
    var ranges := TrueRanges(cs[..i + 1], period);
    assert ranges[..period] == ranges;
  }

  // Where the stops lie -----------------------------------------------------------------------------------------------

  /** The bar whose signal opened the position. */
  function SignalBar(r: Request, s: State): int {
    if r.fillMode == NextOpen then s.entryIndex - 1 else s.entryIndex
  }

  /** How far a price lies on the winning side of an entry. */
  function InFavour(o: Trade, price: real): real {
    if o.side == Buy then price - o.price else o.price - price
  }

  /** A stop is as many mean ranges on the losing side of the entry as its multiplier says, a target as many on the
      winning side, measured on the bar of the signal. */
  predicate StopsPlaced(r: Request, cs: seq<Candle>, s: State, o: Trade) {
    if !r.atrExit then s.stopLoss == 0.0 && s.takeProfit == 0.0
    else
      var i := SignalBar(r, s);
      && 0 < r.atrPeriod <= i < |cs|
      && (if r.atrStop > 0.0 then InFavour(o, s.stopLoss) == -(MeanRange(cs, i, r.atrPeriod) * r.atrStop) else s.stopLoss == 0.0)
      && (if r.atrTakeProfit > 0.0 then InFavour(o, s.takeProfit) == MeanRange(cs, i, r.atrPeriod) * r.atrTakeProfit
          else s.takeProfit == 0.0)
  }

  /** A stop never lies on the winning side of the entry, and a target never on the losing side. */
  lemma StopBehind(r: Request, cs: seq<Candle>, s: State, o: Trade)
    requires StopsPlaced(r, cs, s, o)
    ensures s.stopLoss != 0.0 ==> InFavour(o, s.stopLoss) <= 0.0
    ensures s.takeProfit != 0.0 ==> InFavour(o, s.takeProfit) >= 0.0
  {
    hide MeanRange, InFavour;
    if r.atrExit {
      var range := MeanRange(cs, SignalBar(r, s), r.atrPeriod);
      MeanNonNegative(cs, SignalBar(r, s), r.atrPeriod);
      if r.atrStop > 0.0 {
        ProductNonNegative(range, r.atrStop);
      }
      if r.atrTakeProfit > 0.0 {
        ProductNonNegative(range, r.atrTakeProfit);
      }
    }
  }

  /** A trip that a stop ended made no gross profit, and without slippage one that a target ended made no gross loss. */
  predicate Signed(r: Request, trip: RoundTrip) {
    && (trip.exitReason == StopLoss ==> trip.gross <= 0.0)
    && (trip.exitReason == TakeProfit && r.slippageRate == 0.0 ==> trip.gross >= 0.0)
  }

  ghost predicate StopsKept(r: Request, cs: seq<Candle>, s: State) {
    && (s.open.Some? ==> StopsPlaced(r, cs, s, s.open.value))
    && forall k :: 0 <= k < |s.roundTrips| ==> Signed(r, s.roundTrips[k])
  }

  // Steps ---------------------------------------------------------------------------------------------------------------

  /** The round trip that a close records. */
  lemma CloseTrip(r: Request, s: State, bar: int, price: real, at: Time, reason: ExitReason)
    requires s.base != 0.0 && s.trades != [] && s.open.Some?
    ensures var t := ClosePosition(r, s, bar, price, at, reason);
      && t.Ok? && t.value.open.None? && |t.value.roundTrips| == |s.roundTrips| + 1
      && var (o, trip) := (s.open.value, t.value.roundTrips[|s.roundTrips|]);
         && t.value.roundTrips == s.roundTrips + [trip] && trip.exitReason == reason && trip.exitTime == at
         && trip.entryPrice == o.price
         && trip.exitPrice == (if s.base > 0.0 then SellFill(price, r.slippageRate) else BuyFill(price, r.slippageRate))
         && trip.gross == MoveOn(o.side, o.price, trip.exitPrice, o.quantity)
  {
    hide Ratio, WholeSeconds, MoveOn, SlippageOn, SellFill, BuyFill, Amount, Fee;
  }

  lemma MoveSigned(o: Trade, price: real)
    requires (o.side == Buy || o.side == Sell) && o.quantity > 0.0
    ensures InFavour(o, price) <= 0.0 ==> MoveOn(o.side, o.price, price, o.quantity) <= 0.0
    ensures InFavour(o, price) >= 0.0 ==> MoveOn(o.side, o.price, price, o.quantity) >= 0.0
  {
    if InFavour(o, price) >= 0.0 {
      ProductNonNegative(InFavour(o, price), o.quantity);
    } else {
      ProductNonNegative(-InFavour(o, price), o.quantity);
    }
  }

  /** Slippage moves an exit to the losing side. */
  lemma SlippageBehind(r: Request, o: Trade, price: real)
    requires price > 0.0 && r.slippageRate >= 0.0 && (o.side == Buy || o.side == Sell)
    ensures var fill := if o.side == Buy then SellFill(price, r.slippageRate) else BuyFill(price, r.slippageRate);
      InFavour(o, fill) <= InFavour(o, price) && (r.slippageRate == 0.0 ==> fill == price)
  {
    FillAround(price, r.slippageRate);
  }

  lemma CloseStops(r: Request, cs: seq<Candle>, s: State, bar: int, price: real, at: Time, reason: ExitReason)
    requires StopsKept(r, cs, s) && Pairing(r, s) && s.base != 0.0 && price > 0.0 && r.slippageRate >= 0.0
    requires reason == StopLoss ==> price == s.stopLoss
    requires reason == TakeProfit ==> price == s.takeProfit
    ensures var t := ClosePosition(r, s, bar, price, at, reason); t.Ok? && StopsKept(r, cs, t.value)
  {
    hide ClosePosition, StopsPlaced, MoveOn, SellFill, BuyFill, InFavour, Paired;
    var o := s.open.value;
    CloseTrip(r, s, bar, price, at, reason);
    StopBehind(r, cs, s, o);
    SlippageBehind(r, o, price);
    var t := ClosePosition(r, s, bar, price, at, reason).value;
    var trip := t.roundTrips[|s.roundTrips|];
    MoveSigned(o, trip.exitPrice);
  }

  lemma EnterStops(r: Request, cs: seq<Candle>, s: State, i: int, price: real, short: bool)
    requires Ready(r, cs) && 0 <= RequiredCandles(r) - 1 <= i < |cs| && StopsKept(r, cs, s) && s.open.None?
    ensures StopsKept(r, cs, Enter(r, cs, s, i, price, short))
  {
    hide EntryPrice, EntryQuoteAmount, EntryQuantity, AtrExitPrices, Ready, OpenPosition, StopsPlaced, FillOf, Signed;
    if FillOf(r, cs, i).Some? {
      var f := FillOf(r, cs, i).value;
      var amount := EntryQuoteAmount(r, s.quote, s.base, price);
      var entry := EntryPrice(r, f.price, short);
      var quantity := EntryQuantity(r, amount, entry);
      if amount > 0.0 && quantity > 0.0 {
        OpenStops(r, cs, s, i, f, amount, quantity, price, short);
      }
    }
  }

  lemma OpenStops(r: Request, cs: seq<Candle>, s: State, i: int, f: Fill, amount: real, quantity: real, price: real, short: bool)
    requires Ready(r, cs) && 0 <= RequiredCandles(r) - 1 <= i < |cs| && FillOf(r, cs, i) == Some(f)
    ensures var t := OpenPosition(r, s, f, amount, quantity, price, short,
                                  AtrExitPrices(r, cs[..i + 1], EntryPrice(r, f.price, short), short));
      t.open.Some? && StopsPlaced(r, cs, t, t.open.value) && t.roundTrips == s.roundTrips
  {
    hide EntryPrice, Ready, Equity, Fee, SlippageOn, AtrExitPrices, FillOf, MeanRange;
    var entry := EntryPrice(r, f.price, short);
    AtrPricesNeverFail(r, cs, i, entry, short);
    StopsAround(r, cs, i, entry, short);
    FilledFrom(r, cs, i);
  }

  lemma FilledFrom(r: Request, cs: seq<Candle>, i: int)
    requires 0 <= i < |cs| && FillOf(r, cs, i).Some?
    ensures FillOf(r, cs, i).value.bar == if r.fillMode == NextOpen then i + 1 else i
  {
  }

  /** The prices fixed at entry, in terms of the mean range of the signal bar. */
  lemma StopsAround(r: Request, cs: seq<Candle>, i: int, entry: real, short: bool)
    requires 0 <= i < |cs| && AtrExitPrices(r, cs[..i + 1], entry, short).Ok?
    ensures var stops := AtrExitPrices(r, cs[..i + 1], entry, short).value;
      if !r.atrExit then stops == Stops(0.0, 0.0)
      else
        && 0 < r.atrPeriod <= i
        && var range := MeanRange(cs, i, r.atrPeriod);
           && stops.stopLoss == (if r.atrStop <= 0.0 then 0.0
                                 else if short then entry + range * r.atrStop else entry - range * r.atrStop)
           && stops.takeProfit == (if r.atrTakeProfit <= 0.0 then 0.0
                                   else if short then entry - range * r.atrTakeProfit else entry + range * r.atrTakeProfit)
  {
    hide AverageTrueRange, MeanRange;
    if r.atrExit {
      AverageIsMean(cs, i, r.atrPeriod);
    }
  }

  lemma AtrStepStops(r: Request, cs: seq<Candle>, s: State, i: int)
    requires Ready(r, cs) && 0 <= i < |cs| && Sound(r, s) && StopsKept(r, cs, s)
    ensures AtrStep(r, cs, s, i).Ok? && StopsKept(r, cs, AtrStep(r, cs, s, i).value.0)
  {
    hide StopsKept, ClosePosition, Ready, Books, Extremes, CanExit;
    AtrStepSound(r, cs, s, i);
    var exit := AtrExit(r, cs[i], s.stopLoss, s.takeProfit, s.base < 0.0);
    if s.base != 0.0 && exit.Ok? && exit.value.Some? {
      ReadyRates(r, cs);
      CloseStops(r, cs, s, i, exit.value.value.price, cs[i].closeTime, exit.value.value.reason);
    }
  }

  lemma ReadyRates(r: Request, cs: seq<Candle>)
    requires Ready(r, cs)
    ensures r.slippageRate >= 0.0 && r.feeRate >= 0.0
  {
  }

  lemma SignalExitStops(r: Request, cs: seq<Candle>, side: Side, s: State, i: int)
    requires Ready(r, cs) && 0 <= i < |cs| && Sound(r, s) && StopsKept(r, cs, s)
    ensures SignalExit(r, cs, side, s, i).Ok? && StopsKept(r, cs, SignalExit(r, cs, side, s, i).value)
  {
    hide StopsKept, ClosePosition, Ready, Books, Extremes, FillOf, CanExit;
    SignalExitSound(r, cs, side, s, i);
    FillOfPositive(r, cs, i);
    ReadyRates(r, cs);
    var fill := FillOf(r, cs, i);
    if s.base != 0.0 && fill.Some? {
      CloseStops(r, cs, s, fill.value.bar, fill.value.price, fill.value.at, if s.base > 0.0 then SellSignal else BuySignal);
    }
  }

  lemma EntryStepStops(r: Request, cs: seq<Candle>, side: Side, s: State, lastTrade: int, exited: bool, i: int, price: real)
    requires Ready(r, cs) && 0 <= RequiredCandles(r) - 1 <= i < |cs| && StopsKept(r, cs, s) && Pairing(r, s)
    ensures StopsKept(r, cs, EntryStep(r, cs, side, s, lastTrade, exited, i, price))
  {
    hide Enter, PassesEntryFilters, StopsKept, Ready, CanEnter;
    if s.base == 0.0 {
      assert s.open.None?;
      EnterStops(r, cs, s, i, price, false);
      EnterStops(r, cs, s, i, price, true);
    }
  }

  lemma MarkStops(r: Request, cs: seq<Candle>, s: State, at: Time, equity: real)
    requires StopsKept(r, cs, s)
    ensures StopsKept(r, cs, Mark(s, at, equity))
  {
    hide MeanRange, Signed, Drawdown;
  }

  lemma BarStops(r: Request, cs: seq<Candle>, side: Side, s: State, i: int)
    requires Ready(r, cs) && 0 <= RequiredCandles(r) - 1 <= i < |cs| && Sound(r, s) && StopsKept(r, cs, s)
    ensures Bar(r, cs, side, s, i).Ok? && StopsKept(r, cs, Bar(r, cs, side, s, i).value)
  {
    hide StopsKept, Sound, AtrStep, SignalExit, EntryStep, Mark, Ready, Equity, ParsePositive;
    CandlePrices(r, cs, i);
    AtrStepSound(r, cs, s, i);
    AtrStepStops(r, cs, s, i);
    var (t, exited) := AtrStep(r, cs, s, i).value;
    SignalExitSound(r, cs, side, t, i);
    SignalExitStops(r, cs, side, t, i);
    var u := SignalExit(r, cs, side, t, i).value;
    var price := ParsePositive(cs[i].close).value;
    SoundPairs(r, u);
    EntryStepStops(r, cs, side, u, s.lastTrade, exited, i, price);
    var v := EntryStep(r, cs, side, u, s.lastTrade, exited, i, price);
    MarkStops(r, cs, v, cs[i].closeTime, Equity(v.quote, v.base, price));
  }

  lemma SoundPairs(r: Request, s: State)
    requires Sound(r, s)
    ensures Pairing(r, s)
  {
  }

  // Runs ----------------------------------------------------------------------------------------------------------------

  /** At every point of every run, the stop and the target of the open position lie where its entry and the mean true
      range put them, and no stopped trip has made a profit. */
  lemma {:induction false} RunStops(r: Request, source: SignalSource, cs: seq<Candle>, upto: int)
    requires Ready(r, cs) && 1 <= RequiredCandles(r) && RequiredCandles(r) - 1 <= upto <= |cs|
    requires RunBars(r, source, cs, upto).Ok?
    ensures StopsKept(r, cs, RunBars(r, source, cs, upto).value)
    decreases upto
  {
    hide StopsKept, Sound, Bar, Ready, SideAt, Initial;
    if upto == RequiredCandles(r) - 1 {
      InitiallyStops(r, cs);
    } else {
      RunStops(r, source, cs, upto - 1);
      RunSound(r, source, cs, upto - 1);
      BarStops(r, cs, SideAt(source, cs, upto - 1).value, RunBars(r, source, cs, upto - 1).value, upto - 1);
    }
  }

  lemma InitiallyStops(r: Request, cs: seq<Candle>)
    ensures StopsKept(r, cs, Initial(r))
  {
  }

  /** The forced close is neither a stop nor a target, so the same holds of what a run reports. */
  lemma FinalStops(r: Request, source: SignalSource, cs: seq<Candle>)
    requires Ready(r, cs) && 1 <= RequiredCandles(r) && FinalState(r, source, cs).Ok?
    ensures StopsKept(r, cs, FinalState(r, source, cs).value)
  {
    hide StopsKept, Sound, RunBars, Ready, ClosePosition, Mark, ParsePositive;
    RequiredFits(r, cs);
    RunStops(r, source, cs, |cs|);
    RunSound(r, source, cs, |cs|);
    var s := RunBars(r, source, cs, |cs|).value;
    if s.base != 0.0 {
      CandlePrices(r, cs, |cs| - 1);
      ReadyRates(r, cs);
      SoundPairs(r, s);
      var last := cs[|cs| - 1];
      PositiveClose(last);
      CloseStops(r, cs, s, |cs| - 1, ParsePositive(last.close).value, last.closeTime, EndOfBacktest);
      var t := ClosePosition(r, s, |cs| - 1, ParsePositive(last.close).value, last.closeTime, EndOfBacktest).value;
      MarkStops(r, cs, t, last.closeTime, t.quote);
    }
  }

  lemma RequiredFits(r: Request, cs: seq<Candle>)
    requires Ready(r, cs)
    ensures RequiredCandles(r) <= |cs|
  {
  }

  lemma PositiveClose(c: Candle)
    requires ParsePositive(c.close).Ok?
    ensures ParsePositive(c.close).value > 0.0
  {
  }

  // When they fire ------------------------------------------------------------------------------------------------------

  /** The bar's prices reach the stop of the open position. */
  predicate ReachesStop(r: Request, c: Candle, s: State)
    requires s.open.Some? && HighOf(c).Ok? && LowOf(c).Ok?
  {
    r.atrExit && s.stopLoss > 0.0 &&
    if s.open.value.side == Buy then LowOf(c).value <= s.stopLoss else HighOf(c).value >= s.stopLoss
  }

  predicate ReachesTarget(r: Request, c: Candle, s: State)
    requires s.open.Some? && HighOf(c).Ok? && LowOf(c).Ok?
  {
    r.atrExit && s.takeProfit > 0.0 &&
    if s.open.value.side == Buy then HighOf(c).value >= s.takeProfit else LowOf(c).value <= s.takeProfit
  }

  /** A later bar that may exit. */
  predicate Exits(r: Request, s: State, i: int) {
    i != s.entryIndex && (r.minHoldingBars <= 0 || s.entryIndex < 0 || i >= s.entryIndex + r.minHoldingBars)
  }

  /** The trip a close at this price on bar i records, slippage against the position. */
  predicate EndedAt(r: Request, s: State, c: Candle, trip: RoundTrip, price: real, reason: ExitReason)
    requires s.open.Some?
  {
    && trip.exitReason == reason && trip.entryPrice == s.open.value.price && trip.exitTime == c.closeTime
    && trip.exitPrice == if s.open.value.side == Buy then price * (1.0 - r.slippageRate) else price * (1.0 + r.slippageRate)
  }

  /** On a bar that may exit, the position is closed at the stop if and only if the bar reaches it, and at the target if
      and only if the bar reaches that and not the stop; otherwise, and on every other bar, no trip ends on either. */
  lemma StopsFireIff(r: Request, cs: seq<Candle>, side: Side, s: State, i: int)
    requires Ready(r, cs) && 0 <= RequiredCandles(r) - 1 <= i < |cs| && Sound(r, s) && s.open.Some?
    ensures Bar(r, cs, side, s, i).Ok? && HighOf(cs[i]).Ok? && LowOf(cs[i]).Ok?
    ensures var (t, n) := (Bar(r, cs, side, s, i).value, |s.roundTrips|);
      if Exits(r, s, i) && ReachesStop(r, cs[i], s) then
        |t.roundTrips| == n + 1 && EndedAt(r, s, cs[i], t.roundTrips[n], s.stopLoss, StopLoss)
      else if Exits(r, s, i) && ReachesTarget(r, cs[i], s) then
        |t.roundTrips| == n + 1 && EndedAt(r, s, cs[i], t.roundTrips[n], s.takeProfit, TakeProfit)
      else
        |t.roundTrips| <= n + 1 && (|t.roundTrips| == n + 1 ==> t.roundTrips[n].exitReason in {SellSignal, BuySignal})
  {
    hide Sound, AtrStep, SignalExit, EntryStep, Mark, Ready, Equity, ParsePositive, HighOf, LowOf, ReachesStop, ReachesTarget,
      Exits, EndedAt;
    CandlePrices(r, cs, i);
    AtrStepSound(r, cs, s, i);
    AtrStepFires(r, cs, s, i);
    var (t, exited) := AtrStep(r, cs, s, i).value;
    SignalExitSound(r, cs, side, t, i);
    SignalExitTrips(r, cs, side, t, i);
    var u := SignalExit(r, cs, side, t, i).value;
    var price := ParsePositive(cs[i].close).value;
    EntryKeepsTrips(r, cs, side, u, s.lastTrade, exited, i, price);
    var v := EntryStep(r, cs, side, u, s.lastTrade, exited, i, price);
    MarkKeepsTrips(v, cs[i].closeTime, Equity(v.quote, v.base, price));
  }

  lemma AtrStepFires(r: Request, cs: seq<Candle>, s: State, i: int)
    requires Ready(r, cs) && 0 <= i < |cs| && Sound(r, s) && s.open.Some?
    requires HighOf(cs[i]).Ok? && LowOf(cs[i]).Ok?
    ensures AtrStep(r, cs, s, i).Ok?
    ensures var (t, n) := (AtrStep(r, cs, s, i).value.0, |s.roundTrips|);
      if Exits(r, s, i) && ReachesStop(r, cs[i], s) then
        |t.roundTrips| == n + 1 && t.base == 0.0 && EndedAt(r, s, cs[i], t.roundTrips[n], s.stopLoss, StopLoss)
      else if Exits(r, s, i) && ReachesTarget(r, cs[i], s) then
        |t.roundTrips| == n + 1 && t.base == 0.0 && EndedAt(r, s, cs[i], t.roundTrips[n], s.takeProfit, TakeProfit)
      else t == s
  {
    hide ClosePosition, Ready, Books, Extremes, HighOf, LowOf, Paired;
    AtrStepSound(r, cs, s, i);
    if s.stopLoss > 0.0 {
      CloseTrip(r, s, i, s.stopLoss, cs[i].closeTime, StopLoss);
    }
    if s.takeProfit > 0.0 {
      CloseTrip(r, s, i, s.takeProfit, cs[i].closeTime, TakeProfit);
    }
  }

  lemma SignalExitTrips(r: Request, cs: seq<Candle>, side: Side, s: State, i: int)
    requires Ready(r, cs) && 0 <= i < |cs| && Sound(r, s)
    ensures var (t, n) := (SignalExit(r, cs, side, s, i), |s.roundTrips|);
      && t.Ok? && (t.value == s || (s.base != 0.0 && |t.value.roundTrips| == n + 1 && t.value.roundTrips[..n] == s.roundTrips
                                    && t.value.roundTrips[n].exitReason in {SellSignal, BuySignal}))
  {
    hide ClosePosition, Ready, Books, Extremes, FillOf, Paired;
    SignalExitSound(r, cs, side, s, i);
    var fill := FillOf(r, cs, i);
    if s.base != 0.0 && fill.Some? {
      CloseTrip(r, s, fill.value.bar, fill.value.price, fill.value.at, if s.base > 0.0 then SellSignal else BuySignal);
    }
  }

  lemma EntryKeepsTrips(r: Request, cs: seq<Candle>, side: Side, s: State, lastTrade: int, exited: bool, i: int, price: real)
    requires 0 <= i < |cs|
    ensures EntryStep(r, cs, side, s, lastTrade, exited, i, price).roundTrips == s.roundTrips
  {
    hide PassesEntryFilters, FillOf, EntryPrice, EntryQuoteAmount, EntryQuantity, AtrExitPrices, Fee, SlippageOn, Equity;
  }

  lemma MarkKeepsTrips(s: State, at: Time, equity: real)
    ensures Mark(s, at, equity).roundTrips == s.roundTrips
  {
    hide Drawdown;
  }
}
