/** Every trade of a run accounted for (internal/backtest/engine.go:198-322, 500-560, 611-706): the signal it acts on, the
    candle and price it fills at, its size and its fee, and the filters an entry has passed; and exactly when the engine
    acts on a signal at all. */
module BacktestAudit {
  import opened Common
  import opened RealArithmetic
  import opened MarketData
  import opened CandleSeries
  import opened Atr
  import opened Signals
  import opened Native
  import opened Indicators
  import opened BacktestRequest
  import opened BacktestModel
  import opened BacktestAccounting
  import opened BacktestStops
  import opened BacktestReversal

  // Filters ---------------------------------------------------------------------------------------------------------

  function CloseValue(c: Candle): real {
    if c.close.Number? then c.close.value else 0.0
  }

  /** The closes of `count` bars from one on, added up. */
  function CloseTotal(cs: seq<Candle>, from: int, count: nat): real
    requires 0 <= from && from + count <= |cs|
  {
    if count == 0 then 0.0 else CloseTotal(cs, from, count - 1) + CloseValue(cs[from + count - 1])
  }

  /** The mean of the last `period` closes up to bar i. */
  function MeanClose(cs: seq<Candle>, i: int, period: int): real
    requires 0 < period <= i + 1 <= |cs|
  {
    CloseTotal(cs, i + 1 - period, period) / period as real
  }

  /** A crossover strategy with the trend filter buys only above the mean close and sells short only below it. */
  predicate Trending(r: Request, cs: seq<Candle>, i: int, side: Side)
    requires 0 <= i < |cs|
  {
    r.trendFilter && r.strategy == SmaCross ==>
      && 0 < r.trendPeriod <= i + 1
      && var mean := MeanClose(cs, i, r.trendPeriod);
         if side == Buy then CloseValue(cs[i]) > mean else CloseValue(cs[i]) < mean
  }

  /** With the regime filter, the mean true range is between the given percentages of the close. */
  predicate InRegime(r: Request, cs: seq<Candle>, i: int)
    requires 0 <= i < |cs|
  {
    r.regimeFilter ==>
      && 0 < r.regimePeriod <= i
      && var (range, close) := (MeanRange(cs, i, r.regimePeriod), CloseValue(cs[i]));
         && (r.regimeMin > 0.0 ==> AtLeastPercent(range, close, r.regimeMin))
         && (r.regimeMax > 0.0 ==> AtMostPercent(range, close, r.regimeMax))
  }

  predicate AtLeastPercent(part: real, whole: real, percent: real) {
    part * 100.0 >= percent * whole
  }

  predicate AtMostPercent(part: real, whole: real, percent: real) {
    part * 100.0 <= percent * whole
  }

  lemma PercentOf(part: real, whole: real, percent: real)
    requires whole > 0.0
    ensures part / whole * 100.0 >= percent <==> AtLeastPercent(part, whole, percent)
    ensures part / whole * 100.0 <= percent <==> AtMostPercent(part, whole, percent)
  {
    QuotientTimes(part, whole);
    var share := part / whole * 100.0;
    assert share * whole == part * 100.0;
    if share > percent {
      ProductStrict(percent, share, whole);
    }
    if share < percent {
      ProductStrict(share, percent, whole);
    }
  }

  lemma CloseListed(cs: seq<Candle>, from: int, period: nat, k: nat)
    requires 0 <= from && k < period && from + period <= |cs|
    ensures |Closes(cs[from..from + period])| == period && Closes(cs[from..from + period])[k] == CloseValue(cs[from + k])
  {
  }

  lemma {:induction false} TotalOfCloses(cs: seq<Candle>, from: int, period: nat, k: nat)
    requires 0 <= from && k <= period && from + period <= |cs| && |Closes(cs[from..from + period])| == period
    ensures Sum(Closes(cs[from..from + period])[..k]) == CloseTotal(cs, from, k)
    decreases k
  {
    hide Closes, CloseValue;
    var closes := Closes(cs[from..from + period]);
    if k == 0 {
      assert closes[..0] == [];
    } else {
      hide Sum;
      TotalOfCloses(cs, from, period, k - 1);
      CloseListed(cs, from, period, k - 1);
      assert closes[..k] == closes[..k - 1] + [closes[k - 1]];
      SumAppend(closes[..k - 1], closes[k - 1]);
    }
  }

  lemma MeanOfCloses(cs: seq<Candle>, i: int, period: int)
    requires 0 < period <= i + 1 <= |cs|
    ensures var window := cs[..i + 1];
      window[|window| - period..] == cs[i + 1 - period..i + 1] && Mean(Closes(cs[i + 1 - period..i + 1])) == MeanClose(cs, i, period)
  {
    TotalOfCloses(cs, i + 1 - period, period, period);
    var closes := Closes(cs[i + 1 - period..i + 1]);
    assert closes[..period] == closes;
  }

  lemma TrendMeans(r: Request, cs: seq<Candle>, i: int, side: Side)
    requires Ready(r, cs) && RequiredCandles(r) - 1 <= i < |cs| && 0 <= i && side in {Buy, Sell}
    ensures PassesTrendFilter(r, cs[..i + 1], CloseValue(cs[i]), side == Sell) <==> Trending(r, cs, i, side)
  {
    hide Mean, MeanClose, Closes, Ready, RequiredCandles;
    if r.trendFilter && r.strategy == SmaCross {
      TrendFits(r, cs);
      MeanOfCloses(cs, i, r.trendPeriod);
      forall k | 0 <= k < |cs|
        ensures CloseOf(cs[k]).Ok?
      {
        CandlePrices(r, cs, k);
      }
    }
  }

  lemma TrendFits(r: Request, cs: seq<Candle>)
    requires Ready(r, cs)
    ensures r.trendFilter ==> 0 < r.trendPeriod <= RequiredCandles(r)
    ensures r.regimeFilter ==> 0 < r.regimePeriod < RequiredCandles(r)
  {
    RequiredSuffices(r);
  }

  lemma RegimeMeans(r: Request, cs: seq<Candle>, i: int)
    requires Ready(r, cs) && RequiredCandles(r) - 1 <= i < |cs| && 0 <= i
    ensures PassesRegimeFilter(r, cs[..i + 1], CloseValue(cs[i])) <==> InRegime(r, cs, i)
  {
    hide MeanRange, AverageTrueRange, Ready, AtLeastPercent, AtMostPercent, RequiredCandles;
    if r.regimeFilter {
      TrendFits(r, cs);
      RangeKnown(r, cs, i);
      CandlePrices(r, cs, i);
      PositiveClose(cs[i]);
      AverageIsMean(cs, i, r.regimePeriod);
      var range := MeanRange(cs, i, r.regimePeriod);
      PercentOf(range, CloseValue(cs[i]), r.regimeMin);
      PercentOf(range, CloseValue(cs[i]), r.regimeMax);
    }
  }

  lemma RangeKnown(r: Request, cs: seq<Candle>, i: int)
    requires Ready(r, cs) && r.regimeFilter && RequiredCandles(r) - 1 <= i < |cs| && 0 < r.regimePeriod < RequiredCandles(r)
    ensures AverageTrueRange(cs[..i + 1], r.regimePeriod).Ok?
  {
    hide Ready, RequiredCandles;
    var window := cs[..i + 1];
    forall k | |window| - r.regimePeriod <= k < |window|
      ensures Readable(window, k)
    {
      CandlePrices(r, cs, k);
      CandlePrices(r, cs, k - 1);
    }
  }

  /** The filters let a signal through exactly when the closes stand where they should and the market moves enough. */
  lemma FiltersMean(r: Request, cs: seq<Candle>, i: int, side: Side)
    requires Ready(r, cs) && RequiredCandles(r) - 1 <= i < |cs| && 0 <= i && side in {Buy, Sell}
    ensures PassesEntryFilters(r, cs[..i + 1], CloseValue(cs[i]), side == Sell) <==>
      Trending(r, cs, i, side) && InRegime(r, cs, i)
  {
    hide PassesTrendFilter, PassesRegimeFilter, Trending, InRegime, Ready, RequiredCandles;
    TrendMeans(r, cs, i, side);
    RegimeMeans(r, cs, i);
  }

  // Entries and exits explained -----------------------------------------------------------------------------------------

  /** The bar whose signal is executed on this one. */
  function SignalledOn(r: Request, bar: int): int {
    if r.fillMode == NextOpen then bar - 1 else bar
  }

  /** A trade at a candle's open, or else at its close, with slippage against the trader. */
  predicate FilledAt(r: Request, c: Candle, atOpen: bool, t: Trade) {
    var field := if atOpen then c.open else c.close;
    && field.Number? && field.value > 0.0
    && t.executedAt == (if atOpen then c.openTime else c.closeTime)
    && t.price == field.value * (if t.side == Buy then 1.0 + r.slippageRate else 1.0 - r.slippageRate)
  }

  /** The amount an entry spends or sells short out of a quote balance. */
  predicate Sized(r: Request, quote: real, amount: real) {
    match r.sizing
    case FixedQuote => amount <= r.sizeValue && amount <= quote && (amount == r.sizeValue || amount == quote)
    case PercentEquity => amount * 100.0 == quote * r.sizeValue
    case _ => amount == quote
  }

  predicate Charged(r: Request, t: Trade) {
    t.fee == t.quoteAmount * r.feeRate
  }

  predicate Bought(t: Trade) {
    t.quantity * t.price == t.quoteAmount - t.fee
  }

  /** What the account is worth after an entry, at the close of the bar that signalled it. */
  predicate Valued(quote: real, close: real, t: Trade) {
    t.equity == if t.side == Buy then quote - t.quoteAmount + Amount(t.quantity, close)
                else quote + (t.quoteAmount - t.fee) - Amount(t.quantity, close)
  }

  /** An entry that fills on a bar, out of a quote balance: the signal of its own side it acts on, the filters passed,
      its price, size and fee, and the worth it is recorded with. */
  predicate EntryExplained(r: Request, source: SignalSource, cs: seq<Candle>, quote: real, t: Trade, bar: int) {
    var i := SignalledOn(r, bar);
    && 0 <= i <= bar < |cs| && SideAt(source, cs, i) == Ok(t.side)
    && (t.side == Buy || (t.side == Sell && r.shorting))
    && Trending(r, cs, i, t.side) && InRegime(r, cs, i)
    && FilledAt(r, cs[bar], r.fillMode == NextOpen, t)
    && Sized(r, quote, t.quoteAmount) && Charged(r, t) && Bought(t) && Valued(quote, CloseValue(cs[i]), t)
  }

  /** An exit that fills on a bar: the opposite signal, or the last close, and its price. What stops pay is in StopsKept. */
  predicate ExitExplained(r: Request, source: SignalSource, cs: seq<Candle>, t: Trade, bar: int, reason: ExitReason) {
    && 0 <= bar < |cs| && t.quoteAmount == Amount(t.quantity, t.price) && Charged(r, t)
    && match reason
       case EndOfBacktest => bar == |cs| - 1 && FilledAt(r, cs[bar], false, t)
       case StopLoss | TakeProfit => r.atrExit && t.executedAt == cs[bar].closeTime
       case SellSignal | BuySignal =>
         var i := SignalledOn(r, bar);
         && 0 <= i && t.side == (if reason == SellSignal then Sell else Buy) && SideAt(source, cs, i) == Ok(t.side)
         && FilledAt(r, cs[bar], r.fillMode == NextOpen, t)
  }

  /** The quote balance before trade k: what the exit before it left, or the starting balance. */
  function QuoteBefore(r: Request, trades: seq<Trade>, k: nat): real
    requires k <= |trades|
  {
    if k == 0 then r.startingBalance else trades[k - 1].equity
  }

  predicate TripExplained(r: Request, source: SignalSource, cs: seq<Candle>, s: State, k: nat)
    requires k < |s.roundTrips| && 2 * k + 1 < |s.trades| == |s.bars|
  {
    && EntryExplained(r, source, cs, QuoteBefore(r, s.trades, 2 * k), s.trades[2 * k], s.bars[2 * k])
    && ExitExplained(r, source, cs, s.trades[2 * k + 1], s.bars[2 * k + 1], s.roundTrips[k].exitReason)
  }

  /** Every round trip is explained, and so is the entry of the position that is still open. */
  ghost predicate Explained(r: Request, source: SignalSource, cs: seq<Candle>, s: State) {
    && |s.bars| == |s.trades| == 2 * |s.roundTrips| + (if s.open.Some? then 1 else 0)
    && (forall k: nat :: k < |s.roundTrips| ==> TripExplained(r, source, cs, s, k))
    && (s.open.None? ==> s.quote == QuoteBefore(r, s.trades, |s.trades|))
    && (s.open.Some? ==>
          var n := |s.trades| - 1;
          s.trades[n] == s.open.value && EntryExplained(r, source, cs, QuoteBefore(r, s.trades, n), s.trades[n], s.bars[n]))
  }

  // Steps ---------------------------------------------------------------------------------------------------------------

  lemma FillExplained(r: Request, cs: seq<Candle>, i: int, t: Trade)
    requires 0 <= i < |cs| && FillOf(r, cs, i).Some? && (r.fillMode == NextOpen || r.fillMode == SameClose)
    requires var f := FillOf(r, cs, i).value;
      t.executedAt == f.at && t.price == if t.side == Buy then BuyFill(f.price, r.slippageRate) else SellFill(f.price, r.slippageRate)
    ensures var bar := FillOf(r, cs, i).value.bar;
      SignalledOn(r, bar) == i <= bar < |cs| && FilledAt(r, cs[bar], r.fillMode == NextOpen, t)
  {
  }

  lemma SizeExplained(r: Request, quote: real, price: real)
    requires Valid(r) && quote > 0.0
    ensures Sized(r, quote, EntryQuoteAmount(r, quote, 0.0, price))
  {
    if r.sizing == PercentEquity {
      ProductNonNegative(quote, 100.0 - r.sizeValue);
      assert Equity(quote, 0.0, price) == quote;
      QuotientTimes(quote * r.sizeValue, 100.0);
    }
  }

  /** What an entry that happens records. */
  lemma EntryRecords(r: Request, cs: seq<Candle>, s: State, i: int, price: real, short: bool)
    requires Ready(r, cs) && 0 <= RequiredCandles(r) - 1 <= i < |cs|
    ensures var t := Enter(r, cs, s, i, price, short);
      t == s ||
      (FillOf(r, cs, i).Some? &&
       var (f, amount) := (FillOf(r, cs, i).value, EntryQuoteAmount(r, s.quote, s.base, price));
       && t.open.Some? && t.trades == s.trades + [t.open.value] && t.bars == s.bars + [f.bar] && t.roundTrips == s.roundTrips
       && var o := t.open.value;
          && o.side == (if short then Sell else Buy) && o.executedAt == f.at && o.price == EntryPrice(r, f.price, short)
          && o.quoteAmount == amount && Charged(r, o) && Bought(o) && Valued(s.quote, price, o))
  {
    hide EntryPrice, EntryQuoteAmount, EntryQuantity, AtrExitPrices, Ready, FillOf, SlippageOn, Equity, RequiredCandles, Bought,
      Charged, Valued, OpenPosition;
    if FillOf(r, cs, i).Some? {
      var f := FillOf(r, cs, i).value;
      var amount := EntryQuoteAmount(r, s.quote, s.base, price);
      var entry := EntryPrice(r, f.price, short);
      var quantity := EntryQuantity(r, amount, entry);
      if amount > 0.0 && quantity > 0.0 {
        AtrPricesNeverFail(r, cs, i, entry, short);
        QuantityTimesPrice(r, amount, entry);
        OpenRecords(r, s, f, amount, quantity, price, short, AtrExitPrices(r, cs[..i + 1], entry, short));
      }
    }
  }

  lemma OpenRecords(r: Request, s: State, f: Fill, amount: real, quantity: real, price: real, short: bool,
                    stops: Result<Stops, DataError>)
    requires stops.Ok? && quantity * EntryPrice(r, f.price, short) == amount - Fee(amount, r.feeRate)
    ensures var t := OpenPosition(r, s, f, amount, quantity, price, short, stops);
      && t.open.Some? && t.trades == s.trades + [t.open.value] && t.bars == s.bars + [f.bar] && t.roundTrips == s.roundTrips
      && var o := t.open.value;
         && o.side == (if short then Sell else Buy) && o.executedAt == f.at && o.price == EntryPrice(r, f.price, short)
         && o.quoteAmount == amount && Charged(r, o) && Bought(o) && Valued(s.quote, price, o)
  {
    hide EntryPrice, SlippageOn;
  }

  lemma EnterExplained(r: Request, source: SignalSource, cs: seq<Candle>, s: State, i: int, price: real, side: Side)
    requires Ready(r, cs) && 0 <= RequiredCandles(r) - 1 <= i < |cs| && s.base == 0.0 && s.quote > 0.0 && s.open.None?
    requires (side == Buy || (side == Sell && r.shorting)) && SideAt(source, cs, i) == Ok(side)
    requires Trending(r, cs, i, side) && InRegime(r, cs, i) && Explained(r, source, cs, s) && price == CloseValue(cs[i])
    ensures Explained(r, source, cs, Enter(r, cs, s, i, price, side == Sell))
  {
    hide Enter, Ready, RequiredCandles, Trending, InRegime, Sized, FilledAt, Charged, Bought, Valued, TripExplained, FillOf,
      EntryQuoteAmount, SideAt;
    EntryRecords(r, cs, s, i, price, side == Sell);
    var t := Enter(r, cs, s, i, price, side == Sell);
    if t != s {
      ReadyModes(r, cs);
      FillExplained(r, cs, i, t.open.value);
      SizeExplained(r, s.quote, price);
      assert EntryExplained(r, source, cs, s.quote, t.open.value, t.bars[|s.trades|]);
      TripsKept(r, source, cs, s, t);
    }
  }

  lemma ReadyModes(r: Request, cs: seq<Candle>)
    requires Ready(r, cs)
    ensures Valid(r) && (r.fillMode == NextOpen || r.fillMode == SameClose)
  {
  }

  /** Trips stay explained as trades are added. */
  lemma TripsKept(r: Request, source: SignalSource, cs: seq<Candle>, s: State, t: State)
    requires |s.bars| == |s.trades| >= 2 * |s.roundTrips| && |t.bars| == |t.trades|
    requires s.trades <= t.trades && s.bars <= t.bars && s.roundTrips <= t.roundTrips
    requires forall k: nat :: k < |s.roundTrips| ==> TripExplained(r, source, cs, s, k)
    ensures forall k: nat :: k < |s.roundTrips| ==> 2 * k + 1 < |t.trades| && TripExplained(r, source, cs, t, k)
  {
    hide EntryExplained, ExitExplained;
    forall k: nat | k < |s.roundTrips|
      ensures 2 * k + 1 < |t.trades| && TripExplained(r, source, cs, t, k)
    {
      assert TripExplained(r, source, cs, s, k);
      assert t.trades[2 * k] == s.trades[2 * k] && t.trades[2 * k + 1] == s.trades[2 * k + 1];
    }
  }

  /** What a close records. */
  lemma CloseRecords(r: Request, s: State, bar: int, price: real, at: Time, reason: ExitReason)
    requires s.base != 0.0 && s.trades != [] && s.open.Some?
    ensures var t := ClosePosition(r, s, bar, price, at, reason);
      && t.Ok? && t.value.open.None? && |t.value.trades| == |s.trades| + 1 && |t.value.roundTrips| == |s.roundTrips| + 1
      && var e := t.value.trades[|s.trades|];
         && t.value.trades == s.trades + [e] && t.value.bars == s.bars + [bar] && t.value.quote == e.equity
         && e.side == (if s.base > 0.0 then Sell else Buy) && e.executedAt == at
         && e.price == (if e.side == Sell then SellFill(price, r.slippageRate) else BuyFill(price, r.slippageRate))
         && e.quoteAmount == Amount(e.quantity, e.price) && Charged(r, e)
         && s.roundTrips <= t.value.roundTrips && t.value.roundTrips[|s.roundTrips|].exitReason == reason
  {
    hide Ratio, WholeSeconds, MoveOn, SlippageOn, SellFill, BuyFill, Amount;
  }

  lemma CloseExplained(r: Request, source: SignalSource, cs: seq<Candle>, s: State, bar: int, price: real, at: Time,
                       reason: ExitReason)
    requires Explained(r, source, cs, s) && s.base != 0.0 && s.open.Some?
    requires forall t: Trade ::
      t.side == (if s.base > 0.0 then Sell else Buy) && t.executedAt == at && Charged(r, t)
      && t.price == (if t.side == Sell then SellFill(price, r.slippageRate) else BuyFill(price, r.slippageRate))
      && t.quoteAmount == Amount(t.quantity, t.price)
      ==> ExitExplained(r, source, cs, t, bar, reason)
    ensures var t := ClosePosition(r, s, bar, price, at, reason); t.Ok? && Explained(r, source, cs, t.value)
  {
    hide ClosePosition, EntryExplained, ExitExplained, Charged, Amount, SellFill, BuyFill;
    CloseRecords(r, s, bar, price, at, reason);
    var t := ClosePosition(r, s, bar, price, at, reason).value;
    var n := |s.roundTrips|;
    TripsKept(r, source, cs, s, t);
    assert t.trades[2 * n] == s.trades[2 * n] && t.bars[2 * n] == s.bars[2 * n];
    assert TripExplained(r, source, cs, t, n);
  }

  lemma StopExplained(r: Request, source: SignalSource, cs: seq<Candle>, s: State, i: int, price: real, reason: ExitReason)
    requires Explained(r, source, cs, s) && s.base != 0.0 && s.open.Some? && 0 <= i < |cs| && r.atrExit
    requires reason == StopLoss || reason == TakeProfit
    ensures var t := ClosePosition(r, s, i, price, cs[i].closeTime, reason); t.Ok? && Explained(r, source, cs, t.value)
  {
    hide Explained, ClosePosition, Charged, Amount, SellFill, BuyFill;
    CloseExplained(r, source, cs, s, i, price, cs[i].closeTime, reason);
  }

  lemma AtrStepExplained(r: Request, source: SignalSource, cs: seq<Candle>, s: State, i: int)
    requires Ready(r, cs) && 0 <= i < |cs| && Sound(r, s) && Explained(r, source, cs, s)
    ensures AtrStep(r, cs, s, i).Ok? && Explained(r, source, cs, AtrStep(r, cs, s, i).value.0)
  {
    hide Explained, ClosePosition, Ready, Books, Extremes, CanExit, Holds, Paired, HighOf, LowOf;
    AtrStepSound(r, cs, s, i);
    var exit := AtrExit(r, cs[i], s.stopLoss, s.takeProfit, s.base < 0.0);
    if s.base != 0.0 && exit.Ok? && exit.value.Some? {
      StopExplained(r, source, cs, s, i, exit.value.value.price, exit.value.value.reason);
    }
  }

  lemma SignalExplained(r: Request, source: SignalSource, cs: seq<Candle>, s: State, i: int, side: Side)
    requires Ready(r, cs) && 0 <= i < |cs| && Explained(r, source, cs, s) && s.open.Some? && FillOf(r, cs, i).Some?
    requires Opposes(side, s.base) && SideAt(source, cs, i) == Ok(side)
    ensures var f := FillOf(r, cs, i).value;
      var t := ClosePosition(r, s, f.bar, f.price, f.at, if s.base > 0.0 then SellSignal else BuySignal);
      t.Ok? && Explained(r, source, cs, t.value)
  {
    hide Explained, ClosePosition, Charged, Amount, SellFill, BuyFill, Ready, SideAt, FillOf, FilledAt;
    ReadyModes(r, cs);
    var f := FillOf(r, cs, i).value;
    var reason := if s.base > 0.0 then SellSignal else BuySignal;
    forall t: Trade |
      t.side == (if s.base > 0.0 then Sell else Buy) && t.executedAt == f.at && Charged(r, t)
      && t.price == (if t.side == Sell then SellFill(f.price, r.slippageRate) else BuyFill(f.price, r.slippageRate))
      && t.quoteAmount == Amount(t.quantity, t.price)
      ensures ExitExplained(r, source, cs, t, f.bar, reason)
    {
      FillExplained(r, cs, i, t);
    }
    CloseExplained(r, source, cs, s, f.bar, f.price, f.at, reason);
  }

  lemma SignalExitExplained(r: Request, source: SignalSource, cs: seq<Candle>, side: Side, s: State, i: int)
    requires Ready(r, cs) && 0 <= i < |cs| && Sound(r, s) && Explained(r, source, cs, s) && SideAt(source, cs, i) == Ok(side)
    ensures SignalExit(r, cs, side, s, i).Ok? && Explained(r, source, cs, SignalExit(r, cs, side, s, i).value)
  {
    hide Explained, ClosePosition, Ready, Books, Extremes, FillOf, CanExit, Holds, Paired, SideAt;
    SignalExitSound(r, cs, side, s, i);
    if Opposes(side, s.base) && FillOf(r, cs, i).Some? {
      SignalExplained(r, source, cs, s, i, side);
    }
  }

  lemma EntryStepExplained(r: Request, source: SignalSource, cs: seq<Candle>, side: Side, s: State, lastTrade: int, exited: bool,
                           i: int, price: real)
    requires Ready(r, cs) && 0 <= RequiredCandles(r) - 1 <= i < |cs| && Sound(r, s) && Explained(r, source, cs, s)
    requires SideAt(source, cs, i) == Ok(side) && price == CloseValue(cs[i])
    ensures Explained(r, source, cs, EntryStep(r, cs, side, s, lastTrade, exited, i, price))
  {
    hide Enter, PassesEntryFilters, Explained, Ready, CanEnter, SideAt, Books, Extremes, Paired, Trending, InRegime, RequiredCandles;
    if s.base == 0.0 && s.quote > 0.0 && (side == Buy || (side == Sell && r.shorting)) {
      assert s.open.None?;
      FiltersMean(r, cs, i, side);
      if PassesEntryFilters(r, cs[..i + 1], price, side == Sell) {
        EnterExplained(r, source, cs, s, i, price, side);
      }
    }
  }

  lemma MarkExplained(r: Request, source: SignalSource, cs: seq<Candle>, s: State, at: Time, equity: real)
    requires Explained(r, source, cs, s)
    ensures Explained(r, source, cs, Mark(s, at, equity))
  {
    hide Drawdown, EntryExplained, ExitExplained;
    var t := Mark(s, at, equity);
    TripsKept(r, source, cs, s, t);
  }

  lemma CloseRead(c: Candle)
    requires ParsePositive(c.close).Ok?
    ensures ParsePositive(c.close).value == CloseValue(c) > 0.0
  {
  }

  lemma BarExplained(r: Request, source: SignalSource, cs: seq<Candle>, side: Side, s: State, i: int)
    requires Ready(r, cs) && 0 <= RequiredCandles(r) - 1 <= i < |cs| && Sound(r, s) && Explained(r, source, cs, s)
    requires SideAt(source, cs, i) == Ok(side)
    ensures Bar(r, cs, side, s, i).Ok? && Explained(r, source, cs, Bar(r, cs, side, s, i).value)
  {
    hide Explained, Sound, AtrStep, SignalExit, EntryStep, Mark, Ready, Equity, ParsePositive, SideAt, RequiredCandles;
    CandlePrices(r, cs, i);
    CloseRead(cs[i]);
    AtrStepSound(r, cs, s, i);
    AtrStepExplained(r, source, cs, s, i);
    var (t, exited) := AtrStep(r, cs, s, i).value;
    SignalExitSound(r, cs, side, t, i);
    SignalExitExplained(r, source, cs, side, t, i);
    var u := SignalExit(r, cs, side, t, i).value;
    var price := CloseValue(cs[i]);
    EntryStepExplained(r, source, cs, side, u, s.lastTrade, exited, i, price);
    var v := EntryStep(r, cs, side, u, s.lastTrade, exited, i, price);
    MarkExplained(r, source, cs, v, cs[i].closeTime, Equity(v.quote, v.base, price));
  }

  // Runs ----------------------------------------------------------------------------------------------------------------

  /** Every trade of every run is explained by the signals and the candles, and each is sized by what the one before left. */
  lemma {:induction false} RunExplained(r: Request, source: SignalSource, cs: seq<Candle>, upto: int)
    requires Ready(r, cs) && 1 <= RequiredCandles(r) && RequiredCandles(r) - 1 <= upto <= |cs|
    requires RunBars(r, source, cs, upto).Ok?
    ensures Explained(r, source, cs, RunBars(r, source, cs, upto).value)
    decreases upto
  {
    hide Explained, Sound, Bar, Ready, SideAt, Initial, RequiredCandles;
    if upto == RequiredCandles(r) - 1 {
      InitiallyExplained(r, source, cs);
    } else {
      RunExplained(r, source, cs, upto - 1);
      RunSound(r, source, cs, upto - 1);
      BarExplained(r, source, cs, SideAt(source, cs, upto - 1).value, RunBars(r, source, cs, upto - 1).value, upto - 1);
    }
  }

  lemma InitiallyExplained(r: Request, source: SignalSource, cs: seq<Candle>)
    ensures Explained(r, source, cs, Initial(r))
  {
  }

  lemma LastExplained(r: Request, source: SignalSource, cs: seq<Candle>, s: State)
    requires Ready(r, cs) && cs != [] && Explained(r, source, cs, s) && s.base != 0.0 && s.open.Some?
    ensures ParsePositive(cs[|cs| - 1].close).Ok?
    ensures var last := cs[|cs| - 1];
      var t := ClosePosition(r, s, |cs| - 1, ParsePositive(last.close).value, last.closeTime, EndOfBacktest);
      t.Ok? && Explained(r, source, cs, t.value)
  {
    hide Explained, ClosePosition, Charged, Amount, Ready, ParsePositive;
    CandlePrices(r, cs, |cs| - 1);
    CloseRead(cs[|cs| - 1]);
    var last := cs[|cs| - 1];
    CloseExplained(r, source, cs, s, |cs| - 1, ParsePositive(last.close).value, last.closeTime, EndOfBacktest);
  }

  /** The forced close included: what a run reports is explained to the last trade. */
  lemma FinalExplained(r: Request, source: SignalSource, cs: seq<Candle>)
    requires Ready(r, cs) && 1 <= RequiredCandles(r) && FinalState(r, source, cs).Ok?
    ensures Explained(r, source, cs, FinalState(r, source, cs).value)
  {
    hide Explained, Sound, RunBars, Ready, ClosePosition, Mark, ParsePositive, RequiredCandles;
    RequiredFits(r, cs);
    RunExplained(r, source, cs, |cs|);
    RunSound(r, source, cs, |cs|);
    var s := RunBars(r, source, cs, |cs|).value;
    if s.base != 0.0 {
      OpenWhileHolding(r, s);
      LastExplained(r, source, cs, s);
      var last := cs[|cs| - 1];
      var t := ClosePosition(r, s, |cs| - 1, ParsePositive(last.close).value, last.closeTime, EndOfBacktest).value;
      MarkExplained(r, source, cs, t, last.closeTime, t.quote);
    }
  }

  lemma OpenWhileHolding(r: Request, s: State)
    requires Sound(r, s)
    ensures s.open.Some? <==> s.base != 0.0
  {
  }

  // When the engine acts ------------------------------------------------------------------------------------------------

  /** A signal on bar i can be executed: on the close it always can, on the next open if there is one. */
  predicate Tradable(r: Request, cs: seq<Candle>, i: int)
    requires 0 <= i < |cs|
  {
    r.fillMode == NextOpen ==> i + 1 < |cs| && cs[i + 1].open.Number? && cs[i + 1].open.value > 0.0
  }

  lemma TradableMeans(r: Request, cs: seq<Candle>, i: int)
    requires Ready(r, cs) && 0 <= i < |cs|
    ensures FillOf(r, cs, i).Some? <==> Tradable(r, cs, i)
  {
    CandlePrices(r, cs, i);
    hide Ready;
  }

  /** A flat account enters on a bar if and only if it has money, the cooldown is over, the signal names a side it may take,
      the filters agree and there is a price. */
  lemma EntersIff(r: Request, cs: seq<Candle>, side: Side, s: State, i: int)
    requires Ready(r, cs) && 0 <= RequiredCandles(r) - 1 <= i < |cs| && Sound(r, s) && s.open.None?
    requires r.feeRate < 1.0 && r.slippageRate < 1.0
    ensures Bar(r, cs, side, s, i).Ok?
    ensures |Bar(r, cs, side, s, i).value.bars| > |s.bars| <==>
      && s.quote > 0.0 && (s.lastTrade < 0 || i >= s.lastTrade + r.cooldownBars)
      && (side == Buy || (side == Sell && r.shorting))
      && Trending(r, cs, i, side) && InRegime(r, cs, i) && Tradable(r, cs, i)
  {
    var price := FlatBar(r, cs, side, s, i);
    EntryAffordable(r, cs, side, s.quote, s.lastTrade, i, price);
    TradableMeans(r, cs, i);
    if side != Hold {
      FiltersMean(r, cs, i, side);
    }
    CooldownSet(r, cs);
    hide Bar, EntryFires, PassesEntryFilters, Trending, InRegime, Tradable, FillOf, Ready, Sound, RequiredCandles;
  }

  lemma CooldownSet(r: Request, cs: seq<Candle>)
    requires Ready(r, cs)
    ensures r.cooldownBars >= 1 && r.minHoldingBars >= 1 && Valid(r)
  {
  }

  /** On a flat account a bar does no more than its entry. */
  lemma FlatBar(r: Request, cs: seq<Candle>, side: Side, s: State, i: int) returns (price: real)
    requires Ready(r, cs) && 0 <= RequiredCandles(r) - 1 <= i < |cs| && Sound(r, s) && s.open.None?
    ensures Bar(r, cs, side, s, i).Ok? && price == CloseValue(cs[i]) && Valid(r)
    ensures |Bar(r, cs, side, s, i).value.bars| > |s.bars| <==> EntryFires(r, cs, side, s.quote, s.lastTrade, i, price)
  {
    hide Bar, EntryFires, AtrStep, SignalExit, EntryStep, Ready, RequiredCandles, ParsePositive, Books, Extremes, Paired;
    assert s.base == 0.0;
    hide Sound;
    var t, exited, u, v := BarSteps(r, cs, side, s, i);
    price := ParsePositive(cs[i].close).value;
    CloseRead(cs[i]);
    AtrBars(r, cs, s, i);
    ExitBars(r, cs, side, t, i);
    assert t == s && u == s && !exited;
    EntryBars(r, cs, side, s, s.lastTrade, i, price);
    CooldownSet(r, cs);
  }

  /** The bar ends the position at its stop or its target. */
  predicate StoppedOut(r: Request, c: Candle, s: State, i: int)
    requires s.open.Some? && HighOf(c).Ok? && LowOf(c).Ok?
  {
    Exits(r, s, i) && (ReachesStop(r, c, s) || ReachesTarget(r, c, s))
  }

  /** An open position is closed on a signal if and only if no stop or target ends it first, the signal is against it, it has
      been held for as long as it must, and there is a price. */
  lemma ClosesIff(r: Request, cs: seq<Candle>, side: Side, s: State, i: int)
    requires Ready(r, cs) && 0 <= RequiredCandles(r) - 1 <= i < |cs| && Sound(r, s) && s.open.Some?
    ensures Bar(r, cs, side, s, i).Ok? && HighOf(cs[i]).Ok? && LowOf(cs[i]).Ok?
    ensures var (t, n) := (Bar(r, cs, side, s, i).value, |s.roundTrips|);
      (|t.roundTrips| > n && t.roundTrips[n].exitReason in {SellSignal, BuySignal}) <==>
        && !StoppedOut(r, cs[i], s, i) && side == (if s.open.value.side == Buy then Sell else Buy)
        && (s.entryIndex < 0 || i >= s.entryIndex + r.minHoldingBars) && Tradable(r, cs, i)
  {
    hide Sound, AtrStep, SignalExit, EntryStep, Mark, Ready, Equity, ParsePositive, HighOf, LowOf, ReachesStop, ReachesTarget,
      Exits, RequiredCandles, Tradable;
    CandlePrices(r, cs, i);
    CooldownSet(r, cs);
    AtrStepSound(r, cs, s, i);
    AtrStepFires(r, cs, s, i);
    var (t, exited) := AtrStep(r, cs, s, i).value;
    SignalExitSound(r, cs, side, t, i);
    var u := SignalExit(r, cs, side, t, i).value;
    OpenWhileHolding(r, t);
    SignalExitActs(r, cs, side, t, i);
    var price := ParsePositive(cs[i].close).value;
    EntryKeepsTrips(r, cs, side, u, s.lastTrade, exited, i, price);
    var v := EntryStep(r, cs, side, u, s.lastTrade, exited, i, price);
    MarkKeepsTrips(v, cs[i].closeTime, Equity(v.quote, v.base, price));
  }

  lemma SignalExitActs(r: Request, cs: seq<Candle>, side: Side, s: State, i: int)
    requires Ready(r, cs) && 0 <= i < |cs| && Sound(r, s)
    ensures var (t, n) := (SignalExit(r, cs, side, s, i), |s.roundTrips|);
      && t.Ok?
      && if s.open.Some? && side == (if s.open.value.side == Buy then Sell else Buy)
            && (s.entryIndex < 0 || i >= s.entryIndex + r.minHoldingBars) && Tradable(r, cs, i)
         then |t.value.roundTrips| == n + 1 && t.value.roundTrips[n].exitReason in {SellSignal, BuySignal}
         else t.value == s
  {
    hide ClosePosition, Ready, Books, Extremes, FillOf, Paired, Tradable;
    SignalExitSound(r, cs, side, s, i);
    CooldownSet(r, cs);
    TradableMeans(r, cs, i);
    var fill := FillOf(r, cs, i);
    if s.base != 0.0 && fill.Some? {
      CloseTrip(r, s, fill.value.bar, fill.value.price, fill.value.at, if s.base > 0.0 then SellSignal else BuySignal);
    }
  }
}
