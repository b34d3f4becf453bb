/** What every bar of a backtest keeps: trades come in entry-exit pairs, and no money is made or lost. */
module BacktestAccounting {
  import opened Common
  import opened MarketData
  import opened CandleSeries
  import opened Atr
  import opened Signals
  import opened BacktestRequest
  import opened BacktestModel

  // Preflight ----------------------------------------------------------------------------------------

  /** What Run has established before its loop starts. */
  ghost predicate Ready(r: Request, cs: seq<Candle>) {
    && Valid(r) && r.strategy != PineCustom && r.cooldownBars >= 1 && r.minHoldingBars >= 1
    && RequiredCandles(r) <= |cs|
    && ValidSeries(r.symbol, r.interval, cs)
  }

  lemma CandlePrices(r: Request, cs: seq<Candle>, i: int)
    requires Ready(r, cs) && 0 <= i < |cs|
    ensures ParsePositive(cs[i].close).Ok? && Priced(cs[i])
  {
  }

  predicate Priced(c: Candle) {
    HighOf(c).Ok? && LowOf(c).Ok? && CloseOf(c).Ok?
  }

  /** The one failure that would open a position without recording a trade cannot happen. */
  lemma AtrPricesNeverFail(r: Request, cs: seq<Candle>, i: int, fill: real, short: bool)
    requires Ready(r, cs) && RequiredCandles(r) - 1 <= i < |cs|
    ensures AtrExitPrices(r, cs[..i + 1], fill, short).Ok?
  {
    if r.atrExit {
      RequiredSuffices(r);
      var window := cs[..i + 1];
      forall k | |window| - r.atrPeriod <= k < |window|
        ensures Readable(window, k)
      {
        CandlePrices(r, cs, k);
        CandlePrices(r, cs, k - 1);
      }
      assert Measurable(window, r.atrPeriod);
    }
  }

  // Pairing ----------------------------------------------------------------------------------------------

  /** One round trip: an entry, the opposite trade of the same size, and the record that joins them.
      The account is never charged a short position's entry fee, so only its exit fee counts. */
  predicate Paired(entry: Trade, exit: Trade, trip: RoundTrip) {
    && (entry.side == Buy || entry.side == Sell)
    && exit.side == (if entry.side == Buy then Sell else Buy)
    && exit.quantity == entry.quantity == trip.quantity > 0.0
    && trip.entryTime == entry.executedAt && trip.exitTime == exit.executedAt && trip.entrySide == entry.side
    && trip.entryPrice == entry.price && trip.exitPrice == exit.price
    && trip.fees == entry.fee + exit.fee
    && trip.gross == (if entry.side == Buy then 1.0 else -1.0) * (exit.price - entry.price) * entry.quantity
    && trip.net == trip.gross - exit.fee - (if entry.side == Buy then entry.fee else 0.0)
  }

  predicate Holds(r: Request, s: State, o: Trade) {
    && s.trades != [] && o == s.trades[|s.trades| - 1]
    && (o.side == Buy || o.side == Sell)
    && o.quantity > 0.0 && s.base == (if o.side == Buy then o.quantity else -o.quantity)
    && s.entryReference > 0.0
    && o.price == EntryPrice(r, s.entryReference, o.side == Sell)
    && s.entryQuote == o.quantity * o.price + (if o.side == Buy then o.fee else 0.0)
    && s.entryQuote != 0.0
  }

  /** No position was ever opened short. */
  ghost predicate OnlyBuys(s: State) {
    && (forall k :: 0 <= k < |s.roundTrips| ==> s.roundTrips[k].entrySide == Buy)
    && (s.open.Some? ==> s.open.value.side == Buy)
  }

  ghost predicate Pairing(r: Request, s: State) {
    && |s.bars| == |s.trades| == 2 * |s.roundTrips| + (if s.open.Some? then 1 else 0)
    && s.completed == |s.roundTrips|
    && s.buys == |s.roundTrips| + (if s.open.Some? && s.open.value.side == Buy then 1 else 0)
    && s.sells == |s.roundTrips| + (if s.open.Some? && s.open.value.side == Sell then 1 else 0)
    && (forall k :: 0 <= k < |s.roundTrips| ==> Paired(s.trades[2 * k], s.trades[2 * k + 1], s.roundTrips[k]))
    && (!r.shorting ==> OnlyBuys(s))
    && (s.open.None? ==> s.base == 0.0 && s.entryReference == 0.0)
    && (s.open.Some? ==> Holds(r, s, s.open.value))
  }

  // Money ----------------------------------------------------------------------------------------------------

  function Nets(trips: seq<RoundTrip>): real {
    if trips == [] then 0.0 else Nets(trips[..|trips| - 1]) + trips[|trips| - 1].net
  }

  function Fees(trades: seq<Trade>): real {
    if trades == [] then 0.0 else Fees(trades[..|trades| - 1]) + trades[|trades| - 1].fee
  }

  /** Fees of the trades that open short positions: sells at even places. */
  function ShortEntryFees(trades: seq<Trade>): real {
    if trades == [] then 0.0
    else
      var n := |trades| - 1;
      ShortEntryFees(trades[..n]) + if n % 2 == 0 && trades[n].side == Sell then trades[n].fee else 0.0
  }

  lemma NetsAppend(trips: seq<RoundTrip>, t: RoundTrip)
    ensures Nets(trips + [t]) == Nets(trips) + t.net
  {
    assert (trips + [t])[..|trips|] == trips;
  }

  lemma FeesAppend(trades: seq<Trade>, t: Trade)
    ensures Fees(trades + [t]) == Fees(trades) + t.fee
    ensures ShortEntryFees(trades + [t]) ==
            ShortEntryFees(trades) + if |trades| % 2 == 0 && t.side == Sell then t.fee else 0.0
  {
    assert (trades + [t])[..|trades|] == trades;
  }

  /** The quote currency an open position ties up, or has brought in. */
  function Locked(s: State): real {
    if s.open.None? then 0.0 else if s.open.value.side == Buy then s.entryQuote else -s.entryQuote
  }

  ghost predicate Books(r: Request, s: State) {
    && s.quote == r.startingBalance + Nets(s.roundTrips) - Locked(s)
    && s.quote + s.base * s.entryReference ==
       r.startingBalance + s.gross - s.slippage - s.fees + ShortEntryFees(s.trades)
    && s.fees == Fees(s.trades)
    && s.winTotal + s.lossTotal == Nets(s.roundTrips)
  }

  /** The best and worst trades bound every round trip, and are attained. */
  ghost predicate Extremes(s: State) {
    && (forall k :: 0 <= k < |s.roundTrips| ==> s.worst <= s.roundTrips[k].net <= s.best)
    && (s.roundTrips != [] ==>
          && (exists k :: 0 <= k < |s.roundTrips| && s.roundTrips[k].net == s.best)
          && (exists k :: 0 <= k < |s.roundTrips| && s.roundTrips[k].net == s.worst))
  }

  ghost predicate Sound(r: Request, s: State) {
    Pairing(r, s) && Books(r, s) && Extremes(s)
  }

  lemma InitiallySound(r: Request)
    ensures Sound(r, Initial(r))
  {
  }

  // Arithmetic of fills --------------------------------------------------------------------------------------

  lemma FillAround(price: real, rate: real)
    requires price > 0.0 && rate >= 0.0
    ensures SellFill(price, rate) <= price <= BuyFill(price, rate)
    ensures BuyFill(price, rate) > 0.0
  {
    assert price * rate >= 0.0;
  }

  /** Selling q below the price and buying it above cost exactly the slippage. */
  lemma SlippageSplit(q: real, price: real, fill: real, reference: real)
    ensures fill <= price ==> q * fill - q * reference == 1.0 * (price - reference) * q - Abs(price - fill) * q
    ensures fill >= price ==> q * reference - q * fill == -1.0 * (price - reference) * q - Abs(price - fill) * q
  {
  }

  // Closing --------------------------------------------------------------------------------------------------

  lemma SettledLong(r: Request, s: State, o: Trade, price: real)
    requires Holds(r, s, o) && o.side == Buy && price > 0.0 && r.slippageRate >= 0.0
    ensures var (fill, amount, fee, pnl) := Settlement(r, s, price);
      && amount - fee - s.base * s.entryReference ==
         1.0 * (price - s.entryReference) * o.quantity - Abs(price - fill) * o.quantity - fee
      && pnl == 1.0 * (fill - o.price) * o.quantity - fee - o.fee
      && pnl == amount - fee - s.entryQuote
  {
    var (fill, amount, fee, pnl) := Settlement(r, s, price);
    FillAround(price, r.slippageRate);
    SlippageSplit(o.quantity, price, fill, s.entryReference);
    assert 1.0 * (fill - o.price) * o.quantity == o.quantity * fill - o.quantity * o.price;
  }

  lemma SettledShort(r: Request, s: State, o: Trade, price: real)
    requires Holds(r, s, o) && o.side == Sell && price > 0.0 && r.slippageRate >= 0.0
    ensures var (fill, amount, fee, pnl) := Settlement(r, s, price);
      && -(amount + fee) - s.base * s.entryReference ==
         -1.0 * (price - s.entryReference) * o.quantity - Abs(price - fill) * o.quantity - fee
      && pnl == -1.0 * (fill - o.price) * o.quantity - fee
      && pnl == s.entryQuote - (amount + fee)
  {
    var (fill, amount, fee, pnl) := Settlement(r, s, price);
    FillAround(price, r.slippageRate);
    SlippageSplit(o.quantity, price, fill, s.entryReference);
    assert amount == o.quantity * fill;
    assert -1.0 * (fill - o.price) * o.quantity == o.quantity * o.price - o.quantity * fill;
  }

  lemma ClosePairing(r: Request, s: State, bar: int, price: real, at: Time, reason: ExitReason)
    requires Pairing(r, s) && s.open.Some? && price > 0.0 && r.slippageRate >= 0.0
    ensures var t := ClosePosition(r, s, bar, price, at, reason);
      t.Ok? && Pairing(r, t.value) && t.value.open.None?
  {
    hide Settlement, BuyFill, SellFill, Ratio, WholeSeconds;
    var o := s.open.value;
    if o.side == Buy {
      SettledLong(r, s, o, price);
    } else {
      SettledShort(r, s, o, price);
    }
    var t := ClosePosition(r, s, bar, price, at, reason).value;
    var n := |s.roundTrips|;
    assert t.trades[2 * n] == o;
    assert Paired(t.trades[2 * n], t.trades[2 * n + 1], t.roundTrips[n]);
    forall k | 0 <= k < n
      ensures Paired(t.trades[2 * k], t.trades[2 * k + 1], t.roundTrips[k])
    {
      assert Paired(s.trades[2 * k], s.trades[2 * k + 1], s.roundTrips[k]);
    }
  }

  lemma CloseBooks(r: Request, s: State, bar: int, price: real, at: Time, reason: ExitReason)
    requires Pairing(r, s) && Books(r, s) && s.open.Some? && price > 0.0 && r.slippageRate >= 0.0
    ensures var t := ClosePosition(r, s, bar, price, at, reason);
      t.Ok? && Books(r, t.value)
  {
    hide Settlement, BuyFill, SellFill, Ratio, WholeSeconds, Paired, Nets, Fees, ShortEntryFees;
    var o := s.open.value;
    if o.side == Buy {
      SettledLong(r, s, o, price);
    } else {
      SettledShort(r, s, o, price);
    }
    var t := ClosePosition(r, s, bar, price, at, reason).value;
    FeesAppend(s.trades, t.trades[|s.trades|]);
    NetsAppend(s.roundTrips, t.roundTrips[|s.roundTrips|]);
  }

  lemma CloseExtremes(r: Request, s: State, bar: int, price: real, at: Time, reason: ExitReason)
    requires Pairing(r, s) && Extremes(s) && s.open.Some?
    ensures var t := ClosePosition(r, s, bar, price, at, reason);
      t.Ok? && Extremes(t.value)
  {
    hide ClosePosition, Extremes, Paired;
    CloseTallies(r, s, bar, price, at, reason);
    var t := ClosePosition(r, s, bar, price, at, reason).value;
    ExtremesAppend(s, t, t.roundTrips[|s.roundTrips|]);
  }

  lemma CloseTallies(r: Request, s: State, bar: int, price: real, at: Time, reason: ExitReason)
    requires s.base != 0.0 && s.trades != [] && s.open.Some?
    ensures var t := ClosePosition(r, s, bar, price, at, reason);
      && t.Ok? && |t.value.roundTrips| == |s.roundTrips| + 1
      && var trip := t.value.roundTrips[|s.roundTrips|];
         t.value.roundTrips == s.roundTrips + [trip]
         && t.value.best == (if s.completed == 0 || trip.net > s.best then trip.net else s.best)
         && t.value.worst == (if s.completed == 0 || trip.net < s.worst then trip.net else s.worst)
  {
    hide Settlement, Ratio, WholeSeconds, MoveOn, SlippageOn;
  }

  lemma ExtremesAppend(s: State, t: State, trip: RoundTrip)
    requires Extremes(s) && s.completed == |s.roundTrips| && t.roundTrips == s.roundTrips + [trip]
    requires t.best == if s.completed == 0 || trip.net > s.best then trip.net else s.best
    requires t.worst == if s.completed == 0 || trip.net < s.worst then trip.net else s.worst
    ensures Extremes(t)
  {
    var n := |s.roundTrips|;
    assert t.roundTrips[n] == trip && forall k :: 0 <= k < n ==> t.roundTrips[k] == s.roundTrips[k];
    if n > 0 {
      var b :| 0 <= b < n && s.roundTrips[b].net == s.best;
      var w :| 0 <= w < n && s.roundTrips[w].net == s.worst;
      assert t.roundTrips[b].net == s.best && t.roundTrips[w].net == s.worst;
    }
  }

  lemma CloseSound(r: Request, s: State, bar: int, price: real, at: Time, reason: ExitReason)
    requires Sound(r, s) && s.base != 0.0 && price > 0.0 && r.slippageRate >= 0.0
    ensures var t := ClosePosition(r, s, bar, price, at, reason);
      t.Ok? && Sound(r, t.value) && t.value.base == 0.0
  {
    hide ClosePosition, Books, Extremes;
    ClosePairing(r, s, bar, price, at, reason);
    CloseBooks(r, s, bar, price, at, reason);
    CloseExtremes(r, s, bar, price, at, reason);
  }

  // Entering --------------------------------------------------------------------------------------------------

  /** What an entry that does happen leaves behind. */
  ghost predicate Entered(r: Request, s: State, t: State, short: bool) {
    && t.open.Some? && var o := t.open.value;
    && o.side == (if short then Sell else Buy) && o.quantity > 0.0
    && t.trades == s.trades + [o] && |t.bars| == |s.bars| + 1 && t.roundTrips == s.roundTrips
    && t.base == (if short then -o.quantity else o.quantity)
    && t.entryReference > 0.0
    && o.price == EntryPrice(r, t.entryReference, short)
    && t.entryQuote == o.quantity * o.price + (if short then 0.0 else o.fee) && t.entryQuote != 0.0
    && t.quote == (if short then s.quote + t.entryQuote else s.quote - t.entryQuote)
    && t.fees == s.fees + o.fee && t.slippage == s.slippage + SlippageOn(t.entryReference, o.price, o.quantity)
    && t.gross == s.gross && t.winTotal == s.winTotal && t.lossTotal == s.lossTotal
    && t.best == s.best && t.worst == s.worst && t.completed == s.completed
    && t.buys == (if short then s.buys else s.buys + 1) && t.sells == (if short then s.sells + 1 else s.sells)
  }

  lemma OpenPositionShape(r: Request, s: State, f: Fill, amount: real, quantity: real, price: real, short: bool,
                          stops: Result<Stops, DataError>)
    requires stops.Ok? && f.price > 0.0 && amount > 0.0 && quantity > 0.0
    requires quantity * EntryPrice(r, f.price, short) == amount - Fee(amount, r.feeRate) != 0.0
    ensures Entered(r, s, OpenPosition(r, s, f, amount, quantity, price, short, stops), short)
  {
    hide EntryPrice, Fee, Equity;
  }

  lemma EnterShape(r: Request, cs: seq<Candle>, s: State, i: int, price: real, short: bool)
    requires Ready(r, cs) && RequiredCandles(r) - 1 <= i < |cs|
    ensures var t := Enter(r, cs, s, i, price, short); t == s || Entered(r, s, t, short)
  {
    hide EntryPrice, EntryQuoteAmount, EntryQuantity, AtrExitPrices, ValidSeries, Valid, OpenPosition, Entered;
    RequiredSuffices(r);
    FillOfPositive(r, cs, i);
    var fillOf := FillOf(r, cs, i);
    if fillOf.Some? {
      var f := fillOf.value;
      var amount := EntryQuoteAmount(r, s.quote, s.base, price);
      var entry := EntryPrice(r, f.price, short);
      var quantity := EntryQuantity(r, amount, entry);
      if amount > 0.0 && quantity > 0.0 {
        AtrPricesNeverFail(r, cs, i, entry, short);
        QuantityTimesPrice(r, amount, entry);
        OpenPositionShape(r, s, f, amount, quantity, price, short, AtrExitPrices(r, cs[..i + 1], entry, short));
      }
    }
  }

  /** A position is worth exactly the amount spent on it, less the fee. */
  lemma QuantityTimesPrice(r: Request, amount: real, entry: real)
    requires EntryQuantity(r, amount, entry) > 0.0
    ensures EntryQuantity(r, amount, entry) * entry == amount - Fee(amount, r.feeRate) != 0.0
  {
    hide Fee;
    var spent := amount - Fee(amount, r.feeRate);
    assert Ratio(0.0, entry) == 0.0;
    assert entry != 0.0 && Ratio(spent, entry) == spent / entry;
  }

  lemma EnteredSound(r: Request, s: State, t: State, short: bool)
    requires Sound(r, s) && s.open.None? && Entered(r, s, t, short) && r.slippageRate >= 0.0
    requires short ==> r.shorting
    ensures Sound(r, t)
  {
    hide BuyFill, SellFill, Paired, Nets, Fees, ShortEntryFees;
    var o := t.open.value;
    FeesAppend(s.trades, o);
    FillAround(t.entryReference, r.slippageRate);
    SlippageSplit(o.quantity, t.entryReference, o.price, 0.0);
    SlippageSplit(o.quantity, o.price, t.entryReference, 0.0);
    forall k | 0 <= k < |t.roundTrips|
      ensures Paired(t.trades[2 * k], t.trades[2 * k + 1], t.roundTrips[k])
    {
      assert Paired(s.trades[2 * k], s.trades[2 * k + 1], s.roundTrips[k]);
    }
    assert Books(r, t) by {
      assert Abs(t.entryReference - o.price) * o.quantity ==
             (if short then o.quantity * t.entryReference - o.quantity * o.price
              else o.quantity * o.price - o.quantity * t.entryReference);
    }
  }

  // Bars ----------------------------------------------------------------------------------------------------------

  lemma MarkSound(r: Request, s: State, at: Time, equity: real)
    requires Sound(r, s)
    ensures Sound(r, Mark(s, at, equity))
  {
    hide Paired;
  }

  lemma FillOfPositive(r: Request, cs: seq<Candle>, i: int)
    requires 0 <= i < |cs|
    ensures FillOf(r, cs, i).Some? ==> FillOf(r, cs, i).value.price > 0.0
  {
  }

  lemma AtrStepSound(r: Request, cs: seq<Candle>, s: State, i: int)
    requires Ready(r, cs) && 0 <= i < |cs| && Sound(r, s)
    ensures AtrStep(r, cs, s, i).Ok? && Sound(r, AtrStep(r, cs, s, i).value.0)
    ensures AtrStep(r, cs, s, i).value.1 ==> AtrStep(r, cs, s, i).value.0.base == 0.0
  {
    hide Sound, ClosePosition;
    CandlePrices(r, cs, i);
    var exit := AtrExit(r, cs[i], s.stopLoss, s.takeProfit, s.base < 0.0);
    assert exit.Ok?;
    if s.base != 0.0 && exit.value.Some? {
      CloseSound(r, s, i, exit.value.value.price, cs[i].closeTime, exit.value.value.reason);
    }
  }

  lemma SignalExitSound(r: Request, cs: seq<Candle>, side: Side, s: State, i: int)
    requires Ready(r, cs) && 0 <= i < |cs| && Sound(r, s)
    ensures SignalExit(r, cs, side, s, i).Ok? && Sound(r, SignalExit(r, cs, side, s, i).value)
  {
    hide Sound, ClosePosition, FillOf;
    FillOfPositive(r, cs, i);
    var fill := FillOf(r, cs, i);
    if s.base != 0.0 && fill.Some? {
      CloseSound(r, s, fill.value.bar, fill.value.price, fill.value.at, if s.base > 0.0 then SellSignal else BuySignal);
    }
  }

  lemma EntryStepSound(r: Request, cs: seq<Candle>, side: Side, s: State, lastTrade: int, exited: bool, i: int, price: real)
    requires Ready(r, cs) && RequiredCandles(r) - 1 <= i < |cs| && Sound(r, s)
    ensures Sound(r, EntryStep(r, cs, side, s, lastTrade, exited, i, price))
  {
    hide Enter, PassesEntryFilters, Entered;
    if s.base == 0.0 {
      EnterShape(r, cs, s, i, price, false);
      EnterShape(r, cs, s, i, price, true);
      assert s.open.None?;
      if Entered(r, s, Enter(r, cs, s, i, price, false), false) {
        EnteredSound(r, s, Enter(r, cs, s, i, price, false), false);
      }
      if r.shorting && Entered(r, s, Enter(r, cs, s, i, price, true), true) {
        EnteredSound(r, s, Enter(r, cs, s, i, price, true), true);
      }
    }
  }

  /** No bar of an accepted run fails, and every bar keeps the pairing and the books. */
  lemma BarSound(r: Request, cs: seq<Candle>, side: Side, s: State, i: int)
    requires Ready(r, cs) && RequiredCandles(r) - 1 <= i < |cs| && Sound(r, s)
    ensures Bar(r, cs, side, s, i).Ok? && Sound(r, Bar(r, cs, side, s, i).value)
  {
    hide Sound, AtrStep, SignalExit, EntryStep, Mark;
    CandlePrices(r, cs, i);
    RequiredSuffices(r);
    AtrStepSound(r, cs, s, i);
    var (t, exited) := AtrStep(r, cs, s, i).value;
    SignalExitSound(r, cs, side, t, i);
    var u := SignalExit(r, cs, side, t, i).value;
    var price := ParsePositive(cs[i].close).value;
    EntryStepSound(r, cs, side, u, s.lastTrade, exited, i, price);
    var v := EntryStep(r, cs, side, u, s.lastTrade, exited, i, price);
    MarkSound(r, v, cs[i].closeTime, Equity(v.quote, v.base, price));
  }

  /** Over whole runs: past the preflight, the engine can fail only where a signal does. */
  lemma {:induction false} RunSound(r: Request, source: SignalSource, cs: seq<Candle>, upto: int)
    requires Ready(r, cs) && 1 <= RequiredCandles(r) && RequiredCandles(r) - 1 <= upto <= |cs|
    ensures RunBars(r, source, cs, upto).Ok? <==> forall i :: RequiredCandles(r) - 1 <= i < upto ==> SideAt(source, cs, i).Ok?
    ensures RunBars(r, source, cs, upto).Ok? ==> Sound(r, RunBars(r, source, cs, upto).value)
    decreases upto
  {
    hide Sound, Bar, Ready, SideAt;
    if upto == RequiredCandles(r) - 1 {
      InitiallySound(r);
    } else {
      RunSound(r, source, cs, upto - 1);
      var s := RunBars(r, source, cs, upto - 1);
      var side := SideAt(source, cs, upto - 1);
      if s.Ok? && side.Ok? {
        BarSound(r, cs, side.value, s.value, upto - 1);
      }
    }
  }

  lemma LiquidateSound(r: Request, cs: seq<Candle>, s: State)
    requires Ready(r, cs) && cs != [] && Sound(r, s)
    ensures Liquidate(r, cs, s).Ok? && Sound(r, Liquidate(r, cs, s).value) && Liquidate(r, cs, s).value.base == 0.0
  {
    hide Sound, ClosePosition;
    CandlePrices(r, cs, |cs| - 1);
    if s.base != 0.0 {
      var last := cs[|cs| - 1];
      var price := ParsePositive(last.close).value;
      CloseSound(r, s, |cs| - 1, price, last.closeTime, EndOfBacktest);
      var t := ClosePosition(r, s, |cs| - 1, price, last.closeTime, EndOfBacktest).value;
      MarkSound(r, t, last.closeTime, t.quote);
    }
  }
}
