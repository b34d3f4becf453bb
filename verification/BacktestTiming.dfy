/** When trades happen: the order of fills, minimum holding, and the cooldown between entries. */
module BacktestTiming {
  import opened Common
  import opened MarketData
  import opened CandleSeries
  import opened Signals
  import opened BacktestRequest
  import opened BacktestModel
  import opened BacktestAccounting

  /** The last bar a fill can have landed on once the bars before `next` are done. */
  function Horizon(r: Request, next: int): int {
    if r.fillMode == NextOpen then next else next - 1
  }

  predicate InBar(r: Request, cs: seq<Candle>, next: int, bar: int, at: Time) {
    && RequiredCandles(r) - 1 <= bar <= Horizon(r, next) && 0 <= bar < |cs|
    && (at == cs[bar].openTime || at == cs[bar].closeTime)
  }

  /** Trade k + 1 fills on a later bar than trade k, or on the same bar at the same moment or at its close. */
  predicate Follows(cs: seq<Candle>, trades: seq<Trade>, bars: seq<int>, k: int)
    requires |bars| == |trades| && 0 <= k < |trades| - 1
  {
    bars[k] < bars[k + 1] ||
    (bars[k] == bars[k + 1] && 0 <= bars[k] < |cs| &&
     (trades[k + 1].executedAt == trades[k].executedAt || trades[k + 1].executedAt == cs[bars[k]].closeTime))
  }

  /** A trip that was not forced lasts at least the minimum holding. */
  predicate Held(r: Request, s: State, j: int)
    requires 0 <= j && 2 * j + 1 < |s.bars| && j < |s.roundTrips|
  {
    s.roundTrips[j].exitReason == EndOfBacktest || s.bars[2 * j + 1] - s.bars[2 * j] >= r.minHoldingBars
  }

  /** Entry j + 1 is a cooldown after entry j; it is also a cooldown after exit j, unless it reverses
      the position on the very bar of that exit. */
  predicate Cooled(r: Request, s: State, j: int)
    requires |s.bars| == |s.trades| && 0 <= j && 2 * j + 2 < |s.bars|
  {
    && s.bars[2 * j + 2] - s.bars[2 * j] >= r.cooldownBars
    && (s.bars[2 * j + 2] - s.bars[2 * j + 1] >= r.cooldownBars ||
        (s.bars[2 * j + 2] == s.bars[2 * j + 1] && s.trades[2 * j + 2].side == s.trades[2 * j + 1].side))
  }

  ghost predicate Timed(r: Request, cs: seq<Candle>, s: State, next: int) {
    && |s.bars| == |s.trades| == 2 * |s.roundTrips| + (if s.open.Some? then 1 else 0)
    && s.lastTrade == (if s.bars == [] then -1 else s.bars[|s.bars| - 1])
    && s.entryIndex == (if s.open.Some? then s.bars[|s.bars| - 1] else -1)
    && (forall k :: 0 <= k < |s.bars| ==> InBar(r, cs, next, s.bars[k], s.trades[k].executedAt))
    && (forall k :: 0 <= k < |s.bars| - 1 ==> Follows(cs, s.trades, s.bars, k))
    && (forall j :: 0 <= j < |s.roundTrips| ==> Held(r, s, j))
    && (forall j :: 0 <= j && 2 * j + 2 < |s.bars| ==> Cooled(r, s, j))
  }

  lemma TimedLater(r: Request, cs: seq<Candle>, s: State, next: int)
    requires Timed(r, cs, s, next)
    ensures Timed(r, cs, s, next + 1)
  {
    assert forall k :: 0 <= k < |s.bars| && InBar(r, cs, next, s.bars[k], s.trades[k].executedAt)
                       ==> InBar(r, cs, next + 1, s.bars[k], s.trades[k].executedAt);
  }

  lemma CloseTimed(r: Request, cs: seq<Candle>, s: State, next: int, bar: int, price: real, at: Time, reason: ExitReason)
    requires Timed(r, cs, s, next) && s.open.Some? && s.base != 0.0
    requires InBar(r, cs, next, bar, at)
    requires reason != EndOfBacktest ==> bar - s.entryIndex >= r.minHoldingBars
    requires bar > s.entryIndex || (bar == s.entryIndex && at == cs[bar].closeTime)
    ensures var t := ClosePosition(r, s, bar, price, at, reason);
      && t.Ok? && Timed(r, cs, t.value, next) && t.value.lastTrade == bar
      && |t.value.trades| == |s.trades| + 1 && t.value.trades[|s.trades|].side == (if s.base > 0.0 then Sell else Buy)
      && t.value.trades[|s.trades|].executedAt == at && t.value.bars == s.bars + [bar]
  {
    hide Settlement, Ratio, WholeSeconds, InBar;
    var t := ClosePosition(r, s, bar, price, at, reason).value;
    var n := |s.bars|;
    assert forall k :: 0 <= k < n ==> t.bars[k] == s.bars[k] && t.trades[k] == s.trades[k];
    forall k | 0 <= k < n
      ensures Follows(cs, t.trades, t.bars, k)
    {
      if k < n - 1 {
        assert Follows(cs, s.trades, s.bars, k);
      } else {
        assert InBar(r, cs, next, s.bars[k], s.trades[k].executedAt);
        BarInRange(r, cs, next, s.bars[k], s.trades[k].executedAt);
      }
    }
    forall j | 0 <= j < |t.roundTrips|
      ensures Held(r, t, j)
    {
      if j < |s.roundTrips| {
        assert Held(r, s, j);
      }
    }
    forall j | 0 <= j && 2 * j + 2 < |t.bars|
      ensures Cooled(r, t, j)
    {
      assert Cooled(r, s, j);
    }
  }

  lemma BarInRange(r: Request, cs: seq<Candle>, next: int, bar: int, at: Time)
    requires InBar(r, cs, next, bar, at)
    ensures 0 <= bar < |cs|
  {
  }

  /** The exit of this very bar, if there was one, shares the entry's fill and side. */
  ghost predicate ReversesHere(s: State, f: Fill, lastTrade: int, short: bool) {
    var n := |s.bars|;
    && |s.trades| == n >= 2 && lastTrade == s.bars[n - 2]
    && s.bars[n - 1] == f.bar && s.trades[n - 1].executedAt == f.at
    && s.trades[n - 1].side == (if short then Sell else Buy)
  }

  lemma OpenTimed(r: Request, cs: seq<Candle>, s: State, next: int, f: Fill, amount: real, quantity: real, price: real,
                  short: bool, stops: Result<Stops, DataError>, lastTrade: int)
    requires Timed(r, cs, s, next) && s.open.None? && stops.Ok? && r.cooldownBars >= 1
    requires InBar(r, cs, next, f.bar, f.at)
    requires lastTrade == s.lastTrade || ReversesHere(s, f, lastTrade, short)
    requires lastTrade < 0 || f.bar - lastTrade >= r.cooldownBars
    ensures Timed(r, cs, OpenPosition(r, s, f, amount, quantity, price, short, stops), next)
  {
    hide EntryPrice, InBar;
    var t := OpenPosition(r, s, f, amount, quantity, price, short, stops);
    var n := |s.bars|;
    assert forall k :: 0 <= k < n ==> t.bars[k] == s.bars[k] && t.trades[k] == s.trades[k];
    if n > 0 {
      BarInRange(r, cs, next, s.bars[n - 1], s.trades[n - 1].executedAt);
    }
    forall k | 0 <= k < n
      ensures Follows(cs, t.trades, t.bars, k)
    {
      if k < n - 1 {
        assert Follows(cs, s.trades, s.bars, k);
      }
    }
    forall j | 0 <= j < |t.roundTrips|
      ensures Held(r, t, j)
    {
      assert Held(r, s, j);
    }
    forall j | 0 <= j && 2 * j + 2 < |t.bars|
      ensures Cooled(r, t, j)
    {
      if 2 * j + 2 < n {
        assert Cooled(r, s, j);
      } else {
        BarInRange(r, cs, next, s.bars[n - 2], s.trades[n - 2].executedAt);
        assert Follows(cs, s.trades, s.bars, n - 2);
      }
    }
  }

  lemma FillInBar(r: Request, cs: seq<Candle>, i: int)
    requires Valid(r) && 0 <= RequiredCandles(r) - 1 <= i < |cs| && FillOf(r, cs, i).Some?
    ensures InBar(r, cs, i + 1, FillOf(r, cs, i).value.bar, FillOf(r, cs, i).value.at)
    ensures i <= FillOf(r, cs, i).value.bar <= i + 1
  {
  }

  /** An accepted run keeps the timing rules on every bar. */
  lemma BarTimed(r: Request, cs: seq<Candle>, side: Side, s: State, i: int)
    requires Ready(r, cs) && 0 <= RequiredCandles(r) - 1 <= i < |cs| && Sound(r, s) && Timed(r, cs, s, i)
    ensures Bar(r, cs, side, s, i).Ok? && Timed(r, cs, Bar(r, cs, side, s, i).value, i + 1)
  {
    hide Sound, Timed, AtrStep, SignalExit, EntryStep, Mark, Ready;
    ReadyBar(r, cs, i);
    TimedLater(r, cs, s, i);
    AtrStepSound(r, cs, s, i);
    AtrStepTimed(r, cs, s, i);
    var (t, exited) := AtrStep(r, cs, s, i).value;
    SignalExitSound(r, cs, side, t, i);
    SignalExitTimed(r, cs, side, s, t, exited, i);
    var u := SignalExit(r, cs, side, t, i).value;
    var price := ParsePositive(cs[i].close).value;
    EntryStepTimed(r, cs, side, u, s.lastTrade, exited, i, price);
    var v := EntryStep(r, cs, side, u, s.lastTrade, exited, i, price);
    MarkTimed(r, cs, v, i + 1, cs[i].closeTime, Equity(v.quote, v.base, price));
  }

  lemma ReadyBar(r: Request, cs: seq<Candle>, i: int)
    requires Ready(r, cs) && 0 <= i < |cs|
    ensures ParsePositive(cs[i].close).Ok?
  {
  }

  lemma MarkTimed(r: Request, cs: seq<Candle>, s: State, next: int, at: Time, equity: real)
    requires Timed(r, cs, s, next)
    ensures Timed(r, cs, Mark(s, at, equity), next)
  {
    var t := Mark(s, at, equity);
    assert forall j :: 0 <= j < |s.roundTrips| ==> Held(r, s, j) == Held(r, t, j);
    assert forall j :: 0 <= j && 2 * j + 2 < |s.bars| ==> Cooled(r, s, j) == Cooled(r, t, j);
  }

  lemma AtrStepTimed(r: Request, cs: seq<Candle>, s: State, i: int)
    requires Ready(r, cs) && 0 <= RequiredCandles(r) - 1 <= i < |cs| && Sound(r, s) && Timed(r, cs, s, i)
    ensures AtrStep(r, cs, s, i).Ok? && Timed(r, cs, AtrStep(r, cs, s, i).value.0, i + 1)
    ensures !AtrStep(r, cs, s, i).value.1 ==> AtrStep(r, cs, s, i).value.0 == s
    ensures AtrStep(r, cs, s, i).value.1 ==> AtrStep(r, cs, s, i).value.0.base == 0.0
  {
    hide Timed, ClosePosition, ValidSeries, Pairing, Books, Extremes;
    TimedLater(r, cs, s, i);
    AtrStepSound(r, cs, s, i);
    var exit := AtrExit(r, cs[i], s.stopLoss, s.takeProfit, s.base < 0.0);
    if s.base != 0.0 && i != s.entryIndex && CanExit(i, s.entryIndex, r.minHoldingBars) && exit.Ok? && exit.value.Some? {
      OpenEntry(r, cs, s, i);
      CloseTimed(r, cs, s, i + 1, i, exit.value.value.price, cs[i].closeTime, exit.value.value.reason);
    }
  }

  /** While a position is open, its entry bar is known and not in the future. */
  lemma OpenEntry(r: Request, cs: seq<Candle>, s: State, next: int)
    requires Pairing(r, s) && Timed(r, cs, s, next) && s.base != 0.0 && 1 <= RequiredCandles(r)
    ensures s.open.Some? && s.bars != [] && s.entryIndex == s.lastTrade == s.bars[|s.bars| - 1] >= 0
  {
    assert InBar(r, cs, next, s.bars[|s.bars| - 1], s.trades[|s.bars| - 1].executedAt);
  }

  /** After the exits of bar i, the cooldown either still counts from the last trade, or a signal
      exit has just happened and an entry now would reverse it. */
  ghost predicate ExitsDone(r: Request, cs: seq<Candle>, side: Side, s: State, lastTrade: int, exited: bool, i: int)
    requires 0 <= i < |cs|
  {
    s.base == 0.0 && !exited ==>
      || s.lastTrade == lastTrade
      || (FillOf(r, cs, i).Some? && (side == Buy || side == Sell)
          && ReversesHere(s, FillOf(r, cs, i).value, lastTrade, side == Sell))
  }

  lemma SignalExitTimed(r: Request, cs: seq<Candle>, side: Side, s: State, t: State, exited: bool, i: int)
    requires Ready(r, cs) && 0 <= RequiredCandles(r) - 1 <= i < |cs|
    requires Sound(r, t) && Timed(r, cs, t, i + 1) && (!exited ==> t == s) && (exited ==> t.base == 0.0)
    ensures var u := SignalExit(r, cs, side, t, i);
      u.Ok? && Timed(r, cs, u.value, i + 1) && ExitsDone(r, cs, side, u.value, s.lastTrade, exited, i)
  {
    hide Timed, ClosePosition, FillOf, ValidSeries, RequiredCandles, Pairing, Books, Extremes;
    SignalExitSound(r, cs, side, t, i);
    var fill := FillOf(r, cs, i);
    if Opposes(side, t.base) && CanExit(i, t.entryIndex, r.minHoldingBars) && fill.Some? {
      OpenEntry(r, cs, t, i + 1);
      FillInBar(r, cs, i);
      CloseTimed(r, cs, t, i + 1, fill.value.bar, fill.value.price, fill.value.at, if t.base > 0.0 then SellSignal else BuySignal);
      LengthsAgree(r, cs, t, i + 1);
      var u := SignalExit(r, cs, side, t, i).value;
      LengthsAgree(r, cs, u, i + 1);
      assert u.bars[|u.bars| - 2] == s.lastTrade;
    }
  }

  lemma LengthsAgree(r: Request, cs: seq<Candle>, s: State, next: int)
    requires Timed(r, cs, s, next)
    ensures |s.bars| == |s.trades|
  {
  }

  lemma EntryStepTimed(r: Request, cs: seq<Candle>, side: Side, s: State, lastTrade: int, exited: bool, i: int, price: real)
    requires Ready(r, cs) && 0 <= RequiredCandles(r) - 1 <= i < |cs|
    requires Sound(r, s) && Timed(r, cs, s, i + 1) && ExitsDone(r, cs, side, s, lastTrade, exited, i)
    ensures Timed(r, cs, EntryStep(r, cs, side, s, lastTrade, exited, i, price), i + 1)
  {
    hide Timed, PassesEntryFilters, FillOf, ValidSeries, Enter, InBar, RequiredCandles, ReversesHere;
    if s.base == 0.0 && !exited && CanEnter(i, lastTrade, r.cooldownBars) && FillOf(r, cs, i).Some? {
      FillInBar(r, cs, i);
      assert s.open.None?;
      if side == Buy {
        EnterTimed(r, cs, s, i, price, false, lastTrade);
      } else if side == Sell {
        EnterTimed(r, cs, s, i, price, true, lastTrade);
      }
    } else if FillOf(r, cs, i).None? {
      NoFillNoEntry(r, cs, s, i, price);
    }
  }

  lemma NoFillNoEntry(r: Request, cs: seq<Candle>, s: State, i: int, price: real)
    requires 0 <= i < |cs| && FillOf(r, cs, i).None?
    ensures Enter(r, cs, s, i, price, false) == s && Enter(r, cs, s, i, price, true) == s
  {
  }

  lemma EnterTimed(r: Request, cs: seq<Candle>, s: State, i: int, price: real, short: bool, lastTrade: int)
    requires Ready(r, cs) && 0 <= RequiredCandles(r) - 1 <= i < |cs| && FillOf(r, cs, i).Some?
    requires Timed(r, cs, s, i + 1) && s.open.None?
    requires InBar(r, cs, i + 1, FillOf(r, cs, i).value.bar, FillOf(r, cs, i).value.at)
    requires lastTrade == s.lastTrade || ReversesHere(s, FillOf(r, cs, i).value, lastTrade, short)
    requires lastTrade < 0 || FillOf(r, cs, i).value.bar - lastTrade >= r.cooldownBars
    ensures Timed(r, cs, Enter(r, cs, s, i, price, short), i + 1)
  {
    hide Timed, EntryPrice, EntryQuoteAmount, EntryQuantity, OpenPosition, InBar, ReversesHere, ValidSeries, Valid;
    var f := FillOf(r, cs, i).value;
    var amount := EntryQuoteAmount(r, s.quote, s.base, price);
    var entry := EntryPrice(r, f.price, short);
    var quantity := EntryQuantity(r, amount, entry);
    AtrPricesNeverFail(r, cs, i, entry, short);
    OpenTimed(r, cs, s, i + 1, f, amount, quantity, price, short, AtrExitPrices(r, cs[..i + 1], entry, short), lastTrade);
  }

  lemma {:induction false} RunTimed(r: Request, source: SignalSource, cs: seq<Candle>, upto: int)
    requires Ready(r, cs) && 1 <= RequiredCandles(r) && RequiredCandles(r) - 1 <= upto <= |cs|
    requires RunBars(r, source, cs, upto).Ok?
    ensures Timed(r, cs, RunBars(r, source, cs, upto).value, upto)
    decreases upto
  {
    hide Sound, Bar, Ready, SideAt;
    if upto > RequiredCandles(r) - 1 {
      hide Timed;
      RunTimed(r, source, cs, upto - 1);
      RunSound(r, source, cs, upto - 1);
      BarTimed(r, cs, SideAt(source, cs, upto - 1).value, RunBars(r, source, cs, upto - 1).value, upto - 1);
    }
  }

  lemma LiquidateTimed(r: Request, cs: seq<Candle>, s: State)
    requires Ready(r, cs) && 1 <= RequiredCandles(r) && Sound(r, s) && Timed(r, cs, s, |cs|)
    ensures Liquidate(r, cs, s).Ok? && Timed(r, cs, Liquidate(r, cs, s).value, |cs|)
  {
    hide Timed, ClosePosition, ValidSeries, Pairing, Books, Extremes;
    LiquidateSound(r, cs, s);
    if s.base != 0.0 {
      var last := cs[|cs| - 1];
      var price := ParsePositive(last.close).value;
      OpenEntry(r, cs, s, |cs|);
      EntryInRange(r, cs, s);
      CloseTimed(r, cs, s, |cs|, |cs| - 1, price, last.closeTime, EndOfBacktest);
      var t := ClosePosition(r, s, |cs| - 1, price, last.closeTime, EndOfBacktest).value;
      MarkTimed(r, cs, t, |cs|, last.closeTime, t.quote);
    }
  }

  lemma EntryInRange(r: Request, cs: seq<Candle>, s: State)
    requires Timed(r, cs, s, |cs|) && s.bars != []
    ensures s.bars[|s.bars| - 1] < |cs|
  {
    assert InBar(r, cs, |cs|, s.bars[|s.bars| - 1], s.trades[|s.bars| - 1].executedAt);
  }

  // Consequences -------------------------------------------------------------------------------------------

  /** Closes never precede opens, and no candle opens before the previous one has closed. */
  ghost predicate Chronological(cs: seq<Candle>) {
    && (forall i :: 0 <= i < |cs| ==> cs[i].openTime <= cs[i].closeTime)
    && (forall i, j :: 0 <= i < j < |cs| ==> cs[i].closeTime <= cs[j].openTime)
  }

  /** Trades are executed in the order they are recorded. */
  lemma {:induction false} FillTimesNeverDecrease(r: Request, cs: seq<Candle>, s: State, next: int, j: int, k: int)
    requires Timed(r, cs, s, next) && Chronological(cs) && 0 <= j <= k < |s.trades|
    ensures s.trades[j].executedAt <= s.trades[k].executedAt
    decreases k
  {
    if j < k {
      FillTimesNeverDecrease(r, cs, s, next, j, k - 1);
      assert Follows(cs, s.trades, s.bars, k - 1);
      assert InBar(r, cs, next, s.bars[k - 1], s.trades[k - 1].executedAt);
      assert InBar(r, cs, next, s.bars[k], s.trades[k].executedAt);
    }
  }

  lemma {:induction false} EntriesSpread(r: Request, cs: seq<Candle>, s: State, next: int, j: int)
    requires Timed(r, cs, s, next) && 0 <= j && 2 * j < |s.bars|
    ensures s.bars[2 * j] >= RequiredCandles(r) - 1 + j * r.cooldownBars
    decreases j
  {
    assert InBar(r, cs, next, s.bars[0], s.trades[0].executedAt);
    if j > 0 {
      EntriesSpread(r, cs, s, next, j - 1);
      assert Cooled(r, s, j - 1);
      assert (j - 1) * r.cooldownBars + r.cooldownBars == j * r.cooldownBars;
    }
  }

  /** The cooldown caps how many round trips a series has room for. */
  lemma RoundTripsBounded(r: Request, cs: seq<Candle>, s: State, next: int)
    requires Timed(r, cs, s, next) && s.roundTrips != []
    ensures (|s.roundTrips| - 1) * r.cooldownBars <= |cs| - RequiredCandles(r)
  {
    var j := |s.roundTrips| - 1;
    EntriesSpread(r, cs, s, next, j);
    assert InBar(r, cs, next, s.bars[2 * j], s.trades[2 * j].executedAt);
  }

  /** With shorting off the cooldown counts from every trade, exits included. With shorting on it does not:
      a reversal enters on the bar of the exit, as `Cooled` allows. */
  lemma LongOnlyCooldown(r: Request, cs: seq<Candle>, s: State, next: int, j: int)
    requires Timed(r, cs, s, next) && Pairing(r, s) && !r.shorting && 0 <= j && 2 * j + 2 < |s.bars|
    ensures s.bars[2 * j + 2] - s.bars[2 * j + 1] >= r.cooldownBars
  {
    assert Cooled(r, s, j);
    assert Paired(s.trades[2 * j], s.trades[2 * j + 1], s.roundTrips[j]);
    if j + 1 < |s.roundTrips| {
      assert Paired(s.trades[2 * (j + 1)], s.trades[2 * (j + 1) + 1], s.roundTrips[j + 1]);
    }
  }

  /** After an exit the next entry waits a cooldown in every case but one: when it is on the exit's own bar. */
  lemma CooldownUnlessReversal(r: Request, cs: seq<Candle>, s: State, next: int, j: int)
    requires Timed(r, cs, s, next) && r.cooldownBars >= 1 && 0 <= j && 2 * j + 2 < |s.bars|
    ensures s.bars[2 * j + 2] - s.bars[2 * j + 1] >= r.cooldownBars <==> s.bars[2 * j + 2] != s.bars[2 * j + 1]
  {
    assert Cooled(r, s, j);
  }
}
