/** A short run whose account goes below zero, where the drawdown kept in one pass misses a deeper fall. */
module BacktestShortfall {
  import opened Common
  import opened MarketData
  import opened CandleSeries
  import opened Signals
  import opened Native
  import opened BacktestRequest
  import opened BacktestModel
  import opened BacktestAccounting
  import opened BacktestDrawdown
  import opened BacktestReversal

  const RISE: seq<Candle> :=
    [Minute(0, 10.0), Minute(1, 14.0), Minute(2, 12.0), Minute(3, 18.0), Minute(4, 26.0)]

  /** As in the reversal, but a position is held for five bars. */
  const HOLDING: Request := SHORTING.(minHoldingBars := 5)

  /** Sell at 12; the buy signal at 18 comes too early to exit on. */
  lemma SidesOfRise()
    ensures SideAt(Windows(HOLDING), RISE, 2) == Ok(Sell)
    ensures SideAt(Windows(HOLDING), RISE, 3) == Ok(Buy)
    ensures SideAt(Windows(HOLDING), RISE, 4) == Ok(Hold)
  {
    hide SmaCrossover;
    SideOfThree(RISE[..3], 10.0, 14.0, 12.0);
    SideOfThree(RISE[..4], 14.0, 12.0, 18.0);
    SideOfThree(RISE[..5], 12.0, 18.0, 26.0);
  }

  lemma RiseReady()
    ensures Ready(HOLDING, RISE) && RequiredCandles(HOLDING) == 3 && Normalize(HOLDING) == HOLDING
  {
    assert forall i :: 0 <= i < 5 ==> ValidOHLC(RISE[i]) && RISE[i].openTime == (i + 1) * MINUTE;
  }

  /** One unit sold short on bar 2 for 12, with the account's values so far. */
  predicate OwesOne(s: State, values: seq<real>) {
    && s.base == -1.0 && s.quote == 24.0 && s.entryIndex == 2
    && s.peak == 12.0 && Values(12.0, s.curve) == values
  }

  lemma Marked(s: State, values: seq<real>, at: Time, equity: real)
    requires OwesOne(s, values) && equity <= 12.0
    ensures OwesOne(Mark(s, at, equity), values + [equity])
    ensures Mark(s, at, equity).maxDrawdown == Max(s.maxDrawdown, Drawdown(12.0, equity))
  {
    hide Drawdown;
    assert Values(12.0, Mark(s, at, equity).curve) == values + [equity];
  }

  lemma SellsShort()
    ensures var s := Bar(HOLDING, RISE, Sell, Initial(HOLDING), 2);
      s.Ok? && OwesOne(s.value, [12.0, 12.0]) && s.value.maxDrawdown == 0.0
  {
    hide Drawdown, SlippageOn;
    var s := Initial(HOLDING);
    assert FillOf(HOLDING, RISE, 2) == Some(Fill(2, 12.0, RISE[2].closeTime));
    assert EntryPrice(HOLDING, 12.0, true) == 12.0 && EntryQuantity(HOLDING, 12.0, 12.0) == 1.0;
    var t := Enter(HOLDING, RISE, s, 2, 12.0, true);
    assert Values(12.0, t.curve) == [12.0];
    assert OwesOne(t, [12.0]) && t.maxDrawdown == 0.0;
    hide Enter;
    assert EntryStep(HOLDING, RISE, Sell, s, -1, false, 2, 12.0) == t;
    hide EntryStep;
    assert AtrStep(HOLDING, RISE, s, 2) == Ok((s, false)) && SignalExit(HOLDING, RISE, Sell, s, 2) == Ok(s);
    Marked(t, [12.0], RISE[2].closeTime, 12.0);
    NoFall(12.0);
  }

  lemma StaysShort(s: State, values: seq<real>, side: Side, i: int, price: real)
    requires OwesOne(s, values) && 3 <= i < 5 && RISE[i].close == Number(price) && price >= 12.0
    ensures var t := Bar(HOLDING, RISE, side, s, i);
      && t.Ok? && OwesOne(t.value, values + [24.0 - price])
      && t.value.maxDrawdown == Max(s.maxDrawdown, Drawdown(12.0, 24.0 - price))
  {
    hide Drawdown, Mark;
    assert AtrStep(HOLDING, RISE, s, i) == Ok((s, false)) && SignalExit(HOLDING, RISE, side, s, i) == Ok(s);
    assert EntryStep(HOLDING, RISE, side, s, s.lastTrade, false, i, price) == s;
    Marked(s, values, RISE[i].closeTime, 24.0 - price);
    assert Equity(s.quote, s.base, price) == 24.0 - price;
  }

  /** The account goes 12, 12, 6, -2. The drawdown kept is the fall from 12 to -2; the one from 6 to -2 is deeper. */
  lemma ShortfallHappens()
    ensures Ready(HOLDING, RISE) && Normalize(HOLDING) == HOLDING && RequiredCandles(HOLDING) == 3
    ensures var s := RunBars(HOLDING, Windows(HOLDING), RISE, |RISE|);
      && s.Ok? && Tracked(HOLDING, s.value) && Values(12.0, s.value.curve) == [12.0, 12.0, 6.0, -2.0]
      && s.value.maxDrawdown == Drawdown(12.0, -2.0) < Drawdown(6.0, -2.0) && !BoundsEveryFall(HOLDING, s.value)
  {
    RiseReady();
    SidesOfRise();
    SellsShort();
    var source := Windows(HOLDING);
    hide Bar, Ready, SideAt, Initial, OwesOne, Tracked, BoundsEveryFall;
    var s := RunBars(HOLDING, source, RISE, 3).value;
    StaysShort(s, [12.0, 12.0], Buy, 3, 18.0);
    var t := RunBars(HOLDING, source, RISE, 4).value;
    StaysShort(t, [12.0, 12.0] + [6.0], Hold, 4, 26.0);
    RunTracked(HOLDING, source, RISE, 5);
    MissedFall(RunBars(HOLDING, source, RISE, 5).value);
  }

  lemma MissedFall(s: State)
    requires OwesOne(s, [12.0, 12.0] + [6.0] + [-2.0]) && Tracked(HOLDING, s)
    requires s.maxDrawdown == Max(Max(0.0, Drawdown(12.0, 6.0)), Drawdown(12.0, -2.0))
    ensures Values(12.0, s.curve) == [12.0, 12.0, 6.0, -2.0]
    ensures s.maxDrawdown == Drawdown(12.0, -2.0) < Drawdown(6.0, -2.0) && !BoundsEveryFall(HOLDING, s)
  {
    var values := Values(12.0, s.curve);
    assert values[2] == 6.0 && values[3] == -2.0;
  }
}
