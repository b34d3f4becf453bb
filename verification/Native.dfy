/** The built-in SMA crossover and RSI strategies (internal/strategy/sma.go, rsi.go).
    The engine hands them the window of candles that ends at the current bar. */
module Native {
  import opened Common
  import opened MarketData
  import opened Signals
  import opened Indicators

  predicate Parsed(cs: seq<Candle>) {
    forall i :: 0 <= i < |cs| ==> cs[i].close.Number?
  }

  function Closes(cs: seq<Candle>): seq<real> {
    seq(|cs|, i requires 0 <= i < |cs| => OrZero(cs[i].close))
  }

  function AverageClose(cs: seq<Candle>): Result<real, StrategyError> {
    if cs == [] then Err(NoCandles)
    else if !Parsed(cs) then Err(Data(BadField))
    else Ok(Mean(Closes(cs)))
  }

  /** averageClose, which sums until a close cannot be parsed. */
  method ComputeAverageClose(cs: seq<Candle>) returns (r: Result<real, StrategyError>)
    ensures r == AverageClose(cs)
  {
    if |cs| == 0 {
      return Err(NoCandles);
    }
    var total := 0.0;
    for i := 0 to |cs|
      invariant Parsed(cs[..i])
      invariant total == Sum(Closes(cs)[..i])
    {
      var value := ParseField(cs[i].close);
      if value.Err? {
        return Err(Data(value.error));
      }
      assert Closes(cs)[..i + 1] == Closes(cs)[..i] + [value.value];
      SumAppend(Closes(cs)[..i], value.value);
      total := total + value.value;
    }
    assert cs[..|cs|] == cs && Closes(cs)[..|cs|] == Closes(cs);
    return Ok(total / |cs| as real);
  }

  /** Both crossings ask for a gap of more than 0.01% of the slow average. */
  function CrossSide(previousFast: real, previousSlow: real, currentFast: real, currentSlow: real): Side {
    var minGap := currentSlow * MIN_GAP;
    if previousFast > previousSlow && currentFast < currentSlow && currentSlow - currentFast > minGap then Sell
    else if previousFast < previousSlow && currentFast > currentSlow && currentFast - currentSlow > minGap then Buy
    else Hold
  }

  function SmaCrossover(fast: int, slow: int, cs: seq<Candle>): Result<Side, StrategyError> {
    if fast <= 0 || slow <= 0 then Err(BadPeriods)
    else if fast >= slow then Err(BadPeriods)
    else if |cs| < slow + 1 then Err(TooFewCandles)
    else
      var previousFast :- AverageClose(cs[|cs| - fast - 1..|cs| - 1]);
      var previousSlow :- AverageClose(cs[|cs| - slow - 1..|cs| - 1]);
      var currentFast :- AverageClose(cs[|cs| - fast..]);
      var currentSlow :- AverageClose(cs[|cs| - slow..]);
      Ok(CrossSide(previousFast, previousSlow, currentFast, currentSlow))
  }

  /** Wilder's RSI of the last close of a window: the value the native strategy trades on. */
  function NativeRsi(cs: seq<Candle>, period: int): (r: Result<real, StrategyError>)
    ensures r.Ok? <==> 0 < period < |cs| && Parsed(cs)
    ensures r.Ok? ==> r.value == Rsi(Closes(cs), period)[|cs| - 1]
  {
    if period <= 0 then Err(BadPeriods)
    else if |cs| < period + 1 then Err(TooFewCandles)
    else if !Parsed(cs) then Err(Data(BadField))
    else
      AveragesNonNegative(Closes(cs), period, |cs| - 1);
      Ok(NativeStrength(AverageGain(Closes(cs), period, |cs| - 1), AverageLoss(Closes(cs), period, |cs| - 1)))
  }

  /** The native form tests for a zero gain before dividing; the Pine form does not. */
  function NativeStrength(gain: real, loss: real): (r: real)
    requires gain >= 0.0 && loss >= 0.0
    ensures r == Strength(gain, loss)
  {
    if loss == 0.0 then (if gain == 0.0 then 50.0 else 100.0)
    else if gain == 0.0 then 0.0
    else 100.0 - 100.0 / (1.0 + gain / loss)
  }

  /** Bar by bar changes; entry 0 pads the sequence, since bar 0 has none. */
  method CollectChanges(cs: seq<Candle>) returns (r: Result<seq<real>, StrategyError>)
    requires |cs| > 1
    ensures if Parsed(cs)
            then r.Ok? && |r.value| == |cs| &&
                 forall k :: 1 <= k < |cs| ==> r.value[k] == Closes(cs)[k] - Closes(cs)[k - 1]
            else r == Err(Data(BadField))
  {
    var changes: seq<real> := [0.0];
    for i := 1 to |cs|
      invariant |changes| == i
      invariant i > 1 ==> Parsed(cs[..i])
      invariant forall k :: 1 <= k < i ==> changes[k] == Closes(cs)[k] - Closes(cs)[k - 1]
    {
      var prev := ParseField(cs[i - 1].close);
      if prev.Err? {
        return Err(Data(prev.error));
      }
      var cur := ParseField(cs[i].close);
      if cur.Err? {
        return Err(Data(cur.error));
      }
      changes := changes + [cur.value - prev.value];
    }
    assert cs[..|cs|] == cs;
    return Ok(changes);
  }

  /** The loops of `rsi`: collect the changes, seed the averages, smooth the rest. */
  method ComputeRsi(cs: seq<Candle>, period: int) returns (r: Result<real, StrategyError>)
    ensures r == NativeRsi(cs, period)
  {
    hide Smooth, NativeStrength, Strength, Gain, Loss, Sum, Gains, Losses, AverageGain, AverageLoss, Closes, Parsed;
    if period <= 0 {
      return Err(BadPeriods);
    }
    if |cs| < period + 1 {
      return Err(TooFewCandles);
    }
    var collected := CollectChanges(cs);
    if collected.Err? {
      return Err(collected.error);
    }
    var changes := collected.value;
    ClosesLength(cs);
    var gains, losses := TotalMoves(Closes(cs), changes, period);
    var avgGain, avgLoss := gains / period as real, losses / period as real;
    SeedAverages(Closes(cs), period);
    for i := period + 1 to |cs|
      invariant avgGain == AverageGain(Closes(cs), period, i - 1) && avgLoss == AverageLoss(Closes(cs), period, i - 1)
    {
      NextAverages(Closes(cs), period, i);
      avgGain := Smooth(avgGain, Gain(changes[i]), period);
      avgLoss := Smooth(avgLoss, Loss(changes[i]), period);
    }
    AveragesNonNegative(Closes(cs), period, |cs| - 1);
    return Ok(NativeStrength(avgGain, avgLoss));
  }

  lemma ClosesLength(cs: seq<Candle>)
    ensures |Closes(cs)| == |cs|
  {
  }

  lemma SeedAverages(src: seq<real>, period: int)
    requires 0 < period < |src|
    ensures AverageGain(src, period, period) == Sum(Gains(src, period)) / period as real
    ensures AverageLoss(src, period, period) == Sum(Losses(src, period)) / period as real
  {
  }

  lemma NextAverages(src: seq<real>, period: int, i: int)
    requires 0 < period < i < |src|
    ensures AverageGain(src, period, i) == Smooth(AverageGain(src, period, i - 1), Gain(src[i] - src[i - 1]), period)
    ensures AverageLoss(src, period, i) == Smooth(AverageLoss(src, period, i - 1), Loss(src[i] - src[i - 1]), period)
  {
  }

  const RSI_LOOKBACK: nat := 250

  function RsiReversion(period: int, oversold: real, overbought: real, cs: seq<Candle>): Result<Side, StrategyError> {
    if period <= 0 then Err(BadPeriods)
    else if oversold <= 0.0 || overbought <= oversold || overbought >= 100.0 then Err(BadThresholds)
    else if |cs| < period + 1 then Err(TooFewCandles)
    else
      var window := if |cs| > RSI_LOOKBACK then cs[|cs| - RSI_LOOKBACK..] else cs;
      var value :- NativeRsi(window, period);
      Ok(if value >= overbought then Sell else if value <= oversold then Buy else Hold)
  }
}
