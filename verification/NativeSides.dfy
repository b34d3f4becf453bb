/** What the native RSI strategy makes of prices (internal/strategy/rsi.go:29-58, 85-143). */
module NativeSides {
  import opened Common
  import opened RealArithmetic
  import opened MarketData
  import opened Signals
  import opened Indicators
  import opened Native

  // Falling and rising prices ----------------------------------------------------------------------------------------

  predicate Falls(src: seq<real>) {
    forall i :: 0 < i < |src| ==> src[i] < src[i - 1]
  }

  predicate Rises(src: seq<real>) {
    forall i :: 0 < i < |src| ==> src[i] > src[i - 1]
  }

  lemma {:induction false} SumOfZeros(s: seq<real>)
    requires forall i :: 0 <= i < |s| ==> s[i] == 0.0
    ensures Sum(s) == 0.0
    decreases |s|
  {
    if s != [] {
      SumOfZeros(s[..|s| - 1]);
    }
  }

  lemma {:induction false} SumOfPositives(s: seq<real>)
    requires s != [] && forall i :: 0 <= i < |s| ==> s[i] > 0.0
    ensures Sum(s) > 0.0
    decreases |s|
  {
    if |s| == 1 {
      assert s == [] + [s[0]];
      SumAppend([], s[0]);
    } else {
      SumOfPositives(s[..|s| - 1]);
    }
  }

  lemma SmoothedZero(period: int)
    requires period > 0
    ensures Smooth(0.0, 0.0, period) == 0.0
  {
  }

  lemma SmoothedPositive(average: real, value: real, period: int)
    requires period > 0 && average > 0.0 && value > 0.0
    ensures Smooth(average, value, period) > 0.0
  {
    ProductNonNegative(average, (period - 1) as real);
    PositiveShare(average * (period - 1) as real + value, period as real);
  }

  lemma PositiveShare(a: real, b: real)
    requires a > 0.0 && b > 0.0
    ensures a / b > 0.0
  {
    QuotientTimes(a, b);
    if a / b <= 0.0 {
      ProductNonNegative(-(a / b), b);
    }
  }

  lemma FallsAt(src: seq<real>, i: int)
    requires Falls(src) && 0 < i < |src|
    ensures src[i] < src[i - 1]
  {
  }

  lemma RisesAt(src: seq<real>, i: int)
    requires Rises(src) && 0 < i < |src|
    ensures src[i] > src[i - 1]
  {
  }

  lemma FallingMoves(src: seq<real>, n: nat)
    requires Falls(src) && 0 < n < |src|
    ensures Sum(Gains(src, n)) == 0.0 && Sum(Losses(src, n)) > 0.0
  {
    hide Sum, Falls;
    forall k | 0 <= k < n
      ensures Gains(src, n)[k] == 0.0 && Losses(src, n)[k] > 0.0
    {
      FallsAt(src, k + 1);
    }
    SumOfZeros(Gains(src, n));
    SumOfPositives(Losses(src, n));
  }

  lemma RisingMoves(src: seq<real>, n: nat)
    requires Rises(src) && 0 < n < |src|
    ensures Sum(Gains(src, n)) > 0.0 && Sum(Losses(src, n)) == 0.0
  {
    hide Sum, Rises;
    forall k | 0 <= k < n
      ensures Gains(src, n)[k] > 0.0 && Losses(src, n)[k] == 0.0
    {
      RisesAt(src, k + 1);
    }
    SumOfPositives(Gains(src, n));
    SumOfZeros(Losses(src, n));
  }

  /** Prices that fall gain nothing and lose something. */
  lemma {:induction false} FallingAverages(src: seq<real>, period: int, i: int)
    requires Falls(src) && 0 < period <= i < |src|
    ensures AverageGain(src, period, i) == 0.0 && AverageLoss(src, period, i) > 0.0
    decreases i
  {
    hide Smooth, Sum, AverageGain, AverageLoss, Gains, Losses;
    if i == period {
      SeedAverages(src, period);
      FallingMoves(src, period);
      PositiveShare(Sum(Losses(src, period)), period as real);
    } else {
      FallingAverages(src, period, i - 1);
      NextAverages(src, period, i);
      SmoothedZero(period);
      SmoothedPositive(AverageLoss(src, period, i - 1), Loss(src[i] - src[i - 1]), period);
    }
  }

  lemma {:induction false} RisingAverages(src: seq<real>, period: int, i: int)
    requires Rises(src) && 0 < period <= i < |src|
    ensures AverageGain(src, period, i) > 0.0 && AverageLoss(src, period, i) == 0.0
    decreases i
  {
    hide Smooth, Sum, AverageGain, AverageLoss, Gains, Losses;
    if i == period {
      SeedAverages(src, period);
      RisingMoves(src, period);
      PositiveShare(Sum(Gains(src, period)), period as real);
    } else {
      RisingAverages(src, period, i - 1);
      NextAverages(src, period, i);
      SmoothedZero(period);
      SmoothedPositive(AverageGain(src, period, i - 1), Gain(src[i] - src[i - 1]), period);
    }
  }

  /** The index is 0 while prices fall and 100 while they rise. */
  lemma RsiExtremes(src: seq<real>, period: int, i: int)
    requires 0 < period <= i < |src|
    ensures Falls(src) ==> RsiAt(src, period, i) == 0.0
    ensures Rises(src) ==> RsiAt(src, period, i) == 100.0
  {
    hide AverageGain, AverageLoss;
    AveragesNonNegative(src, period, i);
    if Falls(src) {
      FallingAverages(src, period, i);
    }
    if Rises(src) {
      RisingAverages(src, period, i);
    }
  }

  // Sides ---------------------------------------------------------------------------------------------------------------

  /** The candles the strategy looks at. */
  function Looked(cs: seq<Candle>): seq<Candle> {
    if |cs| <= 250 then cs else cs[|cs| - 250..]
  }

  /** A request the strategy accepts, on a window it can evaluate. */
  predicate Decidable(period: int, oversold: real, overbought: real, cs: seq<Candle>) {
    0 < period < 250 && period < |cs| && Parsed(cs) && 0.0 < oversold < overbought < 100.0
  }

  /** Buy exactly when the index of the last closes is at most the oversold threshold, sell exactly when it is at least
      the overbought one. */
  lemma ReversionSide(period: int, oversold: real, overbought: real, cs: seq<Candle>)
    requires Decidable(period, oversold, overbought, cs)
    ensures var (r, closes) := (RsiReversion(period, oversold, overbought, cs), Closes(Looked(cs)));
      && r.Ok? && |closes| == |Looked(cs)| > period
      && var index := Rsi(closes, period)[|closes| - 1];
         && (r.value == Buy <==> index <= oversold) && (r.value == Sell <==> index >= overbought)
         && (r.value == Hold <==> oversold < index < overbought)
  {
    hide Rsi;
    var window := Looked(cs);
    assert Parsed(window) && |window| > period;
    assert NativeRsi(window, period).Ok?;
  }

  /** Steadily falling closes buy, and steadily rising ones sell, whatever the period and the thresholds. */
  lemma ReversionExtremes(period: int, oversold: real, overbought: real, cs: seq<Candle>)
    requires Decidable(period, oversold, overbought, cs)
    ensures Falls(Closes(cs)) ==> RsiReversion(period, oversold, overbought, cs) == Ok(Buy)
    ensures Rises(Closes(cs)) ==> RsiReversion(period, oversold, overbought, cs) == Ok(Sell)
  {
    hide RsiReversion, RsiAt, Parsed;
    ReversionSide(period, oversold, overbought, cs);
    var closes := Closes(Looked(cs));
    var offset := |cs| - |closes|;
    assert forall i :: 0 <= i < |closes| ==> closes[i] == Closes(cs)[offset + i];
    RsiExtremes(closes, period, |closes| - 1);
  }
}
