/** The six indicators of the Pine evaluator (internal/strategy/pine_evaluator.go:239-408).
    Each is specified bar by bar, with no mention of the running totals the code keeps,
    and each array-filling method is proved to produce that series. */
module Indicators {
  import opened Common
  import opened MarketData

  function Square(x: real): real {
    x * x
  }

  function Mean(s: seq<real>): real
    requires s != []
  {
    Sum(s) / |s| as real
  }

  /** The last `period` values up to and including bar i. */
  function Window(src: seq<real>, period: int, i: int): seq<real>
    requires 0 < period <= i + 1 <= |src|
  {
    src[i + 1 - period..i + 1]
  }

  // Simple moving average ----------------------------------------------------------------

  function SmaAt(src: seq<real>, period: int, i: int): real
    requires 0 <= i < |src|
  {
    if period <= 0 || i + 1 < period then 0.0 else Mean(Window(src, period, i))
  }

  function Sma(src: seq<real>, period: int): seq<real> {
    seq(|src|, i requires 0 <= i < |src| => SmaAt(src, period, i))
  }

  lemma SlideWindow(src: seq<real>, period: int, i: int)
    requires 0 < period <= i < |src|
    ensures Sum(Window(src, period, i)) == Sum(Window(src, period, i - 1)) - src[i - period] + src[i]
    ensures SmaAt(src, period, i) == Sum(Window(src, period, i)) / period as real
  {
    SumSlide(src, i - period, i);
  }

  method CalculateSMA(src: seq<real>, period: int) returns (out: array<real>)
    ensures fresh(out) && out[..] == Sma(src, period)
  {
    out := new real[|src|](_ => 0.0);
    if period <= 0 || |src| < period {
      return;
    }
    var sum := 0.0;
    for i := 0 to period
      invariant sum == Sum(src[..i])
      invariant forall k :: 0 <= k < |src| ==> out[k] == 0.0
    {
      assert src[..i + 1] == src[..i] + [src[i]];
      SumAppend(src[..i], src[i]);
      sum := sum + src[i];
    }
    assert Window(src, period, period - 1) == src[..period];
    out[period - 1] := sum / period as real;
    hide Sum, Mean, Window, SmaAt;
    for i := period to |src|
      invariant sum == Sum(Window(src, period, i - 1))
      invariant forall k :: 0 <= k < i ==> out[k] == SmaAt(src, period, k)
    {
      SlideWindow(src, period, i);
      sum := sum - src[i - period] + src[i];
      out[i] := sum / period as real;
    }
  }

  // Exponential moving average -----------------------------------------------------------

  function Pull(average: real, value: real, multiplier: real): real {
    (value - average) * multiplier + average
  }

  /** Seeded with a simple mean at bar period - 1, then pulled towards each new value. */
  function EmaAt(src: seq<real>, period: int, i: int): real
    requires 0 <= i < |src|
  {
    if period <= 0 || i + 1 < period then 0.0
    else if i + 1 == period then Mean(src[..period])
    else Pull(EmaAt(src, period, i - 1), src[i], 2.0 / (period + 1) as real)
  }

  function Ema(src: seq<real>, period: int): seq<real> {
    seq(|src|, i requires 0 <= i < |src| => EmaAt(src, period, i))
  }

  lemma EmaRecurrence(src: seq<real>, period: int, i: int)
    requires 0 < period <= i < |src|
    ensures EmaAt(src, period, i) == Pull(EmaAt(src, period, i - 1), src[i], 2.0 / (period + 1) as real)
  {
  }

  method CalculateEMA(src: seq<real>, period: int) returns (out: array<real>)
    ensures fresh(out) && out[..] == Ema(src, period)
  {
    hide Pull;
    out := new real[|src|](_ => 0.0);
    if period <= 0 || |src| < period {
      return;
    }
    var sum := 0.0;
    for i := 0 to period
      invariant sum == Sum(src[..i])
      invariant forall k :: 0 <= k < |src| ==> out[k] == 0.0
    {
      assert src[..i + 1] == src[..i] + [src[i]];
      SumAppend(src[..i], src[i]);
      sum := sum + src[i];
    }
    out[period - 1] := sum / period as real;
    var multiplier := 2.0 / (period + 1) as real;
    assert forall k :: 0 <= k < period ==> out[k] == EmaAt(src, period, k);
    hide EmaAt, Sum;
    for i := period to |src|
      invariant forall k :: 0 <= k < i ==> out[k] == EmaAt(src, period, k)
    {
      EmaRecurrence(src, period, i);
      out[i] := Pull(out[i - 1], src[i], multiplier);
    }
  }

  // Relative strength index ----------------------------------------------------------------

  function Gain(change: real): (r: real)
    ensures r >= 0.0
  {
    if change > 0.0 then change else 0.0
  }

  function Loss(change: real): (r: real)
    ensures r >= 0.0
  {
    if change < 0.0 then -change else 0.0
  }

  /** The gains of the first n changes: bar k against bar k - 1, for k = 1..n. */
  function Gains(src: seq<real>, n: nat): (r: seq<real>)
    requires n < |src|
  {
    seq(n, k requires 0 <= k < n => Gain(src[k + 1] - src[k]))
  }

  function Losses(src: seq<real>, n: nat): (r: seq<real>)
    requires n < |src|
  {
    seq(n, k requires 0 <= k < n => Loss(src[k + 1] - src[k]))
  }

  /** One step of Wilder's smoothing: the old average keeps period - 1 parts of the weight. */
  function Smooth(average: real, value: real, period: int): real
    requires period > 0
  {
    (average * (period - 1) as real + value) / period as real
  }

  lemma SmoothNonNegative(average: real, value: real, period: int)
    requires period > 0 && average >= 0.0 && value >= 0.0
    ensures Smooth(average, value, period) >= 0.0
  {
    assert average * (period - 1) as real >= 0.0;
  }

  /** Wilder's smoothing of the gains: a mean over the first period, then a decaying average. */
  function AverageGain(src: seq<real>, period: int, i: int): real
    requires 0 < period <= i < |src|
  {
    if i == period then Sum(Gains(src, period)) / period as real
    else Smooth(AverageGain(src, period, i - 1), Gain(src[i] - src[i - 1]), period)
  }

  function AverageLoss(src: seq<real>, period: int, i: int): real
    requires 0 < period <= i < |src|
  {
    if i == period then Sum(Losses(src, period)) / period as real
    else Smooth(AverageLoss(src, period, i - 1), Loss(src[i] - src[i - 1]), period)
  }

  function Strength(gain: real, loss: real): real
    requires gain >= 0.0 && loss >= 0.0
  {
    if loss == 0.0 then (if gain == 0.0 then 50.0 else 100.0)
    else 100.0 - 100.0 / (1.0 + gain / loss)
  }

  lemma {:induction false} AveragesNonNegative(src: seq<real>, period: int, i: int)
    requires 0 < period <= i < |src|
    ensures AverageGain(src, period, i) >= 0.0 && AverageLoss(src, period, i) >= 0.0
    decreases i
  {
    hide Smooth;
    if i == period {
      SumNonNegative(Gains(src, period));
      SumNonNegative(Losses(src, period));
    } else {
      AveragesNonNegative(src, period, i - 1);
      SmoothNonNegative(AverageGain(src, period, i - 1), Gain(src[i] - src[i - 1]), period);
      SmoothNonNegative(AverageLoss(src, period, i - 1), Loss(src[i] - src[i - 1]), period);
    }
  }

  function RsiAt(src: seq<real>, period: int, i: int): real
    requires 0 <= i < |src|
  {
    if period <= 0 || i < period then 0.0
    else
      AveragesNonNegative(src, period, i);
      Strength(AverageGain(src, period, i), AverageLoss(src, period, i))
  }

  function Rsi(src: seq<real>, period: int): seq<real> {
    seq(|src|, i requires 0 <= i < |src| => RsiAt(src, period, i))
  }

  /** Whatever the prices, the index lies between 0 and 100. */
  lemma RsiBounded(src: seq<real>, period: int, i: int)
    requires 0 <= i < |src|
    ensures 0.0 <= RsiAt(src, period, i) <= 100.0
  {
    if period > 0 && i >= period {
      AveragesNonNegative(src, period, i);
      StrengthBounded(AverageGain(src, period, i), AverageLoss(src, period, i));
    }
  }

  lemma StrengthBounded(gain: real, loss: real)
    requires gain >= 0.0 && loss >= 0.0
    ensures 0.0 <= Strength(gain, loss) <= 100.0
  {
    if loss > 0.0 {
      var rs := gain / loss;
      assert rs >= 0.0;
      assert 0.0 < 100.0 / (1.0 + rs) <= 100.0;
    }
  }

  lemma NoMoves(src: seq<real>)
    requires src != []
    ensures Sum(Gains(src, 0)) == 0.0 == Sum(Losses(src, 0))
  {
  }

  lemma OneMoreMove(src: seq<real>, i: nat)
    requires 1 <= i < |src|
    ensures Sum(Gains(src, i)) == Sum(Gains(src, i - 1)) + Gain(src[i] - src[i - 1])
    ensures Sum(Losses(src, i)) == Sum(Losses(src, i - 1)) + Loss(src[i] - src[i - 1])
  {
    hide Sum, Gain, Loss;
    var c := src[i] - src[i - 1];
    assert Gains(src, i) == Gains(src, i - 1) + [Gain(c)];
    assert Losses(src, i) == Losses(src, i - 1) + [Loss(c)];
    SumAppend(Gains(src, i - 1), Gain(c));
    SumAppend(Losses(src, i - 1), Loss(c));
  }

  /** The seeding loop: total gain and total loss of the first n changes. */
  method TotalMoves(ghost src: seq<real>, changes: seq<real>, n: nat) returns (gains: real, losses: real)
    requires n < |src| == |changes|
    requires forall k :: 1 <= k <= n ==> changes[k] == src[k] - src[k - 1]
    ensures gains == Sum(Gains(src, n)) && losses == Sum(Losses(src, n))
  {
    hide Gains, Losses;
    gains, losses := 0.0, 0.0;
    NoMoves(src);
    for i := 1 to n + 1
      invariant gains == Sum(Gains(src, i - 1)) && losses == Sum(Losses(src, i - 1))
    {
      var c := changes[i];
      OneMoreMove(src, i);
      if c > 0.0 {
        gains := gains + c;
      } else if c < 0.0 {
        losses := losses + -c;
      }
    }
  }

  method Changes(src: seq<real>) returns (changes: array<real>)
    requires src != []
    ensures fresh(changes) && changes.Length == |src|
    ensures forall k :: 1 <= k < |src| ==> changes[k] == src[k] - src[k - 1]
  {
    changes := new real[|src|](_ => 0.0);
    for i := 1 to |src|
      invariant forall k :: 1 <= k < i ==> changes[k] == src[k] - src[k - 1]
    {
      changes[i] := src[i] - src[i - 1];
    }
  }

  method CalculateRSI(src: seq<real>, period: int) returns (out: array<real>)
    ensures fresh(out) && out[..] == Rsi(src, period)
  {
    hide Smooth, Strength, Gain, Loss, Sum;
    out := new real[|src|](_ => 0.0);
    if period <= 0 || |src| < period + 1 {
      return;
    }
    var moves := Changes(src);
    var changes := moves[..];
    var gains, losses := TotalMoves(src, changes, period);
    var avgGain, avgLoss := gains / period as real, losses / period as real;
    AveragesNonNegative(src, period, period);
    out[period] := Strength(avgGain, avgLoss);
    for i := period + 1 to |src|
      invariant avgGain == AverageGain(src, period, i - 1) && avgLoss == AverageLoss(src, period, i - 1)
      invariant forall k :: 0 <= k < i ==> out[k] == RsiAt(src, period, k)
    {
      avgGain := Smooth(avgGain, Gain(changes[i]), period);
      avgLoss := Smooth(avgLoss, Loss(changes[i]), period);
      AveragesNonNegative(src, period, i);
      out[i] := Strength(avgGain, avgLoss);
    }
  }

  // Average true range -----------------------------------------------------------------------

  /** ParseFloat with its error ignored. */
  function OrZero(field: Field): real {
    match field
    case Number(v) => v
    case _ => 0.0
  }

  function TrueRangeAt(cs: seq<Candle>, i: int): real
    requires 0 <= i < |cs|
  {
    var (h, l) := (OrZero(cs[i].high), OrZero(cs[i].low));
    if i == 0 then h - l
    else
      var previous := OrZero(cs[i - 1].close);
      Max(h - l, Max(Abs(h - previous), Abs(l - previous)))
  }

  /** The true ranges of bars 1..n; bar 0 has no previous close and is left out. */
  function LeadingRanges(cs: seq<Candle>, n: nat): seq<real>
    requires n < |cs|
  {
    seq(n, k requires 0 <= k < n => TrueRangeAt(cs, k + 1))
  }

  function AtrAt(cs: seq<Candle>, period: int, i: int): real
    requires 0 <= i < |cs|
  {
    if period <= 0 || i < period then 0.0
    else if i == period then Sum(LeadingRanges(cs, period)) / period as real
    else Smooth(AtrAt(cs, period, i - 1), TrueRangeAt(cs, i), period)
  }

  function Atr(cs: seq<Candle>, period: int): seq<real> {
    seq(|cs|, i requires 0 <= i < |cs| => AtrAt(cs, period, i))
  }

  method TrueRanges(cs: seq<Candle>) returns (tr: array<real>)
    ensures fresh(tr) && tr.Length == |cs| && forall k :: 0 <= k < |cs| ==> tr[k] == TrueRangeAt(cs, k)
  {
    tr := new real[|cs|](_ => 0.0);
    for i := 0 to |cs|
      invariant forall k :: 0 <= k < i ==> tr[k] == TrueRangeAt(cs, k)
    {
      var h, l := OrZero(cs[i].high), OrZero(cs[i].low);
      if i == 0 {
        tr[i] := h - l;
        continue;
      }
      var prevC := OrZero(cs[i - 1].close);
      tr[i] := Max(h - l, Max(Abs(h - prevC), Abs(l - prevC)));
    }
  }

  lemma AtrRecurrence(cs: seq<Candle>, period: int, i: int)
    requires 0 < period < i < |cs|
    ensures AtrAt(cs, period, i) == Smooth(AtrAt(cs, period, i - 1), TrueRangeAt(cs, i), period)
  {
  }

  /** The first value and the zeros before it. */
  lemma AtrStart(cs: seq<Candle>, period: int, k: int)
    requires 0 <= k < |cs| && (k <= period || period <= 0)
    ensures AtrAt(cs, period, k) ==
      if k < period || period <= 0 then 0.0 else Sum(LeadingRanges(cs, period)) / period as real
  {
  }

  method TotalRange(cs: seq<Candle>, ranges: seq<real>, period: int) returns (sum: real)
    requires 0 < period < |cs| == |ranges| && forall k :: 0 <= k < |cs| ==> ranges[k] == TrueRangeAt(cs, k)
    ensures sum == Sum(LeadingRanges(cs, period))
  {
    hide TrueRangeAt;
    sum := 0.0;
    for i := 1 to period + 1
      invariant sum == Sum(LeadingRanges(cs, i - 1))
    {
      assert LeadingRanges(cs, i) == LeadingRanges(cs, i - 1) + [ranges[i]];
      SumAppend(LeadingRanges(cs, i - 1), ranges[i]);
      sum := sum + ranges[i];
    }
  }

  method CalculateATR(cs: seq<Candle>, period: int) returns (out: array<real>)
    ensures fresh(out) && out[..] == Atr(cs, period)
  {
    hide Smooth, TrueRangeAt, Sum, LeadingRanges, AtrAt;
    out := new real[|cs|](_ => 0.0);
    if period <= 0 || |cs| < period + 1 {
      forall k | 0 <= k < |cs| ensures AtrAt(cs, period, k) == 0.0 {
        AtrStart(cs, period, k);
      }
      return;
    }
    var tr := TrueRanges(cs);
    var sum := TotalRange(cs, tr[..], period);
    out[period] := sum / period as real;
    forall k | 0 <= k <= period ensures out[k] == AtrAt(cs, period, k) {
      AtrStart(cs, period, k);
    }
    for i := period + 1 to |cs|
      invariant forall k :: 0 <= k < |cs| ==> tr[k] == TrueRangeAt(cs, k)
      invariant forall k :: 0 <= k < i ==> out[k] == AtrAt(cs, period, k)
    {
      AtrRecurrence(cs, period, i);
      out[i] := Smooth(out[i - 1], tr[i], period);
    }
  }

  // MACD -----------------------------------------------------------------------------------------

  function Difference(s: seq<real>, t: seq<real>): seq<real>
    requires |s| == |t|
  {
    seq(|s|, i requires 0 <= i < |s| => s[i] - t[i])
  }

  function MacdLine(src: seq<real>, fast: int, slow: int): seq<real> {
    Difference(Ema(src, fast), Ema(src, slow))
  }

  function MacdSignal(src: seq<real>, fast: int, slow: int, signal: int): seq<real> {
    Ema(MacdLine(src, fast, slow), signal)
  }

  function MacdHist(src: seq<real>, fast: int, slow: int, signal: int): seq<real> {
    Difference(MacdLine(src, fast, slow), MacdSignal(src, fast, slow, signal))
  }

  method CalculateMACD(src: seq<real>, fast: int, slow: int, signal: int)
    returns (line: array<real>, sig: array<real>, hist: array<real>)
    ensures fresh(line) && fresh(sig) && fresh(hist)
    ensures line[..] == MacdLine(src, fast, slow)
    ensures sig[..] == MacdSignal(src, fast, slow, signal)
    ensures hist[..] == MacdHist(src, fast, slow, signal)
  {
    var fastEMA := CalculateEMA(src, fast);
    var slowEMA := CalculateEMA(src, slow);
    assert fastEMA.Length == |fastEMA[..]| && slowEMA.Length == |slowEMA[..]|;
    line := new real[|src|];
    for i := 0 to |src|
      invariant fastEMA[..] == Ema(src, fast) && slowEMA[..] == Ema(src, slow)
      invariant forall k :: 0 <= k < i ==> line[k] == Ema(src, fast)[k] - Ema(src, slow)[k]
    {
      assert fastEMA[i] == fastEMA[..][i] && slowEMA[i] == slowEMA[..][i];
      line[i] := fastEMA[i] - slowEMA[i];
    }
    assert line[..] == MacdLine(src, fast, slow);
    sig := CalculateEMA(line[..], signal);
    assert sig.Length == |sig[..]|;
    hist := new real[|src|];
    for i := 0 to |src|
      invariant line[..] == MacdLine(src, fast, slow) && sig[..] == MacdSignal(src, fast, slow, signal)
      invariant forall k :: 0 <= k < i ==> hist[k] == MacdLine(src, fast, slow)[k] - MacdSignal(src, fast, slow, signal)[k]
    {
      assert line[i] == line[..][i] && sig[i] == sig[..][i];
      hist[i] := line[i] - sig[i];
    }
  }

  // Bollinger bands ------------------------------------------------------------------------------

  /** Squared distances of a window from its mean. */
  function Deviations(window: seq<real>, mean: real): seq<real> {
    seq(|window|, k requires 0 <= k < |window| => Square(window[k] - mean))
  }

  function StdevAt(sqrt: real -> real, src: seq<real>, period: int, i: int): real
    requires 0 <= i < |src|
  {
    if period <= 0 || i + 1 < period then 0.0
    else
      var window := Window(src, period, i);
      sqrt(Sum(Deviations(window, Mean(window))) / period as real)
  }

  function Stdev(sqrt: real -> real, src: seq<real>, period: int): seq<real> {
    seq(|src|, i requires 0 <= i < |src| => StdevAt(sqrt, src, period, i))
  }

  function Offset(basis: real, width: real, deviation: real): real {
    basis + width * deviation
  }

  /** The moving average shifted by `width` deviations: the upper band for a positive width. */
  function Band(sqrt: real -> real, src: seq<real>, period: int, width: real): seq<real> {
    seq(|src|, i requires 0 <= i < |src| => Offset(SmaAt(src, period, i), width, StdevAt(sqrt, src, period, i)))
  }

  lemma OffsetDown(basis: real, width: real, deviation: real)
    ensures Offset(basis, -width, deviation) == basis - width * deviation
  {
  }

  /** The inner loop of the deviation: bars from..to against their mean. */
  method SumOfSquares(src: seq<real>, from: int, to: int, mean: real) returns (total: real)
    requires 0 <= from <= to < |src|
    ensures total == Sum(Deviations(src[from..to + 1], mean))
  {
    hide Square;
    ghost var parts := Deviations(src[from..to + 1], mean);
    total := 0.0;
    for j := from to to + 1
      invariant total == Sum(parts[..j - from])
    {
      assert parts[..j - from + 1] == parts[..j - from] + [parts[j - from]];
      SumAppend(parts[..j - from], parts[j - from]);
      total := total + Square(src[j] - mean);
    }
    assert parts[..to + 1 - from] == parts;
  }

  method CalculateStdev(sqrt: real -> real, src: seq<real>, period: int) returns (out: array<real>)
    ensures fresh(out) && out[..] == Stdev(sqrt, src, period)
  {
    out := new real[|src|](_ => 0.0);
    if period <= 0 || |src| < period {
      return;
    }
    var sma := CalculateSMA(src, period);
    assert sma.Length == |sma[..]|;
    for i := period - 1 to |src|
      invariant sma[..] == Sma(src, period)
      invariant forall k :: 0 <= k < i ==> out[k] == StdevAt(sqrt, src, period, k)
    {
      assert sma[i] == sma[..][i];
      var sumOfSquares := SumOfSquares(src, i - period + 1, i, sma[i]);
      out[i] := sqrt(sumOfSquares / period as real);
    }
  }

  method CalculateBB(sqrt: real -> real, src: seq<real>, period: int, stddev: real)
    returns (basis: array<real>, upper: array<real>, lower: array<real>)
    ensures fresh(basis) && fresh(upper) && fresh(lower)
    ensures basis[..] == Sma(src, period)
    ensures upper[..] == Band(sqrt, src, period, stddev)
    ensures lower[..] == Band(sqrt, src, period, -stddev)
  {
    hide Offset, SmaAt, StdevAt;
    basis := CalculateSMA(src, period);
    var devs := CalculateStdev(sqrt, src, period);
    assert basis.Length == |basis[..]| && devs.Length == |devs[..]|;
    upper := new real[|src|];
    lower := new real[|src|];
    for i := 0 to |src|
      invariant basis[..] == Sma(src, period) && devs[..] == Stdev(sqrt, src, period)
      invariant forall k :: 0 <= k < i ==> upper[k] == Band(sqrt, src, period, stddev)[k]
      invariant forall k :: 0 <= k < i ==> lower[k] == Band(sqrt, src, period, -stddev)[k]
    {
      assert basis[i] == basis[..][i] && devs[i] == devs[..][i];
      OffsetDown(basis[i], stddev, devs[i]);
      upper[i] := Offset(basis[i], stddev, devs[i]);
      lower[i] := Offset(basis[i], -stddev, devs[i]);
    }
  }

  // Prefix stability: a value at bar i is fixed by the bars up to i ------------------------------

  lemma SmaPrefix(src: seq<real>, period: int, k: nat)
    requires k <= |src|
    ensures Sma(src[..k], period) == Sma(src, period)[..k]
  {
    forall i | 0 <= i < k
      ensures SmaAt(src[..k], period, i) == SmaAt(src, period, i)
    {
      if period > 0 && i + 1 >= period {
        assert src[..k][i + 1 - period..i + 1] == src[i + 1 - period..i + 1];
      }
    }
  }

  lemma {:induction false} EmaAtPrefix(src: seq<real>, period: int, k: nat, i: int)
    requires 0 <= i < k <= |src|
    ensures EmaAt(src[..k], period, i) == EmaAt(src, period, i)
    decreases i
  {
    if period > 0 && i + 1 > period {
      EmaAtPrefix(src, period, k, i - 1);
    } else if period > 0 && i + 1 == period {
      assert src[..k][..period] == src[..period];
    }
  }

  lemma EmaPrefix(src: seq<real>, period: int, k: nat)
    requires k <= |src|
    ensures Ema(src[..k], period) == Ema(src, period)[..k]
  {
    forall i | 0 <= i < k {
      EmaAtPrefix(src, period, k, i);
    }
  }

  lemma {:induction false} AveragesPrefix(src: seq<real>, period: int, k: nat, i: int)
    requires 0 < period <= i < k <= |src|
    ensures AverageGain(src[..k], period, i) == AverageGain(src, period, i)
    ensures AverageLoss(src[..k], period, i) == AverageLoss(src, period, i)
    decreases i
  {
    hide Smooth;
    if i == period {
      assert Gains(src[..k], period) == Gains(src, period);
      assert Losses(src[..k], period) == Losses(src, period);
    } else {
      AveragesPrefix(src, period, k, i - 1);
    }
  }

  lemma RsiPrefix(src: seq<real>, period: int, k: nat)
    requires k <= |src|
    ensures Rsi(src[..k], period) == Rsi(src, period)[..k]
  {
    forall i | 0 <= i < k
      ensures RsiAt(src[..k], period, i) == RsiAt(src, period, i)
    {
      if 0 < period <= i {
        AveragesPrefix(src, period, k, i);
      }
    }
  }

  lemma {:induction false} AtrAtPrefix(cs: seq<Candle>, period: int, k: nat, i: int)
    requires 0 <= i < k <= |cs|
    ensures AtrAt(cs[..k], period, i) == AtrAt(cs, period, i)
    decreases i
  {
    hide Smooth;
    if 0 < period < i {
      AtrAtPrefix(cs, period, k, i - 1);
    } else if 0 < period == i {
      assert LeadingRanges(cs[..k], period) == LeadingRanges(cs, period);
    }
  }

  lemma AtrPrefix(cs: seq<Candle>, period: int, k: nat)
    requires k <= |cs|
    ensures Atr(cs[..k], period) == Atr(cs, period)[..k]
  {
    forall i | 0 <= i < k {
      AtrAtPrefix(cs, period, k, i);
    }
  }

  lemma MacdPrefix(src: seq<real>, fast: int, slow: int, signal: int, k: nat)
    requires k <= |src|
    ensures MacdLine(src[..k], fast, slow) == MacdLine(src, fast, slow)[..k]
    ensures MacdSignal(src[..k], fast, slow, signal) == MacdSignal(src, fast, slow, signal)[..k]
    ensures MacdHist(src[..k], fast, slow, signal) == MacdHist(src, fast, slow, signal)[..k]
  {
    EmaPrefix(src, fast, k);
    EmaPrefix(src, slow, k);
    assert MacdLine(src[..k], fast, slow) == MacdLine(src, fast, slow)[..k];
    EmaPrefix(MacdLine(src, fast, slow), signal, k);
  }

  lemma BandPrefix(sqrt: real -> real, src: seq<real>, period: int, width: real, k: nat)
    requires k <= |src|
    ensures Band(sqrt, src[..k], period, width) == Band(sqrt, src, period, width)[..k]
  {
    hide Offset, Mean;
    forall i | 0 <= i < k
      ensures SmaAt(src[..k], period, i) == SmaAt(src, period, i)
      ensures StdevAt(sqrt, src[..k], period, i) == StdevAt(sqrt, src, period, i)
    {
      if period > 0 && i + 1 >= period {
        assert Window(src[..k], period, i) == Window(src, period, i);
      }
    }
  }
}
