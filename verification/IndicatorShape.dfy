/** How the averages answer to simple price paths (internal/strategy/pine_evaluator.go:239-330): what fixes their weights. */
module IndicatorShape {
  import opened Common
  import opened RealArithmetic
  import opened Indicators

  // Straight lines ------------------------------------------------------------------------------------------------------

  /** Prices that change by the same step every bar. */
  predicate Straight(src: seq<real>, start: real, step: real) {
    forall i :: 0 <= i < |src| ==> src[i] == start + step * i as real
  }

  /** `count` values of the line, from bar `from` on, added up. */
  function LineTotal(start: real, step: real, from: nat, count: nat): real {
    count as real * (start + step * (from as real + (count as real - 1.0) / 2.0))
  }

  lemma {:induction false} StraightSum(src: seq<real>, start: real, step: real, from: nat, count: nat)
    requires Straight(src, start, step) && from + count <= |src|
    ensures Sum(src[from..from + count]) == LineTotal(start, step, from, count)
    decreases count
  {
    hide LineTotal, Straight, Sum;
    if count == 0 {
      NothingTotal(src, start, step, from);
    } else {
      StraightSum(src, start, step, from, count - 1);
      assert src[from..from + count] == src[from..from + count - 1] + [src[from + count - 1]];
      SumAppend(src[from..from + count - 1], src[from + count - 1]);
      NextTotal(src, start, step, from, count);
    }
  }

  lemma NothingTotal(src: seq<real>, start: real, step: real, from: nat)
    requires from <= |src|
    ensures Sum(src[from..from + 0]) == 0.0 == LineTotal(start, step, from, 0)
  {
  }

  lemma NextTotal(src: seq<real>, start: real, step: real, from: nat, count: nat)
    requires Straight(src, start, step) && 0 < count && from + count <= |src|
    ensures LineTotal(start, step, from, count - 1) + src[from + count - 1] == LineTotal(start, step, from, count)
  {
    var (f, n) := (from as real, count as real);
    assert src[from + count - 1] == start + step * (f + n - 1.0);
    assert (n - 1.0) * (start + step * (f + (n - 2.0) / 2.0)) + (start + step * (f + n - 1.0)) ==
           n * (start + step * (f + (n - 1.0) / 2.0));
  }

  /** The line half a period less half a bar before bar i. */
  function Lagged(start: real, step: real, period: int, i: int): real {
    start + step * (i as real - (period - 1) as real / 2.0)
  }

  /** On a straight line a simple and an exponential average of the same period both lag behind by half a period less
      half a bar: the weight 2 / (period + 1) is the one that makes them agree. */
  lemma {:induction false} AveragesLag(src: seq<real>, start: real, step: real, period: int, i: int)
    requires Straight(src, start, step) && 0 < period <= i + 1 <= |src|
    ensures SmaAt(src, period, i) == Lagged(start, step, period, i) && EmaAt(src, period, i) == Lagged(start, step, period, i)
    decreases i
  {
    hide Lagged, Straight, Pull, EmaAt, SmaAt;
    MeanOfLine(src, start, step, period, i);
    if i + 1 == period {
      EmaStart(src, period);
    } else {
      AveragesLag(src, start, step, period, i - 1);
      EmaRecurrence(src, period, i);
      PullOnLine(src, start, step, period, i);
    }
  }

  lemma EmaStart(src: seq<real>, period: int)
    requires 0 < period <= |src|
    ensures EmaAt(src, period, period - 1) == SmaAt(src, period, period - 1)
  {
    assert Window(src, period, period - 1) == src[..period];
  }

  lemma MeanOfLine(src: seq<real>, start: real, step: real, period: int, i: int)
    requires Straight(src, start, step) && 0 < period <= i + 1 <= |src|
    ensures SmaAt(src, period, i) == Lagged(start, step, period, i)
  {
    hide Straight, Sum;
    StraightSum(src, start, step, i + 1 - period, period);
    assert Window(src, period, i) == src[i + 1 - period..i + 1];
    ShareOfLine(Sum(src[i + 1 - period..i + 1]), start, step, period, i);
  }

  lemma ShareOfLine(sum: real, start: real, step: real, period: int, i: int)
    requires period > 0
    requires sum == period as real * (start + step * ((i + 1 - period) as real + (period as real - 1.0) / 2.0))
    ensures sum / period as real == Lagged(start, step, period, i)
  {
  }

  lemma PullOnLine(src: seq<real>, start: real, step: real, period: int, i: int)
    requires Straight(src, start, step) && 0 < period && 0 <= i < |src|
    ensures Pull(Lagged(start, step, period, i - 1), src[i], 2.0 / (period + 1) as real) == Lagged(start, step, period, i)
  {
    var gap := src[i] - Lagged(start, step, period, i - 1);
    assert gap == step * ((period + 1) as real / 2.0);
    QuotientTimes(2.0, (period + 1) as real);
    assert gap * (2.0 / (period + 1) as real) == step * (2.0 / (period + 1) as real * (period + 1) as real / 2.0);
  }

  // Wilder's smoothing ----------------------------------------------------------------------------------------------------

  function Power(base: real, n: nat): real {
    if n == 0 then 1.0 else base * Power(base, n - 1)
  }

  lemma SmoothedTimes(average: real, value: real, period: int)
    requires period > 0
    ensures Smooth(average, value, period) * period as real == average * (period - 1) as real + value
  {
    QuotientTimes(average * (period - 1) as real + value, period as real);
  }

  /** After n bars an average has kept (period - 1) parts in period of itself n times over. */
  predicate Decayed(after: real, before: real, period: int, n: nat) {
    after * Power(period as real, n) == before * Power((period - 1) as real, n)
  }

  /** While prices stand still, the average gain and the average loss decay by one part in period a bar. */
  lemma {:induction false} QuietDecay(src: seq<real>, period: int, i: int, n: nat)
    requires 0 < period <= i && i + n < |src|
    requires forall k :: i < k <= i + n ==> src[k] == src[k - 1]
    ensures Decayed(AverageGain(src, period, i + n), AverageGain(src, period, i), period, n)
    ensures Decayed(AverageLoss(src, period, i + n), AverageLoss(src, period, i), period, n)
    decreases n
  {
    hide Smooth, AverageGain, AverageLoss, Decayed;
    if n == 0 {
      NotYetDecayed(AverageGain(src, period, i), period);
      NotYetDecayed(AverageLoss(src, period, i), period);
    } else {
      QuietDecay(src, period, i, n - 1);
      NextGain(src, period, i + n);
      assert src[i + n] == src[i + n - 1];
      DecayStep(AverageGain(src, period, i + n - 1), AverageGain(src, period, i), period, n);
      DecayStep(AverageLoss(src, period, i + n - 1), AverageLoss(src, period, i), period, n);
    }
  }

  lemma NotYetDecayed(average: real, period: int)
    ensures Decayed(average, average, period, 0)
  {
  }

  lemma NextGain(src: seq<real>, period: int, i: int)
    requires 0 < period < i < |src|
    ensures AverageGain(src, period, i) == Smooth(AverageGain(src, period, i - 1), Gain(src[i] - src[i - 1]), period)
    ensures AverageLoss(src, period, i) == Smooth(AverageLoss(src, period, i - 1), Loss(src[i] - src[i - 1]), period)
  {
  }

  lemma DecayStep(before: real, first: real, period: int, n: nat)
    requires n > 0 && period > 0 && Decayed(before, first, period, n - 1)
    ensures Decayed(Smooth(before, 0.0, period), first, period, n)
  {
    SmoothedTimes(before, 0.0, period);
    var (p, q) := (period as real, (period - 1) as real);
    hide Smooth;
    calc {
      Smooth(before, 0.0, period) * Power(p, n);
    ==
      Smooth(before, 0.0, period) * (p * Power(p, n - 1));
    ==
      (before * q) * Power(p, n - 1);
    ==
      (before * Power(p, n - 1)) * q;
    ==
      first * Power(q, n - 1) * q;
    ==
      first * Power(q, n);
    }
  }

  /** Prices that move by the same step every bar gain, or lose, that step on average. */
  lemma {:induction false} SteadyAverages(src: seq<real>, start: real, step: real, period: int, i: int)
    requires Straight(src, start, step) && 0 < period <= i < |src|
    ensures AverageGain(src, period, i) == Max(step, 0.0) && AverageLoss(src, period, i) == Max(-step, 0.0)
    decreases i
  {
    hide Smooth, AverageGain, AverageLoss, Sum;
    if i == period {
      SteadyMoves(src, start, step, period);
      SteadySeed(src, period, Max(step, 0.0), Max(-step, 0.0));
    } else {
      SteadyAverages(src, start, step, period, i - 1);
      NextGain(src, period, i);
      LineMove(src, start, step, i);
      SmoothedSame(Max(step, 0.0), period);
      SmoothedSame(Max(-step, 0.0), period);
    }
  }

  lemma LineMove(src: seq<real>, start: real, step: real, i: int)
    requires Straight(src, start, step) && 0 < i < |src|
    ensures Gain(src[i] - src[i - 1]) == Max(step, 0.0) && Loss(src[i] - src[i - 1]) == Max(-step, 0.0)
  {
    assert src[i] - src[i - 1] == step * (i as real - (i - 1) as real);
  }

  lemma SmoothedSame(average: real, period: int)
    requires period > 0
    ensures Smooth(average, average, period) == average
  {
    SmoothedTimes(average, average, period);
    CancelFactor(Smooth(average, average, period), average, period as real);
    CancelFactor(average, Smooth(average, average, period), period as real);
  }

  lemma {:induction false} SteadySum(s: seq<real>, value: real)
    requires forall k :: 0 <= k < |s| ==> s[k] == value
    ensures Sum(s) == |s| as real * value
    decreases |s|
  {
    if s != [] {
      SteadySum(s[..|s| - 1], value);
    }
  }

  lemma SteadyMoves(src: seq<real>, start: real, step: real, n: nat)
    requires Straight(src, start, step) && n < |src|
    ensures Sum(Gains(src, n)) == n as real * Max(step, 0.0) && Sum(Losses(src, n)) == n as real * Max(-step, 0.0)
  {
    hide Sum, Straight, Gain, Loss;
    forall k | 0 <= k < n
      ensures Gains(src, n)[k] == Max(step, 0.0) && Losses(src, n)[k] == Max(-step, 0.0)
    {
      LineMove(src, start, step, k + 1);
    }
    SteadySum(Gains(src, n), Max(step, 0.0));
    SteadySum(Losses(src, n), Max(-step, 0.0));
  }

  lemma SteadySeed(src: seq<real>, period: int, gain: real, loss: real)
    requires 0 < period < |src|
    requires Sum(Gains(src, period)) == period as real * gain && Sum(Losses(src, period)) == period as real * loss
    ensures AverageGain(src, period, period) == gain && AverageLoss(src, period, period) == loss
  {
    hide Sum, Gains, Losses;
    QuotientTimes(period as real * gain, period as real);
    QuotientTimes(period as real * loss, period as real);
  }
}
