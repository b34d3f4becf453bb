/** Average true range over the last candles of a series (internal/indicator/atr.go). */
module Atr {
  import opened Common
  import opened MarketData

  function CandleValue(value: Field, fallback: Field): Result<real, DataError> {
    ParsePositive(if value.Missing? then fallback else value)
  }

  function HighOf(c: Candle): Result<real, DataError> {
    CandleValue(c.high, c.close)
  }

  function LowOf(c: Candle): Result<real, DataError> {
    CandleValue(c.low, c.close)
  }

  function CloseOf(c: Candle): Result<real, DataError> {
    ParsePositive(c.close)
  }

  /** Everything the true range of bar i is measured from can be read. */
  predicate Readable(cs: seq<Candle>, i: int) {
    0 < i < |cs| && HighOf(cs[i]).Ok? && LowOf(cs[i]).Ok? && CloseOf(cs[i - 1]).Ok?
  }

  function TrueRange(cs: seq<Candle>, i: int): (r: real)
    ensures Readable(cs, i) ==>
      var (high, low, previous) := (HighOf(cs[i]).value, LowOf(cs[i]).value, CloseOf(cs[i - 1]).value);
      && r >= high - low && r >= Abs(high - previous) && r >= Abs(low - previous)
      && r in {high - low, Abs(high - previous), Abs(low - previous)}
  {
    if Readable(cs, i) then
      var (high, low, previous) := (HighOf(cs[i]).value, LowOf(cs[i]).value, CloseOf(cs[i - 1]).value);
      Max(high - low, Max(Abs(high - previous), Abs(low - previous)))
    else 0.0
  }

  function TrueRanges(cs: seq<Candle>, period: nat): seq<real>
    requires period <= |cs|
  {
    seq(period, k requires 0 <= k < period => TrueRange(cs, |cs| - period + k))
  }

  /** The average exists exactly when the period is positive, fits, and all its bars can be read. */
  predicate Measurable(cs: seq<Candle>, period: int) {
    0 < period < |cs| && forall i :: |cs| - period <= i < |cs| ==> Readable(cs, i)
  }

  function AverageTrueRange(cs: seq<Candle>, period: int): (r: Result<real, DataError>)
    ensures r.Ok? <==> Measurable(cs, period)
  {
    if period <= 0 then Err(BadPeriod)
    else if |cs| < period + 1 then Err(InsufficientCandles)
    else if Measurable(cs, period) then Ok(Sum(TrueRanges(cs, period)) / period as real)
    else Err(BadField)
  }

  /** The source's loop, which stops at the first value it cannot read. */
  method ComputeAverageTrueRange(cs: seq<Candle>, period: int) returns (r: Result<real, DataError>)
    ensures r.Ok? <==> Measurable(cs, period)
    ensures r.Ok? ==> r == AverageTrueRange(cs, period)
  {
    if period <= 0 {
      return Err(BadPeriod);
    }
    var required := period + 1;
    if |cs| < required {
      return Err(InsufficientCandles);
    }
    var window := cs[|cs| - required..];
    var total := 0.0;
    var index := 1;
    while index < |window|
      invariant 1 <= index <= |window|
      invariant forall i :: |cs| - period <= i < |cs| - required + index ==> Readable(cs, i)
      invariant total == Sum(TrueRanges(cs, period)[..index - 1])
    {
      var bar := |cs| - required + index;
      assert window[index] == cs[bar] && window[index - 1] == cs[bar - 1];
      var high := CandleValue(window[index].high, window[index].close);
      if high.Err? {
        assert !Readable(cs, bar);
        return Err(high.error);
      }
      var low := CandleValue(window[index].low, window[index].close);
      if low.Err? {
        assert !Readable(cs, bar);
        return Err(low.error);
      }
      var previousClose := ParsePositive(window[index - 1].close);
      if previousClose.Err? {
        assert !Readable(cs, bar);
        return Err(previousClose.error);
      }
      var trueRange := Max(high.value - low.value,
        Max(Abs(high.value - previousClose.value), Abs(low.value - previousClose.value)));
      assert trueRange == TrueRange(cs, bar) == TrueRanges(cs, period)[index - 1];
      assert TrueRanges(cs, period)[..index] == TrueRanges(cs, period)[..index - 1] + [trueRange];
      SumAppend(TrueRanges(cs, period)[..index - 1], trueRange);
      total := total + trueRange;
      index := index + 1;
    }
    assert TrueRanges(cs, period)[..period] == TrueRanges(cs, period);
    return Ok(total / period as real);
  }
}
