/** Candle aggregation (internal/marketdata/aggregation.go), and why doing it in two stages is the same as in one. */
module Aggregation {
  import opened Common
  import opened MarketData

  // Buckets ------------------------------------------------------------------------------------------

  type Index = map<Time, Candle>

  /** The candles by open time; of two with the same open time the later one stays. */
  function ByOpenTime(cs: seq<Candle>): Index {
    if cs == [] then map[] else ByOpenTime(cs[..|cs| - 1])[cs[|cs| - 1].openTime := cs[|cs| - 1]]
  }

  /** Every source candle of the bucket that starts at `start` is there. */
  predicate Complete(m: Index, start: Time, step: int, size: nat) {
    forall k :: 0 <= k < size ==> start + k * step in m
  }

  function Bucket(m: Index, start: Time, step: int, size: nat): seq<Candle>
    requires Complete(m, start, step, size)
  {
    seq(size, k requires 0 <= k < size => m[start + k * step])
  }

  // One bucket -----------------------------------------------------------------------------------------

  predicate Greater(a: Field, b: Field) {
    a.Number? && b.Number? && a.value > b.value
  }

  /** The accumulators compare in opposite directions. */
  predicate Beats(up: bool, a: Field, b: Field) {
    if up then Greater(a, b) else Greater(b, a)
  }

  /** What an accumulator holds after a run of fields: it starts with the first and moves to whatever beats it. */
  function Extreme(fields: seq<Field>, up: bool): Field
    requires fields != []
  {
    if |fields| == 1 then fields[0]
    else
      var rest := Extreme(fields[..|fields| - 1], up);
      if Beats(up, fields[|fields| - 1], rest) then fields[|fields| - 1] else rest
  }

  function Highs(bucket: seq<Candle>): seq<Field> {
    seq(|bucket|, i requires 0 <= i < |bucket| => bucket[i].high)
  }

  function Lows(bucket: seq<Candle>): seq<Field> {
    seq(|bucket|, i requires 0 <= i < |bucket| => bucket[i].low)
  }

  function HighestOf(bucket: seq<Candle>): Field
    requires bucket != []
  {
    Extreme(Highs(bucket), true)
  }

  function LowestOf(bucket: seq<Candle>): Field
    requires bucket != []
  {
    Extreme(Lows(bucket), false)
  }

  /** A missing quote volume counts as zero; any other text that is not a number is an error. */
  predicate Countable(c: Candle) {
    c.volume.Number? && !c.quoteVolume.Garbled?
  }

  function QuoteVolumeOf(c: Candle): real {
    if c.quoteVolume.Number? then c.quoteVolume.value else 0.0
  }

  function VolumeOf(c: Candle): real {
    if c.volume.Number? then c.volume.value else 0.0
  }

  function Volumes(bucket: seq<Candle>): real {
    if bucket == [] then 0.0 else Volumes(bucket[..|bucket| - 1]) + VolumeOf(bucket[|bucket| - 1])
  }

  function QuoteVolumes(bucket: seq<Candle>): real {
    if bucket == [] then 0.0 else QuoteVolumes(bucket[..|bucket| - 1]) + QuoteVolumeOf(bucket[|bucket| - 1])
  }

  function TradeCounts(bucket: seq<Candle>): int {
    if bucket == [] then 0 else TradeCounts(bucket[..|bucket| - 1]) + bucket[|bucket| - 1].tradeCount
  }

  predicate AllCountable(bucket: seq<Candle>) {
    forall i :: 0 <= i < |bucket| ==> Countable(bucket[i])
  }

  function Combine(bucket: seq<Candle>, interval: Interval, targetStep: int): Candle
    requires bucket != []
  {
    var (first, last) := (bucket[0], bucket[|bucket| - 1]);
    Candle(first.exchange, first.symbol, interval, first.openTime, first.openTime + targetStep, last.eventTime,
           first.open, HighestOf(bucket), LowestOf(bucket), last.close,
           Number(Volumes(bucket)), Number(QuoteVolumes(bucket)), TradeCounts(bucket), true)
  }

  /** aggregateBucket, whose accumulators run over the bucket and stop at a volume that cannot be read. */
  method AggregateBucket(bucket: seq<Candle>, interval: Interval, targetStep: int) returns (r: Result<Candle, DataError>)
    requires bucket != []
    ensures r.Ok? <==> AllCountable(bucket)
    ensures r.Ok? ==> r.value == Combine(bucket, interval, targetStep)
    ensures r.Err? ==> r.error == BadField
  {
    var first, last := bucket[0], bucket[|bucket| - 1];
    var high, low := first.high, first.low;
    var volume, quoteVolume, tradeCount := 0.0, 0.0, 0;
    for i := 0 to |bucket|
      invariant AllCountable(bucket[..i])
      invariant high == (if i == 0 then first.high else HighestOf(bucket[..i]))
      invariant low == (if i == 0 then first.low else LowestOf(bucket[..i]))
      invariant volume == Volumes(bucket[..i]) && quoteVolume == QuoteVolumes(bucket[..i])
      invariant tradeCount == TradeCounts(bucket[..i])
    {
      var candle := bucket[i];
      assert bucket[..i + 1][..i] == bucket[..i] && bucket[..i + 1][i] == candle;
      assert Highs(bucket[..i + 1])[..i] == Highs(bucket[..i]) && Lows(bucket[..i + 1])[..i] == Lows(bucket[..i]);
      if Greater(candle.high, high) {
        high := candle.high;
      }
      if Greater(low, candle.low) {
        low := candle.low;
      }
      if !candle.volume.Number? {
        return Err(BadField);
      }
      var parsedQuoteVolume := 0.0;
      if candle.quoteVolume != Missing {
        if !candle.quoteVolume.Number? {
          return Err(BadField);
        }
        parsedQuoteVolume := candle.quoteVolume.value;
      }
      volume := volume + candle.volume.value;
      quoteVolume := quoteVolume + parsedQuoteVolume;
      tradeCount := tradeCount + candle.tradeCount;
    }
    assert bucket[..|bucket|] == bucket;
    return Ok(Candle(first.exchange, first.symbol, interval, first.openTime, first.openTime + targetStep, last.eventTime,
                     first.open, high, low, last.close, Number(volume), Number(quoteVolume), tradeCount, true));
  }

  // A whole series --------------------------------------------------------------------------------------

  /** The aggregates of the complete buckets that start at lo, lo + step * size, ... and not after hi. */
  function Aggregates(m: Index, lo: Time, hi: Time, step: int, size: nat, interval: Interval): Result<seq<Candle>, DataError>
    requires step > 0 && size > 0
    decreases hi - lo
  {
    if lo > hi then Ok([])
    else
      assert step * size >= 1;
      if Complete(m, lo, step, size) then
        var bucket := Bucket(m, lo, step, size);
        if !AllCountable(bucket) then Err(BadField)
        else
          var rest :- Aggregates(m, lo + step * size, hi, step, size, interval);
          Ok([Combine(bucket, interval, step * size)] + rest)
      else Aggregates(m, lo + step * size, hi, step, size, interval)
  }

  function Truncated(t: Time, step: int): Time
    requires step > 0
  {
    t - t % step
  }

  function AggregateCandles(cs: seq<Candle>, target: Interval): Result<seq<Candle>, DataError> {
    var targetStep :- IntervalDuration(target);
    if cs == [] then Ok([])
    else
      var sourceStep :- IntervalDuration(cs[0].interval);
      if targetStep <= sourceStep || targetStep % sourceStep != 0 then Err(NotAMultiple)
      else
        SizePositive(targetStep, sourceStep);
        Aggregates(ByOpenTime(cs), Truncated(cs[0].openTime, targetStep), cs[|cs| - 1].openTime,
                   sourceStep, targetStep / sourceStep, target)
  }

  lemma SizePositive(targetStep: int, sourceStep: int)
    requires 0 < sourceStep < targetStep && targetStep % sourceStep == 0
    ensures targetStep / sourceStep > 1 && sourceStep * (targetStep / sourceStep) == targetStep
  {
  }

  predicate Keyed(m: Index) {
    forall t :: t in m ==> m[t].openTime == t
  }

  lemma {:induction false} ByOpenTimeKeyed(cs: seq<Candle>)
    ensures Keyed(ByOpenTime(cs))
    ensures forall t :: t in ByOpenTime(cs) <==> exists i :: 0 <= i < |cs| && cs[i].openTime == t
  {
    if cs != [] {
      var n := |cs| - 1;
      ByOpenTimeKeyed(cs[..n]);
      forall t
        ensures t in ByOpenTime(cs) <==> exists i :: 0 <= i < |cs| && cs[i].openTime == t
      {
        if t in ByOpenTime(cs[..n]) {
          var i :| 0 <= i < n && cs[..n][i].openTime == t;
          assert cs[i].openTime == t;
        }
        if i :| 0 <= i < |cs| && cs[i].openTime == t {
          assert i < n ==> cs[..n][i].openTime == t;
        }
      }
    }
  }

  /** isCompleteBucket: consecutive candles are one step apart. */
  predicate IsCompleteBucket(bucket: seq<Candle>, step: int) {
    forall i :: 1 <= i < |bucket| ==> bucket[i].openTime == bucket[i - 1].openTime + step
  }

  /** The inner loop: collect the bucket's candles, giving up at the first that is missing. */
  method CollectBucket(m: Index, start: Time, step: int, size: nat) returns (bucket: Option<seq<Candle>>)
    requires Keyed(m)
    ensures bucket.Some? <==> Complete(m, start, step, size)
    ensures bucket.Some? ==> bucket.value == Bucket(m, start, step, size) && IsCompleteBucket(bucket.value, step)
  {
    var collected: seq<Candle> := [];
    for offset := 0 to size
      invariant |collected| == offset
      invariant forall k :: 0 <= k < offset ==> start + k * step in m && collected[k] == m[start + k * step]
    {
      var openTime := start + offset * step;
      if openTime !in m {
        return None;
      }
      collected := collected + [m[openTime]];
    }
    forall i | 1 <= i < |collected|
      ensures collected[i].openTime == collected[i - 1].openTime + step
    {
      assert collected[i].openTime == start + i * step;
      assert collected[i - 1].openTime == start + (i - 1) * step;
      NextStep(start, i, step);
    }
    return Some(collected);
  }

  lemma NextStep(start: int, i: int, step: int)
    ensures start + i * step == start + (i - 1) * step + step
  {
  }

  lemma {:induction false} AggregatesError(m: Index, lo: Time, hi: Time, step: int, size: nat, interval: Interval)
    requires step > 0 && size > 0
    ensures Aggregates(m, lo, hi, step, size, interval).Err? ==> Aggregates(m, lo, hi, step, size, interval).error == BadField
    decreases hi - lo
  {
    if lo <= hi {
      assert step * size >= 1;
      AggregatesError(m, lo + step * size, hi, step, size, interval);
    }
  }

  /** AggregateCandles as the source runs it, bucket by bucket. */
  method ComputeAggregates(cs: seq<Candle>, target: Interval) returns (r: Result<seq<Candle>, DataError>)
    ensures r == AggregateCandles(cs, target)
  {
    var targetStep := IntervalDuration(target);
    if targetStep.Err? {
      return Err(targetStep.error);
    }
    if |cs| == 0 {
      return Ok([]);
    }
    var sourceStep := IntervalDuration(cs[0].interval);
    if sourceStep.Err? {
      return Err(sourceStep.error);
    }
    if targetStep.value <= sourceStep.value || targetStep.value % sourceStep.value != 0 {
      return Err(NotAMultiple);
    }
    var size := targetStep.value / sourceStep.value;
    SizePositive(targetStep.value, sourceStep.value);
    var byOpenTime: Index := map[];
    for i := 0 to |cs|
      invariant byOpenTime == ByOpenTime(cs[..i])
    {
      assert cs[..i + 1][..i] == cs[..i];
      byOpenTime := byOpenTime[cs[i].openTime := cs[i]];
    }
    assert cs[..|cs|] == cs;
    r := WalkBuckets(byOpenTime, cs, Truncated(cs[0].openTime, targetStep.value), cs[|cs| - 1].openTime,
                     sourceStep.value, size, target, targetStep.value);
  }

  method WalkBuckets(m: Index, ghost cs: seq<Candle>, first: Time, lastOpen: Time, step: int, size: nat, target: Interval, targetStep: int)
    returns (r: Result<seq<Candle>, DataError>)
    requires m == ByOpenTime(cs) && step > 0 && size > 0 && step * size == targetStep
    ensures r == Aggregates(m, first, lastOpen, step, size, target)
  {
    hide Complete, Bucket, Combine, AllCountable, IsCompleteBucket, ByOpenTime;
    ByOpenTimeKeyed(cs);
    ghost var whole := Aggregates(m, first, lastOpen, step, size, target);
    var aggregated: seq<Candle> := [];
    var bucketStart := first;
    assert whole.Ok? ==> aggregated + whole.value == whole.value;
    while bucketStart <= lastOpen
      invariant whole == (match Aggregates(m, bucketStart, lastOpen, step, size, target)
                          case Ok(rest) => Ok(aggregated + rest)
                          case Err(e) => Err(e))
      decreases lastOpen - bucketStart
    {
      AggregatesError(m, bucketStart + targetStep, lastOpen, step, size, target);
      var bucket := CollectBucket(m, bucketStart, step, size);
      if bucket.Some? {
        BucketLength(m, bucketStart, step, size);
        var candle := AggregateBucket(bucket.value, target, targetStep);
        if candle.Err? {
          return Err(candle.error);
        }
        ghost var rest := Aggregates(m, bucketStart + targetStep, lastOpen, step, size, target);
        if rest.Ok? {
          assert aggregated + ([candle.value] + rest.value) == (aggregated + [candle.value]) + rest.value;
        }
        aggregated := aggregated + [candle.value];
      }
      bucketStart := bucketStart + targetStep;
    }
    assert aggregated + [] == aggregated;
    return Ok(aggregated);
  }

  lemma BucketLength(m: Index, start: Time, step: int, size: nat)
    requires Complete(m, start, step, size)
    ensures |Bucket(m, start, step, size)| == size
  {
  }
}
