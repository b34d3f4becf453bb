/** Aggregating to B and then to C gives what aggregating straight to C gives, gaps and dropped buckets included. */
module AggregationComposes {
  import opened Common
  import opened IntArithmetic
  import opened MarketData
  import opened Aggregation

  // Folds over concatenated buckets -------------------------------------------------------------------------

  lemma {:induction false} VolumesConcat(a: seq<Candle>, b: seq<Candle>)
    ensures Volumes(a + b) == Volumes(a) + Volumes(b)
    ensures QuoteVolumes(a + b) == QuoteVolumes(a) + QuoteVolumes(b)
    ensures TradeCounts(a + b) == TradeCounts(a) + TradeCounts(b)
  {
    if b == [] {
      assert a + b == a;
    } else {
      var n := |b| - 1;
      VolumesConcat(a, b[..n]);
      assert (a + b)[..|a| + n] == a + b[..n];
    }
  }

  // Extremes of extremes ------------------------------------------------------------------------------------

  /** The first field decides: if it cannot be read it stays, and otherwise the extreme is a readable field that no
      other readable one beats. */
  lemma {:induction false} ExtremeShape(fields: seq<Field>, up: bool)
    requires fields != []
    ensures !fields[0].Number? ==> Extreme(fields, up) == fields[0]
    ensures fields[0].Number? ==> Extreme(fields, up).Number? && Extreme(fields, up) in fields
    ensures fields[0].Number? ==> forall k :: 0 <= k < |fields| ==> !Beats(up, fields[k], Extreme(fields, up))
    decreases |fields|
  {
    if |fields| > 1 {
      ExtremeShape(fields[..|fields| - 1], up);
    }
  }

  /** Two readable fields neither of which beats the other are equal. */
  lemma Unbeaten(up: bool, a: Field, b: Field)
    requires a.Number? && b.Number? && !Beats(up, a, b) && !Beats(up, b, a)
    ensures a == b
  {
  }

  function Lead(n: nat, size: nat): nat
    requires size > 0
    ensures Lead(n, size) <= n
  {
    n / size * size
  }

  /** A readable field that its part's aggregate takes into account, because the part starts with a readable one. */
  predicate Shown(fields: seq<Field>, size: nat, n: nat)
    requires size > 0 && n < |fields|
  {
    fields[n].Number? && fields[Lead(n, size)].Number?
  }

  /** A readable field that its part's aggregate hides behind an unreadable first one. */
  predicate Hidden(fields: seq<Field>, size: nat, n: nat)
    requires size > 0 && n < |fields|
  {
    fields[n].Number? && !fields[Lead(n, size)].Number?
  }

  /** Nothing hidden matters: either the very first field cannot be read, or whatever is hidden is beaten or matched
      by something shown. */
  ghost predicate Legible(fields: seq<Field>, size: nat, up: bool)
    requires size > 0 && fields != []
  {
    !fields[0].Number? || forall n :: 0 <= n < |fields| && Hidden(fields, size, n) ==> Matched(fields, size, up, n)
  }

  ghost predicate Matched(fields: seq<Field>, size: nat, up: bool, n: nat)
    requires size > 0 && n < |fields|
  {
    exists k :: 0 <= k < |fields| && Shown(fields, size, k) && !Beats(up, fields[n], fields[k])
  }

  /** parts[k] is the extreme of the k-th run of `size` fields. */
  ghost predicate SplitsFields(fields: seq<Field>, parts: seq<Field>, size: nat, up: bool) {
    && |fields| == |parts| * size && size > 0
    && forall k :: 0 <= k < |parts| ==>
        0 <= k * size <= k * size + size <= |fields| && parts[k] == Extreme(fields[k * size..k * size + size], up)
  }

  lemma LeadOf(k: nat, i: nat, size: nat)
    requires i < size
    ensures Lead(k * size + i, size) == k * size
  {
    assert (k * size + i) / size == k by {
      var q := (k * size + i) / size;
      if q < k {
        ProductMonotone(q + 1, k, size);
      } else if q > k {
        ProductMonotone(k + 1, q, size);
      }
    }
  }

  /** What a readable part shows is what it starts with: the part is unbeaten by its fields and one of them. */
  lemma PartShown(fields: seq<Field>, parts: seq<Field>, size: nat, up: bool, k: nat) returns (n: nat)
    requires SplitsFields(fields, parts, size, up) && k < |parts| && parts[k].Number?
    ensures n < |fields| && Shown(fields, size, n) && fields[n] == parts[k]
  {
    var part := fields[k * size..k * size + size];
    ExtremeShape(part, up);
    assert part[0] == fields[k * size];
    var i :| 0 <= i < size && part[i] == parts[k];
    n := k * size + i;
    LeadOf(k, i, size);
  }

  lemma ShownInPart(fields: seq<Field>, parts: seq<Field>, size: nat, up: bool, n: nat) returns (k: nat)
    requires SplitsFields(fields, parts, size, up) && n < |fields| && Shown(fields, size, n)
    ensures k < |parts| && parts[k].Number? && !Beats(up, fields[n], parts[k])
  {
    var i: nat;
    k, i := PartOf(n, size, |parts|);
    LeadOf(k, i, size);
    var part := fields[k * size..k * size + size];
    ExtremeShape(part, up);
    assert part[0] == fields[k * size] && part[i] == fields[n];
  }

  /** The extreme of the parts is a field that is shown and that nothing shown beats. */
  lemma PartsShape(fields: seq<Field>, parts: seq<Field>, size: nat, up: bool) returns (n: nat)
    requires SplitsFields(fields, parts, size, up) && parts != [] && fields != [] && fields[0].Number?
    ensures n < |fields| && Shown(fields, size, n) && Extreme(parts, up) == fields[n]
    ensures forall k :: 0 <= k < |fields| && Shown(fields, size, k) ==> !Beats(up, fields[k], fields[n])
  {
    FirstPart(fields, parts, size, up);
    ExtremeShape(parts, up);
    var p :| 0 <= p < |parts| && parts[p] == Extreme(parts, up);
    n := PartShown(fields, parts, size, up, p);
    forall k | 0 <= k < |fields| && Shown(fields, size, k)
      ensures !Beats(up, fields[k], fields[n])
    {
      var q := ShownInPart(fields, parts, size, up, k);
      assert !Beats(up, parts[q], Extreme(parts, up));
    }
  }

  lemma FirstPart(fields: seq<Field>, parts: seq<Field>, size: nat, up: bool)
    requires SplitsFields(fields, parts, size, up) && parts != [] && fields != []
    ensures parts[0].Number? <==> fields[0].Number?
    ensures !fields[0].Number? ==> parts[0] == fields[0]
  {
    assert 0 * size == 0;
    var part := fields[0..size];
    ExtremeShape(part, up);
    assert part[0] == fields[0] && parts[0] == Extreme(part, up);
  }

  /** The extreme of the parts' extremes is the extreme of the whole if and only if nothing hidden matters. */
  lemma ExtremesAgreeIff(fields: seq<Field>, parts: seq<Field>, size: nat, up: bool)
    requires SplitsFields(fields, parts, size, up) && parts != [] && fields != []
    ensures Extreme(parts, up) == Extreme(fields, up) <==> Legible(fields, size, up)
  {
    assert size > 0;
    hide SplitsFields, Extreme;
    FirstPart(fields, parts, size, up);
    ExtremeShape(parts, up);
    ExtremeShape(fields, up);
    if fields[0].Number? {
      var n := PartsShape(fields, parts, size, up);
      var w :| 0 <= w < |fields| && fields[w] == Extreme(fields, up);
      if fields[n] == fields[w] {
        forall k | 0 <= k < |fields| && Hidden(fields, size, k)
          ensures Matched(fields, size, up, k)
        {
          assert Shown(fields, size, n) && !Beats(up, fields[k], fields[n]);
        }
      }
      if Legible(fields, size, up) {
        ShownUnbeaten(fields, size, up, n, w);
        Unbeaten(up, fields[n], fields[w]);
      }
    }
  }

  lemma ShownUnbeaten(fields: seq<Field>, size: nat, up: bool, n: nat, w: nat)
    requires size > 0 && n < |fields| && w < |fields| && fields[0].Number? && Legible(fields, size, up)
    requires Shown(fields, size, n) && fields[w].Number?
    requires forall k :: 0 <= k < |fields| && Shown(fields, size, k) ==> !Beats(up, fields[k], fields[n])
    ensures !Beats(up, fields[w], fields[n])
  {
    if Hidden(fields, size, w) {
      assert Matched(fields, size, up, w);
      var k :| 0 <= k < |fields| && Shown(fields, size, k) && !Beats(up, fields[w], fields[k]);
    } else {
      assert Shown(fields, size, w);
    }
  }

  // Aggregates of aggregates ------------------------------------------------------------------------------------

  /** parts[k] is the aggregate of the k-th run of `size` candles of whole. */
  ghost predicate Splits(whole: seq<Candle>, parts: seq<Candle>, size: nat, interval: Interval, step: int) {
    && |whole| == |parts| * size && size > 0
    && forall k :: 0 <= k < |parts| ==> 0 <= k * size <= k * size + size <= |whole| && parts[k] == Combine(whole[k * size..k * size + size], interval, step)
  }

  lemma SplitFront(whole: seq<Candle>, parts: seq<Candle>, size: nat, interval: Interval, step: int)
    requires Splits(whole, parts, size, interval, step) && parts != []
    ensures var n := |parts| - 1;
      && n * size + size == |whole|
      && Splits(whole[..n * size], parts[..n], size, interval, step)
      && whole[n * size..] == whole[n * size..n * size + size]
      && parts[n] == Combine(whole[n * size..], interval, step)
  {
    var n := |parts| - 1;
    assert n * size + size == (n + 1) * size;
    forall k | 0 <= k < n
      ensures 0 <= k * size <= k * size + size <= n * size
      ensures whole[..n * size][k * size..k * size + size] == whole[k * size..k * size + size]
    {
      assert k * size + size == (k + 1) * size <= n * size;
    }
    assert 0 <= n * size <= n * size + size <= |whole|;
  }

  /** Folding the parts' aggregates is folding the whole, whatever the highs and lows are. */
  lemma {:induction false} FoldsAgree(whole: seq<Candle>, parts: seq<Candle>, size: nat, interval: Interval, step: int)
    requires Splits(whole, parts, size, interval, step)
    ensures Volumes(parts) == Volumes(whole) && QuoteVolumes(parts) == QuoteVolumes(whole) && TradeCounts(parts) == TradeCounts(whole)
    ensures parts != [] ==> whole != [] && parts[0].open == whole[0].open && parts[0].openTime == whole[0].openTime
                            && parts[0].exchange == whole[0].exchange && parts[0].symbol == whole[0].symbol
    ensures parts != [] ==> parts[|parts| - 1].close == whole[|whole| - 1].close
                            && parts[|parts| - 1].eventTime == whole[|whole| - 1].eventTime
    decreases |parts|
  {
    hide Splits, HighestOf, LowestOf;
    if parts != [] {
      var n := |parts| - 1;
      SplitFront(whole, parts, size, interval, step);
      var (front, last) := (whole[..n * size], whole[n * size..]);
      assert whole == front + last;
      SplitSizes(whole, parts, size, interval, step);
      FoldsAgree(front, parts[..n], size, interval, step);
      VolumesConcat(front, last);
      if n > 0 {
        SplitSizes(front, parts[..n], size, interval, step);
      } else {
        assert whole == last;
        assert parts[..0] == [];
      }
    } else {
      SplitSizes(whole, parts, size, interval, step);
    }
  }

  /** The parts' highs and lows are the extremes of the runs of the whole's. */
  lemma RangesSplit(whole: seq<Candle>, parts: seq<Candle>, size: nat, interval: Interval, step: int)
    requires Splits(whole, parts, size, interval, step)
    ensures SplitsFields(Highs(whole), Highs(parts), size, true) && SplitsFields(Lows(whole), Lows(parts), size, false)
  {
    hide Extreme;
    forall k | 0 <= k < |parts|
      ensures Highs(whole)[k * size..k * size + size] == Highs(whole[k * size..k * size + size])
      ensures Lows(whole)[k * size..k * size + size] == Lows(whole[k * size..k * size + size])
    {
    }
  }

  lemma SplitSizes(whole: seq<Candle>, parts: seq<Candle>, size: nat, interval: Interval, step: int)
    requires Splits(whole, parts, size, interval, step)
    ensures size > 0 && (parts == [] ==> whole == []) && (parts != [] ==> |whole| >= size)
  {
    if parts != [] {
      assert |parts| * size == (|parts| - 1) * size + size;
      assert (|parts| - 1) * size >= 0;
    }
  }

  /** In a bucket, nothing that the parts hide matters to the high or to the low. */
  ghost predicate LegibleBucket(whole: seq<Candle>, size: nat)
    requires size > 0 && whole != []
  {
    Legible(Highs(whole), size, true) && Legible(Lows(whole), size, false)
  }

  /** Combining the parts gives the candle that combining the whole gives if and only if nothing hidden matters. */
  lemma CombineComposes(whole: seq<Candle>, parts: seq<Candle>, size: nat, inner: Interval, innerStep: int, outer: Interval, outerStep: int)
    requires Splits(whole, parts, size, inner, innerStep) && parts != []
    ensures whole != [] && size > 0
    ensures Combine(parts, outer, outerStep) == Combine(whole, outer, outerStep) <==> LegibleBucket(whole, size)
  {
    SplitSizes(whole, parts, size, inner, innerStep);
    FoldsAgree(whole, parts, size, inner, innerStep);
    RangesSplit(whole, parts, size, inner, innerStep);
    hide Splits, Extreme, Legible;
    ExtremesAgreeIff(Highs(whole), Highs(parts), size, true);
    ExtremesAgreeIff(Lows(whole), Lows(parts), size, false);
  }

  // Grids ------------------------------------------------------------------------------------------------------------

  lemma TruncatedIsMultiple(t: Time, d: int)
    requires d > 0
    ensures Truncated(t, d) % d == 0 && Truncated(t, d) <= t < Truncated(t, d) + d
  {
    assert Truncated(t, d) == (t / d) * d;
    MultipleOfProduct(t / d, d);
  }

  // What a list of aggregates contains -----------------------------------------------------------------------------------

  ghost predicate Represents(m: Index, step: int, size: nat, interval: Interval, c: Candle) {
    && size > 0 && Complete(m, c.openTime, step, size)
    && AllCountable(Bucket(m, c.openTime, step, size))
    && c == Combine(Bucket(m, c.openTime, step, size), interval, step * size)
  }

  /** One aggregate for each complete bucket in range, in time order. */
  ghost predicate Listed(m: Index, lo: Time, hi: Time, step: int, size: nat, interval: Interval, list: seq<Candle>) {
    && step > 0 && size > 0 && step * size > 0
    && (forall i :: 0 <= i < |list| ==> lo <= list[i].openTime <= hi && Represents(m, step, size, interval, list[i]))
    && (forall i, j :: 0 <= i < j < |list| ==> list[i].openTime < list[j].openTime)
    && (forall b :: lo <= b <= hi && b % (step * size) == 0 && Complete(m, b, step, size) ==> b in Opens(list))
  }

  function Opens(list: seq<Candle>): set<Time> {
    set i | 0 <= i < |list| :: list[i].openTime
  }

  lemma {:induction false} AggregatesListed(m: Index, lo: Time, hi: Time, step: int, size: nat, interval: Interval)
    requires Keyed(m) && step > 0 && size > 0 && step * size > 0 && lo % (step * size) == 0
    requires Aggregates(m, lo, hi, step, size, interval).Ok?
    ensures Listed(m, lo, hi, step, size, interval, Aggregates(m, lo, hi, step, size, interval).value)
    decreases hi - lo
  {
    hide Complete, Bucket, Combine, AllCountable, Listed, Represents;
    if lo <= hi {
      NextMultiple(lo, step * size);
      AggregatesListed(m, lo + step * size, hi, step, size, interval);
      var rest := Aggregates(m, lo + step * size, hi, step, size, interval).value;
      if Complete(m, lo, step, size) {
        CombineOpens(m, lo, step, size, interval);
        BucketRepresented(m, lo, step, size, interval);
        ListOneMore(m, lo, hi, step, size, interval, Combine(Bucket(m, lo, step, size), interval, step * size), rest);
      } else {
        ListNoMore(m, lo, hi, step, size, interval, rest);
      }
    } else {
      EmptyListed(m, lo, hi, step, size, interval);
    }
  }

  lemma EmptyListed(m: Index, lo: Time, hi: Time, step: int, size: nat, interval: Interval)
    requires lo > hi && step > 0 && size > 0 && step * size > 0
    ensures Listed(m, lo, hi, step, size, interval, [])
  {
  }

  lemma BucketRepresented(m: Index, lo: Time, step: int, size: nat, interval: Interval)
    requires Keyed(m) && size > 0 && Complete(m, lo, step, size) && AllCountable(Bucket(m, lo, step, size))
    ensures Bucket(m, lo, step, size) != []
    ensures Represents(m, step, size, interval, Combine(Bucket(m, lo, step, size), interval, step * size))
  {
    hide Complete, Bucket, AllCountable;
    CombineOpens(m, lo, step, size, interval);
  }

  lemma ListOneMore(m: Index, lo: Time, hi: Time, step: int, size: nat, interval: Interval, c: Candle, rest: seq<Candle>)
    requires step * size > 0 && lo % (step * size) == 0 && lo <= hi
    requires Listed(m, lo + step * size, hi, step, size, interval, rest)
    requires Represents(m, step, size, interval, c) && c.openTime == lo
    ensures Listed(m, lo, hi, step, size, interval, [c] + rest)
  {
    hide Complete, Represents;
    var list := [c] + rest;
    assert forall i :: 1 <= i < |list| ==> list[i] == rest[i - 1];
    assert list[0].openTime == lo;
    forall b | lo <= b <= hi && b % (step * size) == 0 && Complete(m, b, step, size)
      ensures b in Opens(list)
    {
      if lo < b {
        MultiplesApart(lo, b, step * size);
        var i :| 0 <= i < |rest| && rest[i].openTime == b;
        assert list[i + 1].openTime == b;
      }
    }
  }

  lemma ListNoMore(m: Index, lo: Time, hi: Time, step: int, size: nat, interval: Interval, rest: seq<Candle>)
    requires step * size > 0 && lo % (step * size) == 0 && !Complete(m, lo, step, size)
    requires Listed(m, lo + step * size, hi, step, size, interval, rest)
    ensures Listed(m, lo, hi, step, size, interval, rest)
  {
    hide Complete, Represents;
    forall b | lo <= b <= hi && b % (step * size) == 0 && Complete(m, b, step, size)
      ensures b in Opens(rest)
    {
      MultiplesApart(lo, b, step * size);
    }
  }

  lemma CombineOpens(m: Index, start: Time, step: int, size: nat, interval: Interval)
    requires Keyed(m) && size > 0 && Complete(m, start, step, size)
    ensures Bucket(m, start, step, size) != []
    ensures Combine(Bucket(m, start, step, size), interval, step * size).openTime == start
    ensures Combine(Bucket(m, start, step, size), interval, step * size).interval == interval
  {
    assert start + 0 * step == start;
    assert Bucket(m, start, step, size)[0] == m[start];
  }

  // Two stages over one grid ------------------------------------------------------------------------------------------------

  /** The fine index m, its aggregates m1, and the sizes that link their grids. */
  ghost predicate Staged(m: Index, m1: Index, first: Time, last: Time, step: int, size: nat, outerSize: nat, inner: Interval) {
    && step > 0 && size > 0 && outerSize > 0 && step * size > 0
    && Keyed(m) && Keyed(m1)
    && (forall t :: t in m ==> first <= t <= last)
    && (forall t :: t in m1 ==> Represents(m, step, size, inner, m1[t]))
    && (forall b :: b % (step * size) == 0 && first <= b <= last && Complete(m, b, step, size) ==> b in m1)
  }

  /** Positions inside a large bucket: candle i of its k-th part. */
  lemma Position(start: int, k: int, i: int, size: int, step: int)
    ensures start + (k * size + i) * step == start + k * (step * size) + i * step
  {
    assert (k * size + i) * step == k * size * step + i * step;
    assert k * size * step == k * (step * size);
  }

  lemma PartOf(n: nat, size: nat, outerSize: nat) returns (k: nat, i: nat)
    requires size > 0 && n < size * outerSize
    ensures n == k * size + i && i < size && k < outerSize
  {
    k, i := n / size, n % size;
    CancelLess(k, outerSize, size);
  }

  lemma PartWithin(k: int, size: nat, outerSize: nat)
    requires 0 <= k < outerSize
    ensures 0 <= k * size <= k * size + size <= size * outerSize
  {
    assert (k + 1) * size <= outerSize * size;
  }

  lemma CompleteByParts(m: Index, m1: Index, first: Time, last: Time, step: int, size: nat, outerSize: nat, inner: Interval, c: Time)
    requires Staged(m, m1, first, last, step, size, outerSize, inner) && Complete(m1, c, step * size, outerSize)
    ensures Complete(m, c, step, size * outerSize)
  {
    hide Staged;
    forall n | 0 <= n < size * outerSize
      ensures c + n * step in m
    {
      StagedSize(m, m1, first, last, step, size, outerSize, inner);
      var k, i := PartOf(n, size, outerSize);
      Position(c, k, i, size, step);
      PartHolds(m, m1, first, last, step, size, outerSize, inner, c + k * (step * size), i);
    }
  }

  lemma StagedSize(m: Index, m1: Index, first: Time, last: Time, step: int, size: nat, outerSize: nat, inner: Interval)
    requires Staged(m, m1, first, last, step, size, outerSize, inner)
    ensures size > 0
  {
    hide Represents, Complete;
  }

  /** An aggregate stands for a bucket without gaps. */
  lemma PartHolds(m: Index, m1: Index, first: Time, last: Time, step: int, size: nat, outerSize: nat, inner: Interval,
                  b: Time, i: nat)
    requires Staged(m, m1, first, last, step, size, outerSize, inner) && b in m1 && i < size
    ensures b + i * step in m
  {
    hide Combine, AllCountable, Bucket;
    assert m1[b].openTime == b && Represents(m, step, size, inner, m1[b]);
  }

  lemma PartsOfComplete(m: Index, m1: Index, first: Time, last: Time, step: int, size: nat, outerSize: nat, inner: Interval, c: Time)
    requires Staged(m, m1, first, last, step, size, outerSize, inner) && c % (step * size) == 0
    requires Complete(m, c, step, size * outerSize)
    ensures Complete(m1, c, step * size, outerSize)
  {
    forall k | 0 <= k < outerSize
      ensures c + k * (step * size) in m1
    {
      var b := c + k * (step * size);
      PartComplete(m, step, size, outerSize, c, k);
      NeedsFirst(m, b, step, size);
      MultipleOfProduct(k, step * size);
      MultipleSum(c, k * (step * size), step * size);
    }
  }

  /** A large bucket is complete exactly when all its parts were aggregated. */
  lemma CompleteTogether(m: Index, m1: Index, first: Time, last: Time, step: int, size: nat, outerSize: nat, inner: Interval, c: Time)
    requires Staged(m, m1, first, last, step, size, outerSize, inner) && c % (step * size) == 0
    ensures Complete(m1, c, step * size, outerSize) <==> Complete(m, c, step, size * outerSize)
  {
    hide Staged, Complete;
    if Complete(m1, c, step * size, outerSize) {
      CompleteByParts(m, m1, first, last, step, size, outerSize, inner, c);
    }
    if Complete(m, c, step, size * outerSize) {
      PartsOfComplete(m, m1, first, last, step, size, outerSize, inner, c);
    }
  }

  lemma PartComplete(m: Index, step: int, size: nat, outerSize: nat, c: Time, k: int)
    requires size > 0 && 0 <= k < outerSize && Complete(m, c, step, size * outerSize)
    ensures Complete(m, c + k * (step * size), step, size)
  {
    forall i | 0 <= i < size
      ensures c + k * (step * size) + i * step in m
    {
      Position(c, k, i, size, step);
      PartWithin(k, size, outerSize);
    }
  }

  /** The k-th part of a large bucket is a bucket of its own. */
  lemma SliceIsBucket(m: Index, step: int, size: nat, outerSize: nat, c: Time, k: int)
    requires size > 0 && 0 <= k < outerSize && Complete(m, c, step, size * outerSize)
    ensures Complete(m, c + k * (step * size), step, size)
    ensures 0 <= k * size <= k * size + size <= |Bucket(m, c, step, size * outerSize)|
    ensures Bucket(m, c, step, size * outerSize)[k * size..k * size + size] == Bucket(m, c + k * (step * size), step, size)
  {
    PartWithin(k, size, outerSize);
    PartComplete(m, step, size, outerSize, c, k);
    var (whole, b) := (Bucket(m, c, step, size * outerSize), c + k * (step * size));
    forall i | 0 <= i < size
      ensures whole[k * size..k * size + size][i] == m[b + i * step]
    {
      Position(c, k, i, size, step);
    }
  }

  lemma PartSlice(m: Index, m1: Index, first: Time, last: Time, step: int, size: nat, outerSize: nat, inner: Interval,
                  c: Time, k: int)
    requires Staged(m, m1, first, last, step, size, outerSize, inner) && 0 <= k < outerSize
    requires Complete(m, c, step, size * outerSize) && Complete(m1, c, step * size, outerSize)
    ensures var (whole, parts) := (Bucket(m, c, step, size * outerSize), Bucket(m1, c, step * size, outerSize));
      && 0 <= k * size <= k * size + size <= |whole|
      && AllCountable(whole[k * size..k * size + size])
      && parts[k] == Combine(whole[k * size..k * size + size], inner, step * size)
  {
    SliceIsBucket(m, step, size, outerSize, c, k);
    var b := c + k * (step * size);
    assert Bucket(m1, c, step * size, outerSize)[k] == m1[b] && m1[b].openTime == b;
    assert Represents(m, step, size, inner, m1[b]);
    hide Combine, AllCountable, Complete, Bucket;
  }

  lemma BucketsSplit(m: Index, m1: Index, first: Time, last: Time, step: int, size: nat, outerSize: nat, inner: Interval, c: Time)
    requires Staged(m, m1, first, last, step, size, outerSize, inner) && c % (step * size) == 0
    requires Complete(m, c, step, size * outerSize) && Complete(m1, c, step * size, outerSize)
    ensures Splits(Bucket(m, c, step, size * outerSize), Bucket(m1, c, step * size, outerSize), size, inner, step * size)
    ensures AllCountable(Bucket(m, c, step, size * outerSize)) && AllCountable(Bucket(m1, c, step * size, outerSize))
  {
    hide Combine;
    var (whole, parts) := (Bucket(m, c, step, size * outerSize), Bucket(m1, c, step * size, outerSize));
    forall k | 0 <= k < outerSize
      ensures 0 <= k * size <= k * size + size <= |whole|
      ensures parts[k] == Combine(whole[k * size..k * size + size], inner, step * size)
      ensures AllCountable(whole[k * size..k * size + size])
    {
      PartSlice(m, m1, first, last, step, size, outerSize, inner, c, k);
    }
    forall n | 0 <= n < |whole|
      ensures Countable(whole[n])
    {
      var k, i := PartOf(n, size, outerSize);
      assert whole[n] == whole[k * size..k * size + size][i];
    }
    forall k | 0 <= k < outerSize
      ensures Countable(parts[k])
    {
      CombineCountable(whole[k * size..k * size + size], inner, step * size);
    }
    assert |parts| * size == size * outerSize;
  }

  lemma CombineCountable(bucket: seq<Candle>, interval: Interval, step: int)
    requires bucket != []
    ensures Countable(Combine(bucket, interval, step))
  {
  }

  /** One large bucket gives the same candle through its parts as directly, exactly when it is legible. */
  lemma StageOne(m: Index, m1: Index, first: Time, last: Time, step: int, size: nat, outerSize: nat,
                 inner: Interval, outer: Interval, lo: Time, width: int)
    requires Staged(m, m1, first, last, step, size, outerSize, inner) && lo % (step * size) == 0 && size * outerSize > 0
    ensures Complete(m1, lo, step * size, outerSize) <==> Complete(m, lo, step, size * outerSize)
    ensures Complete(m, lo, step, size * outerSize) ==>
      var (parts, whole) := (Bucket(m1, lo, step * size, outerSize), Bucket(m, lo, step, size * outerSize));
      && AllCountable(parts) && AllCountable(whole) && parts != [] && whole != []
      && (Combine(parts, outer, width) == Combine(whole, outer, width) <==> LegibleBucket(whole, size))
  {
    hide Splits, Combine, AllCountable, Complete, Bucket, LegibleBucket;
    CompleteTogether(m, m1, first, last, step, size, outerSize, inner, lo);
    if Complete(m, lo, step, size * outerSize) {
      BucketsSplit(m, m1, first, last, step, size, outerSize, inner, lo);
      BucketLength(m1, lo, step * size, outerSize);
      CombineComposes(Bucket(m, lo, step, size * outerSize), Bucket(m1, lo, step * size, outerSize), size,
                      inner, step * size, outer, width);
    }
  }

  /** The complete large bucket at b, if there is one, is legible. */
  ghost predicate LegibleAt(m: Index, step: int, size: nat, outerSize: nat, b: Time)
    requires size > 0 && outerSize > 0
  {
    Complete(m, b, step, size * outerSize) ==>
      (assert size * outerSize > 0;
       BucketLength(m, b, step, size * outerSize);
       LegibleBucket(Bucket(m, b, step, size * outerSize), size))
  }

  ghost predicate LegibleFrom(m: Index, lo: Time, hi: Time, step: int, size: nat, outerSize: nat)
    requires size > 0 && outerSize > 0 && step * size * outerSize > 0
  {
    forall b :: lo <= b <= hi && b % (step * size * outerSize) == 0 ==> LegibleAt(m, step, size, outerSize, b)
  }

  /** Both walks succeed, and they give the same list exactly when every large bucket on the way is legible. */
  lemma {:induction false} StagesAgree(m: Index, m1: Index, first: Time, last: Time, step: int, size: nat, outerSize: nat,
                                       inner: Interval, outer: Interval, lo: Time, hi: Time)
    requires Staged(m, m1, first, last, step, size, outerSize, inner)
    requires step > 0 && size > 0 && step * size > 0 && outerSize > 0 && size * outerSize > 0 && step * size * outerSize > 0
    requires lo % (step * size) == 0 && lo % (step * size * outerSize) == 0
    ensures Aggregates(m1, lo, hi, step * size, outerSize, outer).Ok? && Aggregates(m, lo, hi, step, size * outerSize, outer).Ok?
    ensures Aggregates(m1, lo, hi, step * size, outerSize, outer) == Aggregates(m, lo, hi, step, size * outerSize, outer)
            <==> LegibleFrom(m, lo, hi, step, size, outerSize)
    decreases hi - lo
  {
    hide Staged, Combine, AllCountable, Complete, Bucket, LegibleAt;
    if lo <= hi {
      var width := step * size * outerSize;
      WidthsAgree(step, size, outerSize);
      WidthPositive(step * size, outerSize);
      MultipleOfProduct(outerSize, step * size);
      MultipleSum(lo, outerSize * (step * size), step * size);
      MultipleSum(lo, width, width);
      StagesAgree(m, m1, first, last, step, size, outerSize, inner, outer, lo + width, hi);
      LegibleSteps(m, lo, hi, step, size, outerSize);
      hide LegibleFrom;
      StageTwo(m, m1, first, last, step, size, outerSize, inner, outer, lo, hi);
    }
  }

  /** One step of both walks. */
  lemma StageTwo(m: Index, m1: Index, first: Time, last: Time, step: int, size: nat, outerSize: nat,
                 inner: Interval, outer: Interval, lo: Time, hi: Time)
    requires Staged(m, m1, first, last, step, size, outerSize, inner) && lo <= hi && lo % (step * size) == 0
    requires step > 0 && size > 0 && step * size > 0 && outerSize > 0 && size * outerSize > 0
    requires step * (size * outerSize) == step * size * outerSize
    requires var next := lo + step * size * outerSize;
      Aggregates(m1, next, hi, step * size, outerSize, outer).Ok? && Aggregates(m, next, hi, step, size * outerSize, outer).Ok?
    ensures Aggregates(m1, lo, hi, step * size, outerSize, outer).Ok? && Aggregates(m, lo, hi, step, size * outerSize, outer).Ok?
    ensures var next := lo + step * size * outerSize;
      Aggregates(m1, lo, hi, step * size, outerSize, outer) == Aggregates(m, lo, hi, step, size * outerSize, outer)
      <==> Aggregates(m1, next, hi, step * size, outerSize, outer) == Aggregates(m, next, hi, step, size * outerSize, outer)
           && LegibleAt(m, step, size, outerSize, lo)
  {
    hide Staged, Combine, AllCountable, Complete, Bucket, LegibleBucket;
    var width := step * size * outerSize;
    StageOne(m, m1, first, last, step, size, outerSize, inner, outer, lo, width);
    if Complete(m, lo, step, size * outerSize) {
      var next := lo + width;
      SameLists(Combine(Bucket(m1, lo, step * size, outerSize), outer, width),
                Aggregates(m1, next, hi, step * size, outerSize, outer).value,
                Combine(Bucket(m, lo, step, size * outerSize), outer, width),
                Aggregates(m, next, hi, step, size * outerSize, outer).value);
    }
  }

  lemma SameLists(a: Candle, s: seq<Candle>, b: Candle, t: seq<Candle>)
    ensures [a] + s == [b] + t <==> a == b && s == t
  {
    assert ([a] + s)[0] == a && ([a] + s)[1..] == s && ([b] + t)[0] == b && ([b] + t)[1..] == t;
  }

  lemma LegibleSteps(m: Index, lo: Time, hi: Time, step: int, size: nat, outerSize: nat)
    requires size > 0 && outerSize > 0 && step * size * outerSize > 0 && lo <= hi && lo % (step * size * outerSize) == 0
    ensures LegibleFrom(m, lo, hi, step, size, outerSize) <==>
      LegibleAt(m, step, size, outerSize, lo) && LegibleFrom(m, lo + step * size * outerSize, hi, step, size, outerSize)
  {
    hide LegibleAt;
    var width := step * size * outerSize;
    forall b | lo < b && b % width == 0
      ensures b >= lo + width
    {
      MultiplesApart(lo, b, width);
    }
  }

  lemma WidthPositive(step: int, size: int)
    requires step > 0 && size > 0
    ensures step * size >= 1
  {
  }

  lemma WidthsAgree(step: int, size: nat, outerSize: nat)
    ensures step * (size * outerSize) == step * size * outerSize == outerSize * (step * size)
  {
  }

  // The ranges walked do not matter -------------------------------------------------------------------------------------------

  /** Starting earlier, or ending later, over buckets that are not complete adds nothing. */
  lemma {:induction false} RangeIrrelevant(m: Index, lo: Time, from: Time, to: Time, hi: Time, step: int, size: nat, interval: Interval)
    requires step > 0 && size > 0 && step * size > 0 && lo % (step * size) == 0 && from % (step * size) == 0 && lo <= from && to <= hi
    requires forall b :: lo <= b <= hi && b % (step * size) == 0 && Complete(m, b, step, size) ==> from <= b <= to
    ensures Aggregates(m, lo, hi, step, size, interval) == Aggregates(m, from, to, step, size, interval)
    decreases hi - lo
  {
    hide Complete, Bucket, Combine, AllCountable;
    NextMultiple(lo, step * size);
    if lo > hi {
    } else if lo < from {
      MultiplesApart(lo, from, step * size);
      RangeIrrelevant(m, lo + step * size, from, to, hi, step, size, interval);
    } else if lo > to {
      NothingAfter(m, lo, hi, step, size, interval);
    } else {
      RangeIrrelevant(m, lo + step * size, from + step * size, to, hi, step, size, interval);
    }
  }

  lemma {:induction false} NothingAfter(m: Index, lo: Time, hi: Time, step: int, size: nat, interval: Interval)
    requires step > 0 && size > 0 && step * size > 0 && lo % (step * size) == 0
    requires forall b :: lo <= b <= hi && b % (step * size) == 0 ==> !Complete(m, b, step, size)
    ensures Aggregates(m, lo, hi, step, size, interval) == Ok([])
    decreases hi - lo
  {
    hide Complete;
    if lo <= hi {
      NextMultiple(lo, step * size);
      NothingAfter(m, lo + step * size, hi, step, size, interval);
    }
  }

  // The theorem ------------------------------------------------------------------------------------------------------------------

  ghost predicate Sorted(cs: seq<Candle>) {
    forall i, j :: 0 <= i < j < |cs| ==> cs[i].openTime < cs[j].openTime
  }

  lemma StagedByAggregates(cs: seq<Candle>, step: int, size: nat, outerSize: nat, inner: Interval, list: seq<Candle>)
    requires cs != [] && Sorted(cs) && outerSize > 0
    requires var (first, last) := (cs[0].openTime, cs[|cs| - 1].openTime);
      && step > 0 && size > 0 && step * size > 0
      && Listed(ByOpenTime(cs), Truncated(first, step * size), last, step, size, inner, list)
    ensures Staged(ByOpenTime(cs), ByOpenTime(list), cs[0].openTime, cs[|cs| - 1].openTime, step, size, outerSize, inner)
  {
    hide Complete, Bucket, Combine, AllCountable;
    var (first, last) := (cs[0].openTime, cs[|cs| - 1].openTime);
    ByOpenTimeKeyed(cs);
    ByOpenTimeKeyed(list);
    TruncatedIsMultiple(first, step * size);
    forall t | t in ByOpenTime(cs)
      ensures first <= t <= last
    {
      ByOpenTimeFrom(cs, t);
      assert ByOpenTime(cs)[t] in cs;
    }
    forall t | t in ByOpenTime(list)
      ensures Represents(ByOpenTime(cs), step, size, inner, ByOpenTime(list)[t])
    {
      ByOpenTimeFrom(list, t);
      var i :| 0 <= i < |list| && list[i] == ByOpenTime(list)[t];
    }
  }

  lemma {:induction false} ByOpenTimeFrom(cs: seq<Candle>, t: Time)
    requires t in ByOpenTime(cs)
    ensures ByOpenTime(cs)[t] in cs
  {
    var n := |cs| - 1;
    if t != cs[n].openTime {
      ByOpenTimeFrom(cs[..n], t);
    }
  }

  /** The three intervals are multiples of one another. */
  predicate Nested(source: Interval, inner: Interval, outer: Interval) {
    && IntervalDuration(source).Ok? && IntervalDuration(inner).Ok? && IntervalDuration(outer).Ok?
    && var (s, b, c) := (IntervalDuration(source).value, IntervalDuration(inner).value, IntervalDuration(outer).value);
       s < b < c && b % s == 0 && c % b == 0
  }

  /** In every complete bucket of the outer interval, whatever the inner buckets hide does not matter: it stands in a
      bucket that starts with a price that cannot be read, or it is beaten or matched by something they show. */
  ghost predicate LegibleSeries(cs: seq<Candle>, inner: Interval, outer: Interval)
    requires cs != [] ==> Nested(cs[0].interval, inner, outer)
  {
    cs == [] ||
    var (s, b, c) := (IntervalDuration(cs[0].interval).value, IntervalDuration(inner).value, IntervalDuration(outer).value);
    SizePositive(b, s);
    SizePositive(c, b);
    LegibleOn(ByOpenTime(cs), s, b / s, c / b)
  }

  /** Every complete large bucket of an index is legible. */
  ghost predicate LegibleOn(m: Index, step: int, size: nat, outerSize: nat)
    requires step > 0 && size > 0 && outerSize > 0
  {
    WidthPositive(step, size);
    WidthPositive(step * size, outerSize);
    forall b :: b % (step * size * outerSize) == 0 ==> LegibleAt(m, step, size, outerSize, b)
  }

  /** Whenever the first stage succeeds, aggregating in two stages is aggregating once if and only if every bucket
      is legible. */
  lemma AggregationComposes(cs: seq<Candle>, inner: Interval, outer: Interval)
    requires Sorted(cs) && AggregateCandles(cs, inner).Ok?
    requires IntervalDuration(outer).Ok? && IntervalDuration(inner).value < IntervalDuration(outer).value
    requires IntervalDuration(outer).value % IntervalDuration(inner).value == 0
    ensures cs != [] ==> Nested(cs[0].interval, inner, outer)
    ensures AggregateCandles(AggregateCandles(cs, inner).value, outer).Ok? && AggregateCandles(cs, outer).Ok?
    ensures AggregateCandles(AggregateCandles(cs, inner).value, outer) == AggregateCandles(cs, outer)
            <==> LegibleSeries(cs, inner, outer)
  {
    FirstStage(cs, inner, outer);
    hide AggregateCandles, LegibleAt, LegibleSeries, ByOpenTime, Sorted, IntervalDuration, Nested;
    if cs == [] {
      NothingToAggregate(inner, outer);
    } else {
      var (s, b, c) := (IntervalDuration(cs[0].interval).value, IntervalDuration(inner).value, IntervalDuration(outer).value);
      SizePositive(b, s);
      SizePositive(c, b);
      ThreeSizes(s, b, c);
      ComposesSized(cs, inner, outer, s, b / s, c / b);
      SeriesSized(cs, inner, outer, s, b / s, c / b);
    }
  }

  lemma SeriesSized(cs: seq<Candle>, inner: Interval, outer: Interval, s: int, p: nat, q: nat)
    requires cs != [] && Nested(cs[0].interval, inner, outer) && s > 0 && p > 0 && q > 0
    requires IntervalDuration(cs[0].interval) == Ok(s) && IntervalDuration(inner) == Ok(s * p)
    requires IntervalDuration(outer) == Ok(s * p * q) && (s * p) / s == p && (s * p * q) / (s * p) == q
    ensures LegibleSeries(cs, inner, outer) <==> LegibleOn(ByOpenTime(cs), s, p, q)
  {
    hide LegibleOn, ByOpenTime, IntervalDuration, Nested;
  }

  lemma FirstStage(cs: seq<Candle>, inner: Interval, outer: Interval)
    requires AggregateCandles(cs, inner).Ok? && IntervalDuration(outer).Ok?
    requires IntervalDuration(inner).value < IntervalDuration(outer).value
    requires IntervalDuration(outer).value % IntervalDuration(inner).value == 0
    ensures IntervalDuration(inner).Ok? && IntervalDuration(inner).value > 0
    ensures cs == [] ==> LegibleSeries(cs, inner, outer)
    ensures cs != [] ==>
      && Nested(cs[0].interval, inner, outer) && IntervalDuration(cs[0].interval).Ok?
      && 0 < IntervalDuration(cs[0].interval).value < IntervalDuration(inner).value
      && IntervalDuration(inner).value % IntervalDuration(cs[0].interval).value == 0
  {
    hide Aggregates;
  }

  lemma NothingToAggregate(inner: Interval, outer: Interval)
    requires IntervalDuration(inner).Ok? && IntervalDuration(outer).Ok?
    ensures AggregateCandles([], inner) == Ok([]) == AggregateCandles([], outer)
  {
  }

  lemma ThreeSizes(s: int, b: int, c: int)
    requires 0 < s < b < c && b % s == 0 && c % b == 0
    ensures c % s == 0 && c / s == (b / s) * (c / b) && s * (b / s) == b && b * (c / b) == c
  {
    var (p, q) := (b / s, c / b);
    assert c == s * p * q;
    assert c == (p * q) * s;
    MultipleOfProduct(p * q, s);
    assert (c / s) * s == (p * q) * s;
    CancelEqual(c / s, p * q, s);
  }

  lemma ComposesSized(cs: seq<Candle>, inner: Interval, outer: Interval, s: int, p: nat, q: nat)
    requires cs != [] && Sorted(cs) && AggregateCandles(cs, inner).Ok?
    requires p > 1 && q > 1 && s > 0 && IntervalDuration(cs[0].interval) == Ok(s)
    requires IntervalDuration(inner) == Ok(s * p) && IntervalDuration(outer) == Ok(s * p * q)
    requires s < s * p < s * p * q && (s * p) % s == 0 && (s * p * q) % (s * p) == 0 && (s * p * q) % s == 0
    requires (s * p) / s == p && (s * p * q) / (s * p) == q && (s * p * q) / s == p * q && p * q > 0
    ensures AggregateCandles(AggregateCandles(cs, inner).value, outer).Ok? && AggregateCandles(cs, outer).Ok?
    ensures AggregateCandles(AggregateCandles(cs, inner).value, outer) == AggregateCandles(cs, outer)
            <==> LegibleOn(ByOpenTime(cs), s, p, q)
  {
    hide Complete, Bucket, Combine, AllCountable, Staged, Aggregates, Listed, Truncated, Sorted, IntervalDuration,
      LegibleOn, LegibleFrom;
    var (m, first, last) := (ByOpenTime(cs), cs[0].openTime, cs[|cs| - 1].openTime);
    var list := AggregateCandles(cs, inner).value;
    ByOpenTimeKeyed(cs);
    TruncatedIsMultiple(first, s * p);
    AggregatesListed(m, Truncated(first, s * p), last, s, p, inner);
    StagedByAggregates(cs, s, p, q, inner, list);
    var m1 := ByOpenTime(list);
    var lo := Truncated(first, s * p * q);
    OuterGrid(first, s, p, q);
    StagesAgree(m, m1, first, last, s, p, q, inner, outer, lo, last);
    WalkFromList(list, m, m1, first, last, s, p, q, inner, outer);
    LegibleInRange(m, m1, first, last, s, p, q, inner);
  }

  /** Complete buckets lie between the first candle and the last, so asking it of all is asking it of those. */
  lemma LegibleInRange(m: Index, m1: Index, first: Time, last: Time, s: int, p: nat, q: nat, inner: Interval)
    requires Staged(m, m1, first, last, s, p, q, inner) && s * p * q > 0 && p * q > 0
    ensures LegibleFrom(m, Truncated(first, s * p * q), last, s, p, q) <==> LegibleOn(m, s, p, q)
  {
    hide LegibleBucket, Complete, Bucket;
    TruncatedIsMultiple(first, s * p * q);
    forall b
      ensures LegibleAt(m, s, p, q, b) || Truncated(first, s * p * q) <= b <= last
    {
      NeedsFirst(m, b, s, p * q);
    }
    hide LegibleAt;
  }

  lemma OuterGrid(t: Time, s: int, p: nat, q: nat)
    requires s > 0 && p > 0 && q > 0 && s * p > 0 && s * p * q > 0
    ensures Truncated(t, s * p * q) % (s * p * q) == 0 && Truncated(t, s * p * q) % (s * p) == 0
    ensures Truncated(t, s * p * q) <= t
  {
    TruncatedIsMultiple(t, s * p * q);
    MultipleOfMultiple(Truncated(t, s * p * q), s * p, q);
  }

  /** The second stage starts and ends at its own list's edges; the buckets it leaves out are not complete. */
  lemma WalkFromList(list: seq<Candle>, m: Index, m1: Index, first: Time, last: Time, s: int, p: nat, q: nat,
                     inner: Interval, outer: Interval)
    requires m1 == ByOpenTime(list) && Staged(m, m1, first, last, s, p, q, inner) && s * p * q > 0 && p * q > 0
    requires Listed(m, Truncated(first, s * p), last, s, p, inner, list)
    ensures (if list == [] then Ok([])
             else Aggregates(m1, Truncated(list[0].openTime, s * p * q), list[|list| - 1].openTime, s * p, q, outer))
            == Aggregates(m1, Truncated(first, s * p * q), last, s * p, q, outer)
    ensures list != [] ==> list[0].interval == inner
  {
    hide Complete, Bucket, Combine, AllCountable, Aggregates, Truncated;
    OuterGrid(first, s, p, q);
    var lo := Truncated(first, s * p * q);
    if list == [] {
      forall b | lo <= b <= last && b % (s * p * q) == 0
        ensures !Complete(m1, b, s * p, q)
      {
        NeedsFirst(m1, b, s * p, q);
      }
      NothingAfter(m1, lo, last, s * p, q, outer);
    } else {
      var (start, end) := (list[0].openTime, list[|list| - 1].openTime);
      OuterGrid(start, s, p, q);
      assert Represents(m, s, p, inner, list[0]);
      CombineOpens(m, start, s, p, inner);
      NeedsFirst(m, start, s, p);
      TruncatedMonotone(first, start, s * p * q);
      TruncatedIsMultiple(start, s * p * q);
      forall b | lo <= b <= last && b % (s * p * q) == 0 && Complete(m1, b, s * p, q)
        ensures Truncated(start, s * p * q) <= b <= end
      {
        NeedsFirst(m1, b, s * p, q);
        ByOpenTimeKeyed(list);
        var i :| 0 <= i < |list| && list[i].openTime == b;
        assert start <= b <= end;
      }
      RangeIrrelevant(m1, lo, Truncated(start, s * p * q), end, last, s * p, q, outer);
    }
  }

  lemma NeedsFirst(m: Index, b: Time, step: int, size: nat)
    requires size > 0
    ensures Complete(m, b, step, size) ==> b in m
  {
    assert b + 0 * step == b;
  }

  lemma TruncatedMonotone(t: Time, u: Time, d: int)
    requires d > 0 && t <= u
    ensures Truncated(t, d) <= Truncated(u, d)
  {
    TruncatedIsMultiple(t, d);
    TruncatedIsMultiple(u, d);
    if Truncated(u, d) < Truncated(t, d) {
      MultiplesApart(Truncated(u, d), Truncated(t, d), d);
    }
  }

  // When series are legible -------------------------------------------------------------------------------------------

  /** The candles that open a bucket of the inner interval have a readable high and low; the others need not. */
  ghost predicate ReadableLeads(cs: seq<Candle>, inner: Interval) {
    IntervalDuration(inner).Ok? &&
    forall i :: 0 <= i < |cs| && cs[i].openTime % IntervalDuration(inner).value == 0 ==> cs[i].high.Number? && cs[i].low.Number?
  }

  lemma AllShown(fields: seq<Field>, size: nat, up: bool)
    requires size > 0 && fields != [] && forall n :: 0 <= n < |fields| ==> fields[Lead(n, size)].Number?
    ensures Legible(fields, size, up)
  {
  }

  /** The k-th part of a bucket opens on the grid of the parts. */
  lemma LeadOpens(m: Index, step: int, size: nat, outerSize: nat, b: Time, n: nat) returns (t: Time)
    requires Keyed(m) && step > 0 && size > 0 && n < size * outerSize && Complete(m, b, step, size * outerSize)
    requires step * size > 0 && b % (step * size) == 0
    ensures Lead(n, size) < size * outerSize
    ensures t in m && m[t] == Bucket(m, b, step, size * outerSize)[Lead(n, size)] && m[t].openTime % (step * size) == 0
  {
    var k := n / size;
    Position(b, k, 0, size, step);
    assert 0 * step == 0 && k * size == Lead(n, size);
    MultipleOfProduct(k, step * size);
    MultipleSum(b, k * (step * size), step * size);
    t := b + Lead(n, size) * step;
    assert t == b + k * (step * size);
  }

  lemma LeadsLegible(cs: seq<Candle>, inner: Interval, s: int, p: nat, q: nat, b: Time)
    requires ReadableLeads(cs, inner) && IntervalDuration(inner) == Ok(s * p) && s > 0 && p > 0 && q > 0 && b % (s * p) == 0
    ensures LegibleAt(ByOpenTime(cs), s, p, q, b)
  {
    hide IntervalDuration, Legible, ByOpenTime, Lead, Complete, Bucket;
    var m := ByOpenTime(cs);
    ByOpenTimeKeyed(cs);
    if Complete(m, b, s, p * q) {
      WidthPositive(s, p);
      WidthPositive(p, q);
      BucketLength(m, b, s, p * q);
      var whole := Bucket(m, b, s, p * q);
      forall n: nat | n < |whole|
        ensures Lead(n, p) < |whole| && whole[Lead(n, p)].high.Number? && whole[Lead(n, p)].low.Number?
      {
        var t := LeadOpens(m, s, p, q, b, n);
        ByOpenTimeFrom(cs, t);
      }
      AllShown(Highs(whole), p, true);
      AllShown(Lows(whole), p, false);
    }
  }

  /** So aggregation composes whenever the leading candle of each inner bucket is readable, whatever the others are. */
  lemma ReadableLeadsCompose(cs: seq<Candle>, inner: Interval, outer: Interval)
    requires Sorted(cs) && ReadableLeads(cs, inner) && AggregateCandles(cs, inner).Ok?
    requires IntervalDuration(outer).Ok? && IntervalDuration(inner).value < IntervalDuration(outer).value
    requires IntervalDuration(outer).value % IntervalDuration(inner).value == 0
    ensures AggregateCandles(AggregateCandles(cs, inner).value, outer) == AggregateCandles(cs, outer)
  {
    AggregationComposes(cs, inner, outer);
    if cs != [] {
      var (s, b, c) := (IntervalDuration(cs[0].interval).value, IntervalDuration(inner).value, IntervalDuration(outer).value);
      SizePositive(b, s);
      SizePositive(c, b);
      hide AggregateCandles, ReadableLeads, LegibleAt, IntervalDuration;
      forall t | t % (s * (b / s) * (c / b)) == 0
        ensures LegibleAt(ByOpenTime(cs), s, b / s, c / b, t)
      {
        MultipleOfMultiple(t, s * (b / s), c / b);
        LeadsLegible(cs, inner, s, b / s, c / b, t);
      }
    }
  }

  // When they are not ---------------------------------------------------------------------------------------------------

  function Quarter(k: int, high: Field): Candle {
    Candle("binance", "BTCUSDT", Every(1, 'm'), k * MINUTE, (k + 1) * MINUTE, (k + 1) * MINUTE,
           Number(1.0), high, Number(1.0), Number(1.0), Number(1.0), Missing, 1, true)
  }

  /** Four minutes; the high of the third cannot be read. */
  const QUARTERS: seq<Candle> :=
    [Quarter(4, Number(5.0)), Quarter(5, Number(5.0)), Quarter(6, Garbled), Quarter(7, Number(7.0))]

  lemma {:induction false} AggregatesSucceed(m: Index, lo: Time, hi: Time, step: int, size: nat, interval: Interval)
    requires step > 0 && size > 0 && forall t :: t in m ==> Countable(m[t])
    ensures Aggregates(m, lo, hi, step, size, interval).Ok?
    decreases hi - lo
  {
    hide Countable, Combine;
    if lo <= hi {
      WidthPositive(step, size);
      AggregatesSucceed(m, lo + step * size, hi, step, size, interval);
    }
  }

  lemma AggregationSucceeds(cs: seq<Candle>, target: Interval)
    requires cs != [] && IntervalDuration(cs[0].interval).Ok? && IntervalDuration(target).Ok?
    requires IntervalDuration(cs[0].interval).value < IntervalDuration(target).value
    requires IntervalDuration(target).value % IntervalDuration(cs[0].interval).value == 0
    requires AllCountable(cs)
    ensures AggregateCandles(cs, target).Ok?
  {
    hide ByOpenTime, Countable, IntervalDuration, Truncated, Aggregates;
    var (s, b) := (IntervalDuration(cs[0].interval).value, IntervalDuration(target).value);
    SizePositive(b, s);
    forall t | t in ByOpenTime(cs)
      ensures Countable(ByOpenTime(cs)[t])
    {
      ByOpenTimeFrom(cs, t);
    }
    AggregatesSucceed(ByOpenTime(cs), Truncated(cs[0].openTime, b), cs[|cs| - 1].openTime, s, b / s, target);
  }

  lemma IndexedAt(cs: seq<Candle>, k: nat)
    requires Sorted(cs) && k < |cs|
    ensures cs[k].openTime in ByOpenTime(cs) && ByOpenTime(cs)[cs[k].openTime] == cs[k]
  {
    hide ByOpenTime;
    var (m, t) := (ByOpenTime(cs), cs[k].openTime);
    ByOpenTimeKeyed(cs);
    ByOpenTimeFrom(cs, t);
    var i :| 0 <= i < |cs| && cs[i] == m[t];
    assert m[t].openTime == t;
  }

  /** Candles one step apart are a bucket of their own index. */
  lemma SeriesIsBucket(cs: seq<Candle>, start: Time, step: int)
    requires step > 0 && Sorted(cs) && forall k {:trigger cs[k]} :: 0 <= k < |cs| ==> cs[k].openTime == start + k * step
    ensures Complete(ByOpenTime(cs), start, step, |cs|) && Bucket(ByOpenTime(cs), start, step, |cs|) == cs
  {
    hide ByOpenTime, Sorted;
    var m := ByOpenTime(cs);
    forall k | 0 <= k < |cs|
      ensures start + k * step in m && m[start + k * step] == cs[k]
    {
      IndexedAt(cs, k);
    }
    assert Complete(m, start, step, |cs|);
    hide Complete;
    var bucket := Bucket(m, start, step, |cs|);
    assert forall k :: 0 <= k < |cs| ==> bucket[k] == m[start + k * step] == cs[k];
  }

  lemma QuartersIllegible()
    ensures !LegibleBucket(QUARTERS, 2)
  {
    var fields := Highs(QUARTERS);
    assert fields == [Number(5.0), Number(5.0), Garbled, Number(7.0)];
    assert Lead(3, 2) == 2 && Hidden(fields, 2, 3);
    forall k: nat | k < 4 && Shown(fields, 2, k)
      ensures Beats(true, fields[3], fields[k])
    {
      assert Lead(2, 2) == 2;
    }
    assert !Matched(fields, 2, true, 3);
  }

  /** One bucket that is not legible is enough for the two ways to differ. */
  lemma IllegibleBreaks(cs: seq<Candle>, inner: Interval, outer: Interval, s: int, p: nat, q: nat, b: Time)
    requires cs != [] && Sorted(cs) && AllCountable(cs) && Nested(cs[0].interval, inner, outer) && s > 0 && p > 0 && q > 0
    requires IntervalDuration(cs[0].interval) == Ok(s) && IntervalDuration(inner) == Ok(s * p)
    requires IntervalDuration(outer) == Ok(s * p * q) && (s * p) / s == p && (s * p * q) / (s * p) == q
    requires b % (s * p * q) == 0 && !LegibleAt(ByOpenTime(cs), s, p, q, b)
    ensures AggregateCandles(cs, inner).Ok?
    ensures AggregateCandles(AggregateCandles(cs, inner).value, outer) != AggregateCandles(cs, outer)
  {
    AggregationSucceeds(cs, inner);
    SeriesSized(cs, inner, outer, s, p, q);
    hide AggregateCandles, LegibleAt, ByOpenTime, IntervalDuration, Sorted, AllCountable, LegibleSeries;
    AggregationComposes(cs, inner, outer);
  }

  /** An unreadable high sticks to the bucket it opens and hides the 7 behind it: aggregated by twos and then by twos
      again, these candles do not give what they give by fours. */
  lemma UnreadableHighBreaks()
    ensures Sorted(QUARTERS) && AggregateCandles(QUARTERS, Every(2, 'm')).Ok?
    ensures AggregateCandles(AggregateCandles(QUARTERS, Every(2, 'm')).value, Every(4, 'm')) != AggregateCandles(QUARTERS, Every(4, 'm'))
  {
    hide ByOpenTime, LegibleBucket, Complete, Bucket, AggregateCandles;
    SeriesIsBucket(QUARTERS, 4 * MINUTE, MINUTE);
    QuartersIllegible();
    assert !LegibleAt(ByOpenTime(QUARTERS), MINUTE, 2, 2, 4 * MINUTE);
    IllegibleBreaks(QUARTERS, Every(2, 'm'), Every(4, 'm'), MINUTE, 2, 2, 4 * MINUTE);
  }
}
