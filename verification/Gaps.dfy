/** Gap detection on a time grid (internal/marketdata/gaps.go). */
module Gaps {
  import opened Common
  import opened IntArithmetic
  import opened MarketData

  datatype Gap = Gap(from: Time, to: Time)

  /** The instants a complete series would have: from, from + step, ... */
  predicate OnGrid(from: Time, step: int, t: Time)
    requires step > 0
  {
    t >= from && (t - from) % step == 0
  }

  predicate Covers(gap: Gap, t: Time) {
    gap.from <= t < gap.to
  }

  predicate Covered(gaps: seq<Gap>, t: Time) {
    exists k :: 0 <= k < |gaps| && Covers(gaps[k], t)
  }

  /** A run of missing instants that the instant before it does not extend. */
  predicate StartsRun(from: Time, step: int, existing: set<Time>, t: Time)
    requires step > 0
  {
    OnGrid(from, step, t) && (t == from || t - step in existing)
  }

  predicate Ordered(gaps: seq<Gap>) {
    forall i, j :: 0 <= i < j < |gaps| ==> gaps[i].to < gaps[j].from
  }

  /** The gaps cover exactly the missing instants; each is as wide as it can be; they are in order and apart. */
  predicate ExactGaps(gaps: seq<Gap>, from: Time, to: Time, step: int, existing: set<Time>)
    requires step > 0
  {
    && (forall t :: from <= t < to && OnGrid(from, step, t) ==> (t !in existing <==> Covered(gaps, t)))
    && (forall k :: 0 <= k < |gaps| ==>
          && gaps[k].from < gaps[k].to <= to
          && StartsRun(from, step, existing, gaps[k].from)
          && (gaps[k].to == to || gaps[k].to in existing))
    && Ordered(gaps)
  }

  /** What the scan knows when it reaches `current`. */
  predicate Scanned(gaps: seq<Gap>, open: Option<Time>, from: Time, step: int, existing: set<Time>, current: Time)
    requires step > 0
  {
    && OnGrid(from, step, current)
    && (forall t :: from <= t < current && OnGrid(from, step, t) ==>
          (t !in existing <==> ((open.Some? && open.value <= t) || Covered(gaps, t))))
    && (forall k :: 0 <= k < |gaps| ==>
          && gaps[k].from < gaps[k].to < current
          && StartsRun(from, step, existing, gaps[k].from)
          && OnGrid(from, step, gaps[k].to) && gaps[k].to in existing)
    && Ordered(gaps)
    && (open.Some? ==>
          && open.value < current && StartsRun(from, step, existing, open.value)
          && (gaps != [] ==> gaps[|gaps| - 1].to < open.value))
  }

  lemma NextInstant(from: Time, step: int, current: Time)
    requires step > 0 && OnGrid(from, step, current)
    ensures OnGrid(from, step, current + step)
    ensures forall t :: OnGrid(from, step, t) && t < current + step ==> t <= current
    ensures forall t :: OnGrid(from, step, t) && t < current ==> t <= current - step
  {
    NextMultiple(current - from, step);
    forall t | OnGrid(from, step, t) && current < t
      ensures t >= current + step
    {
      MultiplesApart(current - from, t - from, step);
    }
    forall t | OnGrid(from, step, t) && t < current
      ensures t <= current - step
    {
      MultiplesApart(t - from, current - from, step);
    }
  }

  lemma CoveredAppend(gaps: seq<Gap>, g: Gap, t: Time)
    ensures Covered(gaps + [g], t) <==> Covered(gaps, t) || Covers(g, t)
  {
    if Covered(gaps, t) {
      var k :| 0 <= k < |gaps| && Covers(gaps[k], t);
      assert Covers((gaps + [g])[k], t);
    }
    if Covers(g, t) {
      assert Covers((gaps + [g])[|gaps|], t);
    }
  }

  lemma ScanMissing(gaps: seq<Gap>, open: Option<Time>, from: Time, step: int, existing: set<Time>, current: Time)
    requires step > 0 && Scanned(gaps, open, from, step, existing, current) && current !in existing
    ensures Scanned(gaps, if open.Some? then open else Some(current), from, step, existing, current + step)
  {
    NextInstant(from, step, current);
    if open.None? && current != from {
      PreviousPresent(gaps, from, step, existing, current);
    }
  }

  /** With no run open, the instant before `current` is there: the last gap ended no later than on it. */
  lemma PreviousPresent(gaps: seq<Gap>, from: Time, step: int, existing: set<Time>, current: Time)
    requires step > 0 && Scanned(gaps, None, from, step, existing, current) && current != from
    ensures current - step in existing
  {
    MultiplesApart(0, current - from, step);
    MultipleMinus(current - from, step, step);
    NextInstant(from, step, current);
    assert OnGrid(from, step, current - step);
  }

  lemma ScanPresent(gaps: seq<Gap>, open: Option<Time>, from: Time, step: int, existing: set<Time>, current: Time)
    requires step > 0 && Scanned(gaps, open, from, step, existing, current) && current in existing
    ensures Scanned(if open.Some? then gaps + [Gap(open.value, current)] else gaps, None, from, step, existing, current + step)
  {
    hide StartsRun;
    NextInstant(from, step, current);
    hide OnGrid;
    var after := if open.Some? then gaps + [Gap(open.value, current)] else gaps;
    forall t | from <= t < current + step && OnGrid(from, step, t)
      ensures t !in existing <==> Covered(after, t)
    {
      if open.Some? {
        CoveredAppend(gaps, Gap(open.value, current), t);
      }
      NotCoveredYet(gaps, open, from, step, existing, current);
    }
  }

  lemma NotCoveredYet(gaps: seq<Gap>, open: Option<Time>, from: Time, step: int, existing: set<Time>, current: Time)
    requires step > 0 && Scanned(gaps, open, from, step, existing, current)
    ensures !Covered(gaps, current)
  {
  }

  lemma ScanFinished(gaps: seq<Gap>, open: Option<Time>, from: Time, to: Time, step: int, existing: set<Time>, current: Time)
    requires step > 0 && from < to <= current && current - step < to && Scanned(gaps, open, from, step, existing, current)
    ensures ExactGaps(if open.Some? then gaps + [Gap(open.value, to)] else gaps, from, to, step, existing)
  {
    var closed := if open.Some? then gaps + [Gap(open.value, to)] else gaps;
    forall t | from <= t < to && OnGrid(from, step, t)
      ensures t !in existing <==> Covered(closed, t)
    {
      LastRun(gaps, open, from, to, step, existing, current, t);
    }
    LastGap(gaps, open, from, to, step, existing, current);
    hide Scanned, OnGrid, Covered, StartsRun, Ordered;
  }

  lemma LastGap(gaps: seq<Gap>, open: Option<Time>, from: Time, to: Time, step: int, existing: set<Time>, current: Time)
    requires step > 0 && from < to <= current && current - step < to && Scanned(gaps, open, from, step, existing, current)
    ensures var closed := if open.Some? then gaps + [Gap(open.value, to)] else gaps;
      && Ordered(closed)
      && forall k :: 0 <= k < |closed| ==>
          && closed[k].from < closed[k].to <= to
          && StartsRun(from, step, existing, closed[k].from)
          && (closed[k].to == to || closed[k].to in existing)
  {
    NextInstant(from, step, current);
    var closed := if open.Some? then gaps + [Gap(open.value, to)] else gaps;
    forall k | 0 <= k < |gaps|
      ensures gaps[k].to <= to && (open.Some? ==> gaps[k].to < open.value)
    {
      EarlierGap(gaps, open, from, to, step, existing, current, k);
    }
    if open.Some? {
      assert OnGrid(from, step, open.value);
      hide OnGrid, Covered, StartsRun;
      assert open.value < to;
      OrderedAppend(gaps, Gap(open.value, to));
    }
    hide OnGrid, Covered, StartsRun, Ordered;
  }

  lemma OrderedAppend(gaps: seq<Gap>, g: Gap)
    requires Ordered(gaps) && forall k :: 0 <= k < |gaps| ==> gaps[k].to < g.from
    ensures Ordered(gaps + [g])
  {
  }

  lemma EarlierGap(gaps: seq<Gap>, open: Option<Time>, from: Time, to: Time, step: int, existing: set<Time>, current: Time, k: int)
    requires step > 0 && from < to <= current && current - step < to && Scanned(gaps, open, from, step, existing, current)
    requires 0 <= k < |gaps|
    ensures gaps[k].to <= to && (open.Some? ==> gaps[k].to < open.value)
  {
    NextInstant(from, step, current);
    assert OnGrid(from, step, gaps[k].to);
    if open.Some? && k < |gaps| - 1 {
      assert gaps[k].to < gaps[|gaps| - 1].from;
    }
  }

  lemma LastRun(gaps: seq<Gap>, open: Option<Time>, from: Time, to: Time, step: int, existing: set<Time>, current: Time, t: Time)
    requires step > 0 && from < to <= current && current - step < to && Scanned(gaps, open, from, step, existing, current)
    requires from <= t < to && OnGrid(from, step, t)
    ensures t !in existing <==> Covered(if open.Some? then gaps + [Gap(open.value, to)] else gaps, t)
  {
    NextInstant(from, step, current);
    hide OnGrid, StartsRun;
    if open.Some? {
      CoveredAppend(gaps, Gap(open.value, to), t);
    }
  }

  /** The scan leaves the gaps sorted, so the sort that ends the source's function changes nothing. */
  method DetectGaps(from: Time, to: Time, interval: Interval, existing: set<Time>) returns (r: Result<seq<Gap>, DataError>)
    ensures r.Err? <==> IntervalDuration(interval).Err? || from >= to
    ensures r.Ok? ==> ExactGaps(r.value, from, to, IntervalDuration(interval).value, existing)
  {
    var duration := IntervalDuration(interval);
    if duration.Err? {
      return Err(duration.error);
    }
    if !(from < to) {
      return Err(EmptyRange);
    }
    var step := duration.value;
    var gaps: seq<Gap> := [];
    var gapStart: Option<Time> := None;
    var current := from;
    ScanStarts(from, step, existing);
    while current < to
      invariant current - step < to
      invariant Scanned(gaps, gapStart, from, step, existing, current)
    {
      if current !in existing {
        ScanMissing(gaps, gapStart, from, step, existing, current);
        if gapStart == None {
          gapStart := Some(current);
        }
      } else {
        ScanPresent(gaps, gapStart, from, step, existing, current);
        if gapStart != None {
          gaps := gaps + [Gap(gapStart.value, current)];
          gapStart := None;
        }
      }
      current := current + step;
    }
    ScanFinished(gaps, gapStart, from, to, step, existing, current);
    if gapStart != None {
      gaps := gaps + [Gap(gapStart.value, to)];
    }
    return Ok(gaps);
  }

  lemma ScanStarts(from: Time, step: int, existing: set<Time>)
    requires step > 0
    ensures Scanned([], None, from, step, existing, from)
  {
    MultipleOfProduct(0, step);
  }
}
