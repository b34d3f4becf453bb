/** Preflight check of a candle series (internal/backtest/validation.go). */
module CandleSeries {
  import opened Common
  import opened MarketData

  datatype Diagnostics = Diagnostics(
    valid: bool, count: int, gapCount: int, duplicateCount: int, outOfOrderCount: int, unclosedCount: int,
    invalidOHLCCount: int, symbolMismatch: int, intervalMismatch: int)

  predicate ValidOHLC(c: Candle) {
    match ParsePositive(c.close)
    case Err(_) => false
    case Ok(close) =>
      (c.open.Missing? || ParsePositive(c.open).Ok?) &&
      var open := if c.open.Missing? then close else ParsePositive(c.open).value;
      (c.high.Missing? || ParsePositive(c.high).Ok?) &&
      var high := if c.high.Missing? then Max(open, close) else ParsePositive(c.high).value;
      (c.low.Missing? || ParsePositive(c.low).Ok?) &&
      var low := if c.low.Missing? then Min(open, close) else ParsePositive(c.low).value;
      high >= open && high >= close && low <= open && low <= close && low <= high
  }

  /** A candle with its missing prices filled in: it opens where it closes and reaches no further than it must. */
  function Completed(c: Candle): Candle
    requires c.close.Number?
  {
    var open := if c.open.Missing? then c.close else c.open;
    var (a, b) := (c.close.value, if open.Number? then open.value else c.close.value);
    c.(open := open,
       high := if c.high.Missing? then Number(if a < b then b else a) else c.high,
       low := if c.low.Missing? then Number(if a < b then a else b) else c.low)
  }

  /** The close can be read and, with missing prices filled in, the low is positive and at most the open and the close, and
      the high is at least both. */
  predicate PricesOrdered(c: Candle) {
    && c.close.Number?
    && var d := Completed(c);
       && d.open.Number? && d.high.Number? && d.low.Number?
       && 0.0 < d.low.value <= d.open.value <= d.high.value && d.low.value <= d.close.value <= d.high.value
  }

  lemma PricesOrderedIff(c: Candle)
    ensures ValidOHLC(c) <==> PricesOrdered(c)
  {
  }

  predicate WrongSymbol(c: Candle, symbol: string) {
    c.symbol != "" && c.symbol != symbol
  }

  predicate WrongInterval(c: Candle, interval: Interval) {
    c.interval != Unlabelled && c.interval != interval
  }

  /** The seven defects the preflight counts, candle by candle. */
  datatype Defect = OtherSymbol | OtherInterval | NotClosed | BadPrices | Repeated | OutOfOrder | Gap

  predicate Has(defect: Defect, symbol: string, interval: Interval, step: int, cs: seq<Candle>, i: nat)
    requires i < |cs|
  {
    match defect
    case OtherSymbol => WrongSymbol(cs[i], symbol)
    case OtherInterval => WrongInterval(cs[i], interval)
    case NotClosed => !cs[i].isClosed
    case BadPrices => !ValidOHLC(cs[i])
    case Repeated => exists j :: 0 <= j < i && cs[j].openTime == cs[i].openTime
    case OutOfOrder => i > 0 && cs[i].openTime <= cs[i - 1].openTime
    case Gap => i > 0 && cs[i].openTime > cs[i - 1].openTime && cs[i].openTime - cs[i - 1].openTime != step
  }

  function Increment(defect: Defect, symbol: string, interval: Interval, step: int, cs: seq<Candle>, i: nat): nat
    requires i < |cs|
  {
    if Has(defect, symbol, interval, step, cs, i) then 1 else 0
  }

  /** How many of the first n candles have the defect. */
  function Tally(defect: Defect, symbol: string, interval: Interval, step: int, cs: seq<Candle>, n: nat): nat
    requires n <= |cs|
  {
    if n == 0 then 0
    else Tally(defect, symbol, interval, step, cs, n - 1) + Increment(defect, symbol, interval, step, cs, n - 1)
  }

  lemma {:induction false} TallyZero(defect: Defect, symbol: string, interval: Interval, step: int, cs: seq<Candle>, n: nat)
    requires n <= |cs|
    ensures Tally(defect, symbol, interval, step, cs, n) == 0 <==>
            forall i :: 0 <= i < n ==> !Has(defect, symbol, interval, step, cs, i)
  {
    if n > 0 {
      TallyZero(defect, symbol, interval, step, cs, n - 1);
    }
  }

  /** What a series must look like: every candle well formed, and every open exactly one step after the last. */
  predicate ValidSeries(symbol: string, interval: Interval, cs: seq<Candle>) {
    && cs != []
    && IntervalDuration(interval).Ok?
    && (forall i :: 0 <= i < |cs| ==>
          !WrongSymbol(cs[i], symbol) && !WrongInterval(cs[i], interval) && cs[i].isClosed && ValidOHLC(cs[i]))
    && (forall i :: 0 < i < |cs| ==> cs[i].openTime == cs[i - 1].openTime + IntervalDuration(interval).value)
  }

  /** The open times of a valid series are an arithmetic progression. */
  lemma {:induction false} OpensOnGrid(symbol: string, interval: Interval, cs: seq<Candle>, i: nat)
    requires ValidSeries(symbol, interval, cs) && i < |cs|
    ensures cs[i].openTime == cs[0].openTime + i * IntervalDuration(interval).value
    decreases i
  {
    if i > 0 {
      OpensOnGrid(symbol, interval, cs, i - 1);
    }
  }

  lemma {:induction false} OpensIncrease(symbol: string, interval: Interval, cs: seq<Candle>, i: nat, j: nat)
    requires ValidSeries(symbol, interval, cs) && i < j < |cs|
    ensures cs[i].openTime < cs[j].openTime
    decreases j
  {
    if i < j - 1 {
      OpensIncrease(symbol, interval, cs, i, j - 1);
    }
  }

  /** A series is valid if and only if its candles say nothing else about symbol and interval, are closed and well priced, and
      open one interval apart from the first on. */
  lemma SeriesValidIff(symbol: string, interval: Interval, cs: seq<Candle>)
    ensures ValidSeries(symbol, interval, cs) <==>
      && cs != [] && IntervalDuration(interval).Ok?
      && (forall i :: 0 <= i < |cs| ==>
            && cs[i].symbol in {"", symbol} && cs[i].interval in {Unlabelled, interval} && cs[i].isClosed && PricesOrdered(cs[i])
            && cs[i].openTime == cs[0].openTime + i * IntervalDuration(interval).value)
  {
    hide ValidOHLC, PricesOrdered, IntervalDuration;
    forall i | 0 <= i < |cs|
      ensures ValidOHLC(cs[i]) <==> PricesOrdered(cs[i])
      ensures ValidSeries(symbol, interval, cs) ==> cs[i].openTime == cs[0].openTime + i * IntervalDuration(interval).value
    {
      PricesOrderedIff(cs[i]);
      if ValidSeries(symbol, interval, cs) {
        OpensOnGrid(symbol, interval, cs, i);
      }
    }
  }

  /** The tallies over the first n candles. */
  ghost predicate Counted(d: Diagnostics, symbol: string, interval: Interval, step: int, cs: seq<Candle>, n: nat)
    requires n <= |cs|
  {
    && d.symbolMismatch == Tally(OtherSymbol, symbol, interval, step, cs, n)
    && d.intervalMismatch == Tally(OtherInterval, symbol, interval, step, cs, n)
    && d.unclosedCount == Tally(NotClosed, symbol, interval, step, cs, n)
    && d.invalidOHLCCount == Tally(BadPrices, symbol, interval, step, cs, n)
    && d.duplicateCount == Tally(Repeated, symbol, interval, step, cs, n)
    && d.outOfOrderCount == Tally(OutOfOrder, symbol, interval, step, cs, n)
    && d.gapCount == Tally(Gap, symbol, interval, step, cs, n)
  }

  predicate Clean(d: Diagnostics) {
    && d.gapCount == 0 && d.duplicateCount == 0 && d.outOfOrderCount == 0 && d.unclosedCount == 0
    && d.invalidOHLCCount == 0 && d.symbolMismatch == 0 && d.intervalMismatch == 0
  }

  /** No candle has any defect exactly when the series is valid. */
  lemma FlawlessIffValid(symbol: string, interval: Interval, cs: seq<Candle>)
    requires cs != [] && IntervalDuration(interval).Ok?
    ensures ValidSeries(symbol, interval, cs) <==>
            forall defect, i :: 0 <= i < |cs| ==> !Has(defect, symbol, interval, IntervalDuration(interval).value, cs, i)
  {
    var step := IntervalDuration(interval).value;
    if ValidSeries(symbol, interval, cs) {
      forall i, j | 0 <= j < i < |cs|
        ensures cs[j].openTime != cs[i].openTime
      {
        OpensIncrease(symbol, interval, cs, j, i);
      }
    } else {
      FlawInInvalid(symbol, interval, cs, step);
    }
  }

  lemma FlawInInvalid(symbol: string, interval: Interval, cs: seq<Candle>, step: int)
    requires cs != [] && IntervalDuration(interval) == Ok(step) && !ValidSeries(symbol, interval, cs)
    ensures exists defect, i :: 0 <= i < |cs| && Has(defect, symbol, interval, step, cs, i)
  {
    hide ValidOHLC, WrongSymbol, WrongInterval, IntervalDuration;
    if i :| 0 < i < |cs| && cs[i].openTime != cs[i - 1].openTime + step {
      assert Has(Gap, symbol, interval, step, cs, i) || Has(OutOfOrder, symbol, interval, step, cs, i);
    } else {
      var i :| 0 <= i < |cs| &&
        (WrongSymbol(cs[i], symbol) || WrongInterval(cs[i], interval) || !cs[i].isClosed || !ValidOHLC(cs[i]));
      assert Has(OtherSymbol, symbol, interval, step, cs, i) || Has(OtherInterval, symbol, interval, step, cs, i)
             || Has(NotClosed, symbol, interval, step, cs, i) || Has(BadPrices, symbol, interval, step, cs, i);
    }
  }

  lemma CleanIffValid(d: Diagnostics, symbol: string, interval: Interval, cs: seq<Candle>)
    requires cs != [] && IntervalDuration(interval).Ok?
    requires Counted(d, symbol, interval, IntervalDuration(interval).value, cs, |cs|)
    ensures Clean(d) <==> ValidSeries(symbol, interval, cs)
  {
    FlawlessIffValid(symbol, interval, cs);
    forall defect {
      TallyZero(defect, symbol, interval, IntervalDuration(interval).value, cs, |cs|);
    }
    if Clean(d) {
      forall defect: Defect, i | 0 <= i < |cs|
        ensures !Has(defect, symbol, interval, IntervalDuration(interval).value, cs, i)
      {
      }
    }
  }

  /** The checks that look at one candle alone. */
  method InspectCandle(d: Diagnostics, symbol: string, interval: Interval, step: int, cs: seq<Candle>, index: nat)
    returns (e: Diagnostics)
    requires index < |cs|
    ensures e == d.(
      symbolMismatch := d.symbolMismatch + Increment(OtherSymbol, symbol, interval, step, cs, index),
      intervalMismatch := d.intervalMismatch + Increment(OtherInterval, symbol, interval, step, cs, index),
      unclosedCount := d.unclosedCount + Increment(NotClosed, symbol, interval, step, cs, index),
      invalidOHLCCount := d.invalidOHLCCount + Increment(BadPrices, symbol, interval, step, cs, index))
  {
    hide WrongSymbol, WrongInterval, ValidOHLC;
    e := d;
    if WrongSymbol(cs[index], symbol) {
      e := e.(symbolMismatch := e.symbolMismatch + 1);
    }
    if WrongInterval(cs[index], interval) {
      e := e.(intervalMismatch := e.intervalMismatch + 1);
    }
    if !cs[index].isClosed {
      e := e.(unclosedCount := e.unclosedCount + 1);
    }
    if !ValidOHLC(cs[index]) {
      e := e.(invalidOHLCCount := e.invalidOHLCCount + 1);
    }
  }

  /** The checks that look at the candles before it. */
  method InspectTiming(d: Diagnostics, symbol: string, interval: Interval, step: int, cs: seq<Candle>, index: nat,
                       seen: set<Time>)
    returns (e: Diagnostics)
    requires index < |cs| && seen == set j | 0 <= j < index :: cs[j].openTime
    ensures e == d.(
      duplicateCount := d.duplicateCount + Increment(Repeated, symbol, interval, step, cs, index),
      outOfOrderCount := d.outOfOrderCount + Increment(OutOfOrder, symbol, interval, step, cs, index),
      gapCount := d.gapCount + Increment(Gap, symbol, interval, step, cs, index))
  {
    e := d;
    assert cs[index].openTime in seen <==> Has(Repeated, symbol, interval, step, cs, index);
    if cs[index].openTime in seen {
      e := e.(duplicateCount := e.duplicateCount + 1);
    }
    if index > 0 {
      var previous := cs[index - 1].openTime;
      if cs[index].openTime <= previous {
        e := e.(outOfOrderCount := e.outOfOrderCount + 1);
      } else if cs[index].openTime - previous != step {
        e := e.(gapCount := e.gapCount + 1);
      }
    }
  }

  method ValidateCandleSeries(symbol: string, interval: Interval, cs: seq<Candle>) returns (d: Diagnostics)
    ensures d.valid <==> ValidSeries(symbol, interval, cs)
    ensures d.count == |cs|
    ensures cs != [] && IntervalDuration(interval).Ok? ==>
      Counted(d, symbol, interval, IntervalDuration(interval).value, cs, |cs|)
  {
    hide Has, Increment;
    d := Diagnostics(true, |cs|, 0, 0, 0, 0, 0, 0, 0);
    if |cs| == 0 {
      return d.(valid := false);
    }
    var duration := IntervalDuration(interval);
    if duration.Err? {
      return d.(valid := false);
    }
    hide ValidSeries;
    var step := duration.value;
    var seen: set<Time> := {};
    var index := 0;
    while index < |cs|
      invariant 0 <= index <= |cs|
      invariant seen == set j | 0 <= j < index :: cs[j].openTime
      invariant d.valid && d.count == |cs|
      invariant Counted(d, symbol, interval, step, cs, index)
    {
      d := InspectCandle(d, symbol, interval, step, cs, index);
      d := InspectTiming(d, symbol, interval, step, cs, index, seen);
      seen := seen + {cs[index].openTime};
      index := index + 1;
    }
    CleanIffValid(d, symbol, interval, cs);
    if d.gapCount > 0 || d.duplicateCount > 0 || d.outOfOrderCount > 0 || d.unclosedCount > 0 ||
       d.invalidOHLCCount > 0 || d.symbolMismatch > 0 || d.intervalMismatch > 0 {
      d := d.(valid := false);
    }
  }
}
