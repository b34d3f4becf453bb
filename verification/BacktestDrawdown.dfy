/** Solvency of long-only runs, and the online drawdown against its definition over all pairs of points. */
module BacktestDrawdown {
  import opened Common
  import opened RealArithmetic
  import opened MarketData
  import opened CandleSeries
  import opened Signals
  import opened BacktestRequest
  import opened BacktestModel
  import opened BacktestAccounting

  // Running peak -------------------------------------------------------------------------------------------

  /** The account values a run has seen: the starting balance, then one per marked bar. */
  function Values(start: real, curve: seq<EquityPoint>): seq<real> {
    [start] + seq(|curve|, i requires 0 <= i < |curve| => curve[i].equity)
  }

  function Highest(values: seq<real>): (h: real)
    requires values != []
    ensures h in values && forall i :: 0 <= i < |values| ==> values[i] <= h
  {
    if |values| == 1 then values[0]
    else Max(Highest(values[..|values| - 1]), values[|values| - 1])
  }

  /** Each point's drawdown is measured from the highest value up to it, and the largest is kept. */
  ghost predicate Tracked(r: Request, s: State) {
    var values := Values(r.startingBalance, s.curve);
    && r.startingBalance > 0.0
    && s.peak == Highest(values) && s.peak > 0.0
    && (forall j :: 0 <= j < |s.curve| ==> MeasuredAt(values, s.curve, j))
    && (forall j :: 0 <= j < |s.curve| ==> s.curve[j].drawdown <= s.maxDrawdown)
    && s.maxDrawdown >= 0.0
    && (s.maxDrawdown == 0.0 || exists j :: 0 <= j < |s.curve| && s.curve[j].drawdown == s.maxDrawdown)
  }

  ghost predicate MeasuredAt(values: seq<real>, curve: seq<EquityPoint>, j: int)
    requires |values| == |curve| + 1 && 0 <= j < |curve|
  {
    var peak := Highest(values[..j + 2]);
    peak > 0.0 && curve[j].drawdown == Drawdown(peak, curve[j].equity)
  }

  lemma MarkPeak(r: Request, s: State, at: Time, equity: real)
    requires r.startingBalance > 0.0 && s.peak == Highest(Values(r.startingBalance, s.curve)) && s.peak > 0.0
    ensures var t := Mark(s, at, equity);
      && t.peak == Highest(Values(r.startingBalance, t.curve)) && t.peak > 0.0
      && t.curve == s.curve + [EquityPoint(at, equity, Drawdown(t.peak, equity))]
      && t.maxDrawdown == Max(s.maxDrawdown, Drawdown(t.peak, equity))
      && Values(r.startingBalance, t.curve) == Values(r.startingBalance, s.curve) + [equity]
  {
    hide Drawdown;
    var t := Mark(s, at, equity);
    var (before, after) := (Values(r.startingBalance, s.curve), Values(r.startingBalance, t.curve));
    assert after == before + [equity];
    assert after[..|after| - 1] == before;
  }

  lemma MarkTracked(r: Request, s: State, at: Time, equity: real)
    requires Tracked(r, s)
    ensures Tracked(r, Mark(s, at, equity))
  {
    hide Drawdown, Mark, Highest;
    MarkPeak(r, s, at, equity);
    var t := Mark(s, at, equity);
    var (before, after) := (Values(r.startingBalance, s.curve), Values(r.startingBalance, t.curve));
    var n := |s.curve|;
    assert after[..n + 2] == after;
    forall j | 0 <= j < n + 1
      ensures MeasuredAt(after, t.curve, j)
    {
      if j < n {
        assert MeasuredAt(before, s.curve, j);
        assert after[..j + 2] == before[..j + 2];
      }
    }
    if t.maxDrawdown != s.maxDrawdown {
      assert t.curve[n].drawdown == t.maxDrawdown;
    } else if s.maxDrawdown != 0.0 {
      var j :| 0 <= j < n && s.curve[j].drawdown == s.maxDrawdown;
      assert t.curve[j].drawdown == t.maxDrawdown;
    }
  }

  /** The three trading steps of a bar leave the curve alone. */
  predicate SameCurve(s: State, t: State) {
    s.curve == t.curve && s.peak == t.peak && s.maxDrawdown == t.maxDrawdown
  }

  lemma BarMarks(r: Request, cs: seq<Candle>, side: Side, s: State, i: int)
    requires 0 <= i < |cs| && Bar(r, cs, side, s, i).Ok?
    ensures exists v: State, equity: real ::
              SameCurve(s, v) && equity == Equity(v.quote, v.base, ParsePositive(cs[i].close).value)
              && Bar(r, cs, side, s, i).value == Mark(v, cs[i].closeTime, equity)
  {
    hide Settlement, Mark, EntryQuantity, EntryPrice, EntryQuoteAmount, PassesEntryFilters, FillOf, AtrExit, Equity;
    var price := ParsePositive(cs[i].close).value;
    var (t, exited) := AtrStep(r, cs, s, i).value;
    assert SameCurve(s, t);
    var u := SignalExit(r, cs, side, t, i).value;
    assert SameCurve(t, u);
    var v := EntryStep(r, cs, side, u, s.lastTrade, exited, i, price);
    assert SameCurve(u, v);
    assert Bar(r, cs, side, s, i).value == Mark(v, cs[i].closeTime, Equity(v.quote, v.base, price));
  }

  /** The peak, every recorded drawdown and their maximum are right after each bar of any run, long or short. */
  lemma {:induction false} RunTracked(r: Request, source: SignalSource, cs: seq<Candle>, upto: int)
    requires Valid(r) && 1 <= RequiredCandles(r) && RequiredCandles(r) - 1 <= upto <= |cs|
    requires RunBars(r, source, cs, upto).Ok?
    ensures Tracked(r, RunBars(r, source, cs, upto).value)
    ensures |RunBars(r, source, cs, upto).value.curve| == upto - (RequiredCandles(r) - 1)
    decreases upto
  {
    hide Bar, SideAt, Tracked, Mark;
    if upto == RequiredCandles(r) - 1 {
      InitiallyTracked(r);
    } else {
      RunTracked(r, source, cs, upto - 1);
      BarTracked(r, cs, SideAt(source, cs, upto - 1).value, RunBars(r, source, cs, upto - 1).value, upto - 1);
    }
  }

  lemma InitiallyTracked(r: Request)
    requires Valid(r)
    ensures Tracked(r, Initial(r))
  {
  }

  lemma BarTracked(r: Request, cs: seq<Candle>, side: Side, s: State, i: int)
    requires 0 <= i < |cs| && Bar(r, cs, side, s, i).Ok? && Tracked(r, s)
    ensures Tracked(r, Bar(r, cs, side, s, i).value)
    ensures |Bar(r, cs, side, s, i).value.curve| == |s.curve| + 1
  {
    hide Bar, Mark, MeasuredAt, Highest;
    BarMarks(r, cs, side, s, i);
    var v: State, equity: real :| SameCurve(s, v) && Bar(r, cs, side, s, i).value == Mark(v, cs[i].closeTime, equity);
    MarkTracked(r, v, cs[i].closeTime, equity);
    MarkPeak(r, v, cs[i].closeTime, equity);
  }

  // The definition over all pairs ------------------------------------------------------------------------------

  lemma DrawdownMonotone(low: real, high: real, value: real)
    requires 0.0 < low <= high && value >= 0.0
    ensures Drawdown(low, value) <= Drawdown(high, value)
  {
    RelativeFallMonotone(low, high, value);
  }

  lemma ShortfallAntitone(low: real, high: real, value: real)
    requires 0.0 < low <= high && value < 0.0
    ensures Drawdown(high, value) <= Drawdown(low, value)
  {
    RelativeShortfallAntitone(low, high, value);
  }

  lemma HighestOfPrefix(values: seq<real>, n: nat) returns (i: nat)
    requires 0 < n <= |values|
    ensures i < n && values[i] == Highest(values[..n])
  {
    var h := Highest(values[..n]);
    assert h in values[..n];
    i :| 0 <= i < n && values[..n][i] == h;
  }

  /** The lowest positive value; the account starts with a positive one. */
  function LowestPositive(values: seq<real>): (l: real)
    requires values != [] && values[0] > 0.0
    ensures l > 0.0 && l in values && forall i :: 0 <= i < |values| && values[i] > 0.0 ==> l <= values[i]
  {
    if |values| == 1 then values[0]
    else
      var (rest, last) := (LowestPositive(values[..|values| - 1]), values[|values| - 1]);
      if last > 0.0 then Min(rest, last) else rest
  }

  /** No fall between an earlier positive value and a later one is deeper than the drawdown kept. */
  ghost predicate BoundsEveryFall(r: Request, s: State)
    requires Tracked(r, s)
  {
    var values := Values(r.startingBalance, s.curve);
    forall i, j :: 0 <= i <= j < |values| && values[i] > 0.0 ==> Drawdown(values[i], values[j]) <= s.maxDrawdown
  }

  /** No fall below zero is deeper, from the lowest positive value before it, than the drawdown kept. */
  ghost predicate ShortfallsBounded(r: Request, s: State)
    requires Tracked(r, s)
  {
    var values := Values(r.startingBalance, s.curve);
    forall j :: 0 < j < |values| && values[j] < 0.0 ==> Drawdown(LowestPositive(values[..j]), values[j]) <= s.maxDrawdown
  }

  /** The drawdown kept in one pass is always the fall between some pair of values, and it is the largest such fall
      exactly when no shortfall is deeper from the lowest positive value before it. */
  lemma MaxDrawdownIsQuadratic(r: Request, s: State)
    requires Tracked(r, s)
    ensures var values := Values(r.startingBalance, s.curve);
      exists i, j :: 0 <= i <= j < |values| && values[i] > 0.0 && Drawdown(values[i], values[j]) == s.maxDrawdown
    ensures BoundsEveryFall(r, s) <==> ShortfallsBounded(r, s)
  {
    hide Drawdown, Highest, LowestPositive, MeasuredAt;
    FallAttained(r, s);
    var values := Values(r.startingBalance, s.curve);
    if BoundsEveryFall(r, s) {
      forall j | 0 < j < |values| && values[j] < 0.0
        ensures Drawdown(LowestPositive(values[..j]), values[j]) <= s.maxDrawdown
      {
        var i :| 0 <= i < j && values[..j][i] == LowestPositive(values[..j]);
        assert values[i] == LowestPositive(values[..j]);
      }
    }
    if ShortfallsBounded(r, s) {
      forall i, j | 0 <= i <= j < |values| && values[i] > 0.0
        ensures Drawdown(values[i], values[j]) <= s.maxDrawdown
      {
        FallBounded(r, s, i, j);
      }
    }
  }

  // Which equity histories it gets right -----------------------------------------------------------------------

  /** How far below zero a value is, relative to the value it fell from. */
  function Shortfall(from: real, value: real): real
    requires from > 0.0
  {
    -value / from
  }

  /** The shortfall at k is as deep as the one at j, and the account had no positive value before k but the first. */
  ghost predicate Covers(values: seq<real>, j: int, k: int)
    requires values != [] && values[0] > 0.0 && 0 < j < |values|
  {
    && 0 < k < |values| && values[k] < 0.0
    && (forall i :: 0 <= i < k && values[i] > 0.0 ==> values[i] == values[0])
    && Shortfall(LowestPositive(values[..j]), values[j]) <= Shortfall(values[0], values[k])
  }

  /** Every shortfall is covered by one that comes while the account has had no positive value but the first. */
  ghost predicate ShortfallsCovered(values: seq<real>)
    requires values != [] && values[0] > 0.0
  {
    forall j :: 0 < j < |values| && values[j] < 0.0 ==> exists k :: Covers(values, j, k)
  }

  lemma DrawdownOfShortfall(from: real, value: real)
    requires from > 0.0
    ensures Drawdown(from, value) == 100.0 + Shortfall(from, value) * 100.0
  {
    QuotientTimes(from - value, from);
    QuotientTimes(-value, from);
    assert (1.0 + -value / from) * from == from - value;
    CancelFactor((from - value) / from, 1.0 + -value / from, from);
    CancelFactor(1.0 + -value / from, (from - value) / from, from);
  }

  /** Where nothing positive stands before it but the first value, a shortfall is measured from the first. */
  lemma CoverMeasured(r: Request, s: State, k: int)
    requires Tracked(r, s) && 0 < k <= |s.curve|
    requires var values := Values(r.startingBalance, s.curve);
      values[k] < 0.0 && forall i :: 0 <= i < k && values[i] > 0.0 ==> values[i] == values[0]
    ensures Drawdown(Values(r.startingBalance, s.curve)[0], Values(r.startingBalance, s.curve)[k]) <= s.maxDrawdown
  {
    hide Drawdown, Highest;
    var values := Values(r.startingBalance, s.curve);
    assert MeasuredAt(values, s.curve, k - 1);
    var prefix := values[..k + 1];
    assert prefix[0] == values[0] <= Highest(prefix);
    var i :| 0 <= i < k + 1 && prefix[i] == Highest(prefix);
    assert values[i] == prefix[i] && i != k;
  }

  lemma CoveredMeansBounded(r: Request, s: State)
    requires Tracked(r, s) && ShortfallsCovered(Values(r.startingBalance, s.curve))
    ensures ShortfallsBounded(r, s)
  {
    hide Drawdown, LowestPositive, Tracked, Shortfall, Highest;
    StartPositive(r, s);
    var values := Values(r.startingBalance, s.curve);
    forall j | 0 < j < |values| && values[j] < 0.0
      ensures Drawdown(LowestPositive(values[..j]), values[j]) <= s.maxDrawdown
    {
      var k :| Covers(values, j, k);
      CoverMeasured(r, s, k);
      DrawdownOrder(LowestPositive(values[..j]), values[j], values[0], values[k]);
    }
  }

  /** A shortfall leaves a drawdown above 100 percent, so the deepest point lies below zero too. */
  lemma DeepestPoint(r: Request, s: State, j: int) returns (k: int)
    requires Tracked(r, s) && 0 < j <= |s.curve| && Values(r.startingBalance, s.curve)[j] < 0.0
    requires Drawdown(LowestPositive(Values(r.startingBalance, s.curve)[..j]), Values(r.startingBalance, s.curve)[j]) <= s.maxDrawdown
    ensures 0 < k <= |s.curve| && s.curve[k - 1].drawdown == s.maxDrawdown && s.curve[k - 1].equity < 0.0
    ensures var values := Values(r.startingBalance, s.curve);
      Highest(values[..k + 1]) > 0.0 && s.maxDrawdown == Drawdown(Highest(values[..k + 1]), values[k])
  {
    hide Highest, LowestPositive, Drawdown, Shortfall;
    var values := Values(r.startingBalance, s.curve);
    DrawdownAbove(LowestPositive(values[..j]), values[j]);
    var m :| 0 <= m < |s.curve| && s.curve[m].drawdown == s.maxDrawdown;
    assert MeasuredAt(values, s.curve, m);
    DrawdownAbove(Highest(values[..m + 2]), values[m + 1]);
    k := m + 1;
  }

  /** When the drawdown kept bounds every fall, the deepest shortfall is one that was measured from the lowest
      positive value: that is also the highest, so there was no other. */
  lemma DeepestAtFirst(r: Request, s: State, j: int) returns (k: int)
    requires Tracked(r, s) && BoundsEveryFall(r, s) && ShortfallsBounded(r, s)
    requires 0 < j <= |s.curve| && Values(r.startingBalance, s.curve)[j] < 0.0
    ensures Covers(Values(r.startingBalance, s.curve), j, k)
  {
    hide Highest, LowestPositive, Drawdown, Shortfall, BoundsEveryFall, Tracked;
    StartPositive(r, s);
    var values := Values(r.startingBalance, s.curve);
    k := DeepestPoint(r, s, j);
    OnlyTheFirst(r, s, k);
    DrawdownOrder(LowestPositive(values[..j]), values[j], values[0], values[k]);
  }

  lemma StartPositive(r: Request, s: State)
    requires Tracked(r, s)
    ensures Values(r.startingBalance, s.curve)[0] > 0.0
  {
  }

  lemma DrawdownAbove(from: real, value: real)
    requires from > 0.0
    ensures Drawdown(from, value) > 100.0 <==> value < 0.0
  {
    DrawdownOfShortfall(from, value);
    ShortfallPositive(from, value);
  }

  lemma DrawdownOrder(a: real, x: real, b: real, y: real)
    requires a > 0.0 && b > 0.0
    ensures Drawdown(a, x) <= Drawdown(b, y) <==> Shortfall(a, x) <= Shortfall(b, y)
  {
    hide Drawdown, Shortfall;
    DrawdownOfShortfall(a, x);
    DrawdownOfShortfall(b, y);
  }

  lemma ShortfallPositive(from: real, value: real)
    requires from > 0.0
    ensures Shortfall(from, value) > 0.0 <==> value < 0.0
  {
    QuotientTimes(-value, from);
  }

  /** A shortfall as deep as the drawdown kept was measured from the lowest positive value before it. */
  lemma OnlyTheFirst(r: Request, s: State, k: int)
    requires Tracked(r, s) && BoundsEveryFall(r, s)
    requires 0 < k <= |s.curve| && s.curve[k - 1].drawdown == s.maxDrawdown && s.curve[k - 1].equity < 0.0
    ensures var values := Values(r.startingBalance, s.curve);
      && (forall i :: 0 <= i < k && values[i] > 0.0 ==> values[i] == values[0])
      && Highest(values[..k + 1]) == values[0]
  {
    hide Highest, Drawdown;
    var values := Values(r.startingBalance, s.curve);
    assert MeasuredAt(values, s.curve, k - 1);
    var prefix := values[..k + 1];
    forall i | 0 <= i < k && values[i] > 0.0
      ensures values[i] == Highest(prefix)
    {
      assert prefix[i] == values[i];
      if values[i] < Highest(prefix) {
        ShortfallStrict(values[i], Highest(prefix), values[k]);
        assert false;
      }
    }
  }

  lemma ShortfallStrict(low: real, high: real, value: real)
    requires 0.0 < low < high && value < 0.0
    ensures Drawdown(high, value) < Drawdown(low, value)
  {
    RelativeShortfallAntitone(low, high, value);
    QuotientTimes(low - value, low);
    QuotientTimes(high - value, high);
    var (p, q) := ((low - value) / low, (high - value) / high);
    assert (p - 1.0) * low == -value == (q - 1.0) * high;
    ProductStrict(low, high, p - 1.0);
  }

  /** The drawdown kept in one pass is the largest fall over all pairs if and only if no shortfall is deeper, relative
      to the lowest positive value before it, than one that came while the account had had no other positive value than
      its starting balance. */
  lemma BoundsEveryFallIff(r: Request, s: State)
    requires Tracked(r, s)
    ensures BoundsEveryFall(r, s) <==> ShortfallsCovered(Values(r.startingBalance, s.curve))
  {
    hide Drawdown, Covers, LowestPositive, BoundsEveryFall, ShortfallsBounded, Highest;
    StartPositive(r, s);
    MaxDrawdownIsQuadratic(r, s);
    var values := Values(r.startingBalance, s.curve);
    if ShortfallsCovered(values) {
      CoveredMeansBounded(r, s);
    }
    if BoundsEveryFall(r, s) {
      forall j | 0 < j < |values| && values[j] < 0.0
        ensures exists k :: Covers(values, j, k)
      {
        var k := DeepestAtFirst(r, s, j);
      }
    }
  }

  /** In particular it is the largest fall whenever the account never goes below zero. */
  lemma NeverNegativeBounded(r: Request, s: State)
    requires Tracked(r, s) && forall j :: 0 <= j < |s.curve| ==> s.curve[j].equity >= 0.0
    ensures BoundsEveryFall(r, s)
  {
    hide Drawdown, Highest, LowestPositive, MeasuredAt, BoundsEveryFall;
    MaxDrawdownIsQuadratic(r, s);
  }

  lemma FallAttained(r: Request, s: State)
    requires Tracked(r, s)
    ensures var values := Values(r.startingBalance, s.curve);
      exists i, j :: 0 <= i <= j < |values| && values[i] > 0.0 && Drawdown(values[i], values[j]) == s.maxDrawdown
  {
    hide Drawdown, Highest;
    var values := Values(r.startingBalance, s.curve);
    if s.maxDrawdown == 0.0 {
      NoFall(values[0]);
      assert Drawdown(values[0], values[0]) == s.maxDrawdown;
    } else {
      var j :| 0 <= j < |s.curve| && s.curve[j].drawdown == s.maxDrawdown;
      assert MeasuredAt(values, s.curve, j);
      var i := HighestOfPrefix(values, j + 2);
      assert Drawdown(values[i], values[j + 1]) == s.maxDrawdown;
    }
  }

  lemma NoFall(value: real)
    requires value > 0.0
    ensures Drawdown(value, value) == 0.0
  {
  }

  lemma FallBounded(r: Request, s: State, i: int, j: int)
    requires Tracked(r, s) && ShortfallsBounded(r, s)
    requires 0 <= i <= j <= |s.curve| && Values(r.startingBalance, s.curve)[i] > 0.0
    ensures var values := Values(r.startingBalance, s.curve); Drawdown(values[i], values[j]) <= s.maxDrawdown
  {
    hide Drawdown, LowestPositive, Highest;
    var values := Values(r.startingBalance, s.curve);
    if j == i {
      NoFall(values[i]);
    } else if values[j] >= 0.0 {
      assert MeasuredAt(values, s.curve, j - 1);
      var prefix := values[..j + 1];
      assert prefix[i] == values[i] && values[i] <= Highest(prefix);
      DrawdownMonotone(values[i], Highest(prefix), values[j]);
    } else {
      var prefix := values[..j];
      assert prefix[i] == values[i] && LowestPositive(prefix) <= values[i];
      ShortfallAntitone(LowestPositive(prefix), values[i], values[j]);
    }
  }

  // Solvency of long-only runs ------------------------------------------------------------------------------------

  ghost predicate Solvent(r: Request, s: State) {
    && s.quote >= 0.0 && s.base >= 0.0
    && (s.open.Some? ==> s.open.value.side == Buy && r.feeRate < 1.0)
    && (forall j :: 0 <= j < |s.curve| ==> s.curve[j].equity >= 0.0)
  }

  /** Shorting off, and slippage that cannot push a sale below zero. */
  predicate LongOnly(r: Request) {
    !r.shorting && r.slippageRate <= 1.0 && r.slippageRate >= 0.0
  }

  lemma CloseSolvent(r: Request, s: State, bar: int, price: real, at: Time, reason: ExitReason)
    requires LongOnly(r) && Pairing(r, s) && Solvent(r, s) && s.base != 0.0 && price > 0.0
    ensures var t := ClosePosition(r, s, bar, price, at, reason); t.Ok? && Solvent(r, t.value)
  {
    hide Ratio, WholeSeconds, Paired;
    var fill := SellFill(price, r.slippageRate);
    assert fill >= 0.0;
    ProductNonNegative(s.base, fill);
    KeepsShare(s.base * fill, r.feeRate);
  }

  lemma EnterSolvent(r: Request, cs: seq<Candle>, s: State, i: int, price: real)
    requires LongOnly(r) && Ready(r, cs) && RequiredCandles(r) - 1 <= i < |cs|
    requires Solvent(r, s) && s.open.None?
    ensures Solvent(r, Enter(r, cs, s, i, price, false))
  {
    hide EntryQuoteAmount, EntryQuantity, EntryPrice, FillOf, Ready, AtrExitPrices;
    AmountAvailable(r, s.quote, s.base, price);
    var amount := EntryQuoteAmount(r, s.quote, s.base, price);
    ReadyToFill(r, cs, i);
    if FillOf(r, cs, i).Some? {
      var entry := EntryPrice(r, FillOf(r, cs, i).value.price, false);
      if amount > 0.0 && EntryQuantity(r, amount, entry) > 0.0 {
        BuyPricePositive(r, FillOf(r, cs, i).value.price);
        QuantityTimesPrice(r, amount, entry);
        FeeBelowOne(amount, r.feeRate, EntryQuantity(r, amount, entry), entry);
      }
    }
  }

  lemma ReadyToFill(r: Request, cs: seq<Candle>, i: int)
    requires Ready(r, cs) && RequiredCandles(r) - 1 <= i < |cs|
    ensures 0 <= i && r.feeRate >= 0.0
    ensures FillOf(r, cs, i).Some? ==> FillOf(r, cs, i).value.price > 0.0
  {
    RequiredSuffices(r);
    FillOfPositive(r, cs, i);
  }

  lemma BuyPricePositive(r: Request, reference: real)
    requires LongOnly(r) && reference > 0.0
    ensures EntryPrice(r, reference, false) > 0.0
  {
    FillAround(reference, r.slippageRate);
  }

  lemma FeeBelowOne(amount: real, rate: real, quantity: real, entry: real)
    requires amount > 0.0 && quantity > 0.0 && entry > 0.0 && quantity * entry == amount - amount * rate
    ensures rate < 1.0
  {
    assert quantity * entry > 0.0;
    assert amount * (1.0 - rate) > 0.0;
  }

  lemma AmountAvailable(r: Request, quote: real, base: real, price: real)
    ensures EntryQuoteAmount(r, quote, base, price) <= quote
  {
  }

  /** Long-only runs never owe anything: balances and every point of the curve stay at or above zero. */
  lemma BarSolvent(r: Request, cs: seq<Candle>, side: Side, s: State, i: int)
    requires LongOnly(r) && Ready(r, cs) && RequiredCandles(r) - 1 <= i < |cs| && Sound(r, s) && Solvent(r, s)
    ensures Bar(r, cs, side, s, i).Ok? && Solvent(r, Bar(r, cs, side, s, i).value)
  {
    hide Sound, Solvent, AtrStep, SignalExit, EntryStep, Mark, ValidSeries, Equity;
    RequiredSuffices(r);
    CandlePrices(r, cs, i);
    var price := ParsePositive(cs[i].close).value;
    AtrStepSound(r, cs, s, i);
    AtrStepSolvent(r, cs, s, i);
    var (t, exited) := AtrStep(r, cs, s, i).value;
    SignalExitSound(r, cs, side, t, i);
    SignalExitSolvent(r, cs, side, t, i);
    var u := SignalExit(r, cs, side, t, i).value;
    EntryStepSolvent(r, cs, side, u, s.lastTrade, exited, i, price);
    var v := EntryStep(r, cs, side, u, s.lastTrade, exited, i, price);
    MarkSolvent(r, v, cs[i].closeTime, price);
  }

  lemma MarkSolvent(r: Request, s: State, at: Time, price: real)
    requires Solvent(r, s) && price > 0.0
    ensures Solvent(r, Mark(s, at, Equity(s.quote, s.base, price)))
  {
    hide Drawdown;
    assert s.base * price >= 0.0;
  }

  lemma AtrStepSolvent(r: Request, cs: seq<Candle>, s: State, i: int)
    requires LongOnly(r) && Ready(r, cs) && 0 <= i < |cs| && Sound(r, s) && Solvent(r, s)
    ensures AtrStep(r, cs, s, i).Ok? && Solvent(r, AtrStep(r, cs, s, i).value.0)
  {
    hide Solvent, ClosePosition, Pairing, Books, Extremes, ValidSeries;
    AtrStepSound(r, cs, s, i);
    var exit := AtrExit(r, cs[i], s.stopLoss, s.takeProfit, s.base < 0.0);
    if s.base != 0.0 && exit.Ok? && exit.value.Some? {
      CloseSolvent(r, s, i, exit.value.value.price, cs[i].closeTime, exit.value.value.reason);
    }
  }

  lemma SignalExitSolvent(r: Request, cs: seq<Candle>, side: Side, s: State, i: int)
    requires LongOnly(r) && Ready(r, cs) && 0 <= i < |cs| && Sound(r, s) && Solvent(r, s)
    ensures SignalExit(r, cs, side, s, i).Ok? && Solvent(r, SignalExit(r, cs, side, s, i).value)
  {
    hide Solvent, ClosePosition, Pairing, Books, Extremes, ValidSeries, FillOf;
    SignalExitSound(r, cs, side, s, i);
    FillOfPositive(r, cs, i);
    var fill := FillOf(r, cs, i);
    if s.base != 0.0 && fill.Some? {
      CloseSolvent(r, s, fill.value.bar, fill.value.price, fill.value.at, if s.base > 0.0 then SellSignal else BuySignal);
    }
  }

  lemma EntryStepSolvent(r: Request, cs: seq<Candle>, side: Side, s: State, lastTrade: int, exited: bool, i: int, price: real)
    requires LongOnly(r) && Ready(r, cs) && 0 <= RequiredCandles(r) - 1 <= i < |cs| && Sound(r, s) && Solvent(r, s)
    ensures Solvent(r, EntryStep(r, cs, side, s, lastTrade, exited, i, price))
  {
    hide Solvent, Enter, Books, Extremes, ValidSeries, PassesEntryFilters;
    if s.base == 0.0 {
      assert s.open.None?;
      EnterSolvent(r, cs, s, i, price);
    }
  }

  lemma {:induction false} RunSolvent(r: Request, source: SignalSource, cs: seq<Candle>, upto: int)
    requires LongOnly(r) && Ready(r, cs) && 1 <= RequiredCandles(r) && RequiredCandles(r) - 1 <= upto <= |cs|
    requires RunBars(r, source, cs, upto).Ok?
    ensures Solvent(r, RunBars(r, source, cs, upto).value)
    decreases upto
  {
    hide Sound, Bar, SideAt;
    if upto > RequiredCandles(r) - 1 {
      hide Solvent, Ready;
      RunSolvent(r, source, cs, upto - 1);
      RunSound(r, source, cs, upto - 1);
      BarSolvent(r, cs, SideAt(source, cs, upto - 1).value, RunBars(r, source, cs, upto - 1).value, upto - 1);
    }
  }

  lemma LiquidateSolvent(r: Request, cs: seq<Candle>, s: State)
    requires LongOnly(r) && Ready(r, cs) && cs != [] && Sound(r, s) && Solvent(r, s)
    ensures Liquidate(r, cs, s).Ok? && Solvent(r, Liquidate(r, cs, s).value)
  {
    hide ClosePosition, Pairing, Books, Extremes, ValidSeries, Drawdown;
    LiquidateSound(r, cs, s);
    CandlePrices(r, cs, |cs| - 1);
    if s.base != 0.0 {
      CloseSolvent(r, s, |cs| - 1, ParsePositive(cs[|cs| - 1].close).value, cs[|cs| - 1].closeTime, EndOfBacktest);
    }
  }

  lemma LiquidateTracked(r: Request, cs: seq<Candle>, s: State)
    requires cs != [] && Liquidate(r, cs, s).Ok? && Tracked(r, s)
    ensures Tracked(r, Liquidate(r, cs, s).value)
  {
    hide Mark, Settlement, MeasuredAt, Highest;
    if s.base != 0.0 {
      var last := cs[|cs| - 1];
      var t := ClosePosition(r, s, |cs| - 1, ParsePositive(last.close).value, last.closeTime, EndOfBacktest).value;
      assert SameCurve(s, t);
      MarkTracked(r, t, last.closeTime, t.quote);
    }
  }

  /** In a solvent run every drawdown is a percentage between 0 and 100. */
  lemma DrawdownsArePercentages(r: Request, s: State, j: int)
    requires Tracked(r, s) && Solvent(r, s) && 0 <= j < |s.curve|
    ensures 0.0 <= s.curve[j].drawdown <= 100.0
  {
    hide Highest;
    var values := Values(r.startingBalance, s.curve);
    assert MeasuredAt(values, s.curve, j);
    var peak, value := Highest(values[..j + 2]), s.curve[j].equity;
    assert values[..j + 2][j + 1] == value <= peak;
    QuotientBetween(peak - value, peak);
  }
}
