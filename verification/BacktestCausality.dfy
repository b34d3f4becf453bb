/** No lookahead: the engine's state after a bar is fixed by the candles up to that bar and, when orders
    fill on the next open, by that open alone. */
module BacktestCausality {
  import opened MarketData
  import opened Signals
  import opened Resolution
  import opened PineEvaluator
  import opened BacktestRequest
  import opened BacktestModel

  /** What two series must share for bar i to look the same in both. */
  ghost predicate AgreeThrough(r: Request, cs: seq<Candle>, ds: seq<Candle>, i: int) {
    && 0 <= i < |cs| && i < |ds| && cs[..i + 1] == ds[..i + 1]
    && (r.fillMode == NextOpen ==>
          && (i + 1 < |cs| <==> i + 1 < |ds|)
          && (i + 1 < |cs| ==> cs[i + 1].open == ds[i + 1].open && cs[i + 1].openTime == ds[i + 1].openTime))
  }

  lemma AgreeEarlier(r: Request, cs: seq<Candle>, ds: seq<Candle>, i: int, j: int)
    requires AgreeThrough(r, cs, ds, i) && 0 <= j <= i
    ensures AgreeThrough(r, cs, ds, j)
    ensures j < i ==> cs[j] == ds[j]
  {
    assert cs[..j + 1] == cs[..i + 1][..j + 1] && ds[..j + 1] == ds[..i + 1][..j + 1];
    assert forall k :: 0 <= k <= i ==> cs[k] == cs[..i + 1][k] && ds[k] == ds[..i + 1][k];
  }

  lemma FillCausal(r: Request, cs: seq<Candle>, ds: seq<Candle>, i: int)
    requires AgreeThrough(r, cs, ds, i)
    ensures cs[i] == ds[i] && FillOf(r, cs, i) == FillOf(r, ds, i)
  {
    assert cs[i] == cs[..i + 1][i] && ds[i] == ds[..i + 1][i];
  }

  lemma BarCausal(r: Request, cs: seq<Candle>, ds: seq<Candle>, side: Side, s: State, i: int)
    requires AgreeThrough(r, cs, ds, i)
    ensures Bar(r, cs, side, s, i) == Bar(r, ds, side, s, i)
  {
    hide FillOf, ClosePosition, Mark, OpenPosition, PassesEntryFilters, AtrExitPrices, EntryQuantity, EntryQuoteAmount, EntryPrice;
    FillCausal(r, cs, ds, i);
    assert AtrStep(r, cs, s, i) == AtrStep(r, ds, s, i);
    forall t: State, u: State, exited: bool, price: real
      ensures SignalExit(r, cs, side, t, i) == SignalExit(r, ds, side, t, i)
      ensures EntryStep(r, cs, side, u, s.lastTrade, exited, i, price) == EntryStep(r, ds, side, u, s.lastTrade, exited, i, price)
    {
      EntryCausal(r, cs, ds, side, u, s.lastTrade, exited, i, price);
    }
  }

  lemma EntryCausal(r: Request, cs: seq<Candle>, ds: seq<Candle>, side: Side, s: State, lastTrade: int, exited: bool, i: int, price: real)
    requires AgreeThrough(r, cs, ds, i)
    ensures EntryStep(r, cs, side, s, lastTrade, exited, i, price) == EntryStep(r, ds, side, s, lastTrade, exited, i, price)
  {
    hide FillOf, OpenPosition, PassesEntryFilters, AtrExitPrices, EntryQuantity, EntryQuoteAmount, EntryPrice;
    FillCausal(r, cs, ds, i);
    assert Enter(r, cs, s, i, price, false) == Enter(r, ds, s, i, price, false);
    assert Enter(r, cs, s, i, price, true) == Enter(r, ds, s, i, price, true);
  }

  lemma {:induction false} RunCausal(r: Request, a: SignalSource, b: SignalSource, cs: seq<Candle>, ds: seq<Candle>, i: int)
    requires 1 <= RequiredCandles(r) && RequiredCandles(r) - 1 <= i && AgreeThrough(r, cs, ds, i)
    requires forall j :: RequiredCandles(r) - 1 <= j <= i ==> SideAt(a, cs, j) == SideAt(b, ds, j)
    ensures RunBars(r, a, cs, i + 1) == RunBars(r, b, ds, i + 1)
    decreases i
  {
    hide Bar, SideAt;
    if i > RequiredCandles(r) - 1 {
      AgreeEarlier(r, cs, ds, i, i - 1);
      RunCausal(r, a, b, cs, ds, i - 1);
    } else {
      assert RunBars(r, a, cs, i) == RunBars(r, b, ds, i);
    }
    var (s, side) := (RunBars(r, a, cs, i), SideAt(a, cs, i));
    if s.Ok? && side.Ok? {
      BarCausal(r, cs, ds, side.value, s.value, i);
    }
  }

  /** The signals a run trades on: the Pine series, with its indicators resolved in the given order, or the native
      strategy window by window. */
  ghost predicate SignalsBy(host: Host, r: Request, cs: seq<Candle>, order: seq<string>, source: SignalSource) {
    if r.strategy == Template
    then r.program.Some? && source.Series? && SeriesBy(host, r.program.value.config, cs, order, source.signals)
    else source == Windows(r)
  }

  ghost predicate SignalsOf(host: Host, r: Request, cs: seq<Candle>, source: SignalSource) {
    exists order :: SignalsBy(host, r, cs, order, source)
  }

  /** The same order, or a program for which it does not matter. */
  ghost predicate SameResolution(r: Request, p: seq<string>, q: seq<string>) {
    r.program.Some? ==> Interchangeable(r.program.value.config.indicators, p, q)
  }

  lemma SidesCausal(host: Host, r: Request, p: seq<string>, q: seq<string>, a: SignalSource, b: SignalSource,
                    cs: seq<Candle>, ds: seq<Candle>, i: int, j: int)
    requires SignalsBy(host, r, cs, p, a) && SignalsBy(host, r, ds, q, b) && SameResolution(r, p, q)
    requires AgreeThrough(r, cs, ds, i) && 0 <= j <= i
    ensures SideAt(a, cs, j) == SideAt(b, ds, j)
  {
    hide SignalsIn, Exhaustive, Interchangeable;
    if r.strategy == Template {
      SignalsCausal(host, r.program.value.config, p, q, cs, ds, a.signals, b.signals, i + 1);
      assert a.signals[j] == a.signals[..i + 1][j] && b.signals[j] == b.signals[..i + 1][j];
    } else {
      AgreeEarlier(r, cs, ds, i, j);
    }
  }

  /** The whole state after bar i - balances, stops, trades, round trips, equity curve - is the same for any two
      continuations of the candles, whatever the strategy and in either fill mode. A Pine program may resolve its
      indicators in two orders, unless one of them replaces a series that another reads or writes. */
  lemma NoLookahead(host: Host, r: Request, p: seq<string>, q: seq<string>, a: SignalSource, b: SignalSource,
                    cs: seq<Candle>, ds: seq<Candle>, i: int)
    requires 1 <= RequiredCandles(r) && RequiredCandles(r) - 1 <= i && AgreeThrough(r, cs, ds, i)
    requires SignalsBy(host, r, cs, p, a) && SignalsBy(host, r, ds, q, b) && SameResolution(r, p, q)
    ensures RunBars(r, a, cs, i + 1) == RunBars(r, b, ds, i + 1)
  {
    hide SideAt, SignalsBy, SameResolution;
    forall j | RequiredCandles(r) - 1 <= j <= i
      ensures SideAt(a, cs, j) == SideAt(b, ds, j)
    {
      SidesCausal(host, r, p, q, a, b, cs, ds, i, j);
    }
    RunCausal(r, a, b, cs, ds, i);
  }
}
