/** Reversals (internal/backtest/engine.go:198-322): the one way an entry can follow an exit before the cooldown is
    over, exactly when a bar makes one, and a run in which it happens. */
module BacktestReversal {
  import opened Common
  import opened RealArithmetic
  import opened MarketData
  import opened CandleSeries
  import opened Signals
  import opened Native
  import opened BacktestRequest
  import opened BacktestModel
  import opened BacktestAccounting
  import opened BacktestTiming

  // One bar -----------------------------------------------------------------------------------------------------

  /** The guards of the ATR exit, the last of them that a price was hit. */
  predicate AtrFires(r: Request, cs: seq<Candle>, s: State, i: int)
    requires 0 <= i < |cs|
  {
    && s.base != 0.0 && i != s.entryIndex && CanExit(i, s.entryIndex, r.minHoldingBars)
    && var exit := AtrExit(r, cs[i], s.stopLoss, s.takeProfit, s.base < 0.0); exit.Ok? && exit.value.Some?
  }

  /** The guards of the signal exit. */
  predicate ExitFires(r: Request, cs: seq<Candle>, side: Side, s: State, i: int)
    requires 0 <= i < |cs|
  {
    Opposes(side, s.base) && CanExit(i, s.entryIndex, r.minHoldingBars) && FillOf(r, cs, i).Some?
  }

  /** The guards of the entries of an account with this quote balance and no position. */
  predicate EntryFires(r: Request, cs: seq<Candle>, side: Side, quote: real, lastTrade: int, i: int, price: real)
    requires 0 <= i < |cs|
  {
    && CanEnter(i, lastTrade, r.cooldownBars) && quote > 0.0
    && (side == Buy || (side == Sell && r.shorting)) && PassesEntryFilters(r, cs[..i + 1], price, side == Sell)
    && FillOf(r, cs, i).Some?
    && var amount := EntryQuoteAmount(r, quote, 0.0, price);
       amount > 0.0 && EntryQuantity(r, amount, EntryPrice(r, FillOf(r, cs, i).value.price, side == Sell)) > 0.0
  }

  /** The quote balance once the whole position has been closed at a price. */
  function QuoteAfterClose(r: Request, s: State, price: real): real {
    var (_, amount, fee, _) := Settlement(r, s, price);
    if s.base > 0.0 then s.quote + (amount - fee) else s.quote - (amount + fee)
  }

  /** What makes bar i a reversal, in terms of what is known before it. */
  predicate Reverses(r: Request, cs: seq<Candle>, side: Side, s: State, i: int)
    requires 0 <= i < |cs|
  {
    && !AtrFires(r, cs, s, i) && ExitFires(r, cs, side, s, i)
    && ParsePositive(cs[i].close).Ok?
    && EntryFires(r, cs, side, QuoteAfterClose(r, s, FillOf(r, cs, i).value.price), s.lastTrade, i, ParsePositive(cs[i].close).value)
  }

  lemma CloseBars(r: Request, s: State, bar: int, price: real, at: Time, reason: ExitReason)
    requires s.base != 0.0 && s.trades != []
    ensures var t := ClosePosition(r, s, bar, price, at, reason);
      && t.Ok? && t.value.bars == s.bars + [bar] && t.value.base == 0.0 && t.value.quote == QuoteAfterClose(r, s, price)
  {
    hide Settlement, SlippageOn, MoveOn, Ratio, WholeSeconds;
  }

  lemma AtrBars(r: Request, cs: seq<Candle>, s: State, i: int)
    requires 0 <= i < |cs| && AtrStep(r, cs, s, i).Ok? && (s.base != 0.0 ==> s.trades != [])
    ensures var (t, exited) := AtrStep(r, cs, s, i).value;
      && (exited <==> AtrFires(r, cs, s, i))
      && (if exited then t.bars == s.bars + [i] && t.base == 0.0 else t == s)
  {
    hide ClosePosition, AtrExit, CanExit;
    if AtrFires(r, cs, s, i) {
      var hit := AtrExit(r, cs[i], s.stopLoss, s.takeProfit, s.base < 0.0).value.value;
      CloseBars(r, s, i, hit.price, cs[i].closeTime, hit.reason);
    }
  }

  lemma ExitBars(r: Request, cs: seq<Candle>, side: Side, s: State, i: int)
    requires 0 <= i < |cs| && (s.base != 0.0 ==> s.trades != [])
    ensures var t := SignalExit(r, cs, side, s, i);
      && t.Ok?
      && (if ExitFires(r, cs, side, s, i)
          then t.value.bars == s.bars + [FillOf(r, cs, i).value.bar] && t.value.base == 0.0
               && t.value.quote == QuoteAfterClose(r, s, FillOf(r, cs, i).value.price)
          else t.value == s)
  {
    hide ClosePosition, FillOf, CanExit, QuoteAfterClose;
    if ExitFires(r, cs, side, s, i) {
      var f := FillOf(r, cs, i).value;
      CloseBars(r, s, f.bar, f.price, f.at, if s.base > 0.0 then SellSignal else BuySignal);
    }
  }

  lemma EntryBars(r: Request, cs: seq<Candle>, side: Side, s: State, lastTrade: int, i: int, price: real)
    requires Ready(r, cs) && 0 <= RequiredCandles(r) - 1 <= i < |cs| && s.base == 0.0
    ensures var t := EntryStep(r, cs, side, s, lastTrade, false, i, price);
      if EntryFires(r, cs, side, s.quote, lastTrade, i, price)
      then t.bars == s.bars + [FillOf(r, cs, i).value.bar]
      else t == s
  {
    hide FillOf, CanEnter, PassesEntryFilters, EntryQuoteAmount, EntryQuantity, EntryPrice, AtrExitPrices, Fee, SlippageOn,
      Equity, Ready;
    if FillOf(r, cs, i).Some? {
      AtrPricesNeverFail(r, cs, i, EntryPrice(r, FillOf(r, cs, i).value.price, side == Sell), side == Sell);
    }
  }

  /** The three steps of a bar, none of which fails; marking the equity adds no fill. */
  lemma BarSteps(r: Request, cs: seq<Candle>, side: Side, s: State, i: int) returns (t: State, exited: bool, u: State, v: State)
    requires Ready(r, cs) && 0 <= RequiredCandles(r) - 1 <= i < |cs| && Sound(r, s)
    ensures ParsePositive(cs[i].close).Ok?
    ensures AtrStep(r, cs, s, i) == Ok((t, exited)) && SignalExit(r, cs, side, t, i) == Ok(u)
    ensures v == EntryStep(r, cs, side, u, s.lastTrade, exited, i, ParsePositive(cs[i].close).value)
    ensures Bar(r, cs, side, s, i).Ok? && Bar(r, cs, side, s, i).value.bars == v.bars
    ensures (s.base != 0.0 ==> s.trades != []) && (t.base != 0.0 ==> t.trades != [])
  {
    hide AtrStep, SignalExit, EntryStep, Sound, Ready, ParsePositive, Bar;
    CandlePrices(r, cs, i);
    AtrStepSound(r, cs, s, i);
    t, exited := AtrStep(r, cs, s, i).value.0, AtrStep(r, cs, s, i).value.1;
    SignalExitSound(r, cs, side, t, i);
    u := SignalExit(r, cs, side, t, i).value;
    v := EntryStep(r, cs, side, u, s.lastTrade, exited, i, ParsePositive(cs[i].close).value);
    BarIsSteps(r, cs, side, s, i, t, exited, u);
    TradesWhileOpen(r, s);
    TradesWhileOpen(r, t);
  }

  lemma BarIsSteps(r: Request, cs: seq<Candle>, side: Side, s: State, i: int, t: State, exited: bool, u: State)
    requires 0 <= i < |cs| && ParsePositive(cs[i].close).Ok?
    requires AtrStep(r, cs, s, i) == Ok((t, exited)) && SignalExit(r, cs, side, t, i) == Ok(u)
    ensures Bar(r, cs, side, s, i).Ok?
    ensures Bar(r, cs, side, s, i).value.bars ==
            EntryStep(r, cs, side, u, s.lastTrade, exited, i, ParsePositive(cs[i].close).value).bars
  {
    hide AtrStep, SignalExit, EntryStep, ParsePositive, Equity, Drawdown;
  }

  lemma TradesWhileOpen(r: Request, s: State)
    requires Sound(r, s)
    ensures s.base != 0.0 ==> s.trades != []
  {
  }

  /** The bars of the fills that one bar adds: none, an exit, an entry, or an exit and an entry on one bar. */
  lemma BarFills(r: Request, cs: seq<Candle>, side: Side, s: State, i: int)
    requires Ready(r, cs) && 0 <= RequiredCandles(r) - 1 <= i < |cs| && Sound(r, s)
    ensures Bar(r, cs, side, s, i).Ok?
    ensures var t := Bar(r, cs, side, s, i).value;
      if Reverses(r, cs, side, s, i) then t.bars == s.bars + [FillOf(r, cs, i).value.bar, FillOf(r, cs, i).value.bar]
      else
        || t.bars == s.bars
        || (s.base != 0.0 && |t.bars| == |s.bars| + 1 && t.bars[..|s.bars|] == s.bars)
        || (s.base == 0.0 && CanEnter(i, s.lastTrade, r.cooldownBars) && FillOf(r, cs, i).Some?
            && t.bars == s.bars + [FillOf(r, cs, i).value.bar])
  {
    var t, exited, u, v := BarSteps(r, cs, side, s, i);
    AtrBars(r, cs, s, i);
    ExitBars(r, cs, side, t, i);
    var price := ParsePositive(cs[i].close).value;
    if u.base == 0.0 {
      EntryBars(r, cs, side, u, s.lastTrade, i, price);
    }
    EntryNeedsFlat(r, cs, side, u, s.lastTrade, exited, i, price);
    hide AtrStep, SignalExit, EntryStep, Bar, Sound, Ready, AtrFires, CanEnter, CanExit, FillOf, PassesEntryFilters,
      EntryQuoteAmount, EntryQuantity, EntryPrice, QuoteAfterClose, ParsePositive;
  }

  lemma EntryNeedsFlat(r: Request, cs: seq<Candle>, side: Side, s: State, lastTrade: int, exited: bool, i: int, price: real)
    requires 0 <= i < |cs|
    ensures s.base != 0.0 || exited ==> EntryStep(r, cs, side, s, lastTrade, exited, i, price) == s
  {
  }

  /** A bar closes a position and opens another if and only if it reverses; both then fill on the same bar, so the
      cooldown, which is at least one bar, is not waited for. */
  lemma ReversalIff(r: Request, cs: seq<Candle>, side: Side, s: State, i: int)
    requires Ready(r, cs) && 0 <= RequiredCandles(r) - 1 <= i < |cs| && Sound(r, s)
    ensures Bar(r, cs, side, s, i).Ok?
    ensures var t := Bar(r, cs, side, s, i).value;
      && (|t.bars| == |s.bars| + 2 <==> Reverses(r, cs, side, s, i))
      && (|t.bars| == |s.bars| + 2 ==> t.bars[|s.bars| + 1] == t.bars[|s.bars|] && t.bars[|s.bars| + 1] - t.bars[|s.bars|] < r.cooldownBars)
  {
    hide Bar, Reverses, Sound;
    BarFills(r, cs, side, s, i);
  }

  // With rates below one ------------------------------------------------------------------------------------------------

  lemma AmountPositive(r: Request, quote: real, price: real)
    requires Valid(r) && quote > 0.0
    ensures EntryQuoteAmount(r, quote, 0.0, price) > 0.0
  {
    if r.sizing == PercentEquity {
      ProductStrict(0.0, quote, r.sizeValue);
      assert Equity(quote, 0.0, price) == quote;
    }
  }

  /** What is left of an amount once its fee is set aside. */
  lemma ShareLeft(amount: real, rate: real)
    requires amount > 0.0 && rate < 1.0
    ensures amount - Fee(amount, rate) > 0.0
  {
    ProductStrict(rate, 1.0, amount);
  }

  lemma PositiveQuotient(a: real, b: real)
    requires a > 0.0 && b > 0.0
    ensures Ratio(a, b) > 0.0
  {
    QuotientTimes(a, b);
    if a / b <= 0.0 {
      ProductNonNegative(-(a / b), b);
    }
  }

  lemma EntryPriceAbove(r: Request, reference: real, short: bool)
    requires reference > 0.0 && 0.0 <= r.slippageRate < 1.0
    ensures EntryPrice(r, reference, short) > 0.0
  {
    ProductStrict(0.0, reference, if short then 1.0 - r.slippageRate else 1.0 + r.slippageRate);
  }

  /** An account with money can always pay for an entry. */
  lemma EntryAffordable(r: Request, cs: seq<Candle>, side: Side, quote: real, lastTrade: int, i: int, price: real)
    requires Valid(r) && r.feeRate < 1.0 && r.slippageRate < 1.0 && 0 <= i < |cs|
    ensures EntryFires(r, cs, side, quote, lastTrade, i, price) <==>
      && CanEnter(i, lastTrade, r.cooldownBars) && quote > 0.0
      && (side == Buy || (side == Sell && r.shorting)) && PassesEntryFilters(r, cs[..i + 1], price, side == Sell)
      && FillOf(r, cs, i).Some?
  {
    if quote > 0.0 && FillOf(r, cs, i).Some? {
      FillOfPositive(r, cs, i);
      var amount := EntryQuoteAmount(r, quote, 0.0, price);
      AmountPositive(r, quote, price);
      ShareLeft(amount, r.feeRate);
      var entry := EntryPrice(r, FillOf(r, cs, i).value.price, side == Sell);
      EntryPriceAbove(r, FillOf(r, cs, i).value.price, side == Sell);
      PositiveQuotient(amount - Fee(amount, r.feeRate), entry);
    }
    hide CanEnter, PassesEntryFilters, FillOf, EntryQuoteAmount, EntryPrice, Fee, Ratio, Valid;
  }

  /** So with rates below one a short is reversed exactly when its guards hold and closing it leaves money. */
  lemma BuyReversal(r: Request, cs: seq<Candle>, s: State, i: int)
    requires Ready(r, cs) && 0 <= i < |cs| && r.feeRate < 1.0 && r.slippageRate < 1.0 && s.base < 0.0
    ensures Reverses(r, cs, Buy, s, i) <==>
      && !AtrFires(r, cs, s, i) && CanExit(i, s.entryIndex, r.minHoldingBars) && CanEnter(i, s.lastTrade, r.cooldownBars)
      && FillOf(r, cs, i).Some? && QuoteAfterClose(r, s, FillOf(r, cs, i).value.price) > 0.0
      && PassesEntryFilters(r, cs[..i + 1], ParsePositive(cs[i].close).value, false)
  {
    CandlePrices(r, cs, i);
    if FillOf(r, cs, i).Some? {
      var quote := QuoteAfterClose(r, s, FillOf(r, cs, i).value.price);
      EntryAffordable(r, cs, Buy, quote, s.lastTrade, i, ParsePositive(cs[i].close).value);
    }
    hide Ready, AtrFires, EntryFires, CanEnter, CanExit, FillOf, PassesEntryFilters, QuoteAfterClose, ParsePositive;
  }

  /** And a long exactly when its guards hold and shorting is on: selling out of it always leaves money. */
  lemma SellReversal(r: Request, cs: seq<Candle>, s: State, i: int)
    requires Ready(r, cs) && 0 <= i < |cs| && r.feeRate < 1.0 && r.slippageRate < 1.0 && s.base > 0.0 && s.quote >= 0.0
    ensures Reverses(r, cs, Sell, s, i) <==>
      && r.shorting && !AtrFires(r, cs, s, i) && CanExit(i, s.entryIndex, r.minHoldingBars)
      && CanEnter(i, s.lastTrade, r.cooldownBars) && FillOf(r, cs, i).Some?
      && PassesEntryFilters(r, cs[..i + 1], ParsePositive(cs[i].close).value, true)
  {
    CandlePrices(r, cs, i);
    if FillOf(r, cs, i).Some? {
      var price := FillOf(r, cs, i).value.price;
      FillOfPositive(r, cs, i);
      SaleLeavesMoney(r, s, price);
      EntryAffordable(r, cs, Sell, QuoteAfterClose(r, s, price), s.lastTrade, i, ParsePositive(cs[i].close).value);
    }
    hide Ready, AtrFires, EntryFires, CanEnter, CanExit, FillOf, PassesEntryFilters, QuoteAfterClose, ParsePositive;
  }

  lemma SaleLeavesMoney(r: Request, s: State, price: real)
    requires 0.0 <= r.slippageRate < 1.0 && r.feeRate < 1.0 && s.base > 0.0 && s.quote >= 0.0 && price > 0.0
    ensures QuoteAfterClose(r, s, price) > 0.0
  {
    var fill := SellFill(price, r.slippageRate);
    ProductStrict(0.0, price, 1.0 - r.slippageRate);
    ProductStrict(0.0, s.base, fill);
    ShareLeft(Amount(s.base, fill), r.feeRate);
  }

  // Whole runs --------------------------------------------------------------------------------------------------------

  predicate Waits(r: Request, s: State, j: int)
    requires 0 <= j && 2 * j + 2 < |s.bars|
  {
    s.bars[2 * j + 2] - s.bars[2 * j + 1] >= r.cooldownBars
  }

  /** Every entry waits a cooldown after the exit before it, as docs/backtesting.md has it. */
  ghost predicate CooldownKept(r: Request, s: State) {
    forall j :: 0 <= j && 2 * j + 2 < |s.bars| ==> Waits(r, s, j)
  }

  /** Some bar of the run, before `upto`, reverses. */
  predicate SomeReversal(r: Request, source: SignalSource, cs: seq<Candle>, upto: int)
    requires 1 <= RequiredCandles(r) && RequiredCandles(r) - 1 <= upto <= |cs|
  {
    exists i :: RequiredCandles(r) - 1 <= i < upto && ReversesAt(r, source, cs, i)
  }

  predicate ReversesAt(r: Request, source: SignalSource, cs: seq<Candle>, i: int)
    requires 1 <= RequiredCandles(r) && RequiredCandles(r) - 1 <= i < |cs|
  {
    var (s, side) := (RunBars(r, source, cs, i), SideAt(source, cs, i));
    s.Ok? && side.Ok? && Reverses(r, cs, side.value, s.value, i)
  }

  /** What keeps its fills keeps its cooldowns, and one more fill of a close opens no new pair. */
  lemma SameWaits(r: Request, s: State, t: State, j: int)
    requires |s.bars| <= |t.bars| && t.bars[..|s.bars|] == s.bars && 0 <= j && 2 * j + 2 < |s.bars|
    ensures Waits(r, t, j) <==> Waits(r, s, j)
  {
    assert t.bars[2 * j + 2] == t.bars[..|s.bars|][2 * j + 2] && t.bars[2 * j + 1] == t.bars[..|s.bars|][2 * j + 1];
  }

  /** With an odd number of fills, the next one is an exit: no entry has to wait for it. */
  lemma ExitKeepsCooldown(r: Request, s: State, t: State)
    requires |s.bars| % 2 == 1 && |t.bars| == |s.bars| + 1 && t.bars[..|s.bars|] == s.bars
    ensures CooldownKept(r, t) <==> CooldownKept(r, s)
  {
    hide Waits;
    forall j | 0 <= j && 2 * j + 2 < |s.bars| {
      SameWaits(r, s, t, j);
    }
    assert forall j :: 0 <= j && 2 * j + 2 < |t.bars| ==> 2 * j + 2 < |s.bars|;
  }

  lemma EntryKeepsCooldown(r: Request, s: State, t: State)
    requires |s.bars| % 2 == 0 && |t.bars| == |s.bars| + 1 && t.bars[..|s.bars|] == s.bars
    requires s.bars != [] ==> t.bars[|s.bars|] - s.bars[|s.bars| - 1] >= r.cooldownBars
    ensures CooldownKept(r, t) <==> CooldownKept(r, s)
  {
    forall j | 0 <= j && 2 * j + 2 < |s.bars| {
      SameWaits(r, s, t, j);
    }
    forall j | 0 <= j && 2 * j + 2 == |s.bars|
      ensures Waits(r, t, j)
    {
      assert t.bars[2 * j + 1] == t.bars[..|s.bars|][2 * j + 1];
    }
    hide Waits;
    assert forall j :: 0 <= j && 2 * j + 2 < |t.bars| ==> 2 * j + 2 <= |s.bars|;
  }

  lemma ReversalBreaksCooldown(r: Request, s: State, t: State, bar: int)
    requires |s.bars| % 2 == 1 && t.bars == s.bars + [bar, bar] && r.cooldownBars >= 1
    ensures !CooldownKept(r, t)
  {
    var j := (|s.bars| - 1) / 2;
    assert 2 * j + 2 == |s.bars| + 1;
    assert !Waits(r, t, j);
  }

  /** While a position is open the number of fills is odd. */
  lemma OpenIsOdd(r: Request, cs: seq<Candle>, s: State, next: int)
    requires Sound(r, s) && Timed(r, cs, s, next)
    ensures if s.base != 0.0 then |s.bars| % 2 == 1 else |s.bars| % 2 == 0
  {
  }

  lemma BarKeepsCooldown(r: Request, cs: seq<Candle>, side: Side, s: State, i: int)
    requires Ready(r, cs) && 0 <= RequiredCandles(r) - 1 <= i < |cs| && Sound(r, s) && Timed(r, cs, s, i)
    ensures Bar(r, cs, side, s, i).Ok?
    ensures CooldownKept(r, Bar(r, cs, side, s, i).value) <==> CooldownKept(r, s) && !Reverses(r, cs, side, s, i)
  {
    BarFills(r, cs, side, s, i);
    OpenIsOdd(r, cs, s, i);
    if s.bars != [] {
      LastFill(r, cs, s, i);
    }
    assert r.cooldownBars >= 1;
    var t := Bar(r, cs, side, s, i).value;
    assert Reverses(r, cs, side, s, i) ==> s.base != 0.0;
    if FillOf(r, cs, i).Some? {
      FillInBar(r, cs, i);
    }
    hide Bar, Reverses, Ready, Sound, Timed, FillOf, InBar, CooldownKept;
    if Reverses(r, cs, side, s, i) {
      ReversalBreaksCooldown(r, s, t, FillOf(r, cs, i).value.bar);
    } else if t.bars == s.bars {
      SameBars(r, s, t);
    } else if s.base != 0.0 {
      ExitKeepsCooldown(r, s, t);
    } else {
      assert t.bars[..|s.bars|] == s.bars;
      EntryKeepsCooldown(r, s, t);
    }
  }

  lemma SameBars(r: Request, s: State, t: State)
    requires s.bars == t.bars
    ensures CooldownKept(r, t) <==> CooldownKept(r, s)
  {
    assert forall j :: 0 <= j && 2 * j + 2 < |s.bars| ==> (Waits(r, t, j) <==> Waits(r, s, j));
  }

  lemma LastFill(r: Request, cs: seq<Candle>, s: State, next: int)
    requires Timed(r, cs, s, next) && 1 <= RequiredCandles(r) && s.bars != []
    ensures s.lastTrade == s.bars[|s.bars| - 1] >= 0
  {
    assert InBar(r, cs, next, s.bars[|s.bars| - 1], s.trades[|s.bars| - 1].executedAt);
  }

  /** A run keeps the documented cooldown, on every exit and the entry after it, if and only if none of its bars
      reverses. */
  lemma {:induction false} RunKeepsCooldown(r: Request, source: SignalSource, cs: seq<Candle>, upto: int)
    requires Ready(r, cs) && 1 <= RequiredCandles(r) && RequiredCandles(r) - 1 <= upto <= |cs|
    requires RunBars(r, source, cs, upto).Ok?
    ensures CooldownKept(r, RunBars(r, source, cs, upto).value) <==> !SomeReversal(r, source, cs, upto)
    decreases upto
  {
    hide Ready, Sound, Timed, CooldownKept, Bar, Reverses, SideAt;
    if upto == RequiredCandles(r) - 1 {
      InitiallyKept(r);
    } else {
      var i := upto - 1;
      RunKeepsCooldown(r, source, cs, i);
      RunSound(r, source, cs, i);
      RunTimed(r, source, cs, i);
      var (s, side) := (RunBars(r, source, cs, i).value, SideAt(source, cs, i).value);
      BarKeepsCooldown(r, cs, side, s, i);
      assert ReversesAt(r, source, cs, i) <==> Reverses(r, cs, side, s, i);
      hide RunBars, ReversesAt;
      assert SomeReversal(r, source, cs, upto) <==> SomeReversal(r, source, cs, i) || ReversesAt(r, source, cs, i);
    }
  }

  lemma InitiallyKept(r: Request)
    ensures CooldownKept(r, Initial(r))
  {
  }

  lemma LiquidateKeepsCooldown(r: Request, cs: seq<Candle>, s: State, t: State)
    requires cs != [] && Liquidate(r, cs, s) == Ok(t) && (s.base != 0.0 ==> s.trades != [] && |s.bars| % 2 == 1)
    ensures CooldownKept(r, t) <==> CooldownKept(r, s)
  {
    hide CooldownKept, ParsePositive, ClosePosition, QuoteAfterClose;
    if s.base != 0.0 {
      var last := cs[|cs| - 1];
      CloseBars(r, s, |cs| - 1, ParsePositive(last.close).value, last.closeTime, EndOfBacktest);
      ExitKeepsCooldown(r, s, t);
    }
  }

  /** The forced close at the end is an exit and changes nothing about that. */
  lemma FinalKeepsCooldown(r: Request, source: SignalSource, cs: seq<Candle>)
    requires Ready(r, cs) && 1 <= RequiredCandles(r) && FinalState(r, source, cs).Ok?
    ensures CooldownKept(r, FinalState(r, source, cs).value) <==> !SomeReversal(r, source, cs, |cs|)
  {
    hide RunBars, Valid, ValidSeries, Sound, Timed, CooldownKept, SomeReversal, Liquidate;
    RunKeepsCooldown(r, source, cs, |cs|);
    RunSound(r, source, cs, |cs|);
    RunTimed(r, source, cs, |cs|);
    var s := RunBars(r, source, cs, |cs|).value;
    OpenIsOdd(r, cs, s, |cs|);
    TradesWhileOpen(r, s);
    LiquidateKeepsCooldown(r, cs, s, FinalState(r, source, cs).value);
  }

  /** With shorting off no bar reverses, so every long-only run keeps the documented cooldown. */
  lemma LongOnlyNeverReverses(r: Request, cs: seq<Candle>, side: Side, s: State, i: int)
    requires 0 <= i < |cs| && Pairing(r, s) && !r.shorting
    ensures !Reverses(r, cs, side, s, i)
  {
    hide AtrFires, CanExit, CanEnter, FillOf, PassesEntryFilters, EntryQuoteAmount, EntryQuantity, EntryPrice, QuoteAfterClose;
    assert s.base >= 0.0;
  }

  // A run in which it happens --------------------------------------------------------------------------------------

  /** A minute that opens, stays and closes at one price. */
  function Minute(k: nat, price: real): Candle {
    Candle("binance", "BTCUSDT", Every(1, 'm'), (k + 1) * MINUTE, (k + 2) * MINUTE, (k + 2) * MINUTE,
           Number(price), Number(price), Number(price), Number(price), Number(1.0), Missing, 1, true)
  }

  const MINUTES: seq<Candle> :=
    [Minute(0, 10.0), Minute(1, 8.0), Minute(2, 12.0), Minute(3, 14.0), Minute(4, 7.0)]

  /** Averages of one and two closes, a cooldown of two bars, shorting on, no filters and no costs. */
  const SHORTING: Request :=
    Request(SmaCross, "BTCUSDT", Every(1, 'm'), MINUTE, 6 * MINUTE, 1, 2, 14, 30.0, 70.0,
            12.0, 0.0, 0.0, AllIn, 100.0, false, 0, 2, 1, false, 0, 0.0, 0.0, false, 0, 0.0, 0.0,
            SameClose, true, None)

  lemma AverageOfOne(cs: seq<Candle>, p: real)
    requires |cs| == 1 && cs[0].close == Number(p)
    ensures AverageClose(cs) == Ok(p)
  {
    assert Closes(cs) == [] + [p];
    SumAppend([], p);
  }

  lemma AverageOfTwo(cs: seq<Candle>, p: real, q: real)
    requires |cs| == 2 && cs[0].close == Number(p) && cs[1].close == Number(q)
    ensures AverageClose(cs) == Ok((p + q) / 2.0)
  {
    assert Closes(cs) == [p] + [q] && [p] == [] + [p];
    SumAppend([p], q);
    SumAppend([], p);
  }

  lemma SideOfThree(cs: seq<Candle>, p: real, q: real, v: real)
    requires |cs| >= 3 && cs[|cs| - 3].close == Number(p) && cs[|cs| - 2].close == Number(q) && cs[|cs| - 1].close == Number(v)
    ensures SmaCrossover(1, 2, cs) == Ok(CrossSide(q, (p + q) / 2.0, v, (q + v) / 2.0))
  {
    hide AverageClose, CrossSide;
    AverageOfOne(cs[|cs| - 2..|cs| - 1], q);
    AverageOfTwo(cs[|cs| - 3..|cs| - 1], p, q);
    AverageOfOne(cs[|cs| - 1..], v);
    AverageOfTwo(cs[|cs| - 2..], q, v);
  }

  /** Buy at 12, hold at 14, sell at 7. */
  lemma SidesOfMinutes()
    ensures SideAt(Windows(SHORTING), MINUTES, 2) == Ok(Buy)
    ensures SideAt(Windows(SHORTING), MINUTES, 3) == Ok(Hold)
    ensures SideAt(Windows(SHORTING), MINUTES, 4) == Ok(Sell)
  {
    hide SmaCrossover;
    SideOfThree(MINUTES[..3], 10.0, 8.0, 12.0);
    SideOfThree(MINUTES[..4], 8.0, 12.0, 14.0);
    SideOfThree(MINUTES[..5], 12.0, 14.0, 7.0);
  }

  lemma MinutesReady()
    ensures Ready(SHORTING, MINUTES) && RequiredCandles(SHORTING) == 3 && Normalize(SHORTING) == SHORTING
  {
    assert forall i :: 0 <= i < 5 ==> ValidOHLC(MINUTES[i]) && MINUTES[i].openTime == (i + 1) * MINUTE;
  }

  /** Holding one unit bought on bar 2. */
  predicate HoldsOne(s: State) {
    s.base == 1.0 && s.quote == 0.0 && s.bars == [2] && s.entryIndex == 2 && s.lastTrade == 2
  }

  lemma FirstBar()
    ensures var s := Bar(SHORTING, MINUTES, Buy, Initial(SHORTING), 2); s.Ok? && HoldsOne(s.value)
  {
    hide Drawdown, SlippageOn;
    var s := Initial(SHORTING);
    assert FillOf(SHORTING, MINUTES, 2) == Some(Fill(2, 12.0, MINUTES[2].closeTime));
    assert EntryPrice(SHORTING, 12.0, false) == 12.0 && EntryQuantity(SHORTING, 12.0, 12.0) == 1.0;
    assert HoldsOne(Enter(SHORTING, MINUTES, s, 2, 12.0, false));
    hide Enter;
    assert EntryStep(SHORTING, MINUTES, Buy, s, -1, false, 2, 12.0) == Enter(SHORTING, MINUTES, s, 2, 12.0, false);
    hide EntryStep;
    assert AtrStep(SHORTING, MINUTES, s, 2) == Ok((s, false)) && SignalExit(SHORTING, MINUTES, Buy, s, 2) == Ok(s);
  }

  lemma SecondBar(s: State)
    requires HoldsOne(s)
    ensures var t := Bar(SHORTING, MINUTES, Hold, s, 3); t.Ok? && HoldsOne(t.value)
  {
    hide Drawdown;
    assert AtrStep(SHORTING, MINUTES, s, 3) == Ok((s, false)) && SignalExit(SHORTING, MINUTES, Hold, s, 3) == Ok(s);
    assert EntryStep(SHORTING, MINUTES, Hold, s, 2, false, 3, 14.0) == s;
  }

  lemma ThirdBarReverses(s: State)
    requires HoldsOne(s)
    ensures Reverses(SHORTING, MINUTES, Sell, s, 4) && FillOf(SHORTING, MINUTES, 4) == Some(Fill(4, 7.0, MINUTES[4].closeTime))
  {
    assert FillOf(SHORTING, MINUTES, 4) == Some(Fill(4, 7.0, MINUTES[4].closeTime));
    assert QuoteAfterClose(SHORTING, s, 7.0) == 7.0;
    assert EntryPrice(SHORTING, 7.0, true) == 7.0 && EntryQuantity(SHORTING, 7.0, 7.0) == 1.0;
  }

  /** A whole run that enters on bar 2 and, with a cooldown of two, exits and enters on bar 4. */
  lemma ReversalHappens()
    ensures Ready(SHORTING, MINUTES) && Normalize(SHORTING) == SHORTING && SHORTING.cooldownBars == 2
    ensures RequiredCandles(SHORTING) == 3
    ensures var s := RunBars(SHORTING, Windows(SHORTING), MINUTES, |MINUTES|);
      s.Ok? && s.value.bars == [2, 4, 4] && !CooldownKept(SHORTING, s.value)
  {
    MinutesReady();
    SidesOfMinutes();
    FirstBar();
    var source := Windows(SHORTING);
    hide Bar, Ready, SideAt, Initial, Reverses, HoldsOne, CooldownKept;
    var s := RunBars(SHORTING, source, MINUTES, 3).value;
    SecondBar(s);
    var t := RunBars(SHORTING, source, MINUTES, 4).value;
    ThirdBarReverses(t);
    RunSound(SHORTING, source, MINUTES, 4);
    BarFills(SHORTING, MINUTES, Sell, t, 4);
    BrokenAt(RunBars(SHORTING, source, MINUTES, 5).value, t);
  }

  lemma BrokenAt(s: State, t: State)
    requires HoldsOne(t) && s.bars == t.bars + [4, 4]
    ensures s.bars == [2, 4, 4] && !CooldownKept(SHORTING, s)
  {
    assert !Waits(SHORTING, s, 0);
  }
}
