/** The backtest engine itself (internal/backtest/engine.go:24-497): the loop's variables as fields,
    updated step by step, each method proved to make exactly the move its model function describes. */
module BacktestEngine {
  import opened Common
  import opened MarketData
  import opened CandleSeries
  import opened Signals
  import opened Resolution
  import opened PineEvaluator
  import opened BacktestRequest
  import opened BacktestModel
  import opened BacktestAccounting
  import opened BacktestDrawdown
  import opened BacktestTiming
  import opened BacktestCausality
  import opened BacktestReport
  import opened BacktestOutcome

  class Session {
    const request: Request
    /** The variables that the loop and its closePosition closure share. */
    var state: State

    constructor (r: Request)
      ensures request == r && state == Initial(r)
    {
      request := r;
      state := Initial(r);
    }

    method ClosePosition(signalIndex: int, price: real, executedAt: Time, reason: ExitReason) returns (failure: Option<RunError>)
      modifies this
      ensures match BacktestModel.ClosePosition(request, old(state), signalIndex, price, executedAt, reason)
              case Ok(s) => failure == None && state == s
              case Err(e) => failure == Some(e)
    {
      hide Settlement, SlippageOn, Recorded;
      var quantity := Abs(state.base);
      if state.base == 0.0 {
        return Some(NoOpenPosition);
      }
      var s, fillPrice, quoteAmount, fee, tradePnL := SettleBalance(state, price);
      var side := if state.base > 0.0 then Sell else Buy;
      s := s.(base := 0.0, entryIndex := -1, lastTrade := signalIndex, stopLoss := 0.0, takeProfit := 0.0);
      s := s.(completed := s.completed + 1);
      s := TallyTrade(s, s.completed == 1, tradePnL);
      if |s.trades| == 0 {
        return Some(NoEntryTrade);
      }
      var trade := Trade(side, quantity, fillPrice, quoteAmount, fee, s.quote, executedAt);
      s := s.(trades := s.trades + [trade], bars := s.bars + [signalIndex]);
      s := RecordRoundTrip(s, trade, price, tradePnL, reason);
      state := s.(entryReference := 0.0);
      return None;
    }

    /** The round trip that a trade completes, and its gross move from the entry's reference price. */
    method RecordRoundTrip(before: State, trade: Trade, price: real, tradePnL: real, reason: ExitReason) returns (s: State)
      ensures s == Recorded(before, trade, price, tradePnL, reason)
    {
      hide Ratio, WholeSeconds, MoveOn;
      s := before;
      if s.open.Some? {
        var entry := s.open.value;
        var gross := MoveOn(entry.side, entry.price, trade.price, entry.quantity);
        if s.entryReference > 0.0 {
          s := s.(gross := s.gross + MoveOn(entry.side, s.entryReference, price, entry.quantity));
        }
        s := s.(roundTrips := s.roundTrips + [RoundTrip(
          entry.executedAt, trade.executedAt, entry.price, trade.price, entry.quantity, gross, entry.fee + trade.fee, tradePnL,
          Ratio(tradePnL, s.entryQuote) * 100.0, WholeSeconds(trade.executedAt - entry.executedAt), entry.side, reason)]);
        s := s.(open := None);
      }
    }

    /** Sell what is held, or buy back what is owed, and pay the fee. */
    method SettleBalance(before: State, price: real)
      returns (s: State, fillPrice: real, quoteAmount: real, fee: real, tradePnL: real)
      requires before.base != 0.0
      ensures (fillPrice, quoteAmount, fee, tradePnL) == Settlement(request, before, price)
      ensures s == before.(
        fees := before.fees + fee, slippage := before.slippage + SlippageOn(price, fillPrice, Abs(before.base)),
        quote := if before.base > 0.0 then before.quote + (quoteAmount - fee) else before.quote - (quoteAmount + fee),
        buys := if before.base > 0.0 then before.buys else before.buys + 1,
        sells := if before.base > 0.0 then before.sells + 1 else before.sells)
    {
      hide SellFill, BuyFill, Amount, Fee, SlippageOn;
      s := before;
      var quantity := Abs(s.base);
      if s.base > 0.0 {
        fillPrice := SellFill(price, request.slippageRate);
        quoteAmount := Amount(s.base, fillPrice);
        fee := Fee(quoteAmount, request.feeRate);
        s := s.(fees := s.fees + fee);
        s := s.(slippage := s.slippage + SlippageOn(price, fillPrice, quantity));
        var netQuoteAmount := quoteAmount - fee;
        s := s.(quote := s.quote + netQuoteAmount);
        tradePnL := netQuoteAmount - s.entryQuote;
        s := s.(sells := s.sells + 1);
      } else {
        fillPrice := BuyFill(price, request.slippageRate);
        var costToBuy := Amount(quantity, fillPrice);
        fee := Fee(costToBuy, request.feeRate);
        s := s.(fees := s.fees + fee);
        s := s.(slippage := s.slippage + SlippageOn(price, fillPrice, quantity));
        s := s.(quote := s.quote - (costToBuy + fee));
        tradePnL := s.entryQuote - (costToBuy + fee);
        s := s.(buys := s.buys + 1);
        quoteAmount := costToBuy;
      }
    }

    /** Best, worst, win and loss totals after one more completed trade. */
    method TallyTrade(before: State, first: bool, tradePnL: real) returns (s: State)
      ensures s == before.(
        best := if first || tradePnL > before.best then tradePnL else before.best,
        worst := if first || tradePnL < before.worst then tradePnL else before.worst,
        wins := if tradePnL > 0.0 then before.wins + 1 else before.wins,
        winTotal := if tradePnL > 0.0 then before.winTotal + tradePnL else before.winTotal,
        losses := if tradePnL < 0.0 then before.losses + 1 else before.losses,
        lossTotal := if tradePnL < 0.0 then before.lossTotal + tradePnL else before.lossTotal)
    {
      s := before;
      if first || tradePnL > s.best {
        s := s.(best := tradePnL);
      }
      if first || tradePnL < s.worst {
        s := s.(worst := tradePnL);
      }
      if tradePnL > 0.0 {
        s := s.(wins := s.wins + 1, winTotal := s.winTotal + tradePnL);
      } else if tradePnL < 0.0 {
        s := s.(losses := s.losses + 1, lossTotal := s.lossTotal + tradePnL);
      }
    }

    /** The long and the short entry branch of the loop. */
    method Enter(cs: seq<Candle>, index: int, price: real, short: bool)
      requires 0 <= index < |cs|
      modifies this
      ensures state == BacktestModel.Enter(request, cs, old(state), index, price, short)
    {
      hide EntryPrice, EntryQuantity, EntryQuoteAmount, FillOf;
      var fill := FillOf(request, cs, index);
      if fill.Some? {
        var quoteAmount := EntryQuoteAmount(request, state.quote, state.base, price);
        if quoteAmount > 0.0 {
          var fillPrice := EntryPrice(request, fill.value.price, short);
          var quantity := EntryQuantity(request, quoteAmount, fillPrice);
          if quantity > 0.0 {
            var stops := AtrExitPrices(request, cs[..index + 1], fillPrice, short);
            TakePosition(fill.value, quoteAmount, quantity, fillPrice, price, short, stops);
          }
        }
      }
    }

    method TakePosition(fill: Fill, quoteAmount: real, quantity: real, fillPrice: real, price: real, short: bool,
                        stops: Result<Stops, DataError>)
      requires fillPrice == EntryPrice(request, fill.price, short)
      modifies this
      ensures state == OpenPosition(request, old(state), fill, quoteAmount, quantity, price, short, stops)
    {
      hide EntryPrice, Fee, SlippageOn, Equity;
      var s := state;
      var fee := Fee(quoteAmount, request.feeRate);
      s := s.(fees := s.fees + fee);
      s := s.(slippage := s.slippage + SlippageOn(fill.price, fillPrice, quantity));
      if short {
        s := s.(base := -quantity, quote := s.quote + (quoteAmount - fee), entryQuote := quoteAmount - fee);
      } else {
        s := s.(base := quantity, quote := s.quote - quoteAmount, entryQuote := quoteAmount);
      }
      s := s.(entryReference := fill.price, entryIndex := fill.bar, lastTrade := fill.bar);
      if stops.Err? {
        s := s.(stopLoss := 0.0, takeProfit := 0.0);
      } else {
        s := s.(stopLoss := stops.value.stopLoss, takeProfit := stops.value.takeProfit);
        if short {
          s := s.(sells := s.sells + 1);
        } else {
          s := s.(buys := s.buys + 1);
        }
        var trade := Trade(if short then Sell else Buy, quantity, fillPrice, quoteAmount, fee, Equity(s.quote, s.base, price), fill.at);
        s := s.(trades := s.trades + [trade], open := Some(trade), bars := s.bars + [fill.bar]);
      }
      state := s;
    }

    /** The equity and drawdown bookkeeping at the end of a bar. */
    method MarkEquity(at: Time, currentEquity: real)
      modifies this
      ensures state == Mark(old(state), at, currentEquity)
    {
      hide Drawdown;
      if currentEquity > state.peak {
        state := state.(peak := currentEquity);
      }
      if state.peak > 0.0 {
        var drawdown := Drawdown(state.peak, currentEquity);
        state := state.(maxDrawdown := Max(state.maxDrawdown, drawdown));
        state := state.(curve := state.curve + [EquityPoint(at, currentEquity, drawdown)]);
      }
    }

    /** One iteration of the loop, once its signal is known. */
    method ProcessBar(cs: seq<Candle>, index: int, side: Side) returns (failure: Option<RunError>)
      requires 0 <= index < |cs|
      modifies this
      ensures match Bar(request, cs, side, old(state), index)
              case Ok(s) => failure == None && state == s
              case Err(e) => failure == Some(e)
    {
      hide BacktestModel.ClosePosition, BacktestModel.Enter, Mark, FillOf, AtrExit, PassesEntryFilters;
      var close := ParsePositive(cs[index].close);
      if close.Err? {
        return Some(BadPrice);
      }
      var price := close.value;
      var tempLastTradeIndex := state.lastTrade;
      var atrExitedThisCandle := false;
      if state.base != 0.0 && index != state.entryIndex && CanExit(index, state.entryIndex, request.minHoldingBars) {
        var hit := AtrExit(request, cs[index], state.stopLoss, state.takeProfit, state.base < 0.0);
        if hit.Err? {
          return Some(BadPrice);
        }
        if hit.value.Some? {
          failure := ClosePosition(index, hit.value.value.price, cs[index].closeTime, hit.value.value.reason);
          if failure.Some? {
            return;
          }
          atrExitedThisCandle := true;
        }
      }
      ghost var afterAtr := state;
      assert AtrStep(request, cs, old(state), index) == Ok((afterAtr, atrExitedThisCandle));
      if state.base > 0.0 && side == Sell && CanExit(index, state.entryIndex, request.minHoldingBars) {
        var fill := FillOf(request, cs, index);
        if fill.Some? {
          failure := ClosePosition(fill.value.bar, fill.value.price, fill.value.at, SellSignal);
          if failure.Some? {
            return;
          }
        }
      } else if state.base < 0.0 && side == Buy && CanExit(index, state.entryIndex, request.minHoldingBars) {
        var fill := FillOf(request, cs, index);
        if fill.Some? {
          failure := ClosePosition(fill.value.bar, fill.value.price, fill.value.at, BuySignal);
          if failure.Some? {
            return;
          }
        }
      }
      ghost var afterExit := state;
      assert SignalExit(request, cs, side, afterAtr, index) == Ok(afterExit);
      if state.base == 0.0 && !atrExitedThisCandle && CanEnter(index, tempLastTradeIndex, request.cooldownBars) {
        if side == Buy && state.quote > 0.0 && PassesEntryFilters(request, cs[..index + 1], price, false) {
          Enter(cs, index, price, false);
        } else if side == Sell && state.quote > 0.0 && request.shorting && PassesEntryFilters(request, cs[..index + 1], price, true) {
          Enter(cs, index, price, true);
        }
      }
      assert state == EntryStep(request, cs, side, afterExit, tempLastTradeIndex, atrExitedThisCandle, index, price);
      MarkEquity(cs[index].closeTime, Equity(state.quote, state.base, price));
      return None;
    }

    /** Close on the last candle whatever is still open. */
    method LiquidateAtEnd(cs: seq<Candle>) returns (failure: Option<RunError>)
      requires cs != []
      modifies this
      ensures match Liquidate(request, cs, old(state))
              case Ok(s) => failure == None && state == s
              case Err(e) => failure == Some(e)
    {
      hide BacktestModel.ClosePosition, Mark;
      if state.base != 0.0 {
        var finalIndex := |cs| - 1;
        var finalPrice := ParsePositive(cs[finalIndex].close);
        if finalPrice.Err? {
          return Some(BadPrice);
        }
        failure := ClosePosition(finalIndex, finalPrice.value, cs[finalIndex].closeTime, EndOfBacktest);
        if failure.Some? {
          return;
        }
        MarkEquity(cs[finalIndex].closeTime, state.quote);
      }
      return None;
    }
  }

  /** What a successful run promises its caller, all at once. */
  ghost predicate Delivers(host: Host, r: Request, cs: seq<Candle>, report: Report) {
    exists source: SignalSource, s: State ::
      && SignalsOf(host, r, cs, source) && 1 <= RequiredCandles(r) <= |cs|
      && FinalState(r, source, cs) == Ok(s)
      && Ready(r, cs) && report == Summarize(r, cs, s)
      && BacktestReport.Finished(r, s) && Timed(r, cs, s, |cs|) && Tracked(r, s) && (LongOnly(r) ==> Solvent(r, s))
  }

  /** The loop over the candles and the final liquidation. */
  method Simulate(r: Request, source: SignalSource, cs: seq<Candle>) returns (result: Result<State, RunError>)
    requires 1 <= RequiredCandles(r) <= |cs|
    ensures result == FinalState(r, source, cs)
  {
    hide Bar, SideAt, Liquidate;
    var session := new Session(r);
    var index := RequiredCandles(r) - 1;
    while index < |cs|
      invariant RequiredCandles(r) - 1 <= index <= |cs|
      invariant session.request == r && fresh(session)
      invariant RunBars(r, source, cs, index) == Ok(session.state)
    {
      var side := SideAt(source, cs, index);
      if side.Err? {
        FailureIsFinal(r, source, cs, index + 1, |cs|);
        return Err(side.error);
      }
      var failure := session.ProcessBar(cs, index, side.value);
      if failure.Some? {
        FailureIsFinal(r, source, cs, index + 1, |cs|);
        return Err(failure.value);
      }
      index := index + 1;
    }
    var failure := session.LiquidateAtEnd(cs);
    if failure.Some? {
      return Err(failure.value);
    }
    return Ok(session.state);
  }

  /** Each way a request can be refused, and how every other request ends: a custom program overflows the stack while
      its candles are counted, a native strategy completes exactly when it can be evaluated, and a template that does not
      complete has one of its own reasons. */
  method Run(host: Host, raw: Request, cs: seq<Candle>) returns (result: Result<Report, RunError>)
    ensures var r := Normalize(raw);
      && (result == Err(InvalidRequest) <==> !Valid(r))
      && (result == Err(StackOverflow) <==> Valid(r) && r.strategy == PineCustom)
      && (result == Err(NotEnoughCandles) <==> Valid(r) && r.strategy != PineCustom && |cs| < RequiredCandles(r))
      && (result == Err(InvalidSeries) <==>
            Valid(r) && r.strategy != PineCustom && |cs| >= RequiredCandles(r) && !ValidSeries(r.symbol, r.interval, cs))
      && (Ready(r, cs) && r.strategy != Template ==>
            if Evaluable(r) then result.Ok? else result == Err(StrategyFailed(TooFewCandles)))
      && (Ready(r, cs) && r.strategy == Template && result.Err? ==>
            result.error.StrategyFailed? && PineFails(host, r, cs, result.error.cause))
      && (Ready(r, cs) && r.strategy == Template && OrderIrrelevant(r) ==>
            (result.Ok? <==> exists source :: SignalsOf(host, r, cs, source)))
      && (result.Ok? ==> Delivers(host, r, cs, result.value))
  {
    hide FinalState, Summarize, ValidSeries, Sound, Timed, Tracked, Solvent, IsSeries, SignalsOf, PineFails, OrderIrrelevant,
      Evaluable, Valid;
    var r := Normalize(raw);
    if !Valid(r) {
      return Err(InvalidRequest);
    }
    if r.strategy == PineCustom {
      return Err(StackOverflow);
    }
    RequiredSuffices(r);
    if |cs| < RequiredCandles(r) {
      return Err(NotEnoughCandles);
    }
    var diagnostics := ValidateCandleSeries(r.symbol, r.interval, cs);
    if !diagnostics.valid {
      return Err(InvalidSeries);
    }
    var source := Windows(r);
    if r.strategy == Template {
      ProgramGiven(r);
      var signals := EvaluateSeries(host, r.program.value.config, cs);
      if signals.Err? {
        PineRefused(host, r, cs, signals.error);
        return Err(StrategyFailed(signals.error));
      }
      source := Series(signals.value);
      SeriesFinishes(host, r, cs, signals.value);
    } else {
      NativeFinishes(r, cs);
    }
    Sourced(host, r, cs, source);
    var final := Simulate(r, source, cs);
    RunFinishes(r, source, cs);
    if final.Err? {
      return Err(final.error);
    }
    return Ok(Summarize(r, cs, final.value));
  }
}
