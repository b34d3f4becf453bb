/** One bar of a backtest, as functions on the values the engine carries (internal/backtest/engine.go). */
module BacktestModel {
  import opened Common
  import opened MarketData
  import opened Atr
  import opened Signals
  import opened Native
  import opened Indicators
  import opened BacktestRequest

  datatype ExitReason = StopLoss | TakeProfit | SellSignal | BuySignal | EndOfBacktest

  datatype Trade = Trade(
    side: Side, quantity: real, price: real, quoteAmount: real, fee: real, equity: real, executedAt: Time)

  datatype RoundTrip = RoundTrip(
    entryTime: Time, exitTime: Time, entryPrice: real, exitPrice: real, quantity: real,
    gross: real, fees: real, net: real, profitPercent: real, holdingSeconds: int,
    entrySide: Side, exitReason: ExitReason)

  datatype EquityPoint = EquityPoint(time: Time, equity: real, drawdown: real)

  datatype RunError =
    | InvalidRequest
    | StackOverflow
    | NotEnoughCandles
    | InvalidSeries
    | StrategyFailed(cause: StrategyError)
    | BadPrice
    | NoOpenPosition
    | NoEntryTrade

  /** The variables of Run's loop. `bars` is an addition: the bar each trade fills on. No branch reads it. */
  datatype State = State(
    quote: real, base: real, entryQuote: real, entryReference: real,
    peak: real, maxDrawdown: real, gross: real, fees: real, slippage: real,
    wins: int, losses: int, buys: int, sells: int, completed: int,
    best: real, worst: real, winTotal: real, lossTotal: real,
    roundTrips: seq<RoundTrip>, curve: seq<EquityPoint>, trades: seq<Trade>, open: Option<Trade>,
    entryIndex: int, lastTrade: int, stopLoss: real, takeProfit: real,
    bars: seq<int>)

  function Initial(r: Request): State {
    State(r.startingBalance, 0.0, 0.0, 0.0, r.startingBalance, 0.0, 0.0, 0.0, 0.0,
          0, 0, 0, 0, 0, 0.0, 0.0, 0.0, 0.0, [], [], [], None, -1, -1, 0.0, 0.0, [])
  }

  // Prices -----------------------------------------------------------------------------------------

  function BuyFill(price: real, slippageRate: real): real {
    price * (1.0 + slippageRate)
  }

  function SellFill(price: real, slippageRate: real): real {
    price * (1.0 - slippageRate)
  }

  /** A quotient that is zero where the divisor is; see the README on IEEE infinities. */
  function Ratio(a: real, b: real): real {
    if b == 0.0 then 0.0 else a / b
  }

  function Amount(quantity: real, price: real): real {
    quantity * price
  }

  function Fee(amount: real, rate: real): real {
    amount * rate
  }

  /** What trading away from the reference price costs. */
  function SlippageOn(price: real, fill: real, quantity: real): real {
    Abs(price - fill) * quantity
  }

  /** Profit of a price move for a position opened by the given side. */
  function MoveOn(side: Side, from: real, to: real, quantity: real): real {
    (if side == Buy then 1.0 else -1.0) * (to - from) * quantity
  }

  function Equity(quote: real, base: real, price: real): real {
    quote + base * price
  }

  function FillIndex(r: Request, signalIndex: int, count: int): Option<int> {
    if r.fillMode != NextOpen then Some(signalIndex)
    else if signalIndex + 1 < count then Some(signalIndex + 1)
    else None
  }

  /** Where, at what price before slippage, and when an order fills. */
  datatype Fill = Fill(bar: int, price: real, at: Time)

  function StrategyFill(r: Request, c: Candle, bar: int): Result<Fill, DataError> {
    if r.fillMode == NextOpen then
      var price :- ParsePositive(c.open);
      Ok(Fill(bar, price, c.openTime))
    else
      var price :- ParsePositive(c.close);
      Ok(Fill(bar, price, c.closeTime))
  }

  /** The fill of a signal on bar i, if there is one: orders that cannot be priced are dropped. */
  function FillOf(r: Request, cs: seq<Candle>, i: int): Option<Fill>
    requires 0 <= i < |cs|
  {
    match FillIndex(r, i, |cs|)
    case None => None
    case Some(bar) =>
      match StrategyFill(r, cs[bar], bar)
      case Err(_) => None
      case Ok(fill) => Some(fill)
  }

  function EntryQuoteAmount(r: Request, quote: real, base: real, price: real): real {
    match r.sizing
    case FixedQuote => Min(r.sizeValue, quote)
    case PercentEquity => Min(Equity(quote, base, price) * r.sizeValue / 100.0, quote)
    case _ => quote
  }

  predicate CanEnter(current: int, lastTrade: int, cooldown: int) {
    cooldown <= 0 || lastTrade < 0 || current - lastTrade >= cooldown
  }

  predicate CanExit(current: int, entry: int, minHolding: int) {
    minHolding <= 0 || entry < 0 || current - entry >= minHolding
  }

  // Entry filters ------------------------------------------------------------------------------------

  predicate PassesTrendFilter(r: Request, window: seq<Candle>, price: real, short: bool) {
    !r.trendFilter || r.strategy != SmaCross ||
    (0 < r.trendPeriod <= |window| &&
     var tail := window[|window| - r.trendPeriod..];
     (forall i :: 0 <= i < |tail| ==> CloseOf(tail[i]).Ok?) &&
     var average := Mean(Closes(tail));
     if short then price < average else price > average)
  }

  predicate PassesRegimeFilter(r: Request, window: seq<Candle>, price: real) {
    !r.regimeFilter ||
    (0 < r.regimePeriod < |window| && price > 0.0 &&
     match AverageTrueRange(window, r.regimePeriod)
     case Err(_) => false
     case Ok(atr) =>
       var percent := atr / price * 100.0;
       (r.regimeMin > 0.0 ==> percent >= r.regimeMin) && (r.regimeMax > 0.0 ==> percent <= r.regimeMax))
  }

  predicate PassesEntryFilters(r: Request, window: seq<Candle>, price: real, short: bool) {
    PassesTrendFilter(r, window, price, short) && PassesRegimeFilter(r, window, price)
  }

  // ATR exits ------------------------------------------------------------------------------------------

  datatype Stops = Stops(stopLoss: real, takeProfit: real)

  function AtrExitPrices(r: Request, window: seq<Candle>, entryPrice: real, short: bool): Result<Stops, DataError> {
    if !r.atrExit then Ok(Stops(0.0, 0.0))
    else
      var value :- AverageTrueRange(window, r.atrPeriod);
      var sign := if short then -1.0 else 1.0;
      Ok(Stops(if r.atrStop > 0.0 then entryPrice - sign * (value * r.atrStop) else 0.0,
               if r.atrTakeProfit > 0.0 then entryPrice + sign * (value * r.atrTakeProfit) else 0.0))
  }

  datatype StopHit = StopHit(price: real, reason: ExitReason)

  function AtrExit(r: Request, c: Candle, stop: real, take: real, short: bool): Result<Option<StopHit>, DataError> {
    if !r.atrExit then Ok(None)
    else
      var low :- LowOf(c);
      var high :- HighOf(c);
      Ok(if stop > 0.0 && (if short then high >= stop else low <= stop) then Some(StopHit(stop, StopLoss))
         else if take > 0.0 && (if short then low <= take else high >= take) then Some(StopHit(take, TakeProfit))
         else None)
  }

  // Closing and opening positions --------------------------------------------------------------------------

  /** Go's integer conversion of a nanosecond span to whole seconds. */
  function WholeSeconds(span: int): int {
    if span >= 0 then span / SECOND else -(-span / SECOND)
  }

  /** What a close pays: fill price, gross quote moved, fee, and the trade's profit. */
  function Settlement(r: Request, s: State, price: real): (real, real, real, real) {
    if s.base > 0.0 then
      var fill := SellFill(price, r.slippageRate);
      var amount := Amount(s.base, fill);
      var fee := Fee(amount, r.feeRate);
      (fill, amount, fee, amount - fee - s.entryQuote)
    else
      var fill := BuyFill(price, r.slippageRate);
      var cost := Amount(Abs(s.base), fill);
      var fee := Fee(cost, r.feeRate);
      (fill, cost, fee, s.entryQuote - (cost + fee))
  }

  /** The round trip that a closing trade completes, and its gross move from the entry's reference price. */
  function Recorded(s: State, trade: Trade, price: real, pnl: real, reason: ExitReason): State {
    match s.open
    case None => s
    case Some(o) =>
      s.(gross := if s.entryReference > 0.0 then s.gross + MoveOn(o.side, s.entryReference, price, o.quantity) else s.gross,
         roundTrips := s.roundTrips + [RoundTrip(
           o.executedAt, trade.executedAt, o.price, trade.price, o.quantity, MoveOn(o.side, o.price, trade.price, o.quantity),
           o.fee + trade.fee, pnl, Ratio(pnl, s.entryQuote) * 100.0, WholeSeconds(trade.executedAt - o.executedAt), o.side,
           reason)],
         open := None)
  }

  /** The closePosition closure: settle the whole position and record the round trip. */
  function ClosePosition(r: Request, s: State, bar: int, price: real, at: Time, reason: ExitReason): Result<State, RunError> {
    if s.base == 0.0 then Err(NoOpenPosition)
    else if s.trades == [] then Err(NoEntryTrade)
    else
      var long := s.base > 0.0;
      var quantity := Abs(s.base);
      var (fill, amount, fee, pnl) := Settlement(r, s, price);
      var quote := if long then s.quote + (amount - fee) else s.quote - (amount + fee);
      var trade := Trade(if long then Sell else Buy, quantity, fill, amount, fee, quote, at);
      var t := s.(
        quote := quote, base := 0.0,
        fees := s.fees + fee, slippage := s.slippage + SlippageOn(price, fill, quantity),
        entryIndex := -1, lastTrade := bar, stopLoss := 0.0, takeProfit := 0.0,
        buys := if long then s.buys else s.buys + 1, sells := if long then s.sells + 1 else s.sells,
        completed := s.completed + 1,
        best := if s.completed == 0 || pnl > s.best then pnl else s.best,
        worst := if s.completed == 0 || pnl < s.worst then pnl else s.worst,
        wins := if pnl > 0.0 then s.wins + 1 else s.wins,
        winTotal := if pnl > 0.0 then s.winTotal + pnl else s.winTotal,
        losses := if pnl < 0.0 then s.losses + 1 else s.losses,
        lossTotal := if pnl < 0.0 then s.lossTotal + pnl else s.lossTotal,
        trades := s.trades + [trade], bars := s.bars + [bar]);
      Ok(Recorded(t, trade, price, pnl, reason).(entryReference := 0.0))
  }

  /** Fill price of an entry, slippage included. */
  function EntryPrice(r: Request, reference: real, short: bool): real {
    if short then SellFill(reference, r.slippageRate) else BuyFill(reference, r.slippageRate)
  }

  /** How much an amount buys or sells short once its fee is set aside. */
  function EntryQuantity(r: Request, amount: real, entry: real): real {
    Ratio(amount - Fee(amount, r.feeRate), entry)
  }

  /** Take a position of the given size. When the ATR prices failed it opens with no trade recorded, as in the code. */
  function OpenPosition(r: Request, s: State, f: Fill, amount: real, quantity: real, price: real, short: bool,
                        stops: Result<Stops, DataError>): State
  {
    var entry := EntryPrice(r, f.price, short);
    var fee := Fee(amount, r.feeRate);
    var t := s.(
      fees := s.fees + fee, slippage := s.slippage + SlippageOn(f.price, entry, quantity),
      base := if short then -quantity else quantity,
      quote := if short then s.quote + (amount - fee) else s.quote - amount,
      entryQuote := if short then amount - fee else amount,
      entryReference := f.price, entryIndex := f.bar, lastTrade := f.bar);
    if stops.Err? then t.(stopLoss := 0.0, takeProfit := 0.0)
    else
      var trade := Trade(if short then Sell else Buy, quantity, entry, amount, fee, Equity(t.quote, t.base, price), f.at);
      t.(stopLoss := stops.value.stopLoss, takeProfit := stops.value.takeProfit,
         buys := if short then t.buys else t.buys + 1, sells := if short then t.sells + 1 else t.sells,
         trades := t.trades + [trade], open := Some(trade), bars := t.bars + [f.bar])
  }

  /** Both entry branches: size the position, fill it, and fix its stops. */
  function Enter(r: Request, cs: seq<Candle>, s: State, i: int, price: real, short: bool): State
    requires 0 <= i < |cs|
  {
    match FillOf(r, cs, i)
    case None => s
    case Some(f) =>
      var amount := EntryQuoteAmount(r, s.quote, s.base, price);
      var entry := EntryPrice(r, f.price, short);
      var quantity := EntryQuantity(r, amount, entry);
      if amount <= 0.0 || quantity <= 0.0 then s
      else OpenPosition(r, s, f, amount, quantity, price, short, AtrExitPrices(r, cs[..i + 1], entry, short))
  }

  // One bar ------------------------------------------------------------------------------------------------

  function AtrStep(r: Request, cs: seq<Candle>, s: State, i: int): Result<(State, bool), RunError>
    requires 0 <= i < |cs|
  {
    if s.base != 0.0 && i != s.entryIndex && CanExit(i, s.entryIndex, r.minHoldingBars) then
      match AtrExit(r, cs[i], s.stopLoss, s.takeProfit, s.base < 0.0)
      case Err(_) => Err(BadPrice)
      case Ok(None) => Ok((s, false))
      case Ok(Some(hit)) =>
        var t :- ClosePosition(r, s, i, hit.price, cs[i].closeTime, hit.reason);
        Ok((t, true))
    else Ok((s, false))
  }

  /** A sell signal closes a long position and a buy signal closes a short one. */
  predicate Opposes(side: Side, base: real) {
    (base > 0.0 && side == Sell) || (base < 0.0 && side == Buy)
  }

  function SignalExit(r: Request, cs: seq<Candle>, side: Side, s: State, i: int): Result<State, RunError>
    requires 0 <= i < |cs|
  {
    if Opposes(side, s.base) && CanExit(i, s.entryIndex, r.minHoldingBars) then
      match FillOf(r, cs, i)
      case None => Ok(s)
      case Some(fill) => ClosePosition(r, s, fill.bar, fill.price, fill.at, if s.base > 0.0 then SellSignal else BuySignal)
    else Ok(s)
  }

  /** Entries look at the cooldown as it stood before this bar's exits. */
  function EntryStep(r: Request, cs: seq<Candle>, side: Side, s: State, lastTrade: int, exited: bool, i: int, price: real): State
    requires 0 <= i < |cs|
  {
    if s.base == 0.0 && !exited && CanEnter(i, lastTrade, r.cooldownBars) && s.quote > 0.0 then
      if side == Buy && PassesEntryFilters(r, cs[..i + 1], price, false) then Enter(r, cs, s, i, price, false)
      else if side == Sell && r.shorting && PassesEntryFilters(r, cs[..i + 1], price, true) then Enter(r, cs, s, i, price, true)
      else s
    else s
  }

  /** Percent below the peak. */
  function Drawdown(peak: real, equity: real): real
    requires peak > 0.0
  {
    (peak - equity) / peak * 100.0
  }

  /** Track the running peak and the drawdown below it. */
  function Mark(s: State, at: Time, equity: real): State {
    var peak := if equity > s.peak then equity else s.peak;
    if peak > 0.0 then
      var drawdown := Drawdown(peak, equity);
      s.(peak := peak, maxDrawdown := Max(s.maxDrawdown, drawdown), curve := s.curve + [EquityPoint(at, equity, drawdown)])
    else s.(peak := peak)
  }

  function Bar(r: Request, cs: seq<Candle>, side: Side, s: State, i: int): Result<State, RunError>
    requires 0 <= i < |cs|
  {
    match ParsePositive(cs[i].close)
    case Err(_) => Err(BadPrice)
    case Ok(price) =>
      var (t, exited) :- AtrStep(r, cs, s, i);
      var u :- SignalExit(r, cs, side, t, i);
      var v := EntryStep(r, cs, side, u, s.lastTrade, exited, i, price);
      Ok(Mark(v, cs[i].closeTime, Equity(v.quote, v.base, price)))
  }

  // Whole runs --------------------------------------------------------------------------------------------------

  /** Signals come either as a precomputed series or from a strategy evaluated on each window. */
  datatype SignalSource = Series(signals: seq<Signal>) | Windows(request: Request)

  function SideAt(source: SignalSource, cs: seq<Candle>, i: int): Result<Side, RunError>
    requires 0 <= i < |cs|
  {
    match source
    case Series(signals) => if i < |signals| then Ok(signals[i].side) else Err(StrategyFailed(IndexPanic))
    case Windows(r) =>
      var window := cs[..i + 1];
      var side := if r.strategy == SmaCross then SmaCrossover(r.fastPeriod, r.slowPeriod, window)
                  else RsiReversion(r.rsiPeriod, r.rsiOversold, r.rsiOverbought, window);
      if side.Ok? then Ok(side.value) else Err(StrategyFailed(side.error))
  }

  /** The state once every bar before `upto` has been processed. */
  function RunBars(r: Request, source: SignalSource, cs: seq<Candle>, upto: int): Result<State, RunError>
    requires 1 <= RequiredCandles(r) && RequiredCandles(r) - 1 <= upto <= |cs|
    decreases upto
  {
    if upto == RequiredCandles(r) - 1 then Ok(Initial(r))
    else
      var s :- RunBars(r, source, cs, upto - 1);
      var side :- SideAt(source, cs, upto - 1);
      Bar(r, cs, side, s, upto - 1)
  }

  /** Whatever is still open is closed on the last candle's close. */
  function Liquidate(r: Request, cs: seq<Candle>, s: State): Result<State, RunError>
    requires cs != []
  {
    if s.base == 0.0 then Ok(s)
    else
      var last := cs[|cs| - 1];
      match ParsePositive(last.close)
      case Err(_) => Err(BadPrice)
      case Ok(price) =>
        var t :- ClosePosition(r, s, |cs| - 1, price, last.closeTime, EndOfBacktest);
        Ok(Mark(t, last.closeTime, t.quote))
  }

  function FinalState(r: Request, source: SignalSource, cs: seq<Candle>): Result<State, RunError>
    requires 1 <= RequiredCandles(r) <= |cs|
  {
    var s :- RunBars(r, source, cs, |cs|);
    Liquidate(r, cs, s)
  }
}
