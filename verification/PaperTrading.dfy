/** Risk rules, paper fills, and the trade ledger (internal/risk/evaluator.go, internal/execution/paper_engine.go,
    internal/execution/repository.go), and how the account and the ledger stay in step. */
module PaperTrading {
  import opened Common
  import opened RealArithmetic
  import opened MarketData
  import opened Signals

  // Risk --------------------------------------------------------------------------------------------------------

  datatype RiskConfig = RiskConfig(
    enabled: bool, allowedSymbols: set<string>, allowBuy: bool, allowSell: bool,
    minStrength: real, maxStrength: real, maxQuote: real, maxOrderQuote: real,
    maxOpenPositions: int, maxPositionQuote: real, maxTotalExposure: real,
    maxDailyTrades: int, maxDailyLoss: real, cooldown: int)

  datatype RiskContext = RiskContext(
    quoteAmount: real, price: real, baseBalance: real, quoteBalance: real, dailyTrades: int, dailyLoss: real,
    lastTradeAt: Time, openPositions: int, positionQuote: real, totalExposure: real)

  datatype Verdict =
    | Approved
    | EngineDisabled | SymbolNotAllowed | HoldSignal | BuysDisabled | SellsDisabled | TooWeak | TooStrong
    | QuoteTooLarge | OrderTooLarge | NotEnoughQuote | NotEnoughBase | TooManyPositions | PositionTooLarge
    | ExposureTooLarge | TooManyTrades | LossLimit | CoolingDown

  /** The first rule that matches decides. */
  function EvaluateRisk(cfg: RiskConfig, symbol: string, side: Side, strength: real, ctx: RiskContext, now: Time): Verdict {
    if !cfg.enabled then EngineDisabled
    else if cfg.allowedSymbols != {} && symbol !in cfg.allowedSymbols then SymbolNotAllowed
    else if side == Hold then HoldSignal
    else if side == Buy && !cfg.allowBuy then BuysDisabled
    else if side == Sell && !cfg.allowSell then SellsDisabled
    else if cfg.minStrength > 0.0 && strength < cfg.minStrength then TooWeak
    else if cfg.maxStrength > 0.0 && strength > cfg.maxStrength then TooStrong
    else if cfg.maxQuote > 0.0 && ctx.quoteAmount > cfg.maxQuote then QuoteTooLarge
    else if cfg.maxOrderQuote > 0.0 && ctx.quoteAmount > cfg.maxOrderQuote then OrderTooLarge
    else if side == Buy && ctx.quoteAmount > 0.0 && ctx.quoteBalance < ctx.quoteAmount then NotEnoughQuote
    else if side == Sell && ctx.price > 0.0 && ctx.quoteAmount > 0.0 && ctx.baseBalance < ctx.quoteAmount / ctx.price then NotEnoughBase
    else if cfg.maxOpenPositions > 0 && ctx.openPositions >= cfg.maxOpenPositions then TooManyPositions
    else if cfg.maxPositionQuote > 0.0 && ctx.positionQuote + ctx.quoteAmount > cfg.maxPositionQuote then PositionTooLarge
    else if cfg.maxTotalExposure > 0.0 && ctx.totalExposure + ctx.quoteAmount > cfg.maxTotalExposure then ExposureTooLarge
    else if cfg.maxDailyTrades > 0 && ctx.dailyTrades >= cfg.maxDailyTrades then TooManyTrades
    else if cfg.maxDailyLoss > 0.0 && ctx.dailyLoss >= cfg.maxDailyLoss then LossLimit
    else if cfg.cooldown > 0 && ctx.lastTradeAt != 0 && now - ctx.lastTradeAt < cfg.cooldown then CoolingDown
    else Approved
  }

  /** The order is one the configuration lets through at all. */
  predicate Permitted(cfg: RiskConfig, symbol: string, side: Side, strength: real, quoteAmount: real) {
    && cfg.enabled && (cfg.allowedSymbols == {} || symbol in cfg.allowedSymbols)
    && ((side == Buy && cfg.allowBuy) || (side == Sell && cfg.allowSell))
    && (cfg.minStrength > 0.0 ==> cfg.minStrength <= strength)
    && (cfg.maxStrength > 0.0 ==> strength <= cfg.maxStrength)
    && (cfg.maxQuote > 0.0 ==> quoteAmount <= cfg.maxQuote)
    && (cfg.maxOrderQuote > 0.0 ==> quoteAmount <= cfg.maxOrderQuote)
  }

  /** What the day and the book look like once the order is in. */
  function WithOrder(ctx: RiskContext, side: Side): RiskContext {
    ctx.(dailyTrades := ctx.dailyTrades + 1, openPositions := ctx.openPositions + 1,
         positionQuote := ctx.positionQuote + ctx.quoteAmount, totalExposure := ctx.totalExposure + ctx.quoteAmount,
         quoteBalance := if side == Buy then ctx.quoteBalance - ctx.quoteAmount else ctx.quoteBalance,
         baseBalance := if side == Sell && ctx.price > 0.0 then ctx.baseBalance - ctx.quoteAmount / ctx.price
                        else ctx.baseBalance)
  }

  /** No limit that is switched on is exceeded, and nothing that an order of this side pays with is overdrawn. */
  predicate WithinLimits(cfg: RiskConfig, side: Side, ctx: RiskContext) {
    && (cfg.maxDailyTrades > 0 ==> ctx.dailyTrades <= cfg.maxDailyTrades)
    && (cfg.maxOpenPositions > 0 ==> ctx.openPositions <= cfg.maxOpenPositions)
    && (cfg.maxPositionQuote > 0.0 ==> ctx.positionQuote <= cfg.maxPositionQuote)
    && (cfg.maxTotalExposure > 0.0 ==> ctx.totalExposure <= cfg.maxTotalExposure)
    && (ctx.quoteAmount > 0.0 && side == Buy ==> ctx.quoteBalance >= 0.0)
    && (ctx.quoteAmount > 0.0 && side == Sell && ctx.price > 0.0 ==> ctx.baseBalance >= 0.0)
  }

  /** The day may still be traded on: its loss is below the limit and the last trade is a cooldown ago. */
  predicate MayTrade(cfg: RiskConfig, ctx: RiskContext, now: Time) {
    && (cfg.maxDailyLoss > 0.0 ==> ctx.dailyLoss < cfg.maxDailyLoss)
    && (cfg.cooldown > 0 && ctx.lastTradeAt != 0 ==> now >= ctx.lastTradeAt + cfg.cooldown)
  }

  /** An order is approved if and only if it is permitted, the day may be traded on, and every limit still holds
      with the order in. */
  lemma ApprovedIffWithinLimits(cfg: RiskConfig, symbol: string, side: Side, strength: real, ctx: RiskContext, now: Time)
    ensures EvaluateRisk(cfg, symbol, side, strength, ctx, now) == Approved <==>
      Permitted(cfg, symbol, side, strength, ctx.quoteAmount) && MayTrade(cfg, ctx, now)
      && WithinLimits(cfg, side, WithOrder(ctx, side))
  {
  }

  /** Every refusal names a rule of the configuration that the order breaks. */
  lemma RefusalMeans(cfg: RiskConfig, symbol: string, side: Side, strength: real, ctx: RiskContext, now: Time)
    ensures var (verdict, after) := (EvaluateRisk(cfg, symbol, side, strength, ctx, now), WithOrder(ctx, side));
      match verdict
      case Approved => true
      case EngineDisabled => !cfg.enabled
      case SymbolNotAllowed => cfg.allowedSymbols != {} && symbol !in cfg.allowedSymbols
      case HoldSignal => side == Hold
      case BuysDisabled => side == Buy && !cfg.allowBuy
      case SellsDisabled => side == Sell && !cfg.allowSell
      case TooWeak => 0.0 < cfg.minStrength && strength < cfg.minStrength
      case TooStrong => 0.0 < cfg.maxStrength < strength
      case QuoteTooLarge => 0.0 < cfg.maxQuote < ctx.quoteAmount
      case OrderTooLarge => 0.0 < cfg.maxOrderQuote < ctx.quoteAmount
      case NotEnoughQuote => side == Buy && after.quoteBalance < 0.0
      case NotEnoughBase => side == Sell && after.baseBalance < 0.0
      case TooManyPositions => 0 < cfg.maxOpenPositions < after.openPositions
      case PositionTooLarge => 0.0 < cfg.maxPositionQuote < after.positionQuote
      case ExposureTooLarge => 0.0 < cfg.maxTotalExposure < after.totalExposure
      case TooManyTrades => 0 < cfg.maxDailyTrades < after.dailyTrades
      case LossLimit => 0.0 < cfg.maxDailyLoss <= ctx.dailyLoss
      case CoolingDown => ctx.lastTradeAt != 0 && now < ctx.lastTradeAt + cfg.cooldown
  {
  }

  /** What the evaluator sees when the daily statistics cannot be read: the error is ignored, and they stay at zero. */
  function Unread(ctx: RiskContext): RiskContext {
    ctx.(dailyTrades := 0, dailyLoss := 0.0, lastTradeAt := 0)
  }

  /** A failed read switches the daily trade limit, the daily loss limit and the cooldown off, and nothing else. */
  lemma UnreadStatistics(cfg: RiskConfig, symbol: string, side: Side, strength: real, ctx: RiskContext, now: Time)
    ensures EvaluateRisk(cfg, symbol, side, strength, Unread(ctx), now) ==
            EvaluateRisk(cfg.(maxDailyTrades := 0, maxDailyLoss := 0.0, cooldown := 0), symbol, side, strength, ctx, now)
  {
  }

  /** An order as it was approved: what the evaluator saw, whether that included the day's statistics, and when. */
  datatype Placed = Placed(side: Side, strength: real, ctx: RiskContext, read: bool, at: Time)

  /** The approved orders of one symbol on one day. Statistics that were read count the ones before. */
  predicate Day(cfg: RiskConfig, symbol: string, orders: seq<Placed>) {
    forall k :: 0 <= k < |orders| ==> ApprovedOn(cfg, symbol, orders, k)
  }

  predicate ApprovedOn(cfg: RiskConfig, symbol: string, orders: seq<Placed>, k: int)
    requires 0 <= k < |orders|
  {
    var o := orders[k];
    && EvaluateRisk(cfg, symbol, o.side, o.strength, o.ctx, o.at) == Approved && o.at > 0
    && (if o.read then o.ctx.dailyTrades >= k && (k > 0 ==> o.ctx.lastTradeAt >= orders[k - 1].at)
        else o.ctx == Unread(o.ctx))
  }

  /** An order approved on statistics that were read is within the daily number, and a cooldown after the one before. */
  lemma OrderWithinLimits(cfg: RiskConfig, symbol: string, orders: seq<Placed>, k: nat)
    requires Day(cfg, symbol, orders) && k < |orders| && orders[k].read
    ensures cfg.maxDailyTrades > 0 ==> k < cfg.maxDailyTrades
    ensures cfg.cooldown > 0 && k > 0 ==> orders[k].at >= orders[k - 1].at + cfg.cooldown
  {
    hide EvaluateRisk, Permitted;
    assert ApprovedOn(cfg, symbol, orders, k);
    ApprovedIffWithinLimits(cfg, symbol, orders[k].side, orders[k].strength, orders[k].ctx, orders[k].at);
    if k > 0 {
      assert ApprovedOn(cfg, symbol, orders, k - 1);
    }
  }

  /** Whatever signals arrive, a day has no more trades than its limit when the statistics were read for the last one,
      and those for which they were read are cooldowns apart. */
  lemma {:induction false} DayWithinLimits(cfg: RiskConfig, symbol: string, orders: seq<Placed>, i: nat, j: nat)
    requires Day(cfg, symbol, orders) && i <= j < |orders|
    ensures cfg.maxDailyTrades > 0 && orders[|orders| - 1].read ==> |orders| <= cfg.maxDailyTrades
    ensures cfg.cooldown > 0 && (forall k :: i < k <= j ==> orders[k].read) ==>
      orders[j].at >= orders[i].at + (j - i) * cfg.cooldown
    decreases j
  {
    hide Day;
    if orders[|orders| - 1].read {
      OrderWithinLimits(cfg, symbol, orders, |orders| - 1);
    }
    if i < j {
      DayWithinLimits(cfg, symbol, orders, i, j - 1);
      if orders[j].read {
        OrderWithinLimits(cfg, symbol, orders, j);
      }
      assert (j - i) * cfg.cooldown == (j - 1 - i) * cfg.cooldown + cfg.cooldown;
    }
  }

  /** While they cannot be read the day has no limit: an order that is approved then is approved again and again, at
      one and the same moment. */
  lemma UnreadDayUnbounded(cfg: RiskConfig, symbol: string, side: Side, strength: real, ctx: RiskContext, now: Time, n: nat)
    requires EvaluateRisk(cfg, symbol, side, strength, Unread(ctx), now) == Approved && now > 0
    ensures exists orders: seq<Placed> :: |orders| == n && Day(cfg, symbol, orders) && forall k :: 0 <= k < n ==> orders[k].at == now
  {
    hide EvaluateRisk;
    var orders := seq(n, i => Placed(side, strength, Unread(ctx), false, now));
    assert Day(cfg, symbol, orders);
  }

  /** The second context is no riskier than the first: no larger an order at the same price, with no less to pay from
      and no more at stake. */
  predicate Safer(b: RiskContext, a: RiskContext) {
    && b.quoteAmount <= a.quoteAmount && b.price == a.price
    && b.baseBalance >= a.baseBalance && b.quoteBalance >= a.quoteBalance
    && b.dailyTrades <= a.dailyTrades && b.dailyLoss <= a.dailyLoss && b.openPositions <= a.openPositions
    && b.positionQuote <= a.positionQuote && b.totalExposure <= a.totalExposure
    && (b.lastTradeAt == 0 || 0 != b.lastTradeAt <= a.lastTradeAt)
  }

  /** Approval is monotone: less risk and more time never turn an approval into a rejection. */
  lemma ApprovalMonotone(cfg: RiskConfig, symbol: string, side: Side, strength: real, a: RiskContext, b: RiskContext,
                         now: Time, later: Time)
    requires EvaluateRisk(cfg, symbol, side, strength, a, now) == Approved && Safer(b, a) && now <= later
    requires a.lastTradeAt >= 0 && b.lastTradeAt >= 0
    ensures EvaluateRisk(cfg, symbol, side, strength, b, later) == Approved
  {
    if a.price > 0.0 {
      QuotientMonotone(b.quoteAmount, a.quoteAmount, a.price);
    }
  }

  // Fills ---------------------------------------------------------------------------------------------------------

  datatype EngineConfig = EngineConfig(enabled: bool, quoteOrderAmount: real, feeRate: real, fillRatio: real)

  datatype Account = Account(base: real, quote: real)

  /** A row of paper_trades. */
  datatype TradeRow = TradeRow(side: Side, quantity: real, price: real, fee: real)

  datatype PaperFill = PaperFill(trade: TradeRow, account: Account, partial: bool)

  datatype Refusal = Disabled | NotApproved | NoPrice | NoOrderAmount | InsufficientQuote | InsufficientBase | UnsupportedSide

  function FillRatio(cfg: EngineConfig): (ratio: real)
    ensures 0.0 < ratio <= 1.0
  {
    if cfg.fillRatio <= 0.0 || cfg.fillRatio > 1.0 then 1.0 else cfg.fillRatio
  }

  function Filled(cfg: EngineConfig): real {
    cfg.quoteOrderAmount * FillRatio(cfg)
  }

  function FilledFee(cfg: EngineConfig): real {
    Filled(cfg) * cfg.feeRate
  }

  function ExecuteBuy(cfg: EngineConfig, price: real, account: Account): Result<PaperFill, Refusal>
    requires price > 0.0
  {
    if account.quote < Filled(cfg) then Err(InsufficientQuote)
    else
      var quantity := (Filled(cfg) - FilledFee(cfg)) / price;
      Ok(PaperFill(TradeRow(Buy, quantity, price, FilledFee(cfg)),
              Account(account.base + quantity, account.quote - Filled(cfg)), FillRatio(cfg) < 1.0))
  }

  function ExecuteSell(cfg: EngineConfig, price: real, account: Account): Result<PaperFill, Refusal>
    requires price > 0.0
  {
    var quantity := Filled(cfg) / price;
    if account.base < quantity then Err(InsufficientBase)
    else
      Ok(PaperFill(TradeRow(Sell, quantity, price, FilledFee(cfg)),
              Account(account.base - quantity, account.quote + (Filled(cfg) - FilledFee(cfg))), FillRatio(cfg) < 1.0))
  }

  function Execute(cfg: EngineConfig, verdict: Verdict, side: Side, price: real, account: Account): Result<PaperFill, Refusal> {
    if !cfg.enabled then Err(Disabled)
    else if verdict != Approved then Err(NotApproved)
    else if price <= 0.0 then Err(NoPrice)
    else if cfg.quoteOrderAmount <= 0.0 then Err(NoOrderAmount)
    else if side == Buy then ExecuteBuy(cfg, price, account)
    else if side == Sell then ExecuteSell(cfg, price, account)
    else Err(UnsupportedSide)
  }

  /** The context the orchestrator builds from the account it has just read; the rest comes from the daily statistics. */
  predicate SnapshotOf(ctx: RiskContext, cfg: EngineConfig, price: real, account: Account) {
    ctx.quoteAmount == cfg.quoteOrderAmount && ctx.price == price && ctx.baseBalance == account.base && ctx.quoteBalance == account.quote
  }

  /** An approved decision on a snapshot is executed on it, whatever the fill ratio, exactly when the engine
      is on and has a price and an order amount: it is never refused for want of balance. */
  lemma ApprovedIsExecutable(risk: RiskConfig, cfg: EngineConfig, symbol: string, side: Side, strength: real,
                             ctx: RiskContext, now: Time, price: real, account: Account)
    requires SnapshotOf(ctx, cfg, price, account)
    requires EvaluateRisk(risk, symbol, side, strength, ctx, now) == Approved
    ensures var r := Execute(cfg, Approved, side, price, account);
      && (r.Ok? <==> cfg.enabled && price > 0.0 && cfg.quoteOrderAmount > 0.0)
      && (r.Err? ==> r.error != InsufficientQuote && r.error != InsufficientBase)
  {
    if price > 0.0 && cfg.quoteOrderAmount > 0.0 {
      FilledWithin(cfg);
      QuotientMonotone(Filled(cfg), cfg.quoteOrderAmount, price);
    }
  }

  lemma FilledWithin(cfg: EngineConfig)
    requires cfg.quoteOrderAmount > 0.0
    ensures 0.0 < Filled(cfg) <= cfg.quoteOrderAmount
  {
    ProductNonNegative(cfg.quoteOrderAmount, 1.0 - FillRatio(cfg));
    assert cfg.quoteOrderAmount * (1.0 - FillRatio(cfg)) == cfg.quoteOrderAmount - Filled(cfg);
    ProductStrict(0.0, cfg.quoteOrderAmount, FillRatio(cfg));
  }

  lemma QuotientMonotone(a: real, b: real, d: real)
    requires d > 0.0 && a <= b
    ensures a / d <= b / d
  {
    QuotientTimes(a, d);
    QuotientTimes(b, d);
    CancelFactor(a / d, b / d, d);
  }

  // The ledger ---------------------------------------------------------------------------------------------------------

  /** The signed cash flow the daily statistics sum up in SQL. */
  function CashFlow(t: TradeRow): real {
    match t.side
    case Buy => -(t.quantity * t.price + t.fee)
    case Sell => t.quantity * t.price - t.fee
    case Hold => 0.0
  }

  function BaseFlow(t: TradeRow): real {
    match t.side
    case Buy => t.quantity
    case Sell => -t.quantity
    case Hold => 0.0
  }

  function Total(flow: TradeRow -> real, rows: seq<TradeRow>): real {
    if rows == [] then 0.0 else Total(flow, rows[..|rows| - 1]) + flow(rows[|rows| - 1])
  }

  function CashFlows(rows: seq<TradeRow>): real {
    Total(CashFlow, rows)
  }

  function BaseFlows(rows: seq<TradeRow>): real {
    Total(BaseFlow, rows)
  }

  lemma {:induction false} TotalConcat(flow: TradeRow -> real, a: seq<TradeRow>, b: seq<TradeRow>)
    ensures Total(flow, a + b) == Total(flow, a) + Total(flow, b)
    decreases |b|
  {
    if b == [] {
      assert a + b == a;
    } else {
      var n := |b| - 1;
      assert (a + b)[..|a| + n] == a + b[..n];
      TotalConcat(flow, a, b[..n]);
    }
  }

  lemma TotalWithout(flow: TradeRow -> real, rows: seq<TradeRow>, k: nat)
    requires k < |rows|
    ensures Total(flow, rows) == Total(flow, rows[..k] + rows[k + 1..]) + flow(rows[k])
  {
    hide Total;
    var (before, after, t) := (rows[..k], rows[k + 1..], rows[k]);
    assert rows == before + [t] + after;
    TotalConcat(flow, before + [t], after);
    TotalAppend(flow, before, t);
    TotalConcat(flow, before, after);
  }

  lemma TotalAppend(flow: TradeRow -> real, rows: seq<TradeRow>, t: TradeRow)
    ensures Total(flow, rows + [t]) == Total(flow, rows) + flow(t)
  {
    assert (rows + [t])[..|rows|] == rows;
  }

  lemma MultisetWithout(rows: seq<TradeRow>, k: nat)
    requires k < |rows|
    ensures multiset(rows[..k] + rows[k + 1..]) == multiset(rows) - multiset{rows[k]}
  {
    assert rows == rows[..k] + ([rows[k]] + rows[k + 1..]);
  }

  /** A total does not depend on the order of the rows. */
  lemma {:induction false} TotalUnordered(flow: TradeRow -> real, a: seq<TradeRow>, b: seq<TradeRow>)
    requires multiset(a) == multiset(b)
    ensures Total(flow, a) == Total(flow, b)
    decreases |a|
  {
    if a == [] {
      assert |multiset(b)| == 0;
    } else {
      var n := |a| - 1;
      assert a[n] in multiset(b);
      var k :| 0 <= k < |b| && b[k] == a[n];
      MultisetWithout(a, n);
      MultisetWithout(b, k);
      assert a[..n] + a[n + 1..] == a[..n];
      TotalWithout(flow, b, k);
      TotalUnordered(flow, a[..n], b[..k] + b[k + 1..]);
    }
  }

  /** Rows split in two, in whatever order, total what the parts do. */
  lemma TotalSplits(flow: TradeRow -> real, rows: seq<TradeRow>, a: seq<TradeRow>, b: seq<TradeRow>)
    requires multiset(rows) == multiset(a) + multiset(b)
    ensures Total(flow, rows) == Total(flow, a) + Total(flow, b)
  {
    assert multiset(a + b) == multiset(a) + multiset(b);
    TotalUnordered(flow, rows, a + b);
    TotalConcat(flow, a, b);
  }

  /** What the account is worth at a price. */
  function Worth(a: Account, price: real): real {
    a.quote + a.base * price
  }

  /** Every fill moves the account by exactly its row's flows, and costs exactly its fee at the fill price. */
  lemma FillMatchesRow(cfg: EngineConfig, verdict: Verdict, side: Side, price: real, account: Account)
    requires Execute(cfg, verdict, side, price, account).Ok?
    ensures var f := Execute(cfg, verdict, side, price, account).value;
      && f.account.quote == account.quote + CashFlow(f.trade)
      && f.account.base == account.base + BaseFlow(f.trade)
      && Worth(f.account, price) == Worth(account, price) - f.trade.fee
  {
    hide Filled, FilledFee;
    var f := Execute(cfg, verdict, side, price, account).value;
    if side == Buy {
      QuotientTimes(Filled(cfg) - FilledFee(cfg), price);
      BuyMatches(account, f, Filled(cfg), price);
    } else {
      QuotientTimes(Filled(cfg), price);
      SellMatches(account, f, Filled(cfg), price);
    }
    hide Execute, CashFlow, BaseFlow, Worth;
  }

  lemma BuyMatches(account: Account, f: PaperFill, amount: real, price: real)
    requires f.trade.side == Buy && f.trade.price == price && f.trade.quantity * price == amount - f.trade.fee
    requires f.account == Account(account.base + f.trade.quantity, account.quote - amount)
    ensures f.account.quote == account.quote + CashFlow(f.trade) && f.account.base == account.base + BaseFlow(f.trade)
    ensures Worth(f.account, price) == Worth(account, price) - f.trade.fee
  {
    assert f.account.base * price == account.base * price + f.trade.quantity * price;
  }

  lemma SellMatches(account: Account, f: PaperFill, amount: real, price: real)
    requires f.trade.side == Sell && f.trade.price == price && f.trade.quantity * price == amount
    requires f.account == Account(account.base - f.trade.quantity, account.quote + (amount - f.trade.fee))
    ensures f.account.quote == account.quote + CashFlow(f.trade) && f.account.base == account.base + BaseFlow(f.trade)
    ensures Worth(f.account, price) == Worth(account, price) - f.trade.fee
  {
    assert f.account.base * price == account.base * price - f.trade.quantity * price;
  }

  /** The share of its order that an engine fills: the configured ratio, or all of it when that is out of range. */
  predicate Fills(cfg: EngineConfig, share: real) {
    if 0.0 < cfg.fillRatio <= 1.0 then share == cfg.fillRatio else share == 1.0
  }

  function PartOf(share: real, amount: real): real {
    share * amount
  }

  /** The row of an order that fills for an amount: a buy spends exactly that, fee included, a sell brings it in less
      the fee, and the fee is the rate times it. */
  predicate RowFor(side: Side, price: real, rate: real, amount: real, t: TradeRow) {
    && t.side == side && t.price == price && t.fee == rate * amount
    && (side == Buy ==> CashFlow(t) == -amount && t.quantity * price == amount - t.fee)
    && (side == Sell ==> CashFlow(t) == amount - t.fee && t.quantity * price == amount)
  }

  /** Every fill is its share of the order, and partial exactly when that is less than all of it. */
  lemma FillAmount(cfg: EngineConfig, verdict: Verdict, side: Side, price: real, account: Account, share: real)
    requires Execute(cfg, verdict, side, price, account).Ok? && Fills(cfg, share)
    ensures var f := Execute(cfg, verdict, side, price, account).value;
      RowFor(side, price, cfg.feeRate, PartOf(share, cfg.quoteOrderAmount), f.trade) && (f.partial <==> share < 1.0)
  {
    hide Filled, FilledFee, FillRatio;
    FilledShare(cfg, share);
    QuotientTimes(Filled(cfg) - FilledFee(cfg), price);
    QuotientTimes(Filled(cfg), price);
  }

  lemma FilledShare(cfg: EngineConfig, share: real)
    requires Fills(cfg, share)
    ensures FillRatio(cfg) == share && Filled(cfg) == share * cfg.quoteOrderAmount
    ensures FilledFee(cfg) == cfg.feeRate * (share * cfg.quoteOrderAmount)
  {
  }

  /** Quantity, fee and cash alike. */
  predicate ScaledBy(share: real, part: TradeRow, full: TradeRow) {
    part.quantity == share * full.quantity && part.fee == share * full.fee && CashFlow(part) == share * CashFlow(full)
  }

  /** A partial fill is the full one scaled down. */
  lemma PartialScales(cfg: EngineConfig, verdict: Verdict, side: Side, price: real, account: Account, share: real)
    requires 0.0 < share <= 1.0 && Execute(cfg.(fillRatio := 1.0), verdict, side, price, account).Ok?
    requires Execute(cfg.(fillRatio := share), verdict, side, price, account).Ok?
    ensures ScaledBy(share, Execute(cfg.(fillRatio := share), verdict, side, price, account).value.trade,
                     Execute(cfg.(fillRatio := 1.0), verdict, side, price, account).value.trade)
  {
    hide Execute, RowFor, ScaledBy, PartOf;
    var (whole, less) := (cfg.(fillRatio := 1.0), cfg.(fillRatio := share));
    SideAndPrice(whole, verdict, side, price, account);
    FillAmount(whole, verdict, side, price, account, 1.0);
    FillAmount(less, verdict, side, price, account, share);
    RowsScale(side, price, cfg.feeRate, cfg.quoteOrderAmount, share,
              Execute(less, verdict, side, price, account).value.trade, Execute(whole, verdict, side, price, account).value.trade);
  }

  lemma SideAndPrice(cfg: EngineConfig, verdict: Verdict, side: Side, price: real, account: Account)
    requires Execute(cfg, verdict, side, price, account).Ok?
    ensures price > 0.0 && (side == Buy || side == Sell)
  {
  }

  lemma SameQuotient(a: real, b: real, c: real)
    requires c > 0.0 && a * c == b * c
    ensures a == b
  {
    CancelFactor(a, b, c);
    CancelFactor(b, a, c);
  }

  lemma RowsScale(side: Side, price: real, rate: real, amount: real, share: real, part: TradeRow, full: TradeRow)
    requires (side == Buy || side == Sell) && price > 0.0
    requires RowFor(side, price, rate, PartOf(share, amount), part) && RowFor(side, price, rate, PartOf(1.0, amount), full)
    ensures ScaledBy(share, part, full)
  {
    hide CashFlow;
    assert part.fee == share * full.fee;
    assert part.quantity * price == share * full.quantity * price by {
      assert share * full.quantity * price == share * (full.quantity * price);
    }
    SameQuotient(part.quantity, share * full.quantity, price);
  }

  /** Each way an order can be refused, exactly; for balance, when it does not cover the share that would be filled. */
  lemma RefusedIff(cfg: EngineConfig, verdict: Verdict, side: Side, price: real, account: Account, share: real)
    requires Fills(cfg, share)
    ensures var (r, spent) := (Execute(cfg, verdict, side, price, account), PartOf(share, cfg.quoteOrderAmount));
      var ready := cfg.enabled && verdict == Approved && price > 0.0 && cfg.quoteOrderAmount > 0.0;
      && (r == Err(Disabled) <==> !cfg.enabled)
      && (r == Err(NotApproved) <==> cfg.enabled && verdict != Approved)
      && (r == Err(NoPrice) <==> cfg.enabled && verdict == Approved && price <= 0.0)
      && (r == Err(NoOrderAmount) <==> cfg.enabled && verdict == Approved && price > 0.0 && cfg.quoteOrderAmount <= 0.0)
      && (r == Err(UnsupportedSide) <==> ready && side == Hold)
      && (r == Err(InsufficientQuote) <==> ready && side == Buy && account.quote < spent)
      && (r == Err(InsufficientBase) <==> ready && side == Sell && account.base < spent / price)
  {
    hide Filled, FilledFee, FillRatio;
    FilledShare(cfg, share);
  }

  predicate NonNegative(a: Account) {
    a.quote >= 0.0 && a.base >= 0.0
  }

  lemma FillNonNegative(cfg: EngineConfig, verdict: Verdict, side: Side, price: real, account: Account)
    requires cfg.feeRate <= 1.0 && NonNegative(account) && Execute(cfg, verdict, side, price, account).Ok?
    ensures NonNegative(Execute(cfg, verdict, side, price, account).value.account)
  {
    FilledWithin(cfg);
    KeepsShare(Filled(cfg), cfg.feeRate);
    QuotientMonotone(0.0, Filled(cfg) - FilledFee(cfg), price);
    assert 0.0 / price == 0.0;
  }

  /** The account can be kept from going negative exactly by a fee rate of at most one. */
  lemma FeeRateLimit(cfg: EngineConfig)
    requires cfg.enabled && cfg.quoteOrderAmount > 0.0
    ensures cfg.feeRate <= 1.0 <==>
      forall verdict, side, price, account ::
        NonNegative(account) && Execute(cfg, verdict, side, price, account).Ok?
        ==> NonNegative(Execute(cfg, verdict, side, price, account).value.account)
  {
    if cfg.feeRate <= 1.0 {
      forall verdict, side, price, account | NonNegative(account) && Execute(cfg, verdict, side, price, account).Ok?
        ensures NonNegative(Execute(cfg, verdict, side, price, account).value.account)
      {
        FillNonNegative(cfg, verdict, side, price, account);
      }
    } else {
      FilledWithin(cfg);
      var poor := Account(Filled(cfg), 0.0);
      assert Filled(cfg) / 1.0 == Filled(cfg);
      var r := Execute(cfg, Approved, Sell, 1.0, poor);
      assert r.Ok? && r.value.account.quote == Filled(cfg) - FilledFee(cfg);
      ProductStrict(1.0, cfg.feeRate, Filled(cfg));
      assert !NonNegative(r.value.account);
    }
  }

  // Serial runs of the pipeline -----------------------------------------------------------------------------------------

  datatype Order = Order(side: Side, price: real, failed: bool)

  datatype Outcome = NotExecuted | Executed | Refused | Broken

  /** Stores written one after another by a single worker. Any write may fail, with or without having landed. */
  class Desk {
    const cfg: EngineConfig
    const initial: Account
    var account: Account
    var orders: seq<Order>
    var trades: seq<TradeRow>
    /** The rows whose account update has landed, in order. */
    ghost var applied: seq<TradeRow>
    /** The rows, at most one per run, whose account update has not. */
    ghost var lost: seq<TradeRow>
    /** How many writes have failed so far, or were not known to have landed. */
    ghost var faults: nat

    /** The account is the initial one moved by the flows of the applied rows, and the ledger holds those rows and
        the lost ones. */
    ghost predicate Balanced()
      reads this
    {
      && account.quote == initial.quote + CashFlows(applied)
      && account.base == initial.base + BaseFlows(applied)
      && multiset(trades) == multiset(applied) + multiset(lost)
    }

    /** Account and ledger differ by exactly the flows of the rows whose account write was lost. */
    lemma Difference()
      requires Balanced()
      ensures account.quote == initial.quote + CashFlows(trades) - CashFlows(lost)
      ensures account.base == initial.base + BaseFlows(trades) - BaseFlows(lost)
    {
      TotalSplits(CashFlow, trades, applied, lost);
      TotalSplits(BaseFlow, trades, applied, lost);
    }

    constructor (cfg: EngineConfig, initial: Account)
      ensures Balanced() && this.cfg == cfg && this.initial == initial && account == initial && trades == [] && lost == []
    {
      this.cfg := cfg;
      this.initial := initial;
      account, orders, trades, applied, lost, faults := initial, [], [], [], [], 0;
    }

    /** Repository.Save: the order row, then the trade row unless the order failed, then the events. */
    method SaveResult(order: Order, row: TradeRow) returns (ok: bool)
      modifies this`orders, this`trades, this`faults
      ensures trades == old(trades) || (!order.failed && trades == old(trades) + [row])
      ensures ok && !order.failed ==> trades == old(trades) + [row]
      ensures orders == old(orders) || orders == old(orders) + [order]
      ensures ok ==> orders == old(orders) + [order]
      ensures if ok then faults == old(faults) else faults > old(faults)
    {
      var lands: bool, replies: bool := *, *;
      if lands {
        orders := orders + [order];
      }
      if !(lands && replies) {
        faults := faults + 1;
        return false;
      }
      if !order.failed {
        lands, replies := *, *;
        if lands {
          trades := trades + [row];
        }
        if !(lands && replies) {
          faults := faults + 1;
          return false;
        }
      }
      ok := *;
      faults := if ok then faults else faults + 1;
    }

    /** The tail of run, from the risk decision on: execute on the account just read, record, then save the account.
        A run is broken exactly when a write of it fails, and one in which none does is SettleOnce. */
    method Settle(verdict: Verdict, side: Side, price: real, killSwitch: bool) returns (outcome: Outcome)
      requires Balanced()
      modifies this
      ensures Balanced()
      ensures account.quote == initial.quote + CashFlows(trades) - CashFlows(lost)
      ensures account.base == initial.base + BaseFlows(trades) - BaseFlows(lost)
      ensures |trades| <= |old(trades)| + 1
      ensures outcome == NotExecuted <==> verdict != Approved || killSwitch
      ensures verdict == Approved && !killSwitch && Execute(cfg, verdict, side, price, old(account)).Ok? ==>
        outcome == Executed || outcome == Broken
      ensures outcome == Refused ==> orders == old(orders) + [Order(side, price, true)]
      ensures outcome == Executed ==>
        var f := Execute(cfg, verdict, side, price, old(account));
        f.Ok? && account == f.value.account && trades == old(trades) + [f.value.trade] && lost == old(lost)
      ensures outcome == Executed ==> orders == old(orders) + [Order(side, price, false)]
      ensures outcome != Executed && outcome != Broken ==> account == old(account) && trades == old(trades)
      ensures outcome == Refused ==> Execute(cfg, verdict, side, price, old(account)).Err?
      ensures lost != old(lost) ==> outcome == Broken
      ensures if outcome == Broken then faults > old(faults) else faults == old(faults)
      ensures outcome != Broken ==>
        var before := Ledger(old(account), old(trades));
        Ledger(account, trades) == if killSwitch then before else SettleOnce(cfg, before, Decision(verdict, side, price))
      ensures NonNegative(old(account)) && cfg.feeRate <= 1.0 ==> NonNegative(account)
    {
      hide Execute, CashFlow, BaseFlow, NonNegative, CashFlows, BaseFlows, Balanced;
      if verdict != Approved || killSwitch {
        Difference();
        OnlyApprovedExecute(cfg, verdict, side, price, account);
        return NotExecuted;
      }
      var result := Execute(cfg, verdict, side, price, account);
      if result.Err? {
        var recorded := SaveFailure(Order(side, price, true));
        Difference();
        return if recorded then Refused else Broken;
      }
      FillMatchesRow(cfg, verdict, side, price, account);
      if NonNegative(account) && cfg.feeRate <= 1.0 {
        FillNonNegative(cfg, verdict, side, price, account);
      }
      var kept := SaveFill(Order(side, price, false), result.value);
      Difference();
      return if kept then Executed else Broken;
    }

    /** A refused execution is recorded as a failed order, with no trade. */
    method SaveFailure(order: Order) returns (ok: bool)
      requires Balanced() && order.failed
      modifies this`orders, this`trades, this`faults
      ensures Balanced() && trades == old(trades) && (ok ==> orders == old(orders) + [order])
      ensures if ok then faults == old(faults) else faults > old(faults)
    {
      ok := SaveResult(order, TradeRow(order.side, 0.0, order.price, 0.0));
    }

    /** A fill is recorded first and moves the account after; the ghost logs keep the rows that moved it apart from
        the rows that did not. */
    method SaveFill(order: Order, fill: PaperFill) returns (ok: bool)
      requires Balanced() && !order.failed
      requires fill.account.quote == account.quote + CashFlow(fill.trade)
      requires fill.account.base == account.base + BaseFlow(fill.trade)
      modifies this
      ensures Balanced() && |trades| <= |old(trades)| + 1
      ensures account == old(account) || account == fill.account
      ensures ok ==> account == fill.account && trades == old(trades) + [fill.trade] && lost == old(lost)
      ensures ok ==> orders == old(orders) + [order]
      ensures if ok then faults == old(faults) else faults > old(faults)
    {
      hide CashFlow, BaseFlow, CashFlows, BaseFlows;
      ok := SaveResult(order, fill.trade);
      if ok {
        ok := SaveAccount(fill);
      } else if trades != old(trades) {
        lost := lost + [fill.trade];
      }
    }

    /** The account write of a row that is in the ledger already. */
    method SaveAccount(fill: PaperFill) returns (ok: bool)
      requires account.quote == initial.quote + CashFlows(applied) && account.base == initial.base + BaseFlows(applied)
      requires multiset(trades) == multiset(applied) + multiset(lost) + multiset{fill.trade}
      requires fill.account.quote == account.quote + CashFlow(fill.trade)
      requires fill.account.base == account.base + BaseFlow(fill.trade)
      modifies this`account, this`applied, this`lost, this`faults
      ensures Balanced() && (account == old(account) || account == fill.account)
      ensures ok ==> account == fill.account && lost == old(lost)
      ensures if ok then faults == old(faults) else faults > old(faults)
    {
      hide CashFlow, BaseFlow, CashFlows, BaseFlows;
      FlowsAppend(applied, fill.trade);
      var lands: bool, replies: bool := *, *;
      if lands {
        account := fill.account;
        applied := applied + [fill.trade];
      } else {
        lost := lost + [fill.trade];
      }
      ok := lands && replies;
      faults := if ok then faults else faults + 1;
    }
  }

  lemma OnlyApprovedExecute(cfg: EngineConfig, verdict: Verdict, side: Side, price: real, account: Account)
    ensures verdict != Approved ==> Execute(cfg, verdict, side, price, account).Err?
  {
  }

  lemma FlowsAppend(rows: seq<TradeRow>, t: TradeRow)
    ensures CashFlows(rows + [t]) == CashFlows(rows) + CashFlow(t)
    ensures BaseFlows(rows + [t]) == BaseFlows(rows) + BaseFlow(t)
  {
    assert (rows + [t])[..|rows|] == rows;
  }

  // Every serial run, as a function ----------------------------------------------------------------------------------------

  datatype Decision = Decision(verdict: Verdict, side: Side, price: real)

  datatype Ledger = Ledger(account: Account, trades: seq<TradeRow>)

  /** One run in which no write fails. */
  function SettleOnce(cfg: EngineConfig, b: Ledger, d: Decision): Ledger {
    match Execute(cfg, d.verdict, d.side, d.price, b.account)
    case Ok(f) => Ledger(f.account, b.trades + [f.trade])
    case Err(_) => b
  }

  function SettleAll(cfg: EngineConfig, initial: Account, decisions: seq<Decision>): Ledger {
    if decisions == [] then Ledger(initial, [])
    else SettleOnce(cfg, SettleAll(cfg, initial, decisions[..|decisions| - 1]), decisions[|decisions| - 1])
  }

  /** Over any history of decisions the account is the initial one plus the ledger's cash flows and quantities,
      and with a fee rate of at most one it never goes negative. */
  lemma {:induction false} LedgerAgrees(cfg: EngineConfig, initial: Account, decisions: seq<Decision>)
    ensures var b := SettleAll(cfg, initial, decisions);
      && b.account.quote == initial.quote + CashFlows(b.trades)
      && b.account.base == initial.base + BaseFlows(b.trades)
      && (NonNegative(initial) && cfg.feeRate <= 1.0 ==> NonNegative(b.account))
    decreases |decisions|
  {
    hide Execute, CashFlow, BaseFlow, NonNegative;
    if decisions != [] {
      var (rest, d) := (decisions[..|decisions| - 1], decisions[|decisions| - 1]);
      LedgerAgrees(cfg, initial, rest);
      var b := SettleAll(cfg, initial, rest);
      var f := Execute(cfg, d.verdict, d.side, d.price, b.account);
      if f.Ok? {
        FillMatchesRow(cfg, d.verdict, d.side, d.price, b.account);
        FlowsAppend(b.trades, f.value.trade);
        if NonNegative(b.account) && cfg.feeRate <= 1.0 {
          FillNonNegative(cfg, d.verdict, d.side, d.price, b.account);
        }
      }
    }
  }
}
