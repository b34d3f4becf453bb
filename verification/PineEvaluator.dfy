/** The Pine evaluator (internal/strategy/pine_evaluator.go): expressions, rules, and the series
    form that the backtest engine uses in place of evaluating every window. */
module PineEvaluator {
  import opened Common
  import opened MarketData
  import opened Signals
  import opened PineIR
  import opened Indicators
  import opened Resolution

  // Expressions ------------------------------------------------------------------------------

  datatype Value = Num(num: real) | Bool(truth: bool)

  function Compare(op: Op, a: real, b: real): bool
    requires IsComparison(op)
  {
    match op
    case Gt => a > b
    case Lt => a < b
    case Ge => a >= b
    case Le => a <= b
    case Eq => a == b
    case Ne => a != b
  }

  /** The series a crossing looks at: a resolved name, or a literal repeated up to the index. */
  function CrossSeries(host: Host, name: string, index: nat, env: Env): Result<seq<real>, StrategyError> {
    if name in env then Ok(env[name])
    else match host.parse(name)
      case Some(v) => Ok(seq(index + 1, _ => v))
      case None => Err(UndefinedVariable(name))
  }

  function Crosses(op: Op, prevA: real, prevB: real, currA: real, currB: real): bool
    requires op.Crossover? || op.Crossunder?
  {
    var gap := MIN_GAP * currB;
    if op.Crossover? then prevA < prevB && currA > currB && currA - currB > gap
    else prevA > prevB && currA < currB && currB - currA > gap
  }

  function Evaluate(host: Host, e: Expression, index: nat, env: Env): Result<Value, StrategyError> {
    if e.op == Ref then EvaluateRef(host, e.val, index, env)
    else if e.op == Not then
      if |e.args| != 1 then Err(WrongArity("not"))
      else
        var v :- Evaluate(host, e.args[0], index, env);
        if v.Bool? then Ok(Bool(!v.truth)) else Err(WrongOperandType("not"))
    else if |e.args| != 2 then Err(WrongArity("binary"))
    else
      var left :- Evaluate(host, e.args[0], index, env);
      var right :- Evaluate(host, e.args[1], index, env);
      if IsComparison(e.op) then
        if left.Num? && right.Num? then Ok(Bool(Compare(e.op, left.num, right.num)))
        else Err(WrongOperandType("comparison"))
      else if e.op == And || e.op == Or then
        if left.Bool? && right.Bool? then
          Ok(Bool(if e.op == And then left.truth && right.truth else left.truth || right.truth))
        else Err(WrongOperandType("logical"))
      else if e.op == Crossover || e.op == Crossunder then
        if index < 1 then Ok(Bool(false))
        else if e.args[0].op != Ref || e.args[1].op != Ref then Err(NotAReference("crossing"))
        else
          var a :- CrossSeries(host, e.args[0].val, index, env);
          var b :- CrossSeries(host, e.args[1].val, index, env);
          if index >= |a| || index >= |b| then Err(IndexPanic)
          else Ok(Bool(Crosses(e.op, a[index - 1], b[index - 1], a[index], b[index])))
      else Err(UnsupportedOperator("other"))
  }

  /** A comparison of two numbers is true exactly when they stand in the relation it is written as. */
  lemma ComparisonMeans(host: Host, e: Expression, index: nat, env: Env, u: real, v: real)
    requires IsComparison(e.op) && |e.args| == 2
    requires Evaluate(host, e.args[0], index, env) == Ok(Num(u)) && Evaluate(host, e.args[1], index, env) == Ok(Num(v))
    ensures var r := Evaluate(host, e, index, env);
      && r.Ok? && r.value.Bool?
      && (e.op == Gt ==> (r.value.truth <==> v < u)) && (e.op == Lt ==> (r.value.truth <==> u < v))
      && (e.op == Ge ==> (r.value.truth <==> v < u || u == v)) && (e.op == Le ==> (r.value.truth <==> u < v || u == v))
      && (e.op == Eq ==> (r.value.truth <==> u == v)) && (e.op == Ne ==> (r.value.truth <==> u < v || v < u))
  {
  }

  /** `and`, `or` and `not` of truth values are what they are called. */
  lemma ConnectiveMeans(host: Host, e: Expression, index: nat, env: Env, p: bool, q: bool)
    requires |e.args| == (if e.op == Not then 1 else 2) && e.op in {And, Or, Not}
    requires Evaluate(host, e.args[0], index, env) == Ok(Bool(p))
    requires e.op != Not ==> Evaluate(host, e.args[1], index, env) == Ok(Bool(q))
    ensures e.op == And ==> Evaluate(host, e, index, env) == Ok(Bool(p && q))
    ensures e.op == Or ==> Evaluate(host, e, index, env) == Ok(Bool(p || q))
    ensures e.op == Not ==> Evaluate(host, e, index, env) == Ok(Bool(!p))
  {
  }

  /** A crossing of two series is a change of sides between the bar before and this one, by more than the gap. */
  lemma CrossingMeans(host: Host, e: Expression, index: nat, env: Env)
    requires (e.op == Crossover || e.op == Crossunder) && |e.args| == 2 && e.args[0].op == Ref && e.args[1].op == Ref
    requires Evaluate(host, e.args[0], index, env).Ok? && Evaluate(host, e.args[1], index, env).Ok?
    requires var (a, b) := (e.args[0].val, e.args[1].val);
      a in env && b in env && 0 < index < |env[a]| && index < |env[b]| && env[b][index] >= 0.0
    ensures var (a, b) := (env[e.args[0].val], env[e.args[1].val]);
      var r := Evaluate(host, e, index, env);
      && r.Ok? && r.value.Bool?
      && (e.op == Crossover ==>
            (r.value.truth <==> a[index - 1] < b[index - 1] && b[index] + 0.0001 * b[index] < a[index]))
      && (e.op == Crossunder ==>
            (r.value.truth <==> a[index - 1] > b[index - 1] && a[index] < b[index] - 0.0001 * b[index]))
  {
  }

  /** A series crosses a number when it passes that level, by more than the gap when it is the second operand. */
  lemma LevelCrossed(host: Host, name: string, level: string, v: real, index: nat, env: Env)
    requires name in env && 0 < index < |env[name]| && host.parse(name) == None && name !in {"true", "false"}
    requires level !in env && host.parse(level) == Some(v)
    ensures var (s, over) := (env[name], Binary(Crossover, Reference(name), Reference(level)));
      Evaluate(host, over, index, env) == Ok(Bool(s[index - 1] < v && s[index] > v && s[index] > v + 0.0001 * v))
    ensures var (s, under) := (env[name], Binary(Crossunder, Reference(name), Reference(level)));
      Evaluate(host, under, index, env) == Ok(Bool(s[index - 1] > v && s[index] < v && s[index] < v - 0.0001 * v))
  {
    var over := Binary(Crossover, Reference(name), Reference(level));
    assert over.args[0] == Reference(name) && over.args[1] == Reference(level);
  }

  function EvaluateRef(host: Host, name: string, index: nat, env: Env): Result<Value, StrategyError> {
    match host.parse(name)
    case Some(v) => Ok(Num(v))
    case None =>
      if name == "true" then Ok(Bool(true))
      else if name == "false" then Ok(Bool(false))
      else if name !in env then Err(UndefinedVariable(name))
      else if index >= |env[name]| then Ok(Num(0.0))
      else Ok(Num(env[name][index]))
  }

  // Rules ------------------------------------------------------------------------------------------

  function ConditionOf(cfg: Config, rule: Rule): Result<Expression, StrategyError> {
    if rule.condition in cfg.conditions then Ok(cfg.conditions[rule.condition])
    else if rule.condition == ALWAYS_TRUE then Ok(Reference("true"))
    else Err(UndefinedCondition(rule.condition))
  }

  function RuleSide(rule: Rule): (Side, string) {
    match (rule.action, rule.direction)
    case (Entry, Long) => (Buy, "rule " + rule.id + " triggered long entry")
    case (Entry, Short) => (Sell, "rule " + rule.id + " triggered short entry")
    case (Close, Short) => (Buy, "rule close " + rule.id + " triggered cover")
    case (Close, _) => (Sell, "rule close " + rule.id + " triggered exit")
    case _ => (Hold, "no execution rules triggered")
  }

  /** The first rule, from position j on, whose condition is true decides the side. */
  function FirstTriggered(host: Host, cfg: Config, index: nat, env: Env, j: nat): Result<(Side, string), StrategyError>
    requires j <= |cfg.rules|
    decreases |cfg.rules| - j
  {
    if j == |cfg.rules| then Ok((Hold, "no execution rules triggered"))
    else
      var condition :- ConditionOf(cfg, cfg.rules[j]);
      var value :- Evaluate(host, condition, index, env);
      if value == Bool(true) then Ok(RuleSide(cfg.rules[j]))
      else FirstTriggered(host, cfg, index, env, j + 1)
  }

  function SignalAt(host: Host, cfg: Config, cs: seq<Candle>, env: Env, index: nat): Result<Signal, StrategyError>
    requires index < |cs|
  {
    var (side, reason) :- FirstTriggered(host, cfg, index, env, 0);
    Ok(Signal(side, reason, cs[index].closeTime))
  }

  // Series evaluation ---------------------------------------------------------------------------------

  /** The signals of every bar, with the indicators resolved in the given order. */
  ghost predicate SeriesBy(host: Host, cfg: Config, cs: seq<Candle>, order: seq<string>, signals: seq<Signal>) {
    && cs != [] && AllParse(cs) && |signals| == |cs|
    && Exhaustive(cfg.indicators, order)
    && SignalsIn(host, cfg, cs, Resolved(host, cfg.indicators, cs, order), signals)
  }

  ghost predicate SignalsIn(host: Host, cfg: Config, cs: seq<Candle>, env: Env, signals: seq<Signal>)
    requires |signals| == |cs|
  {
    forall i :: 0 <= i < |cs| ==> SignalAt(host, cfg, cs, env, i) == Ok(signals[i])
  }

  /** signals is what EvaluateSeries may return for these candles. */
  ghost predicate IsSeries(host: Host, cfg: Config, cs: seq<Candle>, signals: seq<Signal>) {
    exists order :: SeriesBy(host, cfg, cs, order, signals)
  }

  /** Some bar, with the indicators resolved in some order, fails with this error. */
  ghost predicate BarFails(host: Host, cfg: Config, cs: seq<Candle>, error: StrategyError) {
    exists order :: Exhaustive(cfg.indicators, order) && FailsBy(host, cfg, cs, order, error)
  }

  ghost predicate FailsBy(host: Host, cfg: Config, cs: seq<Candle>, order: seq<string>, error: StrategyError)
    requires Exhaustive(cfg.indicators, order)
  {
    exists i :: 0 <= i < |cs| && SignalAt(host, cfg, cs, Resolved(host, cfg.indicators, cs, order), i) == Err(error)
  }

  /** Why the indicators cannot all be resolved: some are out of reach, or one within reach is malformed. */
  ghost predicate Unresolvable(defs: Definitions, error: StrategyError) {
    || (error == CircularDependency && Grounded(defs) != defs.Keys)
    || exists n :: n in Grounded(defs) && !WellFormed(defs[n]) && error == Refusal(n, defs[n])
  }

  /** The series of some order of resolution, or why there is none; where the order does not matter the answer is the
      only one. */
  method EvaluateSeries(host: Host, cfg: Config, cs: seq<Candle>) returns (r: Result<seq<Signal>, StrategyError>)
    ensures r.Ok? ==> IsSeries(host, cfg, cs, r.value)
    ensures r.Err? ==>
      || (r.error == NoCandles && cs == []) || (r.error == Data(BadField) && !AllParse(cs))
      || Unresolvable(cfg.indicators, r.error) || BarFails(host, cfg, cs, r.error)
    ensures r.Err? && Unambiguous(cfg.indicators) ==> !exists signals :: IsSeries(host, cfg, cs, signals)
  {
    hide SignalAt, Resolved, Legal, Unambiguous, Grounded, WellFormed, Unresolvable, BarFails;
    if |cs| == 0 {
      return Err(NoCandles);
    }
    for i := 0 to |cs|
      invariant AllParse(cs[..i])
    {
      if !Parses(cs[i]) {
        return Err(Data(BadField));
      }
    }
    assert cs[..|cs|] == cs;
    var resolved := ResolveIndicators(host, cfg.indicators, cs);
    if resolved.Err? {
      NoSeriesUnresolved(host, cfg, cs, resolved.error);
      return Err(resolved.error);
    }
    ghost var order :| Exhaustive(cfg.indicators, order) && resolved.value == Resolved(host, cfg.indicators, cs, order);
    var signals: seq<Signal> := [];
    for index := 0 to |cs|
      invariant |signals| == index
      invariant forall i :: 0 <= i < index ==> SignalAt(host, cfg, cs, resolved.value, i) == Ok(signals[i])
    {
      var signal := SignalAt(host, cfg, cs, resolved.value, index);
      if signal.Err? {
        NoSeriesWhenBarFails(host, cfg, cs, order, index, signal.error);
        return Err(signal.error);
      }
      signals := signals + [signal.value];
    }
    assert SeriesBy(host, cfg, cs, order, signals);
    return Ok(signals);
  }

  lemma NoSeriesUnresolved(host: Host, cfg: Config, cs: seq<Candle>, error: StrategyError)
    requires error == CircularDependency ==> Grounded(cfg.indicators) != cfg.indicators.Keys
    requires error != CircularDependency ==>
      exists n :: n in Grounded(cfg.indicators) && !WellFormed(cfg.indicators[n]) && error == Refusal(n, cfg.indicators[n])
    ensures Unresolvable(cfg.indicators, error)
    ensures !exists signals :: IsSeries(host, cfg, cs, signals)
  {
    hide Grounded, WellFormed, Exhaustive;
    if signals :| IsSeries(host, cfg, cs, signals) {
      var order :| SeriesBy(host, cfg, cs, order, signals);
      CompleteMeansGrounded(cfg.indicators, order);
      assert false;
    }
  }

  lemma NoSeriesWhenBarFails(host: Host, cfg: Config, cs: seq<Candle>, order: seq<string>, i: nat, error: StrategyError)
    requires Exhaustive(cfg.indicators, order) && i < |cs|
    requires SignalAt(host, cfg, cs, Resolved(host, cfg.indicators, cs, order), i) == Err(error)
    ensures BarFails(host, cfg, cs, error)
    ensures Unambiguous(cfg.indicators) ==> !exists signals :: IsSeries(host, cfg, cs, signals)
  {
    hide SignalAt, Resolved, Exhaustive, Unambiguous;
    assert FailsBy(host, cfg, cs, order, error);
    if Unambiguous(cfg.indicators) {
      if signals :| IsSeries(host, cfg, cs, signals) {
        var other :| SeriesBy(host, cfg, cs, other, signals);
        ResolutionConfluent(host, cfg.indicators, cs, order, other);
        assert false;
      }
    }
  }

  /** Evaluate on one window: run the series form and keep its last signal. */
  method EvaluateWindow(host: Host, cfg: Config, cs: seq<Candle>) returns (r: Result<Signal, StrategyError>)
    ensures r.Ok? ==> exists signals :: IsSeries(host, cfg, cs, signals) && r.value == signals[|signals| - 1]
    ensures r.Err? ==>
      || (r.error == NoCandles && cs == []) || (r.error == Data(BadField) && !AllParse(cs))
      || Unresolvable(cfg.indicators, r.error) || BarFails(host, cfg, cs, r.error)
    ensures r.Err? && Unambiguous(cfg.indicators) ==> !exists signals :: IsSeries(host, cfg, cs, signals)
  {
    hide BarFails, Unresolvable, Unambiguous, Exhaustive, SignalsIn;
    var signals := EvaluateSeries(host, cfg, cs);
    if signals.Err? {
      return Err(signals.error);
    }
    return Ok(signals.value[|signals.value| - 1]);
  }

  /** Two orders that resolve to the same series: equal ones, or any two when the order does not matter. */
  ghost predicate Interchangeable(defs: Definitions, p: seq<string>, q: seq<string>) {
    p == q || Unambiguous(defs)
  }

  /** Interchangeable orders give the same signals. */
  lemma SeriesUnique(host: Host, cfg: Config, cs: seq<Candle>, p: seq<string>, q: seq<string>, s: seq<Signal>, t: seq<Signal>)
    requires SeriesBy(host, cfg, cs, p, s) && SeriesBy(host, cfg, cs, q, t) && Interchangeable(cfg.indicators, p, q)
    ensures s == t
  {
    hide SignalAt, Legal, Resolved, Unambiguous;
    if p != q {
      ResolutionConfluent(host, cfg.indicators, cs, p, q);
    }
    forall i | 0 <= i < |cs|
      ensures s[i] == t[i]
    {
      assert SignalAt(host, cfg, cs, Resolved(host, cfg.indicators, cs, p), i).value == s[i];
      assert SignalAt(host, cfg, cs, Resolved(host, cfg.indicators, cs, q), i).value == t[i];
    }
  }

  // The series form refines the window form ------------------------------------------------------------

  function Cut(s: seq<real>, k: nat): seq<real> {
    if |s| <= k then s else s[..k]
  }

  function CutEnv(env: Env, k: nat): Env {
    map s | s in env :: Cut(env[s], k)
  }

  lemma OutputsPrefix(host: Host, name: string, def: IndicatorDef, src: seq<real>, cs: seq<Candle>, k: nat)
    requires WellFormed(def) && k <= |cs| && (|src| == 0 || |src| == |cs|)
    ensures Outputs(host, name, def, Cut(src, k), cs[..k]) == CutEnv(Outputs(host, name, def, src, cs), k)
  {
    hide Sma, Ema, Rsi, MacdLine, MacdSignal, MacdHist, Band;
    OutputsShape(host, name, def, src, cs);
    OutputsShape(host, name, def, Cut(src, k), cs[..k]);
    var p := (i: nat) requires i < |def.params| => Truncate(def.params[i]);
    var j := if |src| == 0 then 0 else k;
    assert Cut(src, k) == src[..j];
    match def.kind {
      case SMA => SmaPrefix(src, p(0), j);
      case EMA => EmaPrefix(src, p(0), j);
      case RSI => RsiPrefix(src, p(0), j);
      case ATR =>
        AtrPrefix(cs, p(0), k);
        assert |Atr(cs, p(0))| == |cs|;
        assert Cut(Atr(cs, p(0)), k) == Atr(cs, p(0))[..k];
      case MACD => MacdPrefix(src, p(0), p(1), p(2), j);
      case BB =>
        SmaPrefix(src, p(0), j);
        BandPrefix(host.sqrt, src, p(0), def.params[1], j);
        BandPrefix(host.sqrt, src, p(0), -def.params[1], j);
    }
  }

  /** Whatever the order, resolving over fewer candles gives the same series, cut. */
  lemma {:induction false} ResolvedPrefix(host: Host, defs: Definitions, cs: seq<Candle>, order: seq<string>, k: nat)
    requires Legal(defs, order) && k <= |cs|
    ensures Resolved(host, defs, cs[..k], order) == CutEnv(Resolved(host, defs, cs, order), k)
    decreases |order|
  {
    if order == [] {
      BasePrefix(cs, k);
    } else {
      hide *;
      var done, name := LastOne(host, defs, cs, order);
      var done', name' := LastOne(host, defs, cs[..k], order);
      ResolvedPrefix(host, defs, cs, done, k);
      ResolvedShape(host, defs, cs, done);
      AddPrefix(host, defs[name], name, Resolved(host, defs, cs, done), cs, k);
    }
  }

  lemma BasePrefix(cs: seq<Candle>, k: nat)
    requires k <= |cs|
    ensures Base(cs[..k]) == CutEnv(Base(cs), k)
  {
    forall s | s in BASE_NAMES
      ensures BaseSeries(s, cs[..k]) == Cut(BaseSeries(s, cs), k)
    {
    }
  }

  lemma AddPrefix(host: Host, def: IndicatorDef, name: string, env: Env, cs: seq<Candle>, k: nat)
    requires WellFormed(def) && k <= |cs| && Shaped(env, |cs|)
    ensures CutEnv(env, k) + Outputs(host, name, def, Source(def, CutEnv(env, k)), cs[..k]) ==
            CutEnv(env + Outputs(host, name, def, Source(def, env), cs), k)
  {
    hide Outputs, WellFormed;
    assert Source(def, CutEnv(env, k)) == Cut(Source(def, env), k);
    OutputsPrefix(host, name, def, Source(def, env), cs, k);
  }

  /** An expression at bar `index` cannot tell a cut environment from the full one. */
  lemma {:induction false} EvaluatePrefix(host: Host, e: Expression, index: nat, env: Env, n: nat, k: nat)
    requires index < k <= n && forall s :: s in env ==> |env[s]| == 0 || |env[s]| == n
    ensures Evaluate(host, e, index, CutEnv(env, k)) == Evaluate(host, e, index, env)
    decreases e
  {
    hide Crosses, Compare;
    if e.op != Ref && |e.args| == 1 && e.op == Not {
      EvaluatePrefix(host, e.args[0], index, env, n, k);
    } else if e.op != Ref && e.op != Not && |e.args| == 2 {
      EvaluatePrefix(host, e.args[0], index, env, n, k);
      EvaluatePrefix(host, e.args[1], index, env, n, k);
    }
  }

  lemma {:induction false} FirstTriggeredPrefix(host: Host, cfg: Config, index: nat, env: Env, j: nat, n: nat, k: nat)
    requires j <= |cfg.rules| && index < k <= n && forall s :: s in env ==> |env[s]| == 0 || |env[s]| == n
    ensures FirstTriggered(host, cfg, index, CutEnv(env, k), j) == FirstTriggered(host, cfg, index, env, j)
    decreases |cfg.rules| - j
  {
    hide Evaluate;
    if j < |cfg.rules| {
      var condition := ConditionOf(cfg, cfg.rules[j]);
      if condition.Ok? {
        EvaluatePrefix(host, condition.value, index, env, n, k);
        FirstTriggeredPrefix(host, cfg, index, env, j + 1, n, k);
      }
    }
  }

  /** Whenever the series form succeeds, so does the window form on every prefix with the indicators resolved in the
      same order, and its answer there is exactly the series form's signal at that bar. */
  lemma SeriesRefinesWindows(host: Host, cfg: Config, cs: seq<Candle>, order: seq<string>, signals: seq<Signal>, k: nat)
    requires SeriesBy(host, cfg, cs, order, signals) && 0 < k <= |cs|
    ensures SeriesBy(host, cfg, cs[..k], order, signals[..k])
  {
    hide SignalAt, Legal, Resolved;
    var env := Resolved(host, cfg.indicators, cs, order);
    ResolvedPrefix(host, cfg.indicators, cs, order, k);
    ResolvedShape(host, cfg.indicators, cs, order);
    forall i | 0 <= i < k
      ensures SignalAt(host, cfg, cs[..k], CutEnv(env, k), i) == Ok(signals[..k][i])
    {
      SignalPrefix(host, cfg, cs, env, i, k);
    }
  }

  lemma SignalPrefix(host: Host, cfg: Config, cs: seq<Candle>, env: Env, i: nat, k: nat)
    requires i < k <= |cs| && Shaped(env, |cs|)
    ensures SignalAt(host, cfg, cs[..k], CutEnv(env, k), i) == SignalAt(host, cfg, cs, env, i)
  {
    hide FirstTriggered;
    FirstTriggeredPrefix(host, cfg, i, env, 0, |cs|, k);
  }

  /** No lookahead in the signals: two series that agree on the first k candles agree on k signals, in the same order
      of resolution or, where that does not matter, in any. */
  lemma SignalsCausal(host: Host, cfg: Config, p: seq<string>, q: seq<string>, cs: seq<Candle>, ds: seq<Candle>,
                      s: seq<Signal>, t: seq<Signal>, k: nat)
    requires SeriesBy(host, cfg, cs, p, s) && SeriesBy(host, cfg, ds, q, t) && Interchangeable(cfg.indicators, p, q)
    requires 0 < k <= |cs| && k <= |ds| && cs[..k] == ds[..k]
    ensures s[..k] == t[..k]
  {
    hide SignalsIn, Exhaustive, Interchangeable;
    SeriesRefinesWindows(host, cfg, cs, p, s, k);
    SeriesRefinesWindows(host, cfg, ds, q, t, k);
    SeriesUnique(host, cfg, cs[..k], p, q, s[..k], t[..k]);
  }
}
