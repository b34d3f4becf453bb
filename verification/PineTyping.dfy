/** Which expressions evaluate, decided without evaluating them (internal/strategy/pine_evaluator.go:114-170,
    412-543 and internal/pine/parser.go:651-862): a static type exists exactly when every bar after the first
    gives a value, and that value is of the type. */
module PineTyping {
  import opened Common
  import opened MarketData
  import opened Signals
  import opened PineIR
  import opened Resolution
  import opened PineEvaluator
  import opened PineWellFormed

  datatype ValueType = Quantity | Truth

  function TypeOfValue(v: Value): ValueType {
    if v.Num? then Quantity else Truth
  }

  /** A crossing looks its operands up by name; they must be there and not be empty. */
  predicate Crossable(host: Host, known: set<string>, full: set<string>, e: Expression) {
    e.op == Ref && (if e.val in known then e.val in full else host.parse(e.val).Some?)
  }

  function TypeOfRef(host: Host, known: set<string>, name: string): Option<ValueType> {
    if host.parse(name).Some? then Some(Quantity)
    else if name == "true" || name == "false" then Some(Truth)
    else if name in known then Some(Quantity)
    else None
  }

  function TypeOf(host: Host, known: set<string>, full: set<string>, e: Expression): Option<ValueType> {
    if e.op == Ref then TypeOfRef(host, known, e.val)
    else if e.op == Not then
      if |e.args| == 1 && TypeOf(host, known, full, e.args[0]) == Some(Truth) then Some(Truth) else None
    else if |e.args| != 2 then None
    else
      var (left, right) := (TypeOf(host, known, full, e.args[0]), TypeOf(host, known, full, e.args[1]));
      if IsComparison(e.op) then (if left == right == Some(Quantity) then Some(Truth) else None)
      else if e.op == And || e.op == Or then (if left == right == Some(Truth) then Some(Truth) else None)
      else if e.op == Crossover || e.op == Crossunder then
        if Crossable(host, known, full, e.args[0]) && Crossable(host, known, full, e.args[1]) then Some(Truth) else None
      else None
  }

  /** The names of an environment that hold a value for every bar. */
  function Full(env: Env): set<string> {
    set s | s in env && env[s] != []
  }

  lemma CrossingTyped(host: Host, e: Expression, index: nat, env: Env, n: nat)
    requires 1 <= index < n && Shaped(env, n) && (e.op == Crossover || e.op == Crossunder) && |e.args| == 2
    requires forall i :: 0 <= i < 2 && e.args[i].op == Ref ==>
      (Evaluate(host, e.args[i], index, env).Ok? <==> TypeOfRef(host, env.Keys, e.args[i].val).Some?)
    ensures var r := Evaluate(host, e, index, env);
      && (r.Ok? <==> Crossable(host, env.Keys, Full(env), e.args[0]) && Crossable(host, env.Keys, Full(env), e.args[1]))
      && (r.Ok? ==> r.value.Bool?)
  {
    var (a, b) := (e.args[0], e.args[1]);
    assert Crossable(host, env.Keys, Full(env), a) ==> Evaluate(host, a, index, env).Ok?;
    assert Crossable(host, env.Keys, Full(env), b) ==> Evaluate(host, b, index, env).Ok?;
  }

  /** From the second bar on, an expression evaluates if and only if it has a type, and to a value of that type. */
  lemma {:induction false} EvaluatesIffTyped(host: Host, e: Expression, index: nat, env: Env, n: nat)
    requires 1 <= index < n && Shaped(env, n)
    ensures var (r, t) := (Evaluate(host, e, index, env), TypeOf(host, env.Keys, Full(env), e));
      && (r.Ok? <==> t.Some?) && (r.Ok? ==> t == Some(TypeOfValue(r.value)))
  {
    hide CrossSeries, Crosses, Compare, Crossable;
    if e.op == Not && |e.args| == 1 {
      EvaluatesIffTyped(host, e.args[0], index, env, n);
    } else if e.op != Ref && e.op != Not && |e.args| == 2 {
      EvaluatesIffTyped(host, e.args[0], index, env, n);
      EvaluatesIffTyped(host, e.args[1], index, env, n);
      if e.op == Crossover || e.op == Crossunder {
        CrossingTyped(host, e, index, env, n);
      }
    }
  }

  /** So one bar decides for all: whether an expression evaluates does not depend on prices. */
  lemma OneBarDecides(host: Host, e: Expression, i: nat, env: Env, n: nat, j: nat, other: Env, m: nat)
    requires 1 <= i < n && 1 <= j < m && Shaped(env, n) && Shaped(other, m)
    requires env.Keys == other.Keys && Full(env) == Full(other)
    ensures Evaluate(host, e, i, env).Ok? <==> Evaluate(host, e, j, other).Ok?
  {
    hide Evaluate, TypeOf;
    EvaluatesIffTyped(host, e, i, env, n);
    EvaluatesIffTyped(host, e, j, other, m);
  }

  /** On the first bar a crossing is false before its operands are looked up; what has a type evaluates there too. */
  lemma {:induction false} TypedEvaluatesAtOnce(host: Host, e: Expression, env: Env, n: nat)
    requires 0 < n && Shaped(env, n)
    ensures var t := TypeOf(host, env.Keys, Full(env), e);
      t.Some? ==> var r := Evaluate(host, e, 0, env); r.Ok? && t == Some(TypeOfValue(r.value))
  {
    hide CrossSeries, Crosses, Compare;
    if e.op == Not && |e.args| == 1 {
      TypedEvaluatesAtOnce(host, e.args[0], env, n);
    } else if e.op != Ref && e.op != Not && |e.args| == 2 {
      TypedEvaluatesAtOnce(host, e.args[0], env, n);
      TypedEvaluatesAtOnce(host, e.args[1], env, n);
    }
  }

  // What the parser offers and the evaluator refuses ---------------------------------------------------------------

  /** No ternary and no indicator call stands anywhere in e. */
  predicate Plain(e: Expression) {
    e.op != Ternary && e.op != Indicator && forall i :: 0 <= i < |e.args| ==> Plain(e.args[i])
  }

  /** A ternary or an inline indicator call parses without complaint, but a condition that holds one fails on every
      bar, the first included, whatever is resolved. */
  lemma {:induction false} UnplainFails(host: Host, e: Expression, index: nat, env: Env)
    requires Grammatical(e) && !Plain(e)
    ensures Evaluate(host, e, index, env).Err?
  {
    if e.op != Ternary && e.op != Indicator {
      var i :| 0 <= i < |e.args| && !Plain(e.args[i]);
      assert Grammatical(e.args[i]);
      UnplainFails(host, e.args[i], index, env);
    }
  }

  /** So no such condition has a type. */
  lemma {:induction false} TypedIsPlain(host: Host, known: set<string>, full: set<string>, e: Expression)
    requires Grammatical(e) && TypeOf(host, known, full, e).Some?
    ensures Plain(e)
  {
    forall i | 0 <= i < |e.args|
      ensures Plain(e.args[i])
    {
      if e.op == Crossover || e.op == Crossunder {
        assert Grammatical(e.args[i]) && e.args[i].op == Ref;
      } else {
        TypedIsPlain(host, known, full, e.args[i]);
      }
    }
  }

  // Whole strategies ------------------------------------------------------------------------------------------------

  /** Every rule's condition is defined and has a type. */
  predicate RulesTyped(host: Host, cfg: Config, known: set<string>, full: set<string>) {
    forall j :: 0 <= j < |cfg.rules| ==>
      var c := ConditionOf(cfg, cfg.rules[j]);
      c.Ok? && TypeOf(host, known, full, c.value).Some?
  }

  lemma {:induction false} TypedRulesDecide(host: Host, cfg: Config, index: nat, env: Env, n: nat, j: nat)
    requires index < n && Shaped(env, n) && RulesTyped(host, cfg, env.Keys, Full(env)) && j <= |cfg.rules|
    ensures FirstTriggered(host, cfg, index, env, j).Ok?
    decreases |cfg.rules| - j
  {
    hide Evaluate, TypeOf;
    if j < |cfg.rules| {
      var c := ConditionOf(cfg, cfg.rules[j]);
      if index == 0 {
        TypedEvaluatesAtOnce(host, c.value, env, n);
      } else {
        EvaluatesIffTyped(host, c.value, index, env, n);
      }
      TypedRulesDecide(host, cfg, index, env, n, j + 1);
    }
  }

  function SignalsUnder(host: Host, cfg: Config, cs: seq<Candle>, env: Env, k: nat): (r: seq<Signal>)
    requires k <= |cs| && forall i :: 0 <= i < |cs| ==> SignalAt(host, cfg, cs, env, i).Ok?
    ensures |r| == k && forall i :: 0 <= i < k ==> SignalAt(host, cfg, cs, env, i) == Ok(r[i])
  {
    if k == 0 then [] else SignalsUnder(host, cfg, cs, env, k - 1) + [SignalAt(host, cfg, cs, env, k - 1).value]
  }

  /** A strategy whose indicators resolve and whose conditions have types yields a signal on every bar: series
      evaluation, whose only failures are those, succeeds. */
  lemma TypedStrategySucceeds(host: Host, cfg: Config, cs: seq<Candle>, order: seq<string>)
    requires cs != [] && AllParse(cs) && Exhaustive(cfg.indicators, order)
    requires var env := Resolved(host, cfg.indicators, cs, order); RulesTyped(host, cfg, env.Keys, Full(env))
    ensures exists signals :: SeriesBy(host, cfg, cs, order, signals)
  {
    hide FirstTriggered, RulesTyped, Resolved, Legal;
    ResolvedShape(host, cfg.indicators, cs, order);
    var env := Resolved(host, cfg.indicators, cs, order);
    forall i | 0 <= i < |cs|
      ensures SignalAt(host, cfg, cs, env, i).Ok?
    {
      TypedRulesDecide(host, cfg, i, env, |cs|, 0);
    }
    var signals := SignalsUnder(host, cfg, cs, env, |cs|);
    hide SignalAt;
    assert SeriesBy(host, cfg, cs, order, signals);
  }
}
