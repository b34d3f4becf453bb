/** The built-in SMA crossover and the same strategy written in Pine trade alike
    (internal/strategy/sma.go:33-76 against pine_evaluator.go:239-254, 494-540). */
module Agreement {
  import opened Common
  import opened MarketData
  import opened Signals
  import opened PineIR
  import opened Indicators
  import opened Resolution
  import opened PineEvaluator
  import opened Native

  /** Two averages of the close; enter long when the fast one crosses over, close when it crosses under. */
  function CrossoverConfig(f: string, s: string, fast: int, slow: int): Config {
    Config(
      map[f := IndicatorDef(SMA, "close", [fast as real]), s := IndicatorDef(SMA, "close", [slow as real])],
      map["up" := Binary(Crossover, Reference(f), Reference(s)), "down" := Binary(Crossunder, Reference(f), Reference(s))],
      [Rule("up", Entry, "Long", Long), Rule("down", Close, "Long", Long)])
  }

  /** The two variable names are distinct, are not base series, and do not read as numbers or truth values. */
  predicate Usable(host: Host, f: string, s: string) {
    f != s && {f, s} !! BASE_NAMES && {f, s} !! {"true", "false", ""} && host.parse(f) == None && host.parse(s) == None
  }

  lemma CrossoverResolvable(host: Host, f: string, s: string, fast: int, slow: int)
    requires Usable(host, f, s)
    ensures var defs := CrossoverConfig(f, s, fast, slow).indicators; Unambiguous(defs) && Exhaustive(defs, [f, s])
  {
    hide Exhaustive, Unambiguous;
    AveragesUnambiguous(f, s, fast, slow);
    PairResolvable(CrossoverConfig(f, s, fast, slow).indicators, f, s);
  }

  lemma AveragesUnambiguous(f: string, s: string, fast: int, slow: int)
    requires f != s && {f, s} !! BASE_NAMES
    ensures Unambiguous(CrossoverConfig(f, s, fast, slow).indicators)
  {
    var defs := CrossoverConfig(f, s, fast, slow).indicators;
    forall n | n in defs
      ensures OutputNames(n, defs[n].kind) == {n} && n !in BASE_NAMES
    {
    }
  }

  function CrossoverEnv(host: Host, f: string, s: string, fast: int, slow: int, cs: seq<Candle>): Env {
    (map b | b in BASE_NAMES :: BaseSeries(b, cs))[f := Sma(BaseSeries("close", cs), fast)][s := Sma(BaseSeries("close", cs), slow)]
  }

  lemma AddAverage(host: Host, defs: Definitions, cs: seq<Candle>, order: seq<string>, n: string, period: int)
    requires Legal(defs, order) && n in defs && n !in order
    requires defs[n] == IndicatorDef(SMA, "close", [period as real])
    requires var env := Resolved(host, defs, cs, order); "close" in env && env["close"] == BaseSeries("close", cs)
    ensures Legal(defs, order + [n])
    ensures Resolved(host, defs, cs, order + [n]) == Resolved(host, defs, cs, order)[n := Sma(BaseSeries("close", cs), period)]
  {
    hide Sma, BaseSeries, Resolved, Legal;
    assert Truncate(period as real) == period;
    OneMore(host, defs, cs, order, n);
  }

  lemma CrossoverResolved(host: Host, f: string, s: string, fast: int, slow: int, cs: seq<Candle>)
    requires Usable(host, f, s)
    ensures var defs := CrossoverConfig(f, s, fast, slow).indicators;
      Exhaustive(defs, [f, s]) && Resolved(host, defs, cs, [f, s]) == CrossoverEnv(host, f, s, fast, slow, cs)
  {
    hide Sma, BaseSeries, Unambiguous, Outputs;
    var defs := CrossoverConfig(f, s, fast, slow).indicators;
    CrossoverResolvable(host, f, s, fast, slow);
    assert Legal(defs, []) && Resolved(host, defs, cs, []) == Base(cs);
    hide Legal, Resolved;
    AddAverage(host, defs, cs, [], f, fast);
    assert [] + [f] == [f];
    AddAverage(host, defs, cs, [f], s, slow);
    assert [f] + [s] == [f, s];
  }

  lemma SmaLength(src: seq<real>, period: int)
    ensures |Sma(src, period)| == |src|
  {
  }

  function CrossoverSide(host: Host, f: string, s: string, fast: int, slow: int, cs: seq<Candle>, i: nat): Side
    requires 0 < i < |cs|
  {
    var (a, b) := (Sma(BaseSeries("close", cs), fast), Sma(BaseSeries("close", cs), slow));
    if Crosses(Crossover, a[i - 1], b[i - 1], a[i], b[i]) then Buy
    else if Crosses(Crossunder, a[i - 1], b[i - 1], a[i], b[i]) then Sell
    else Hold
  }

  lemma CrossingValue(host: Host, op: Op, f: string, s: string, i: nat, env: Env)
    requires Usable(host, f, s) && (op == Crossover || op == Crossunder)
    requires f in env && s in env && i < |env[f]| && i < |env[s]|
    ensures Evaluate(host, Binary(op, Reference(f), Reference(s)), i, env) ==
            Ok(Bool(i > 0 && Crosses(op, env[f][i - 1], env[s][i - 1], env[f][i], env[s][i])))
  {
    hide Crosses;
    assert EvaluateRef(host, f, i, env).Ok? && EvaluateRef(host, s, i, env).Ok?;
    var e := Binary(op, Reference(f), Reference(s));
    assert e.args[0] == Reference(f) && e.args[1] == Reference(s);
    assert Evaluate(host, e.args[0], i, env) == EvaluateRef(host, f, i, env);
    assert Evaluate(host, e.args[1], i, env) == EvaluateRef(host, s, i, env);
  }

  lemma CrossoverSignal(host: Host, f: string, s: string, fast: int, slow: int, cs: seq<Candle>, i: nat)
    requires Usable(host, f, s) && i < |cs|
    ensures var r := SignalAt(host, CrossoverConfig(f, s, fast, slow), cs, CrossoverEnv(host, f, s, fast, slow, cs), i);
      r.Ok? && r.value.side == if i == 0 then Hold else CrossoverSide(host, f, s, fast, slow, cs, i)
  {
    hide Sma, Crosses, Evaluate, BaseSeries;
    var cfg := CrossoverConfig(f, s, fast, slow);
    var env := CrossoverEnv(host, f, s, fast, slow, cs);
    var closes := BaseSeries("close", cs);
    assert |closes| == |cs| by {
      CloseLength(cs);
    }
    SmaLength(closes, fast);
    SmaLength(closes, slow);
    assert env[f] == Sma(closes, fast) && env[s] == Sma(closes, slow);
    CrossingValue(host, Crossover, f, s, i, env);
    CrossingValue(host, Crossunder, f, s, i, env);
    var (up, down) := (cfg.rules[0], cfg.rules[1]);
    assert ConditionOf(cfg, up) == Ok(Binary(Crossover, Reference(f), Reference(s)));
    assert ConditionOf(cfg, down) == Ok(Binary(Crossunder, Reference(f), Reference(s)));
    assert FirstTriggered(host, cfg, i, env, 2) == Ok((Hold, "no execution rules triggered"));
    var second := FirstTriggered(host, cfg, i, env, 1);
    assert second.Ok?;
  }

  lemma CloseLength(cs: seq<Candle>)
    ensures |BaseSeries("close", cs)| == |cs|
  {
  }

  /** The Pine form never fails, and from bar `slow` on its side is the native strategy's side, in whatever order the two
      averages were resolved. */
  lemma NativeAgreesWithPine(host: Host, f: string, s: string, fast: int, slow: int, cs: seq<Candle>)
    requires Usable(host, f, s) && cs != [] && AllParse(cs) && 0 < fast < slow
    ensures var cfg := CrossoverConfig(f, s, fast, slow);
      && (exists signals :: IsSeries(host, cfg, cs, signals))
      && forall signals: seq<Signal> :: IsSeries(host, cfg, cs, signals) ==>
           forall i :: slow <= i < |cs| ==> SmaCrossover(fast, slow, cs[..i + 1]) == Ok(signals[i].side)
  {
    hide SignalAt, CrossoverEnv, SmaCrossover, CrossoverSide, Legal, Resolved, Unambiguous;
    var cfg := CrossoverConfig(f, s, fast, slow);
    var env := CrossoverEnv(host, f, s, fast, slow, cs);
    CrossoverResolvable(host, f, s, fast, slow);
    CrossoverResolved(host, f, s, fast, slow, cs);
    forall i | 0 <= i < |cs|
      ensures SignalAt(host, cfg, cs, env, i).Ok?
      ensures i >= slow ==> SmaCrossover(fast, slow, cs[..i + 1]) == Ok(SignalAt(host, cfg, cs, env, i).value.side)
    {
      CrossoverSignal(host, f, s, fast, slow, cs, i);
      if i >= slow {
        WindowSide(host, f, s, fast, slow, cs, i);
      }
    }
    var signals := seq(|cs|, i requires 0 <= i < |cs| => SignalAt(host, cfg, cs, env, i).value);
    assert SeriesBy(host, cfg, cs, [f, s], signals);
    assert IsSeries(host, cfg, cs, signals);
    forall other | IsSeries(host, cfg, cs, other)
      ensures other == signals
    {
      var order :| SeriesBy(host, cfg, cs, order, other);
      SeriesUnique(host, cfg, cs, order, [f, s], other, signals);
    }
  }

  lemma WindowSide(host: Host, f: string, s: string, fast: int, slow: int, cs: seq<Candle>, i: nat)
    requires 0 < fast < slow <= i < |cs| && AllParse(cs)
    ensures SmaCrossover(fast, slow, cs[..i + 1]) == Ok(CrossoverSide(host, f, s, fast, slow, cs, i))
  {
    hide Mean;
    WindowAverage(cs, fast, i);
    WindowAverage(cs, slow, i);
    WindowAverage(cs, fast, i - 1);
    WindowAverage(cs, slow, i - 1);
    WindowEnds(cs, fast, i);
    WindowEnds(cs, slow, i);
    hide AverageClose, BaseSeries, SmaAt, CrossSide, Crosses;
    SameCross(Sma(BaseSeries("close", cs), fast)[i - 1], Sma(BaseSeries("close", cs), slow)[i - 1],
              Sma(BaseSeries("close", cs), fast)[i], Sma(BaseSeries("close", cs), slow)[i]);
  }

  /** Where the native strategy and the Pine averages look for the same bars. */
  lemma WindowEnds(cs: seq<Candle>, period: int, i: nat)
    requires 0 < period <= i < |cs|
    ensures var window := cs[..i + 1];
      && window[|window| - period..] == cs[i + 1 - period..i + 1]
      && window[|window| - period - 1..|window| - 1] == cs[i - period..i]
  {
  }

  lemma SameCross(prevA: real, prevB: real, currA: real, currB: real)
    ensures CrossSide(prevA, prevB, currA, currB) ==
      if Crosses(Crossover, prevA, prevB, currA, currB) then Buy
      else if Crosses(Crossunder, prevA, prevB, currA, currB) then Sell
      else Hold
  {
  }

  /** The mean the native strategy recomputes is the one the sliding sum carries. */
  lemma WindowAverage(cs: seq<Candle>, period: int, i: nat)
    requires 0 < period <= i + 1 <= |cs| && AllParse(cs)
    ensures AverageClose(cs[i + 1 - period..i + 1]) == Ok(SmaAt(BaseSeries("close", cs), period, i))
  {
    var closes := BaseSeries("close", cs);
    assert Closes(cs[i + 1 - period..i + 1]) == Window(closes, period, i);
  }
}
