/** The built-in RSI mean reversion and the same strategy written in Pine trade alike
    (internal/strategy/rsi.go:29-58 against pine_evaluator.go:114-165, 274-330, 461-481). */
module AgreementRsi {
  import opened Common
  import opened MarketData
  import opened Signals
  import opened PineIR
  import opened Indicators
  import opened Resolution
  import opened PineEvaluator
  import opened Native

  /** The index of the close; close when it is at least `high`, otherwise enter long when it is at most `low`. */
  function ReversionConfig(n: string, period: int, low: string, high: string): Config {
    Config(
      map[n := IndicatorDef(RSI, "close", [period as real])],
      map["hot" := Binary(Ge, Reference(n), Reference(high)), "cold" := Binary(Le, Reference(n), Reference(low))],
      [Rule("hot", Close, "Long", Long), Rule("cold", Entry, "Long", Long)])
  }

  /** The variable's name is neither a base series nor a number nor a truth value, and the thresholds are read as they
      are written. */
  predicate ReadAsWritten(host: Host, n: string, low: string, high: string, oversold: real, overbought: real) {
    && n !in BASE_NAMES && n !in {"true", "false", ""} && host.parse(n) == None
    && host.parse(low) == Some(oversold) && host.parse(high) == Some(overbought)
  }

  function ReversionEnv(n: string, period: int, cs: seq<Candle>): Env {
    Base(cs)[n := Rsi(BaseSeries("close", cs), period)]
  }

  lemma IndexUnambiguous(n: string, period: int, low: string, high: string)
    requires n !in BASE_NAMES
    ensures Unambiguous(ReversionConfig(n, period, low, high).indicators)
  {
    var defs := ReversionConfig(n, period, low, high).indicators;
    forall m | m in defs
      ensures OutputNames(m, defs[m].kind) == {m} && m !in BASE_NAMES
    {
    }
  }

  lemma IndexStartable(n: string, period: int, low: string, high: string)
    ensures var defs := ReversionConfig(n, period, low, high).indicators; WellFormed(defs[n]) && Startable(defs, Names([]), n)
  {
    assert "close" in BASE_NAMES;
  }

  /** What the index is computed from and what it is called. */
  lemma IndexComputed(host: Host, n: string, period: int, low: string, high: string, cs: seq<Candle>)
    ensures var def := ReversionConfig(n, period, low, high).indicators[n];
      WellFormed(def) &&
      Outputs(host, n, def, Source(def, Base(cs)), cs) == map[n := Rsi(BaseSeries("close", cs), period)]
  {
    hide Rsi, BaseSeries;
    assert "close" in BASE_NAMES && Truncate(period as real) == period;
  }

  lemma ReversionResolved(host: Host, n: string, period: int, low: string, high: string, cs: seq<Candle>)
    ensures var defs := ReversionConfig(n, period, low, high).indicators;
      Exhaustive(defs, [n]) && Resolved(host, defs, cs, [n]) == ReversionEnv(n, period, cs)
  {
    hide Rsi, BaseSeries, Startable, WellFormed, Outputs, Source, Base;
    var defs := ReversionConfig(n, period, low, high).indicators;
    assert Legal(defs, []) && Resolved(host, defs, cs, []) == Base(cs) && Names([]) == {} && defs.Keys == {n};
    hide Legal, Resolved, Names;
    IndexStartable(n, period, low, high);
    OneMore(host, defs, cs, [], n);
    assert [] + [n] == [n];
    IndexComputed(host, n, period, low, high, cs);
  }

  function ReversionAt(value: real, oversold: real, overbought: real): Side {
    if value >= overbought then Sell else if value <= oversold then Buy else Hold
  }

  /** What the two rules decide at a bar. */
  lemma RulesDecide(host: Host, n: string, period: int, low: string, high: string, oversold: real, overbought: real,
                    cs: seq<Candle>, i: nat)
    requires ReadAsWritten(host, n, low, high, oversold, overbought) && i < |cs|
    ensures var s := SignalAt(host, ReversionConfig(n, period, low, high), cs, ReversionEnv(n, period, cs), i);
      s.Ok? && s.value.side == ReversionAt(RsiAt(BaseSeries("close", cs), period, i), oversold, overbought)
  {
    hide RsiAt, BaseSeries, Evaluate;
    var cfg := ReversionConfig(n, period, low, high);
    var env := ReversionEnv(n, period, cs);
    var (hot, cold) := (cfg.conditions["hot"], cfg.conditions["cold"]);
    CloseCount(cs);
    assert env[n] == Rsi(BaseSeries("close", cs), period) && |env[n]| == |cs|;
    var value := RsiAt(BaseSeries("close", cs), period, i);
    NumberRead(host, n, i, env, value);
    LiteralRead(host, high, i, env, overbought);
    LiteralRead(host, low, i, env, oversold);
    ComparisonMeans(host, hot, i, env, value, overbought);
    ComparisonMeans(host, cold, i, env, value, oversold);
    assert ConditionOf(cfg, cfg.rules[0]) == Ok(hot) && ConditionOf(cfg, cfg.rules[1]) == Ok(cold);
    assert FirstTriggered(host, cfg, i, env, 2) == Ok((Hold, "no execution rules triggered"));
    assert FirstTriggered(host, cfg, i, env, 1).Ok?;
  }

  lemma CloseCount(cs: seq<Candle>)
    ensures |BaseSeries("close", cs)| == |cs|
  {
  }

  lemma NumberRead(host: Host, n: string, i: nat, env: Env, value: real)
    requires host.parse(n) == None && n !in {"true", "false"} && n in env && i < |env[n]| && env[n][i] == value
    ensures Evaluate(host, Reference(n), i, env) == Ok(Num(value))
  {
  }

  lemma LiteralRead(host: Host, text: string, i: nat, env: Env, value: real)
    requires host.parse(text) == Some(value)
    ensures Evaluate(host, Reference(text), i, env) == Ok(Num(value))
  {
  }

  /** The native window of fewer than 250 candles is all of them. */
  lemma NativeIndex(period: int, oversold: real, overbought: real, cs: seq<Candle>, i: nat)
    requires AllParse(cs) && 0 < period <= i < |cs| && i < 250 && 0.0 < oversold < overbought < 100.0
    ensures RsiReversion(period, oversold, overbought, cs[..i + 1]) ==
      Ok(ReversionAt(RsiAt(BaseSeries("close", cs), period, i), oversold, overbought))
  {
    hide RsiAt;
    var window := cs[..i + 1];
    assert Closes(window) == BaseSeries("close", cs)[..i + 1];
    RsiPrefix(BaseSeries("close", cs), period, i + 1);
    assert Parsed(window);
    assert Rsi(BaseSeries("close", cs), period)[..i + 1][i] == RsiAt(BaseSeries("close", cs), period, i);
    assert NativeRsi(window, period).value == RsiAt(BaseSeries("close", cs), period, i);
  }

  /** The Pine form never fails, and from bar `period` on, as long as the native strategy looks at every candle, its side
      is the native strategy's. */
  lemma ReversionAgreesWithPine(host: Host, n: string, period: int, low: string, high: string, oversold: real,
                                overbought: real, cs: seq<Candle>)
    requires ReadAsWritten(host, n, low, high, oversold, overbought) && cs != [] && AllParse(cs)
    requires 0 < period && 0.0 < oversold < overbought < 100.0
    ensures var cfg := ReversionConfig(n, period, low, high);
      && (exists signals :: IsSeries(host, cfg, cs, signals))
      && forall signals: seq<Signal> :: IsSeries(host, cfg, cs, signals) ==>
           forall i :: period <= i < |cs| && i < 250 ==>
             RsiReversion(period, oversold, overbought, cs[..i + 1]) == Ok(signals[i].side)
  {
    hide SignalAt, ReversionEnv, RsiReversion, Legal, Resolved, Unambiguous, RsiAt, BaseSeries;
    var cfg := ReversionConfig(n, period, low, high);
    var env := ReversionEnv(n, period, cs);
    IndexUnambiguous(n, period, low, high);
    ReversionResolved(host, n, period, low, high, cs);
    forall i | 0 <= i < |cs|
      ensures SignalAt(host, cfg, cs, env, i).Ok?
      ensures period <= i < 250 ==>
        RsiReversion(period, oversold, overbought, cs[..i + 1]) == Ok(SignalAt(host, cfg, cs, env, i).value.side)
    {
      RulesDecide(host, n, period, low, high, oversold, overbought, cs, i);
      if period <= i < 250 {
        NativeIndex(period, oversold, overbought, cs, i);
      }
    }
    var signals := seq(|cs|, i requires 0 <= i < |cs| => SignalAt(host, cfg, cs, env, i).value);
    assert SeriesBy(host, cfg, cs, [n], signals);
    assert IsSeries(host, cfg, cs, signals);
    forall other | IsSeries(host, cfg, cs, other)
      ensures other == signals
    {
      var order :| SeriesBy(host, cfg, cs, order, other);
      SeriesUnique(host, cfg, cs, order, [n], other, signals);
    }
  }
}
