/** Indicator resolution (internal/strategy/pine_evaluator.go:74-112, 172-235): a worklist that
    visits unresolved indicators in whatever order the map yields them. */
module Resolution {
  import opened Common
  import opened MarketData
  import opened Signals
  import opened PineIR
  import opened Indicators

  type Env = map<string, seq<real>>
  type Definitions = map<string, IndicatorDef>

  /** What the evaluator takes from its host: number parsing and the square root. */
  datatype Host = Host(parse: string -> Option<real>, sqrt: real -> real)

  // Base series ------------------------------------------------------------------------------

  const BASE_NAMES: set<string> := {"open", "high", "low", "close", "volume"}

  predicate Parses(c: Candle) {
    c.open.Number? && c.high.Number? && c.low.Number? && c.close.Number? && c.volume.Number?
  }

  predicate AllParse(cs: seq<Candle>) {
    forall i :: 0 <= i < |cs| ==> Parses(cs[i])
  }

  function BaseField(name: string, c: Candle): Field {
    if name == "open" then c.open
    else if name == "high" then c.high
    else if name == "low" then c.low
    else if name == "close" then c.close
    else c.volume
  }

  function BaseSeries(name: string, cs: seq<Candle>): seq<real> {
    seq(|cs|, i requires 0 <= i < |cs| => OrZero(BaseField(name, cs[i])))
  }

  // Indicators ---------------------------------------------------------------------------------

  function OutputNames(name: string, kind: Kind): set<string> {
    match kind
    case MACD => {name, name + ".signal", name + ".hist"}
    case BB => {name, name + ".upper", name + ".lower"}
    case _ => {name}
  }

  function ParameterCount(kind: Kind): nat {
    match kind
    case MACD => 3
    case BB => 2
    case Unknown(_) => 0
    case _ => 1
  }

  predicate WellFormed(def: IndicatorDef) {
    !def.kind.Unknown? && |def.params| >= ParameterCount(def.kind)
  }

  /** Go's int(x), which truncates towards zero. */
  function Truncate(x: real): int {
    if x >= 0.0 then x.Floor else -(-x).Floor
  }

  lemma TowardsZero(x: real)
    ensures x >= 0.0 ==> 0.0 <= Truncate(x) as real <= x < (Truncate(x) + 1) as real
    ensures x <= 0.0 ==> (Truncate(x) - 1) as real < x <= Truncate(x) as real <= 0.0
  {
  }

  /** The source series; Go's map lookup gives an empty one for a missing name. */
  function Source(def: IndicatorDef, env: Env): seq<real> {
    if def.source == "" || def.source !in env then [] else env[def.source]
  }

  /** The series an indicator contributes under its own and its derived names. */
  function Outputs(host: Host, name: string, def: IndicatorDef, src: seq<real>, cs: seq<Candle>): Env
    requires WellFormed(def)
  {
    var p := (i: nat) requires i < |def.params| => Truncate(def.params[i]);
    match def.kind
    case SMA => map[name := Sma(src, p(0))]
    case EMA => map[name := Ema(src, p(0))]
    case RSI => map[name := Rsi(src, p(0))]
    case ATR => map[name := Atr(cs, p(0))]
    case MACD =>
      map[name := MacdLine(src, p(0), p(1)),
          name + ".signal" := MacdSignal(src, p(0), p(1), p(2)),
          name + ".hist" := MacdHist(src, p(0), p(1), p(2))]
    case BB =>
      map[name := Sma(src, p(0)),
          name + ".upper" := Band(host.sqrt, src, p(0), def.params[1]),
          name + ".lower" := Band(host.sqrt, src, p(0), -def.params[1])]
  }

  lemma OutputsShape(host: Host, name: string, def: IndicatorDef, src: seq<real>, cs: seq<Candle>)
    requires WellFormed(def)
    ensures Outputs(host, name, def, src, cs).Keys == OutputNames(name, def.kind)
    ensures forall s :: s in Outputs(host, name, def, src, cs) ==>
              |Outputs(host, name, def, src, cs)[s]| == if def.kind.ATR? then |cs| else |src|
  {
    assert |name| + 7 == |name + ".signal"| && |name| + 5 == |name + ".hist"|;
    assert |name| + 6 == |name + ".upper"| == |name + ".lower"|;
    assert (name + ".upper")[|name| + 1] == 'u' && (name + ".lower")[|name| + 1] == 'l';
  }

  // Which indicators can be resolved -------------------------------------------------------------

  /** Some finished indicator, or a base series, goes by the name s. */
  ghost predicate Supplied(defs: Definitions, done: set<string>, s: string) {
    s in BASE_NAMES || exists n :: n in done && n in defs && s in OutputNames(n, defs[n].kind)
  }

  ghost predicate Startable(defs: Definitions, done: set<string>, name: string)
    requires name in defs
  {
    defs[name].source == "" || Supplied(defs, done, defs[name].source)
  }

  /** A set of indicators that no further one can be added to. */
  ghost predicate Closed(defs: Definitions, done: set<string>) {
    forall n :: n in defs && Startable(defs, done, n) ==> n in done
  }

  /** The least closed set: the indicators whose sources lead back to the base series. */
  ghost function Grounded(defs: Definitions): set<string> {
    set n | n in defs && forall done: set<string> :: Closed(defs, done) ==> n in done
  }

  // Orders of resolution ---------------------------------------------------------------------------

  function Names(order: seq<string>): set<string> {
    set n | n in order
  }

  /** An order in which a worklist can finish indicators: each is new, well formed, and finds its source. */
  ghost predicate Legal(defs: Definitions, order: seq<string>)
    decreases |order|
  {
    order == [] ||
    (var (done, name) := (order[..|order| - 1], order[|order| - 1]);
     Legal(defs, done) && name in defs && name !in done && WellFormed(defs[name]) && Startable(defs, Names(done), name))
  }

  ghost predicate Exhaustive(defs: Definitions, order: seq<string>) {
    Legal(defs, order) && Names(order) == defs.Keys
  }

  function Base(cs: seq<Candle>): Env {
    map s | s in BASE_NAMES :: BaseSeries(s, cs)
  }

  /** The series once the indicators of an order have been computed one after another. */
  ghost function Resolved(host: Host, defs: Definitions, cs: seq<Candle>, order: seq<string>): Env
    requires Legal(defs, order)
    decreases |order|
  {
    if order == [] then Base(cs)
    else
      var (env, name) := (Resolved(host, defs, cs, order[..|order| - 1]), order[|order| - 1]);
      env + Outputs(host, name, defs[name], Source(defs[name], env), cs)
  }

  lemma OneMore(host: Host, defs: Definitions, cs: seq<Candle>, order: seq<string>, name: string)
    requires Legal(defs, order) && name in defs && name !in order && WellFormed(defs[name]) && Startable(defs, Names(order), name)
    ensures Legal(defs, order + [name]) && Names(order + [name]) == Names(order) + {name}
    ensures var env := Resolved(host, defs, cs, order);
      Resolved(host, defs, cs, order + [name]) == env + Outputs(host, name, defs[name], Source(defs[name], env), cs)
  {
    hide WellFormed, Outputs, Startable;
    assert (order + [name])[..|order|] == order;
  }

  lemma LastOne(host: Host, defs: Definitions, cs: seq<Candle>, order: seq<string>) returns (done: seq<string>, name: string)
    requires Legal(defs, order) && order != []
    ensures done == order[..|order| - 1] && name == order[|order| - 1] && Legal(defs, done)
    ensures name in defs && name !in Names(done) && WellFormed(defs[name]) && Startable(defs, Names(done), name)
    ensures Names(order) == Names(done) + {name}
    ensures var env := Resolved(host, defs, cs, done);
      Resolved(host, defs, cs, order) == env + Outputs(host, name, defs[name], Source(defs[name], env), cs)
  {
    hide WellFormed, Outputs, Startable, Source;
    done, name := order[..|order| - 1], order[|order| - 1];
    assert order == done + [name];
  }

  lemma SuppliedByMore(defs: Definitions, done: set<string>, name: string, s: string)
    requires name in defs
    ensures Supplied(defs, done + {name}, s) <==> Supplied(defs, done, s) || s in OutputNames(name, defs[name].kind)
  {
    hide OutputNames;
    if s in OutputNames(name, defs[name].kind) {
      assert name in done + {name};
    }
    if Supplied(defs, done, s) && s !in BASE_NAMES {
      var n :| n in done && n in defs && s in OutputNames(n, defs[n].kind);
      assert n in done + {name};
    }
  }

  /** The names in env are the base names and those the finished indicators write. */
  ghost predicate Offers(defs: Definitions, done: set<string>, env: Env) {
    forall s :: s in env <==> Supplied(defs, done, s)
  }

  /** Series are empty or have a value for each of n bars. */
  predicate Shaped(env: Env, n: nat) {
    forall s :: s in env ==> |env[s]| == 0 || |env[s]| == n
  }

  lemma AddOutputs(host: Host, defs: Definitions, cs: seq<Candle>, done: set<string>, env: Env, name: string)
    requires name in defs && WellFormed(defs[name]) && Offers(defs, done, env)
    ensures Offers(defs, done + {name}, env + Outputs(host, name, defs[name], Source(defs[name], env), cs))
    ensures Shaped(env, |cs|) ==> Shaped(env + Outputs(host, name, defs[name], Source(defs[name], env), cs), |cs|)
  {
    hide Outputs, WellFormed, OutputNames, Supplied;
    OutputsShape(host, name, defs[name], Source(defs[name], env), cs);
    forall s
      ensures s in env || s in OutputNames(name, defs[name].kind) <==> Supplied(defs, done + {name}, s)
    {
      SuppliedByMore(defs, done, name, s);
    }
  }

  lemma {:induction false} ResolvedShape(host: Host, defs: Definitions, cs: seq<Candle>, order: seq<string>)
    requires Legal(defs, order)
    ensures Offers(defs, Names(order), Resolved(host, defs, cs, order)) && Shaped(Resolved(host, defs, cs, order), |cs|)
    decreases |order|
  {
    if order == [] {
      BaseShape(defs, cs);
      assert Names(order) == {};
    } else {
      hide *;
      var done, name := LastOne(host, defs, cs, order);
      ResolvedShape(host, defs, cs, done);
      AddOutputs(host, defs, cs, Names(done), Resolved(host, defs, cs, done), name);
    }
  }

  lemma BaseShape(defs: Definitions, cs: seq<Candle>)
    ensures Offers(defs, {}, Base(cs)) && Shaped(Base(cs), |cs|)
  {
  }

  /** Whatever a worklist has finished lies in every closed set. */
  lemma {:induction false} LegalInClosed(defs: Definitions, order: seq<string>, closed: set<string>)
    requires Legal(defs, order) && Closed(defs, closed)
    ensures Names(order) <= closed
    decreases |order|
  {
    hide OutputNames, WellFormed;
    if order != [] {
      var (done, name) := (order[..|order| - 1], order[|order| - 1]);
      LegalInClosed(defs, done, closed);
      assert Startable(defs, closed, name);
    }
  }

  /** Once everything is resolved, everything was within reach. */
  lemma CompleteMeansGrounded(defs: Definitions, order: seq<string>)
    requires Exhaustive(defs, order)
    ensures Grounded(defs) == defs.Keys
    ensures forall n :: n in defs ==> WellFormed(defs[n])
  {
    hide Legal, Closed, WellFormed;
    forall n, closed: set<string> | n in defs && Closed(defs, closed)
      ensures n in closed
    {
      LegalInClosed(defs, order, closed);
    }
    forall n | n in defs
      ensures WellFormed(defs[n])
    {
      assert n in Names(order);
      LegalWellFormed(defs, order, n);
    }
  }

  lemma {:induction false} LegalWellFormed(defs: Definitions, order: seq<string>, n: string)
    requires Legal(defs, order) && n in order
    ensures n in defs && WellFormed(defs[n])
    decreases |order|
  {
    if n != order[|order| - 1] {
      LegalWellFormed(defs, order[..|order| - 1], n);
    }
  }

  // When the order does not matter --------------------------------------------------------------------

  /** No two indicators write the same name, and no base series that one indicator replaces is the source of another. */
  ghost predicate Unambiguous(defs: Definitions) {
    forall m, n :: m in defs && n in defs && m != n ==>
      && OutputNames(m, defs[m].kind) !! OutputNames(n, defs[n].kind)
      && (defs[m].source in BASE_NAMES ==> defs[m].source !in OutputNames(n, defs[n].kind))
  }

  /** The series an indicator is computed from: a base series, or what another indicator wrote. */
  function Input(def: IndicatorDef, cs: seq<Candle>, env: Env): seq<real> {
    if def.source in BASE_NAMES then BaseSeries(def.source, cs) else Source(def, env)
  }

  ghost predicate Replaced(defs: Definitions, done: set<string>, s: string) {
    exists n :: n in done && n in defs && s in OutputNames(n, defs[n].kind)
  }

  /** env holds the base series nobody replaced and, for each finished indicator, the outputs computed from its input. */
  ghost predicate IsEnv(host: Host, defs: Definitions, cs: seq<Candle>, done: set<string>, env: Env) {
    && done <= defs.Keys
    && Offers(defs, done, env)
    && (forall s :: s in BASE_NAMES && !Replaced(defs, done, s) ==> env[s] == BaseSeries(s, cs))
    && (forall n :: n in done ==> HoldsOutputs(host, defs, cs, env, n))
  }

  ghost predicate HoldsOutputs(host: Host, defs: Definitions, cs: seq<Candle>, env: Env, n: string)
    requires n in defs
  {
    && WellFormed(defs[n])
    && (defs[n].source == "" || defs[n].source in env)
    && var outputs := Outputs(host, n, defs[n], Input(defs[n], cs, env), cs);
       forall s :: s in outputs ==> s in env && env[s] == outputs[s]
  }

  /** Those conditions leave one environment. */
  lemma EnvUnique(host: Host, defs: Definitions, cs: seq<Candle>, env1: Env, env2: Env)
    requires IsEnv(host, defs, cs, Grounded(defs), env1)
    requires IsEnv(host, defs, cs, Grounded(defs), env2)
    ensures env1 == env2
  {
    hide Outputs, WellFormed, OutputNames, BaseSeries, Grounded;
    var g := Grounded(defs);
    var same := set n | n in g && forall s :: s in OutputNames(n, defs[n].kind) ==> s in env1 && s in env2 && env1[s] == env2[s];
    GroundedIsClosed(defs);
    forall n | n in defs && Startable(defs, same, n)
      ensures n in same
    {
      assert Startable(defs, g, n);
      assert HoldsOutputs(host, defs, cs, env1, n) && HoldsOutputs(host, defs, cs, env2, n);
      assert Input(defs[n], cs, env1) == Input(defs[n], cs, env2);
      OutputsShape(host, n, defs[n], Input(defs[n], cs, env1), cs);
    }
    GroundedInClosed(defs, same);
    forall s | s in env1
      ensures s in env2 && env1[s] == env2[s]
    {
      if n :| n in g && n in defs && s in OutputNames(n, defs[n].kind) {
        assert n in same;
      } else {
        assert s in BASE_NAMES && !Replaced(defs, g, s);
      }
    }
    assert env1.Keys == env2.Keys;
  }

  lemma GroundedInClosed(defs: Definitions, closed: set<string>)
    requires Closed(defs, closed)
    ensures Grounded(defs) <= closed
  {
  }

  lemma SourceIsInput(host: Host, defs: Definitions, cs: seq<Candle>, done: set<string>, env: Env, name: string)
    requires Unambiguous(defs) && IsEnv(host, defs, cs, done, env)
    requires name in defs && name !in done
    ensures Source(defs[name], env) == Input(defs[name], cs, env)
  {
    hide OutputNames, HoldsOutputs, BaseSeries;
    if defs[name].source in BASE_NAMES {
      assert !Replaced(defs, done, defs[name].source);
    }
  }

  /** Another indicator's outputs are nobody's input yet. */
  lemma InputKept(host: Host, defs: Definitions, cs: seq<Candle>, done: set<string>, env: Env, name: string, n: string)
    requires Unambiguous(defs) && IsEnv(host, defs, cs, done, env) && name in defs && name !in done && WellFormed(defs[name])
    requires n in defs && (defs[n].source == "" || defs[n].source in env)
    ensures var outputs := Outputs(host, name, defs[name], Source(defs[name], env), cs);
      Input(defs[n], cs, env + outputs) == Input(defs[n], cs, env)
  {
    hide OutputNames, HoldsOutputs, BaseSeries, Outputs, WellFormed;
    var source := defs[n].source;
    OutputsShape(host, name, defs[name], Source(defs[name], env), cs);
    if source !in BASE_NAMES && source != "" {
      var m :| m in done && m in defs && source in OutputNames(m, defs[m].kind);
      assert source !in OutputNames(name, defs[name].kind);
    }
  }

  lemma NewOutputs(host: Host, defs: Definitions, cs: seq<Candle>, done: set<string>, env: Env, name: string)
    requires Unambiguous(defs) && IsEnv(host, defs, cs, done, env)
    requires name in defs && name !in done && Startable(defs, done, name) && WellFormed(defs[name])
    ensures HoldsOutputs(host, defs, cs, env + Outputs(host, name, defs[name], Source(defs[name], env), cs), name)
  {
    hide Outputs, WellFormed, OutputNames, BaseSeries, Unambiguous;
    SourceIsInput(host, defs, cs, done, env, name);
    InputKept(host, defs, cs, done, env, name, name);
  }

  lemma KeptOutputs(host: Host, defs: Definitions, cs: seq<Candle>, done: set<string>, env: Env, name: string, n: string)
    requires Unambiguous(defs) && IsEnv(host, defs, cs, done, env)
    requires name in defs && name !in done && WellFormed(defs[name]) && n in done
    ensures HoldsOutputs(host, defs, cs, env + Outputs(host, name, defs[name], Source(defs[name], env), cs), n)
  {
    hide Outputs, WellFormed, OutputNames, BaseSeries, Input, Supplied, Replaced;
    assert HoldsOutputs(host, defs, cs, env, n);
    InputKept(host, defs, cs, done, env, name, n);
    OutputsShape(host, n, defs[n], Input(defs[n], cs, env), cs);
    OutputsShape(host, name, defs[name], Source(defs[name], env), cs);
  }

  /** Finishing one more startable indicator keeps what the finished ones wrote, and what they were computed from. */
  lemma ExtendEnv(host: Host, defs: Definitions, cs: seq<Candle>, done: set<string>, env: Env, name: string)
    requires Unambiguous(defs) && IsEnv(host, defs, cs, done, env)
    requires name in defs && name !in done && Startable(defs, done, name) && WellFormed(defs[name])
    ensures IsEnv(host, defs, cs, done + {name}, env + Outputs(host, name, defs[name], Source(defs[name], env), cs))
  {
    hide Outputs, WellFormed, OutputNames, BaseSeries, HoldsOutputs, Unambiguous, Startable, Source;
    var outputs := Outputs(host, name, defs[name], Source(defs[name], env), cs);
    var after, more := env + outputs, done + {name};
    OutputsShape(host, name, defs[name], Source(defs[name], env), cs);
    AddOutputs(host, defs, cs, done, env, name);
    forall s | s in BASE_NAMES && !Replaced(defs, more, s)
      ensures after[s] == BaseSeries(s, cs)
    {
      assert name in more;
      assert !Replaced(defs, done, s);
    }
    NewOutputs(host, defs, cs, done, env, name);
    forall n | n in done
      ensures HoldsOutputs(host, defs, cs, after, n)
    {
      KeptOutputs(host, defs, cs, done, env, name, n);
    }
  }

  lemma BaseIsEnv(host: Host, defs: Definitions, cs: seq<Candle>)
    ensures IsEnv(host, defs, cs, {}, Base(cs))
  {
  }

  lemma {:induction false} OrderIsEnv(host: Host, defs: Definitions, cs: seq<Candle>, order: seq<string>)
    requires Unambiguous(defs) && Legal(defs, order)
    ensures IsEnv(host, defs, cs, Names(order), Resolved(host, defs, cs, order))
    decreases |order|
  {
    if order == [] {
      BaseIsEnv(host, defs, cs);
      assert Names(order) == {};
    } else {
      hide *;
      var done, name := LastOne(host, defs, cs, order);
      OrderIsEnv(host, defs, cs, done);
      ExtendEnv(host, defs, cs, Names(done), Resolved(host, defs, cs, done), name);
    }
  }

  /** Any two orders of resolution end with the same series. */
  lemma ResolutionConfluent(host: Host, defs: Definitions, cs: seq<Candle>, p: seq<string>, q: seq<string>)
    requires Unambiguous(defs) && Exhaustive(defs, p) && Exhaustive(defs, q)
    ensures Resolved(host, defs, cs, p) == Resolved(host, defs, cs, q)
  {
    hide IsEnv, Unambiguous, Legal, Grounded, Resolved;
    OrderIsEnv(host, defs, cs, p);
    OrderIsEnv(host, defs, cs, q);
    CompleteMeansGrounded(defs, p);
    EnvUnique(host, defs, cs, Resolved(host, defs, cs, p), Resolved(host, defs, cs, q));
  }

  lemma GroundedIsClosed(defs: Definitions)
    ensures Closed(defs, Grounded(defs))
  {
    var g := Grounded(defs);
    forall n | n in defs && Startable(defs, g, n)
      ensures n in g
    {
      forall done: set<string> | Closed(defs, done)
        ensures n in done
      {
        assert Startable(defs, done, n);
      }
    }
  }

  /** A closed set that lies inside every closed set is the grounded one. */
  lemma LeastIsGrounded(defs: Definitions, done: set<string>)
    requires done <= defs.Keys && Closed(defs, done)
    requires forall other: set<string> :: Closed(defs, other) ==> done <= other
    ensures done == Grounded(defs)
  {
  }

  // The worklist -----------------------------------------------------------------------------------

  /** Why an indicator is refused. */
  function Refusal(name: string, def: IndicatorDef): StrategyError {
    if def.kind.Unknown? then UnsupportedIndicator(name) else MissingParameters(name)
  }

  /** calculateAndResolveIndicator: compute one indicator and add its series to the resolved map. */
  method CalculateAndResolve(host: Host, name: string, def: IndicatorDef, resolved: Env, cs: seq<Candle>)
    returns (r: Result<Env, StrategyError>)
    ensures r.Ok? <==> WellFormed(def)
    ensures r.Ok? ==> r.value == resolved + Outputs(host, name, def, Source(def, resolved), cs)
    ensures r.Err? ==> r.error == Refusal(name, def)
  {
    var src := [];
    if def.source != "" && def.source in resolved {
      src := resolved[def.source];
    }
    if def.kind.Unknown? {
      return Err(UnsupportedIndicator(name));
    }
    if |def.params| < ParameterCount(def.kind) {
      return Err(MissingParameters(name));
    }
    var period := Truncate(def.params[0]);
    match def.kind {
      case SMA =>
        var out := CalculateSMA(src, period);
        return Ok(resolved[name := out[..]]);
      case EMA =>
        var out := CalculateEMA(src, period);
        return Ok(resolved[name := out[..]]);
      case RSI =>
        var out := CalculateRSI(src, period);
        return Ok(resolved[name := out[..]]);
      case ATR =>
        var out := CalculateATR(cs, period);
        return Ok(resolved[name := out[..]]);
      case MACD =>
        var line, sig, hist := CalculateMACD(src, period, Truncate(def.params[1]), Truncate(def.params[2]));
        return Ok(resolved[name := line[..]][name + ".signal" := sig[..]][name + ".hist" := hist[..]]);
      case BB =>
        var basis, upper, lower := CalculateBB(host.sqrt, src, period, def.params[1]);
        return Ok(resolved[name := basis[..]][name + ".upper" := upper[..]][name + ".lower" := lower[..]]);
    }
  }

  /** An indicator whose source is there is within reach, and well formed it can be finished next. */
  lemma FinishOne(host: Host, defs: Definitions, cs: seq<Candle>, order: seq<string>, name: string)
    requires Legal(defs, order) && name in defs && name !in order
    requires defs[name].source == "" || defs[name].source in Resolved(host, defs, cs, order)
    ensures name in Grounded(defs)
    ensures WellFormed(defs[name]) ==>
      && Legal(defs, order + [name]) && Names(order + [name]) == Names(order) + {name}
      && var env := Resolved(host, defs, cs, order);
         Resolved(host, defs, cs, order + [name]) == env + Outputs(host, name, defs[name], Source(defs[name], env), cs)
  {
    hide Outputs, WellFormed, Legal, OutputNames, Resolved;
    ResolvedShape(host, defs, cs, order);
    assert Startable(defs, Names(order), name);
    forall closed: set<string> | Closed(defs, closed)
      ensures name in closed
    {
      LegalInClosed(defs, order, closed);
      assert Startable(defs, closed, name);
    }
    if WellFormed(defs[name]) {
      OneMore(host, defs, cs, order, name);
    }
  }

  /** What holds whenever the worklist stops to look at the next indicator. */
  ghost predicate Underway(host: Host, defs: Definitions, cs: seq<Candle>, order: seq<string>, unresolved: Definitions, env: Env) {
    && Legal(defs, order) && env == Resolved(host, defs, cs, order)
    && Names(order) <= defs.Keys && unresolved.Keys == defs.Keys - Names(order)
  }

  lemma Start(host: Host, defs: Definitions, cs: seq<Candle>, env: Env)
    requires env == map s | s in BASE_NAMES :: BaseSeries(s, cs)
    ensures Underway(host, defs, cs, [], defs, env)
  {
    assert Names([]) == {};
  }

  lemma Advance(host: Host, defs: Definitions, cs: seq<Candle>, order: seq<string>, unresolved: Definitions, env: Env, name: string)
    requires Underway(host, defs, cs, order, unresolved, env)
    requires name in defs && name in unresolved && (defs[name].source == "" || defs[name].source in env)
    ensures name in Grounded(defs) && |unresolved - {name}| < |unresolved|
    ensures WellFormed(defs[name]) ==>
      Underway(host, defs, cs, order + [name], unresolved - {name}, env + Outputs(host, name, defs[name], Source(defs[name], env), cs))
  {
    hide Outputs, WellFormed, Legal, Resolved, Grounded, Source;
    assert name !in Names(order);
    FinishOne(host, defs, cs, order, name);
    assert (unresolved - {name}).Keys == unresolved.Keys - {name};
    assert |unresolved| == |unresolved.Keys| && |unresolved - {name}| == |(unresolved - {name}).Keys|;
  }

  /** When no indicator that is left finds its source, the finished ones are all that is within reach. */
  lemma Stuck(host: Host, defs: Definitions, cs: seq<Candle>, order: seq<string>, unresolved: Definitions, env: Env)
    requires Underway(host, defs, cs, order, unresolved, env)
    requires forall n :: n in unresolved ==> defs[n].source != "" && defs[n].source !in env
    ensures Names(order) == Grounded(defs) && forall n :: n in Grounded(defs) ==> WellFormed(defs[n])
    ensures unresolved.Keys == defs.Keys - Grounded(defs)
  {
    hide WellFormed, Legal, OutputNames, Resolved;
    ResolvedShape(host, defs, cs, order);
    assert Closed(defs, Names(order));
    forall n | n in order
      ensures n in defs && WellFormed(defs[n])
    {
      LegalWellFormed(defs, order, n);
    }
    forall closed: set<string> | Closed(defs, closed)
      ensures Names(order) <= closed
    {
      LegalInClosed(defs, order, closed);
    }
    LeastIsGrounded(defs, Names(order));
  }

  lemma Finished(host: Host, defs: Definitions, cs: seq<Candle>, order: seq<string>, unresolved: Definitions, env: Env)
    requires Underway(host, defs, cs, order, unresolved, env) && |unresolved| == 0
    ensures Exhaustive(defs, order) && env == Resolved(host, defs, cs, order)
    ensures Unambiguous(defs) ==> forall other :: Exhaustive(defs, other) ==> env == Resolved(host, defs, cs, other)
  {
    hide Legal, Resolved, Unambiguous;
    assert unresolved.Keys == {};
    if Unambiguous(defs) {
      forall other | Exhaustive(defs, other)
        ensures env == Resolved(host, defs, cs, other)
      {
        ResolutionConfluent(host, defs, cs, order, other);
      }
    }
  }

  /** The worklist ends, whatever order the map yields its keys in: with the series of some order of all indicators;
      with the refusal of a malformed indicator within reach; or, when not all are within reach and none of those is
      malformed, with a circular dependency. If the order does not matter, the series are those of every order. */
  method ResolveIndicators(host: Host, defs: Definitions, cs: seq<Candle>) returns (r: Result<Env, StrategyError>)
    ensures r.Ok? ==> exists order :: Exhaustive(defs, order) && r.value == Resolved(host, defs, cs, order)
    ensures r.Ok? && Unambiguous(defs) ==> forall order :: Exhaustive(defs, order) ==> r.value == Resolved(host, defs, cs, order)
    ensures r == Err(CircularDependency) ==>
              Grounded(defs) != defs.Keys && forall n :: n in Grounded(defs) ==> WellFormed(defs[n])
    ensures r.Err? && r.error != CircularDependency ==>
              exists n :: n in Grounded(defs) && !WellFormed(defs[n]) && r.error == Refusal(n, defs[n])
  {
    hide Resolved, Exhaustive, Grounded, WellFormed, Source, Outputs, Unambiguous, Underway;
    var resolved: Env := map s | s in BASE_NAMES :: BaseSeries(s, cs);
    var unresolved := defs;
    ghost var order: seq<string> := [];
    Start(host, defs, cs, resolved);
    while |unresolved| > 0
      invariant Underway(host, defs, cs, order, unresolved, resolved)
      invariant forall n :: n in unresolved ==> n in defs && unresolved[n] == defs[n]
      decreases |unresolved|
    {
      var progress := false;
      var pending := unresolved.Keys;
      ghost var before := |unresolved|;
      while pending != {}
        invariant pending <= unresolved.Keys
        invariant Underway(host, defs, cs, order, unresolved, resolved)
        invariant forall n :: n in unresolved ==> n in defs && unresolved[n] == defs[n]
        invariant if progress then |unresolved| < before else |unresolved| == before
        invariant !progress ==> forall n :: n in unresolved && n !in pending ==> defs[n].source != "" && defs[n].source !in resolved
        decreases |pending|
      {
        var name :| name in pending;
        pending := pending - {name};
        var def := unresolved[name];
        if def.source == "" || def.source in resolved {
          Advance(host, defs, cs, order, unresolved, resolved, name);
          var calculated := CalculateAndResolve(host, name, def, resolved, cs);
          if calculated.Err? {
            return Err(calculated.error);
          }
          resolved := calculated.value;
          unresolved := unresolved - {name};
          order := order + [name];
          progress := true;
        }
      }
      if !progress {
        Stuck(host, defs, cs, order, unresolved, resolved);
        return Err(CircularDependency);
      }
    }
    Finished(host, defs, cs, order, unresolved, resolved);
    return Ok(resolved);
  }

  // Why names matter ----------------------------------------------------------------------------

  lemma PairAverage(src: seq<real>)
    requires |src| == 3
    ensures Sma(src, 2)[1] == (src[0] + src[1]) / 2.0 && Sma(src, 2)[2] == (src[1] + src[2]) / 2.0
  {
    PairSum(src[0], src[1]);
    PairSum(src[1], src[2]);
    assert src[0..2] == [src[0], src[1]] && src[1..3] == [src[1], src[2]];
  }

  lemma PairSum(a: real, b: real)
    ensures Sum([a, b]) == a + b
  {
    SumAppend([], a);
    SumAppend([a], b);
    assert [] + [a] == [a] && [a] + [b] == [a, b];
  }

  const PAIR: IndicatorDef := IndicatorDef(SMA, "close", [2.0])
  const COLLIDING: Definitions := map["close" := PAIR, "x" := PAIR]

  /** Two indicators on base series can be finished one after the other. */
  lemma PairResolvable(defs: Definitions, m: string, n: string)
    requires m != n && defs.Keys == {m, n} && WellFormed(defs[m]) && WellFormed(defs[n])
    requires defs[m].source in BASE_NAMES && defs[n].source in BASE_NAMES
    ensures Exhaustive(defs, [m, n])
  {
    hide Legal, Names, WellFormed;
    NothingFinished(defs);
    OnBaseSeries(defs, [], m);
    assert [] + [m] == [m];
    OnBaseSeries(defs, [m], n);
    assert [m] + [n] == [m, n];
    PairNames(m, n);
  }

  lemma NothingFinished(defs: Definitions)
    ensures Legal(defs, [])
  {
  }

  lemma PairNames(m: string, n: string)
    ensures Names([m, n]) == {m, n}
  {
  }

  lemma OnBaseSeries(defs: Definitions, order: seq<string>, name: string)
    requires Legal(defs, order) && name in defs && name !in order && WellFormed(defs[name]) && defs[name].source in BASE_NAMES
    ensures Legal(defs, order + [name])
  {
    hide WellFormed, OutputNames;
    assert (order + [name])[..|order|] == order;
  }

  lemma Colliding()
    ensures Exhaustive(COLLIDING, ["close", "x"]) && Exhaustive(COLLIDING, ["x", "close"]) && !Unambiguous(COLLIDING)
  {
    assert "x" != "close" && "x" in COLLIDING && "close" in COLLIDING;
    assert "close" in OutputNames("close", COLLIDING["close"].kind);
    hide Exhaustive;
    PairResolvable(COLLIDING, "close", "x");
    PairResolvable(COLLIDING, "x", "close");
  }

  lemma ResolvedPair(host: Host, cs: seq<Candle>, m: string, n: string)
    requires Legal(COLLIDING, [m, n])
    ensures Resolved(host, COLLIDING, cs, [m, n]) ==
      var one := Base(cs)[m := Sma(Source(PAIR, Base(cs)), 2)];
      one[n := Sma(Source(PAIR, one), 2)]
  {
    assert [m, n][..1] == [m] && [m][..0] == [];
    assert m in COLLIDING && n in COLLIDING && COLLIDING[m] == COLLIDING[n] == PAIR;
    var base := Base(cs);
    var one := base[m := Sma(Source(PAIR, base), 2)];
    AddPair(host, cs, base, m);
    AddPair(host, cs, one, n);
    hide Outputs, Sma, Source, Base;
    assert Resolved(host, COLLIDING, cs, [m]) == one;
  }

  lemma AddPair(host: Host, cs: seq<Candle>, env: Env, n: string)
    ensures env + Outputs(host, n, PAIR, Source(PAIR, env), cs) == env[n := Sma(Source(PAIR, env), 2)]
  {
    hide Sma, Source;
    assert Truncate(2.0) == 2;
  }

  /** With an indicator that replaces the source of another, two orders of the worklist give different series for the
      same candles: closes 1, 3, 7 average to 5 or to 3.5. */
  lemma CollisionOrderMatters(host: Host, cs: seq<Candle>)
    requires |cs| == 3 && cs[0].close == Number(1.0) && cs[1].close == Number(3.0) && cs[2].close == Number(7.0)
    ensures Exhaustive(COLLIDING, ["close", "x"]) && Exhaustive(COLLIDING, ["x", "close"])
    ensures var (one, other) := (Resolved(host, COLLIDING, cs, ["close", "x"]), Resolved(host, COLLIDING, cs, ["x", "close"]));
      "x" in one && "x" in other && |one["x"]| == |other["x"]| == 3 && one["x"][2] == 3.5 && other["x"][2] == 5.0
  {
    Colliding();
    ResolvedPair(host, cs, "close", "x");
    ResolvedPair(host, cs, "x", "close");
    hide Resolved, Legal, Unambiguous;
    PairOfAverages(cs);
  }

  lemma PairOfAverages(cs: seq<Candle>)
    requires |cs| == 3 && cs[0].close == Number(1.0) && cs[1].close == Number(3.0) && cs[2].close == Number(7.0)
    ensures var closes := BaseSeries("close", cs);
      && Base(cs)["close"] == closes == [1.0, 3.0, 7.0] && Sma(closes, 2)[2] == 5.0 && Sma(Sma(closes, 2), 2)[2] == 3.5
  {
    var closes := BaseSeries("close", cs);
    assert "close" in BASE_NAMES && closes == [1.0, 3.0, 7.0];
    PairAverage(closes);
    PairAverage(Sma(closes, 2));
  }
}
