/** What a compiled program makes of a bar (internal/strategy/pine_evaluator.go:49-80, 114-165, 412-431): the prices its
    names stand for, and the rule that decides. */
module PineMeaning {
  import opened Common
  import opened MarketData
  import opened Signals
  import opened PineIR
  import opened Indicators
  import opened Resolution
  import opened PineEvaluator

  // Prices ------------------------------------------------------------------------------------------------------------

  /** No finished indicator writes over the name. */
  ghost predicate Untouched(defs: Definitions, order: seq<string>, name: string) {
    forall n :: n in order && n in defs ==> name !in OutputNames(n, defs[n].kind)
  }

  lemma {:induction false} BaseKept(host: Host, defs: Definitions, cs: seq<Candle>, order: seq<string>, name: string)
    requires Legal(defs, order) && name in BASE_NAMES && Untouched(defs, order, name)
    ensures var env := Resolved(host, defs, cs, order); name in env && env[name] == BaseSeries(name, cs)
    decreases |order|
  {
    hide BaseSeries, Outputs, OutputNames, WellFormed, Startable, Source;
    if order == [] {
    } else {
      var done, last := LastOne(host, defs, cs, order);
      BaseKept(host, defs, cs, done, name);
      OutputsShape(host, last, defs[last], Source(defs[last], Resolved(host, defs, cs, done)), cs);
      assert last in order;
    }
  }

  /** The five names of a candle's figures read those figures, at every bar, whatever indicators have been computed. */
  lemma PricesRead(host: Host, defs: Definitions, cs: seq<Candle>, order: seq<string>, name: string, i: nat)
    requires Legal(defs, order) && name in BASE_NAMES && Untouched(defs, order, name)
    requires i < |cs| && AllParse(cs) && host.parse(name) == None
    ensures var r := Evaluate(host, Reference(name), i, Resolved(host, defs, cs, order));
      && (name == "open" ==> r == Ok(Num(cs[i].open.value))) && (name == "high" ==> r == Ok(Num(cs[i].high.value)))
      && (name == "low" ==> r == Ok(Num(cs[i].low.value))) && (name == "close" ==> r == Ok(Num(cs[i].close.value)))
      && (name == "volume" ==> r == Ok(Num(cs[i].volume.value)))
  {
    BaseKept(host, defs, cs, order, name);
    hide Resolved, Legal, Untouched;
  }

  /** An indicator without a source, other than the average true range, has no values, and its name reads 0 on every bar. */
  lemma SourcelessReadsZero(host: Host, defs: Definitions, cs: seq<Candle>, done: seq<string>, n: string, i: nat)
    requires Legal(defs, done) && Legal(defs, done + [n]) && defs[n].source == "" && defs[n].kind in {SMA, EMA, RSI}
    requires host.parse(n) == None && n !in {"true", "false"}
    ensures Evaluate(host, Reference(n), i, Resolved(host, defs, cs, done + [n])) == Ok(Num(0.0))
  {
    hide Legal, Resolved, Startable;
    var before, last := LastOne(host, defs, cs, done + [n]);
    assert (done + [n])[..|done|] == done && before == done && last == n;
  }

  // Rules ---------------------------------------------------------------------------------------------------------------

  /** The rule's condition is true on the bar. */
  predicate Triggered(host: Host, cfg: Config, i: nat, env: Env, rule: Rule) {
    var condition := ConditionOf(cfg, rule);
    condition.Ok? && Evaluate(host, condition.value, i, env) == Ok(Bool(true))
  }

  /** A rule that enters long or covers a short buys; one that enters short or leaves anything else sells. */
  predicate Buys(rule: Rule) {
    (rule.action == Entry && rule.direction == Long) || (rule.action == Close && rule.direction == Short)
  }

  predicate Sells(rule: Rule) {
    (rule.action == Entry && rule.direction == Short) || (rule.action == Close && rule.direction != Short)
  }

  /** Rule j is the first that holds. */
  predicate Decides(host: Host, cfg: Config, i: nat, env: Env, j: nat) {
    && j < |cfg.rules| && Triggered(host, cfg, i, env, cfg.rules[j])
    && forall k :: 0 <= k < j ==> !Triggered(host, cfg, i, env, cfg.rules[k])
  }

  lemma {:induction false} FirstDecides(host: Host, cfg: Config, i: nat, env: Env, from: nat, j: nat)
    requires from <= j <= |cfg.rules| && FirstTriggered(host, cfg, i, env, from).Ok?
    requires j < |cfg.rules| ==> Triggered(host, cfg, i, env, cfg.rules[j])
    requires forall k :: from <= k < j ==> !Triggered(host, cfg, i, env, cfg.rules[k])
    ensures FirstTriggered(host, cfg, i, env, from).value ==
      if j < |cfg.rules| then RuleSide(cfg.rules[j]) else (Hold, "no execution rules triggered")
    decreases j - from
  {
    hide Evaluate, ConditionOf, RuleSide;
    if from < j {
      FirstDecides(host, cfg, i, env, from + 1, j);
    }
  }

  /** The first rule that holds on a bar decides its side, and when none does the bar is held. */
  lemma RuleDecides(host: Host, cfg: Config, cs: seq<Candle>, env: Env, i: nat)
    requires i < |cs| && SignalAt(host, cfg, cs, env, i).Ok?
    ensures var s := SignalAt(host, cfg, cs, env, i).value;
      && s.generatedAt == cs[i].closeTime
      && (forall j: nat :: Decides(host, cfg, i, env, j) ==>
            && (Buys(cfg.rules[j]) ==> s.side == Buy) && (Sells(cfg.rules[j]) ==> s.side == Sell)
            && (s.side == Hold ==> !Buys(cfg.rules[j]) && !Sells(cfg.rules[j])))
      && ((forall k :: 0 <= k < |cfg.rules| ==> !Triggered(host, cfg, i, env, cfg.rules[k])) ==> s.side == Hold)
  {
    hide Triggered, FirstTriggered;
    forall j: nat | Decides(host, cfg, i, env, j)
      ensures FirstTriggered(host, cfg, i, env, 0) == Ok(RuleSide(cfg.rules[j]))
    {
      FirstDecides(host, cfg, i, env, 0, j);
    }
    if forall k :: 0 <= k < |cfg.rules| ==> !Triggered(host, cfg, i, env, cfg.rules[k]) {
      FirstDecides(host, cfg, i, env, 0, |cfg.rules|);
    }
  }

  /** A directive on a line of its own holds on every bar, whether or not its condition was recorded. */
  lemma UnconditionalRule(host: Host, cfg: Config, i: nat, env: Env, rule: Rule)
    requires rule.condition == ALWAYS_TRUE && host.parse("true") == None
    requires ALWAYS_TRUE in cfg.conditions ==> cfg.conditions[ALWAYS_TRUE] == Reference("true")
    ensures Triggered(host, cfg, i, env, rule)
  {
    assert ConditionOf(cfg, rule) == Ok(Reference("true"));
  }
}
