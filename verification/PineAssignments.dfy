/** Which indicators the text of an assignment compiles to (internal/pine/parser.go:400-438, 458-511, 741-745, 783-862)
    and which series the evaluator then computes under their names (internal/strategy/pine_evaluator.go:172-235). */
module PineAssignments {
  import opened Common
  import opened MarketData
  import opened PineIR
  import opened PineLexer
  import opened PineGrammar
  import opened PineWellFormed
  import opened PinePrinter
  import opened Indicators
  import Resolution
  import PineStatements

  // Calls in print ---------------------------------------------------------------------------------------------------

  /** What an indicator is called in a script. */
  function KindText(kind: Kind): string {
    match kind
    case SMA => "sma"
    case EMA => "ema"
    case RSI => "rsi"
    case ATR => "atr"
    case MACD => "macd"
    case BB => "bb"
    case Unknown(name) => name
  }

  /** The tokens of ta.name(arguments). */
  function CallTokens(name: string, args: seq<Expression>): seq<Token>
    requires AllGrammatical(args)
  {
    [Token(TokIdentifier, "ta." + name, 1)] + ([LP] + PrintAll(args))
  }

  predicate Letters(name: string) {
    forall i :: 0 <= i < |name| ==> 'a' <= name[i] <= 'z'
  }

  /** A call written out is read as what its name makes of its arguments. */
  lemma CallReadBack(x: Context, s: PState, name: string, args: seq<Expression>)
    requires AllGrammatical(args) && Letters(name) && Ahead(x, s.pos, CallTokens(name, args))
    requires Ends(After(x, s, CallTokens(name, args)), 0)
    ensures ParseExpression(x, s, 0) == CallResult(x, Moved(s, |CallTokens(name, args)|), CallOf("ta." + name), args)
  {
    hide ParseExpression, ParseLoop, ParseArguments, PrintAll, Extends, CallOf, CallResult, Grammatical, PinePrinter.Reads, Precedence;
    var (first, list) := (Token(TokIdentifier, "ta." + name, 1), PrintAll(args));
    AheadSplits(x, s.pos, [first], [LP] + list);
    AheadSplits(x, s.pos + 1, [LP], list);
    AheadOne(x, s.pos, first);
    AheadOne(x, s.pos + 1, LP);
    ArgumentsPrinted(x, Moved(s, 2), args, []);
    hide Ahead;
    assert [] + args == args;
    var close := Moved(Moved(s, 2), |list| - 1);
    var end := Moved(s, |CallTokens(name, args)|);
    assert Advance(x, close) == end && Advance(x, Advance(x, s)) == Moved(s, 2) && Advance(x, s).pos == s.pos + 1;
    NotAnInput(name);
    var r := CallResult(x, end, CallOf("ta." + name), args);
    PrimaryRead(x, s, 0, r.result.value, r.state);
    LoopStops(x, r.state, r.result.value, 0);
    ReadsThrough(x, s, r);
  }

  lemma ReadsThrough(x: Context, s: PState, r: Parsed)
    requires s.pos <= |x.tokens| && r.state.pos <= |x.tokens| && r.result.Ok?
    requires PinePrinter.Reads(x, s, 0, r.result.value, r.state)
    requires ParseLoop(x, r.state, r.result.value, 0) == Parsed(Ok(r.result.value), r.state)
    ensures ParseExpression(x, s, 0) == r
  {
    hide ParseExpression, ParseLoop;
  }

  lemma NotAnInput(name: string)
    requires Letters(name)
    ensures CallOf("ta." + name) != InputCall
  {
    TaName(name);
    hide ToLower, HasPrefix;
  }

  lemma IndicatorNamed(kind: Kind)
    requires !kind.Unknown?
    ensures Letters(KindText(kind)) && CallOf("ta." + KindText(kind)) == IndicatorCall(KindText(kind))
    ensures KindOf(KindText(kind)) == kind
  {
    TaName(KindText(kind));
    hide ToLower, HasPrefix;
  }

  function CrossText(op: Op): string {
    if op == Crossover then "crossover" else "crossunder"
  }

  lemma CrossingNamed(op: Op)
    requires IsCross(op)
    ensures Letters(CrossText(op)) && CallOf("ta." + CrossText(op)) == CrossCall(op)
  {
    assert |"crossover"| == 9 && |"crossunder"| == 10;
    TaName(CrossText(op));
    hide ToLower, HasPrefix;
  }

  // Definitions in print -----------------------------------------------------------------------------------------------

  /** The name of a constant stands for its value, and any other text for the number it reads as. */
  predicate StandsFor(x: Context, text: string, value: real) {
    if text in x.constants then x.constants[text] == value else x.parse(text) == Some(value)
  }

  /** The texts of parameters that are literals or constants with these values. */
  predicate Spelled(x: Context, texts: seq<string>, params: seq<real>) {
    |texts| == |params| && forall i :: 0 <= i < |texts| ==> StandsFor(x, texts[i], params[i])
  }

  lemma SpelledResolves(x: Context, text: string, value: real)
    requires StandsFor(x, text, value)
    ensures ResolveConstant(x, Reference(text)) == Some(value)
  {
  }

  function References(texts: seq<string>): (es: seq<Expression>)
    ensures |es| == |texts| && forall i :: 0 <= i < |es| ==> es[i] == Reference(texts[i])
  {
    seq(|texts|, i requires 0 <= i < |texts| => Reference(texts[i]))
  }

  /** A definition that can be written as one call: the average true range has a period and no source. */
  predicate Callable(def: IndicatorDef) {
    !def.kind.Unknown? && (def.kind == ATR ==> def.source == "" && |def.params| == 1)
  }

  /** The arguments a definition is written with: its source, which the average true range has none of, and its parameters. */
  function ArgumentsOf(def: IndicatorDef, texts: seq<string>): (es: seq<Expression>)
    ensures AllGrammatical(es) && NoneNested(es)
  {
    if def.kind == ATR then References(texts) else [Reference(def.source)] + References(texts)
  }

  function DefinitionCall(def: IndicatorDef, texts: seq<string>): Expression {
    Expression(Indicator, ArgumentsOf(def, texts), KindText(def.kind))
  }

  lemma {:induction false} SpelledConstants(x: Context, texts: seq<string>, params: seq<real>)
    requires Spelled(x, texts, params)
    ensures Constants(x, References(texts)) == params
    decreases |texts|
  {
    hide ResolveConstant, StandsFor;
    if texts == [] {
      assert References(texts) == [];
    } else {
      var n := |texts| - 1;
      SpelledResolves(x, texts[n], params[n]);
      SpelledConstants(x, texts[..n], params[..n]);
      assert References(texts)[..n] == References(texts[..n]);
      assert params == params[..n] + [params[n]];
    }
  }

  lemma DefinitionRead(x: Context, def: IndicatorDef, texts: seq<string>)
    requires Callable(def) && Spelled(x, texts, def.params)
    ensures DefinitionOf(x, DefinitionCall(def, texts)) == def
  {
    hide KindText, KindOf, Constants, ResolveConstant;
    IndicatorNamed(def.kind);
    SpelledConstants(x, texts, def.params);
    var args := ArgumentsOf(def, texts);
    if def.kind == ATR {
      assert args[..1] == References(texts);
    } else {
      assert args[1..] == References(texts);
    }
  }

  lemma DefinitionAccepted(x: Context, def: IndicatorDef, texts: seq<string>, line: int)
    requires Callable(def) && Spelled(x, texts, def.params)
    ensures PineStatements.Complaints(x, DefinitionCall(def, texts), line) == []
  {
    hide KindText, KindOf, ResolveConstant, StandsFor, PineStatements.Complaints;
    IndicatorNamed(def.kind);
    forall i | 0 <= i < |texts|
      ensures ResolveConstant(x, References(texts)[i]).Some?
    {
      SpelledResolves(x, texts[i], def.params[i]);
    }
    PineStatements.ComplaintsIff(x, DefinitionCall(def, texts), line);
  }

  // Assignments --------------------------------------------------------------------------------------------------------

  /** The text that follows the equals sign is this call and nothing that would continue it. */
  predicate Assigned(x: Context, at: nat, name: string, args: seq<Expression>)
    requires AllGrammatical(args)
  {
    var ts := CallTokens(name, args);
    Ahead(x, at, ts) && Ends(Current(x, at + |ts|), 0)
  }

  /** n = ta.sma(close, 9) and the like: for every definition over a named source with literal or constant parameters,
      reading its text leaves exactly that definition under n, draws no error and touches nothing else. */
  lemma AssignmentRoundTrip(x: Context, a: PineStatements.Snapshot, at: nat, n: string, def: IndicatorDef,
                            texts: seq<string>, b: PineStatements.Snapshot, end: nat)
    requires at <= |x.tokens| && Callable(def) && Spelled(x, texts, def.params)
    requires Assigned(x, at, KindText(def.kind), ArgumentsOf(def, texts))
    requires PineStatements.AssignmentDone(x, a, at, n, b, end)
    ensures b == a.(config := a.config.(indicators := a.config.indicators[n := def]))
    ensures end == at + |CallTokens(KindText(def.kind), ArgumentsOf(def, texts))|
  {
    hide KindText, ArgumentsOf, CallTokens, ParseExpression, Spelled, Ahead, Ends, CallOf, Flatten, DefinitionOf,
      PineStatements.Complaints;
    var (name, args) := (KindText(def.kind), ArgumentsOf(def, texts));
    var s := PineStatements.StateAt(a, at);
    IndicatorNamed(def.kind);
    CallReadBack(x, s, name, args);
    PlainArguments(x, Moved(s, |CallTokens(name, args)|), args);
    DefinitionRead(x, def, texts);
    DefinitionAccepted(x, def, texts, Current(x, end).line);
  }

  /** The first argument, an indicator call itself, moves to a variable of its own. */
  lemma NestedFlattens(x: Context, s: PState, def: IndicatorDef, texts: seq<string>, rest: seq<Expression>)
    requires Callable(def) && Spelled(x, texts, def.params) && NoneNested(rest)
    ensures Flatten(x, s, [DefinitionCall(def, texts)] + rest) ==
      ([Reference(AutoName(s.autoVar))] + rest,
       s.(autoVar := s.autoVar + 1, indicators := s.indicators[AutoName(s.autoVar) := def]))
  {
    hide AutoName, DefinitionOf, ArgumentsOf, Spelled;
    var args := [DefinitionCall(def, texts)] + rest;
    assert args[0] == DefinitionCall(def, texts) && args[1..] == rest;
    DefinitionRead(x, def, texts);
    PlainArguments(x, FlattenOne(x, s, args[0]).1, rest);
  }

  lemma DefinitionGrammatical(def: IndicatorDef, texts: seq<string>)
    requires Callable(def)
    ensures Grammatical(DefinitionCall(def, texts))
  {
    hide ArgumentsOf;
  }

  /** ta.ema(ta.rsi(close, 14), 9): the inner call becomes an indicator under an automatic name, the outer one reads it. */
  lemma NestedRoundTrip(x: Context, a: PineStatements.Snapshot, at: nat, n: string, inner: IndicatorDef,
                        innerTexts: seq<string>, kind: Kind, params: seq<real>, texts: seq<string>,
                        b: PineStatements.Snapshot, end: nat)
    requires at <= |x.tokens| && Callable(inner) && Spelled(x, innerTexts, inner.params)
    requires !kind.Unknown? && kind != ATR && Spelled(x, texts, params)
    requires AllGrammatical([DefinitionCall(inner, innerTexts)] + References(texts))
    requires Assigned(x, at, KindText(kind), [DefinitionCall(inner, innerTexts)] + References(texts))
    requires PineStatements.AssignmentDone(x, a, at, n, b, end)
    ensures var auto := AutoName(a.autoVar);
      b == a.(autoVar := a.autoVar + 1,
              config := a.config.(indicators := a.config.indicators[auto := inner][n := IndicatorDef(kind, auto, params)]))
  {
    hide KindText, DefinitionCall, ArgumentsOf, References, CallTokens, ParseExpression, Spelled, Ahead, Ends, CallOf, Flatten,
      DefinitionOf, PineStatements.Complaints, AutoName, Grammatical;
    var (name, args) := (KindText(kind), [DefinitionCall(inner, innerTexts)] + References(texts));
    var s := PineStatements.StateAt(a, at);
    IndicatorNamed(kind);
    CallReadBack(x, s, name, args);
    assert NoneNested(References(texts));
    NestedFlattens(x, Moved(s, |CallTokens(name, args)|), inner, innerTexts, References(texts));
    var outer := IndicatorDef(kind, AutoName(a.autoVar), params);
    OuterCall(outer, texts);
    DefinitionRead(x, outer, texts);
    DefinitionAccepted(x, outer, texts, Current(x, end).line);
  }

  lemma OuterCall(def: IndicatorDef, texts: seq<string>)
    requires def.kind != ATR
    ensures DefinitionCall(def, texts) == Expression(Indicator, [Reference(def.source)] + References(texts), KindText(def.kind))
  {
  }

  /** ta.crossover(ta.sma(close, 9), ta.sma(close, 21)): both calls become indicators, left to right, and n is the condition
      that the first crosses the second in the direction the text says. */
  lemma CrossingRoundTrip(x: Context, a: PineStatements.Snapshot, at: nat, n: string, op: Op, left: IndicatorDef,
                          leftTexts: seq<string>, right: IndicatorDef, rightTexts: seq<string>,
                          b: PineStatements.Snapshot, end: nat)
    requires at <= |x.tokens| && IsCross(op) && Callable(left) && Spelled(x, leftTexts, left.params)
    requires Callable(right) && Spelled(x, rightTexts, right.params)
    requires AllGrammatical([DefinitionCall(left, leftTexts), DefinitionCall(right, rightTexts)])
    requires Assigned(x, at, CrossText(op), [DefinitionCall(left, leftTexts), DefinitionCall(right, rightTexts)])
    requires PineStatements.AssignmentDone(x, a, at, n, b, end)
    ensures var (first, second) := (AutoName(a.autoVar), AutoName(a.autoVar + 1));
      b == a.(autoVar := a.autoVar + 2,
              config := a.config.(indicators := a.config.indicators[first := left][second := right],
                                  conditions := a.config.conditions[n := Binary(op, Reference(first), Reference(second))]))
  {
    hide DefinitionCall, ArgumentsOf, CallTokens, ParseExpression, Spelled, Ahead, Ends, CallOf, Flatten, DefinitionOf,
      AutoName, Grammatical, CrossText;
    var args := [DefinitionCall(left, leftTexts), DefinitionCall(right, rightTexts)];
    var s := PineStatements.StateAt(a, at);
    CrossingNamed(op);
    CallReadBack(x, s, CrossText(op), args);
    PairFlattens(x, Moved(s, |CallTokens(CrossText(op), args)|), left, leftTexts, right, rightTexts);
  }

  lemma PairFlattens(x: Context, s: PState, left: IndicatorDef, leftTexts: seq<string>, right: IndicatorDef,
                     rightTexts: seq<string>)
    requires Callable(left) && Spelled(x, leftTexts, left.params) && Callable(right) && Spelled(x, rightTexts, right.params)
    ensures var (first, second) := (AutoName(s.autoVar), AutoName(s.autoVar + 1));
      Flatten(x, s, [DefinitionCall(left, leftTexts), DefinitionCall(right, rightTexts)]) ==
      ([Reference(first), Reference(second)],
       s.(autoVar := s.autoVar + 2, indicators := s.indicators[first := left][second := right]))
  {
    hide AutoName, DefinitionOf, ArgumentsOf, Spelled, Flatten;
    var args := [DefinitionCall(left, leftTexts), DefinitionCall(right, rightTexts)];
    assert args[0] == DefinitionCall(left, leftTexts) && args[1..] == [DefinitionCall(right, rightTexts)];
    DefinitionRead(x, left, leftTexts);
    var t := FlattenOne(x, s, args[0]).1;
    NestedFlattens(x, t, right, rightTexts, []);
    assert [DefinitionCall(right, rightTexts)] + [] == args[1..];
    FlattenSplits(x, s, args);
    assert [Reference(AutoName(s.autoVar))] + ([Reference(AutoName(s.autoVar + 1))] + []) ==
      [Reference(AutoName(s.autoVar)), Reference(AutoName(s.autoVar + 1))];
  }

  lemma FlattenSplits(x: Context, s: PState, args: seq<Expression>)
    requires args != []
    ensures var (first, t) := FlattenOne(x, s, args[0]);
      Flatten(x, s, args) == ([first] + Flatten(x, t, args[1..]).0, Flatten(x, t, args[1..]).1)
  {
    hide FlattenOne;
  }

  // Other calls --------------------------------------------------------------------------------------------------------

  /** A call of any other ta function is read as the number 0. */
  lemma UnknownCallRead(x: Context, s: PState, name: string, args: seq<Expression>)
    requires AllGrammatical(args) && Letters(name) && Ahead(x, s.pos, CallTokens(name, args))
    requires Ends(After(x, s, CallTokens(name, args)), 0)
    requires name !in {"sma", "ema", "rsi", "atr", "macd", "bb", "crossover", "crossunder"}
    ensures ParseExpression(x, s, 0) == Parsed(Ok(Reference("0")), Moved(s, |CallTokens(name, args)|))
  {
    hide ParseExpression, ParseArguments, Ahead, Ends, CallTokens, ToLower, HasPrefix;
    CallReadBack(x, s, name, args);
    TaName(name);
  }

  predicate InputName(name: string) {
    ToLower(name) == name && (name == "input" || (|name| > 6 && name[..6] == "input."))
  }

  /** input(default, ...) and input.int(default, ...) with a default value and more arguments up to the parenthesis that
      closes them. */
  predicate InputWritten(x: Context, pos: nat, e: Expression)
    requires Grammatical(e)
  {
    var ts := Print(e, 0, true);
    && pos + 2 + |ts| <= |x.tokens| && x.tokens[pos].typ == TokIdentifier && x.tokens[pos + 1].typ == TokLParen
    && InputName(x.tokens[pos].val)
    && Ahead(x, pos + 2, ts) && Ends(Current(x, pos + 2 + |ts|), 0)
  }

  /** An input is read as its default value, and the rest of its arguments are passed over. */
  lemma InputRead(x: Context, s: PState, e: Expression)
    requires Grammatical(e) && InputWritten(x, s.pos, e)
    requires var end := SkipParentheses(x, Moved(s, 2 + |Print(e, 0, true)|), 1); Ends(Current(x, end.pos), 0)
    ensures ParseExpression(x, s, 0) == Parsed(Ok(e), SkipParentheses(x, Moved(s, 2 + |Print(e, 0, true)|), 1))
  {
    hide ParseExpression, ParseLoop, ParseArguments, Ahead, Print, Grammatical, CallOf, SkipParentheses, PinePrinter.Reads, Precedence;
    var name := x.tokens[s.pos].val;
    assert Advance(x, Advance(x, s)) == Moved(s, 2) && Advance(x, s).pos == s.pos + 1;
    InputNamed(name);
    ParserInvertsPrinter(x, Moved(s, 2), e);
    var end := SkipParentheses(x, Moved(s, 2 + |Print(e, 0, true)|), 1);
    assert Moved(Moved(s, 2), |Print(e, 0, true)|) == Moved(s, 2 + |Print(e, 0, true)|);
    PrimaryRead(x, s, 0, e, end);
    LoopStops(x, end, e, 0);
    ReadsThrough(x, s, Parsed(Ok(e), end));
  }

  lemma InputNamed(name: string)
    requires InputName(name)
    ensures CallOf(name) == InputCall
  {
    hide ToLower;
  }

  // Statements ---------------------------------------------------------------------------------------------------------

  /** The words a statement can start with that make it something other than an assignment. */
  const RESERVED: set<string> := {
    "var", "else", "int", "float", "string", "bool", "table", "color", "plot", "plotshape", "plotchar", "plotarrow", "plotbar",
    "plotcandle", "bgcolor", "alert", "alertcondition", "indicator", "strategy"}

  lemma DotsStay(name: string)
    requires '.' !in name
    ensures '.' !in ToLower(name)
  {
    assert forall i :: 0 <= i < |name| ==> ToLower(name)[i] == LowerChar(name[i]);
  }

  lemma DotNeeded(name: string, prefix: string)
    requires '.' !in name && prefix != "" && prefix[|prefix| - 1] == '.'
    ensures !HasPrefix(name, prefix)
  {
    assert |prefix| <= |name| ==> name[..|prefix|][|prefix| - 1] == name[|prefix| - 1];
  }

  /** A name without points is skipped or taken for a modifier only if it is one of the reserved words. */
  lemma FreeNames(name: string)
    requires '.' !in name && ToLower(name) !in RESERVED
    ensures !PineStatements.IsSkippable(name) && !PineStatements.IsVar(name) && !PineStatements.IsTypeName(name)
    ensures ToLower(name) != "else"
  {
    DotsStay(name);
    hide ToLower;
    var lower := ToLower(name);
    DotNeeded(lower, "table.");
    DotNeeded(lower, "color.");
    DotNeeded(lower, "str.");
    DotNeeded(lower, "math.");
  }

  lemma CallNotSkipped(name: string)
    requires Letters(name)
    ensures !PineStatements.IsSkippable("ta." + name)
  {
    TaName(name);
    var lower := "ta." + name;
    hide ToLower;
    assert lower[2] == '.' && "table."[2] == 'b' && "table"[2] == 'b' && lower[0] == 't';
    assert |lower| >= 6 ==> lower[..6][2] == '.' && lower[..6][0] == 't';
    assert |lower| >= 4 ==> lower[..4][0] == 't';
    assert |lower| >= 5 ==> lower[..5][0] == 't';
    assert "color."[0] == 'c' && "str."[0] == 's' && "math."[0] == 'm';
  }

  predicate Word(t: Token, words: set<string>) {
    t.typ == TokIdentifier && ToLower(t.val) in words
  }

  const TYPE_WORDS: set<string> := {"int", "float", "string", "bool", "table", "color"}

  /** What may stand before the name that is assigned to: var, a type, or var and a type. */
  predicate Introduced(x: Context, from: nat, to: nat) {
    || to == from
    || (to == from + 1 && (Word(Current(x, from), {"var"}) || Word(Current(x, from), TYPE_WORDS)))
    || (to == from + 2 && Word(Current(x, from), {"var"}) && Word(Current(x, from + 1), TYPE_WORDS))
  }

  /** The statement n = ta.name(arguments), with or without modifiers. */
  predicate Stated(x: Context, pos: nat, at: nat, n: string, name: string, args: seq<Expression>)
    requires AllGrammatical(args)
  {
    && Introduced(x, pos, at) && at + 1 < |x.tokens|
    && x.tokens[at].typ == TokIdentifier && x.tokens[at].val == n && x.tokens[at + 1].typ == TokAssign
    && Assigned(x, at + 2, name, args)
  }

  lemma ModifiersPassed(x: Context, pos: nat, at: nat)
    requires Introduced(x, pos, at) && at < |x.tokens|
    requires x.tokens[at].typ == TokIdentifier && '.' !in x.tokens[at].val && ToLower(x.tokens[at].val) !in RESERVED
    ensures PineStatements.Past(x, PineStatements.Past(x, pos, PineStatements.IsVar), PineStatements.IsTypeName) == at
    ensures !PineStatements.IsContinuation(Current(x, pos))
  {
    FreeNames(x.tokens[at].val);
    hide ToLower;
  }

  lemma AssignmentForm(x: Context, pos: nat, at: nat, n: string, name: string, args: seq<Expression>)
    requires AllGrammatical(args) && Letters(name) && Stated(x, pos, at, n, name, args)
    requires '.' !in n && ToLower(n) !in RESERVED
    ensures PineStatements.FormOf(x, pos) == PineStatements.Assignment(at + 2, n)
  {
    hide ToLower, PineStatements.IsSkippable, PrintAll, Ends, Introduced, PineStatements.Past, PineStatements.IsContinuation;
    ModifiersPassed(x, pos, at);
    FreeNames(n);
    CallNotSkipped(name);
    var first := Token(TokIdentifier, "ta." + name, 1);
    AheadSplits(x, at + 2, [first], [LP] + PrintAll(args));
    AheadOne(x, at + 2, first);
  }

  /** A whole statement that assigns an indicator call to a free name compiles to exactly that definition under that name,
      and the parser goes on right behind it. */
  lemma StatementRoundTrip(tokens: seq<Token>, parse: string -> Option<real>, a: PineStatements.Mark, at: nat, n: string,
                           def: IndicatorDef, texts: seq<string>, b: PineStatements.Mark)
    requires Callable(def) && '.' !in n && ToLower(n) !in RESERVED
    requires a.pos <= |tokens| && PineStatements.NextStatement(tokens, parse, a, b)
    requires var x := Context(tokens, a.snap.constants, parse);
      && Spelled(x, texts, def.params)
      && Stated(x, PineStatements.NewlinesEnd(x, a.pos), at, n, KindText(def.kind), ArgumentsOf(def, texts))
    ensures b.snap == a.snap.(config := a.snap.config.(indicators := a.snap.config.indicators[n := def]))
    ensures b.pos == at + 2 + |CallTokens(KindText(def.kind), ArgumentsOf(def, texts))|
  {
    hide KindText, ArgumentsOf, CallTokens, Spelled, ToLower, Assigned, Introduced, PineStatements.NewlinesEnd,
      PineStatements.FormOf, PineStatements.AssignmentDone;
    var x := Context(tokens, a.snap.constants, parse);
    IndicatorNamed(def.kind);
    AssignmentForm(x, PineStatements.NewlinesEnd(x, a.pos), at, n, KindText(def.kind), ArgumentsOf(def, texts));
    AssignmentRoundTrip(x, a.snap, at + 2, n, def, texts, b.snap, b.pos);
  }

  // What the evaluator computes -----------------------------------------------------------------------------------------

  /** The values of an indicator at bar i, for the name its call has in a script. */
  predicate Computes(host: Resolution.Host, text: string, n: string, params: seq<real>, src: seq<real>, cs: seq<Candle>,
                     env: Resolution.Env, i: nat)
    requires i < |src| == |cs| && |params| >= 1
  {
    var period := Resolution.Truncate(params[0]);
    n in env && i < |env[n]| &&
    if text == "sma" then env[n][i] == SmaAt(src, period, i)
    else if text == "ema" then env[n][i] == EmaAt(src, period, i)
    else if text == "rsi" then env[n][i] == RsiAt(src, period, i)
    else if text == "atr" then env[n][i] == AtrAt(cs, period, i)
    else if text == "macd" then
      |params| >= 3 && n + ".signal" in env && n + ".hist" in env && |env[n + ".signal"]| == |env[n + ".hist"]| == |src| &&
      var line := seq(|src|, k requires 0 <= k < |src| =>
        EmaAt(src, period, k) - EmaAt(src, Resolution.Truncate(params[1]), k));
      && env[n][i] == line[i] && env[n + ".signal"][i] == EmaAt(line, Resolution.Truncate(params[2]), i)
      && env[n + ".hist"][i] == env[n][i] - env[n + ".signal"][i]
    else
      |params| >= 2 && n + ".upper" in env && n + ".lower" in env && |env[n + ".upper"]| == |env[n + ".lower"]| == |src| &&
      var spread := params[1] * StdevAt(host.sqrt, src, period, i);
      && env[n][i] == SmaAt(src, period, i)
      && env[n + ".upper"][i] == env[n][i] + spread && env[n + ".lower"][i] == env[n][i] - spread
  }

  /** How many parameters each call must have: macd three, bb two, and every other one. */
  lemma ParametersNeeded(def: IndicatorDef)
    ensures Resolution.WellFormed(def) <==>
      && KindOf(KindText(def.kind)) == def.kind && !def.kind.Unknown?
      && |def.params| >= (if KindText(def.kind) == "macd" then 3 else if KindText(def.kind) == "bb" then 2 else 1)
  {
    hide KindOf;
    if !def.kind.Unknown? {
      IndicatorNamed(def.kind);
    }
  }

  lemma OutputsCompute(host: Resolution.Host, n: string, def: IndicatorDef, src: seq<real>, cs: seq<Candle>, i: nat)
    requires Resolution.WellFormed(def) && i < |src| == |cs|
    ensures Computes(host, KindText(def.kind), n, def.params, src, cs, Resolution.Outputs(host, n, def, src, cs), i)
  {
    hide SmaAt, EmaAt, RsiAt, AtrAt, StdevAt, Resolution.Truncate;
    OutputNamesApart(n);
    var period := Resolution.Truncate(def.params[0]);
    if def.kind == MACD {
      var line := seq(|src|, k requires 0 <= k < |src| =>
        EmaAt(src, period, k) - EmaAt(src, Resolution.Truncate(def.params[1]), k));
      assert MacdLine(src, period, Resolution.Truncate(def.params[1])) == line;
    }
  }

  lemma OutputNamesApart(n: string)
    ensures n != n + ".signal" && n != n + ".hist" && n + ".signal" != n + ".hist"
    ensures n != n + ".upper" && n != n + ".lower" && n + ".upper" != n + ".lower"
  {
    assert |n| + 7 == |n + ".signal"| && |n| + 5 == |n + ".hist"| && |n| + 6 == |n + ".upper"| == |n + ".lower"|;
    assert (n + ".upper")[|n| + 1] == 'u' && (n + ".lower")[|n| + 1] == 'l';
  }

  /** Only the average true range does without a source. */
  lemma SourceIrrelevant(host: Resolution.Host, n: string, def: IndicatorDef, src: seq<real>, other: seq<real>, cs: seq<Candle>)
    requires Resolution.WellFormed(def) && def.kind == ATR
    ensures Resolution.Outputs(host, n, def, src, cs) == Resolution.Outputs(host, n, def, other, cs)
  {
  }

  lemma ComputesAmongOthers(host: Resolution.Host, text: string, n: string, params: seq<real>, src: seq<real>, cs: seq<Candle>,
                            env: Resolution.Env, more: Resolution.Env, i: nat)
    requires i < |src| == |cs| && |params| >= 1 && Computes(host, text, n, params, src, cs, more, i)
    ensures Computes(host, text, n, params, src, cs, env + more, i)
  {
    hide SmaAt, EmaAt, RsiAt, AtrAt, StdevAt, Resolution.Truncate;
  }

  /** The series an indicator is computed from: every kind but the average true range has one. */
  predicate FedFrom(def: IndicatorDef, env: Resolution.Env, src: seq<real>) {
    def.kind == ATR || (def.source != "" && def.source in env && env[def.source] == src)
  }

  /** From text to values: once n = ta.name(source, parameters) has been read and the evaluator resolves n, after whatever
      other indicators, n holds at every bar the indicator that the text names, of the source's series and with those
      parameters. */
  lemma StatementComputes(tokens: seq<Token>, parse: string -> Option<real>, a: PineStatements.Mark, at: nat, n: string,
                          def: IndicatorDef, texts: seq<string>, b: PineStatements.Mark, host: Resolution.Host, cs: seq<Candle>,
                          done: seq<string>, src: seq<real>, i: nat)
    requires Callable(def) && '.' !in n && ToLower(n) !in RESERVED && Resolution.WellFormed(def)
    requires a.pos <= |tokens| && PineStatements.NextStatement(tokens, parse, a, b)
    requires var x := Context(tokens, a.snap.constants, parse);
      && Spelled(x, texts, def.params)
      && Stated(x, PineStatements.NewlinesEnd(x, a.pos), at, n, KindText(def.kind), ArgumentsOf(def, texts))
    requires var defs := b.snap.config.indicators;
      && Resolution.Legal(defs, done) && Resolution.Legal(defs, done + [n]) && i < |src| == |cs|
      && FedFrom(def, Resolution.Resolved(host, defs, cs, done), src)
    ensures var defs := b.snap.config.indicators;
      Computes(host, KindText(def.kind), n, def.params, src, cs, Resolution.Resolved(host, defs, cs, done + [n]), i)
  {
    hide KindText, ArgumentsOf, CallTokens, Spelled, ToLower, Stated, Computes, PineStatements.NewlinesEnd,
      PineStatements.NextStatement, Resolution.Legal, Resolution.Resolved, Resolution.Outputs, Resolution.Startable;
    StatementRoundTrip(tokens, parse, a, at, n, def, texts, b);
    var defs := b.snap.config.indicators;
    assert defs[n] == def;
    var env := Resolution.Resolved(host, defs, cs, done);
    var used := Resolution.Source(def, env);
    var before, last := Resolution.LastOne(host, defs, cs, done + [n]);
    assert (done + [n])[..|done|] == done && before == done && last == n;
    if def.kind == ATR {
      SourceIrrelevant(host, n, def, used, src, cs);
    }
    OutputsCompute(host, n, def, src, cs, i);
    ComputesAmongOthers(host, KindText(def.kind), n, def.params, src, cs, env, Resolution.Outputs(host, n, def, src, cs), i);
  }
}
