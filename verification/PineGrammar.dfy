/** Expression parsing (internal/pine/parser.go:651-875) as functions from a cursor to a result and a cursor.
    That they are accepted as total functions is the termination argument of the source's mutual recursion. */
module PineGrammar {
  import opened Common
  import opened PineIR
  import opened PineLexer

  datatype ParseError = ParseError(line: int, message: string)

  /** What stays fixed while an expression is parsed. */
  datatype Context = Context(tokens: seq<Token>, constants: map<string, real>, parse: string -> Option<real>)

  /** What an expression may change besides its result. */
  datatype PState = PState(pos: nat, autoVar: nat, indicators: map<string, IndicatorDef>, errors: seq<ParseError>)

  /** Errors, automatic names and indicators only accumulate. */
  predicate Extends(s: PState, t: PState) {
    s.pos <= t.pos && s.autoVar <= t.autoVar && s.errors <= t.errors && s.indicators.Keys <= t.indicators.Keys
  }

  datatype Failure = UnexpectedToken(val: string) | MissingColon | MissingParenthesis | BadArgumentList

  datatype Parsed = Parsed(result: Result<Expression, Failure>, state: PState)

  datatype ParsedArgs = ParsedArgs(result: Result<seq<Expression>, Failure>, state: PState)

  // Tokens ----------------------------------------------------------------------------------------------------

  function Current(x: Context, pos: nat): Token {
    if pos < |x.tokens| then x.tokens[pos] else Token(TokEOF, "", 0)
  }

  function Advance(x: Context, s: PState): PState {
    if s.pos < |x.tokens| then s.(pos := s.pos + 1) else s
  }

  function Precedence(t: Token): int {
    match t.typ
    case TokOr => 1
    case TokAnd => 2
    case TokCompare => 3
    case _ => -1
  }

  function CompareOp(val: string): Op {
    if val == ">" then Gt
    else if val == "<" then Lt
    else if val == ">=" then Ge
    else if val == "<=" then Le
    else if val == "==" then Eq
    else if val == "!=" then Ne
    else Other(val)
  }

  /** The operator a consumed token stands for; tokens that are no operator are taken at their word. */
  function OpOf(t: Token): Op {
    match t.typ
    case TokAnd => And
    case TokOr => Or
    case TokCompare => CompareOp(t.val)
    case _ => Other(ToLower(t.val))
  }

  // Calls -----------------------------------------------------------------------------------------------------

  datatype Call = InputCall | IndicatorCall(name: string) | CrossCall(op: Op) | OtherCall

  predicate HasPrefix(s: string, prefix: string) {
    |prefix| <= |s| && s[..|prefix|] == prefix
  }

  predicate IsIndicatorType(name: string) {
    name in {"sma", "ema", "rsi", "atr", "macd", "bb"}
  }

  function KindOf(name: string): Kind {
    if name == "sma" then SMA
    else if name == "ema" then EMA
    else if name == "rsi" then RSI
    else if name == "atr" then ATR
    else if name == "macd" then MACD
    else if name == "bb" then BB
    else Unknown(name)
  }

  /** What calling a function of this name means. */
  function CallOf(name: string): Call {
    var fn := ToLower(name);
    if HasPrefix(fn, "input.") || fn == "input" then InputCall
    else if HasPrefix(fn, "ta.") then
      var short := fn[3..];
      if IsIndicatorType(short) then IndicatorCall(short)
      else if short == "crossover" then CrossCall(Crossover)
      else if short == "crossunder" then CrossCall(Crossunder)
      else OtherCall
    else OtherCall
  }

  function Decimal(n: nat): string {
    if n < 10 then [('0' as int + n) as char] else Decimal(n / 10) + [('0' as int + n % 10) as char]
  }

  function AutoName(n: nat): string {
    "_auto_var_" + Decimal(n)
  }

  function ValueOf(digits: string): int {
    if digits == "" then 0
    else ValueOf(digits[..|digits| - 1]) * 10 + (digits[|digits| - 1] as int - '0' as int)
  }

  lemma {:induction false} DecimalRoundTrip(n: nat)
    ensures ValueOf(Decimal(n)) == n
  {
    if n < 10 {
      assert Decimal(n)[..0] == "";
    } else {
      DecimalRoundTrip(n / 10);
      var last := ('0' as int + n % 10) as char;
      assert (Decimal(n / 10) + [last])[..|Decimal(n / 10)|] == Decimal(n / 10);
    }
  }

  /** No two automatic names are the same, so no nested indicator and no condition overwrites another. */
  lemma AutoNamesDistinct(m: nat, n: nat)
    requires m != n
    ensures AutoName(m) != AutoName(n)
  {
    DecimalRoundTrip(m);
    DecimalRoundTrip(n);
    assert AutoName(m)[10..] == Decimal(m) && AutoName(n)[10..] == Decimal(n);
  }

  function ResolveConstant(x: Context, e: Expression): Option<real> {
    if e.op != Ref then None
    else if e.val in x.constants then Some(x.constants[e.val])
    else x.parse(e.val)
  }

  function Constants(x: Context, args: seq<Expression>): seq<real> {
    if args == [] then []
    else
      var last := ResolveConstant(x, args[|args| - 1]);
      Constants(x, args[..|args| - 1]) + if last.Some? then [last.value] else []
  }

  /** The definition an indicator call stands for; what cannot be resolved is left out. */
  function DefinitionOf(x: Context, e: Expression): IndicatorDef {
    var kind := KindOf(e.val);
    if e.args == [] then IndicatorDef(kind, "", [])
    else if kind == ATR then IndicatorDef(kind, "", Constants(x, e.args[..1]))
    else IndicatorDef(kind, if e.args[0].op == Ref then e.args[0].val else "", Constants(x, e.args[1..]))
  }

  /** An indicator call among arguments moves to a variable of its own. */
  function FlattenOne(x: Context, s: PState, arg: Expression): (r: (Expression, PState))
    ensures r.1.pos == s.pos && r.1.errors == s.errors && Extends(s, r.1)
  {
    if arg.op == Indicator then
      var name := AutoName(s.autoVar);
      (Reference(name), s.(autoVar := s.autoVar + 1, indicators := s.indicators[name := DefinitionOf(x, arg)]))
    else (arg, s)
  }

  /** Left to right. */
  function Flatten(x: Context, s: PState, args: seq<Expression>): (r: (seq<Expression>, PState))
    ensures |r.0| == |args| && r.1.pos == s.pos && r.1.errors == s.errors && Extends(s, r.1)
    decreases |args|
  {
    if args == [] then ([], s)
    else
      var (first, t) := FlattenOne(x, s, args[0]);
      var (rest, u) := Flatten(x, t, args[1..]);
      ([first] + rest, u)
  }

  /** Moves past everything up to the parenthesis that closes `depth` open ones. */
  function SkipParentheses(x: Context, s: PState, depth: nat): (t: PState)
    requires s.pos <= |x.tokens|
    ensures s.pos <= t.pos <= |x.tokens| && t == s.(pos := t.pos)
    decreases |x.tokens| - s.pos
  {
    var tok := Current(x, s.pos);
    if depth == 0 || tok.typ == TokEOF then s
    else
      SkipParentheses(x, Advance(x, s),
        if tok.typ == TokLParen then depth + 1 else if tok.typ == TokRParen then depth - 1 else depth)
  }

  function Expected(x: Context, s: PState, message: string): PState {
    s.(errors := s.errors + [ParseError(Current(x, s.pos).line, message)])
  }

  // Expressions --------------------------------------------------------------------------------------------------

  function ParseExpression(x: Context, s: PState, minPrecedence: int): (r: Parsed)
    requires s.pos <= |x.tokens|
    ensures r.state.pos <= |x.tokens| && Extends(s, r.state) && (r.result.Ok? ==> s.pos < r.state.pos)
    decreases |x.tokens| - s.pos, 1
  {
    var left := ParsePrimary(x, s);
    if left.result.Err? then left else ParseLoop(x, left.state, left.result.value, minPrecedence)
  }

  /** The climbing loop, with the expression parsed so far. */
  function ParseLoop(x: Context, s: PState, left: Expression, minPrecedence: int): (r: Parsed)
    requires s.pos <= |x.tokens|
    ensures r.state.pos <= |x.tokens| && Extends(s, r.state)
    decreases |x.tokens| - s.pos, 2
  {
    var tok := Current(x, s.pos);
    if tok.typ == TokQuestion then
      var yes := ParseExpression(x, Advance(x, s), 0);
      if yes.result.Err? then yes
      else if Current(x, yes.state.pos).typ != TokColon then Parsed(Err(MissingColon), yes.state)
      else
        var no := ParseExpression(x, Advance(x, yes.state), 0);
        if no.result.Err? then no
        else ParseLoop(x, no.state, Expression(Ternary, [left, yes.result.value, no.result.value], ""), minPrecedence)
    else if Precedence(tok) < minPrecedence then Parsed(Ok(left), s)
    else
      var right := ParseExpression(x, Advance(x, s), Precedence(tok) + 1);
      if right.result.Err? then right
      else ParseLoop(x, right.state, Binary(OpOf(tok), left, right.result.value), minPrecedence)
  }

  function ParsePrimary(x: Context, s: PState): (r: Parsed)
    requires s.pos <= |x.tokens|
    ensures r.state.pos <= |x.tokens| && Extends(s, r.state) && (r.result.Ok? ==> s.pos < r.state.pos)
    decreases |x.tokens| - s.pos, 0
  {
    var tok := Current(x, s.pos);
    match tok.typ
    case TokLParen =>
      var inner := ParseExpression(x, Advance(x, s), 0);
      if inner.result.Err? then inner else CloseParenthesis(x, inner.state, inner.result.value)
    case TokNot =>
      var operand := ParseExpression(x, Advance(x, s), Precedence(tok));
      if operand.result.Err? then operand
      else Parsed(Ok(Expression(Not, [operand.result.value], "")), operand.state)
    case TokNumber => Parsed(Ok(Reference(tok.val)), Advance(x, s))
    case TokIdentifier =>
      var after := Advance(x, s);
      if Current(x, after.pos).typ == TokLParen then ParseCall(x, Advance(x, after), tok.val)
      else Parsed(Ok(Reference(tok.val)), after)
    case _ => Parsed(Err(UnexpectedToken(tok.val)), s)
  }

  function CloseParenthesis(x: Context, s: PState, e: Expression): (r: Parsed)
    requires s.pos <= |x.tokens|
    ensures r.state.pos <= |x.tokens| && Extends(s, r.state)
  {
    if Current(x, s.pos).typ == TokRParen then Parsed(Ok(e), Advance(x, s))
    else Parsed(Err(MissingParenthesis), Expected(x, s, "expected ')'"))
  }

  /** A call whose '(' has been consumed. */
  function ParseCall(x: Context, s: PState, name: string): (r: Parsed)
    requires s.pos <= |x.tokens|
    ensures r.state.pos <= |x.tokens| && Extends(s, r.state)
    decreases |x.tokens| - s.pos, 4
  {
    var call := CallOf(name);
    if call == InputCall then
      var first := ParseExpression(x, s, 0);
      if first.result.Err? then first
      else Parsed(first.result, SkipParentheses(x, first.state, 1))
    else
      var args := ParseArguments(x, s, []);
      match args.result
      case Err(e) => Parsed(Err(e), args.state)
      case Ok(list) =>
        if Current(x, args.state.pos).typ != TokRParen then
          Parsed(Err(MissingParenthesis), Expected(x, args.state, "expected ')' after argument list"))
        else CallResult(x, Advance(x, args.state), call, list)
  }

  function CallResult(x: Context, s: PState, call: Call, args: seq<Expression>): (r: Parsed)
    ensures r.state.pos == s.pos && r.result.Ok? && Extends(s, r.state)
  {
    match call
    case IndicatorCall(name) =>
      var (flat, t) := Flatten(x, s, args);
      Parsed(Ok(Expression(Indicator, flat, name)), t)
    case CrossCall(op) =>
      var (flat, t) := Flatten(x, s, args);
      Parsed(Ok(Expression(op, flat, "")), t)
    case _ => Parsed(Ok(Reference("0")), s)
  }

  function ParseArguments(x: Context, s: PState, args: seq<Expression>): (r: ParsedArgs)
    requires s.pos <= |x.tokens|
    ensures r.state.pos <= |x.tokens| && Extends(s, r.state)
    decreases |x.tokens| - s.pos, 3
  {
    var tok := Current(x, s.pos);
    if tok.typ == TokRParen || tok.typ == TokEOF then ParsedArgs(Ok(args), s)
    else
      var arg := ParseExpression(x, s, 0);
      match arg.result
      case Err(e) => ParsedArgs(Err(e), arg.state)
      case Ok(value) =>
        var next := Current(x, arg.state.pos);
        if next.typ == TokComma then ParseArguments(x, Advance(x, arg.state), args + [value])
        else if next.typ != TokRParen then ParsedArgs(Err(BadArgumentList), arg.state)
        else ParseArguments(x, arg.state, args + [value])
  }

  // `not` ---------------------------------------------------------------------------------------------------------

  /** The precedence looked up for `not` is -1, and no token's precedence is below -1: the loop that parses
      the operand takes every token for an operator and can only end in an error. */
  lemma {:induction false} OperandLoopFails(x: Context, s: PState, left: Expression)
    requires s.pos <= |x.tokens|
    ensures ParseLoop(x, s, left, -1).result.Err?
    decreases |x.tokens| - s.pos
  {
    var tok := Current(x, s.pos);
    if tok.typ == TokQuestion {
      var yes := ParseExpression(x, Advance(x, s), 0);
      if yes.result.Ok? && Current(x, yes.state.pos).typ == TokColon {
        var no := ParseExpression(x, Advance(x, yes.state), 0);
        if no.result.Ok? {
          OperandLoopFails(x, no.state, Expression(Ternary, [left, yes.result.value, no.result.value], ""));
        }
      }
    } else {
      var right := ParseExpression(x, Advance(x, s), Precedence(tok) + 1);
      if right.result.Ok? {
        OperandLoopFails(x, right.state, Binary(OpOf(tok), left, right.result.value));
      }
    }
  }

  /** So `not`, which the representation and the evaluator both provide for, never parses, whatever follows it. */
  lemma NotNeverParses(x: Context, s: PState)
    requires s.pos <= |x.tokens| && Current(x, s.pos).typ == TokNot
    ensures ParsePrimary(x, s).result.Err?
    ensures forall minPrecedence :: ParseExpression(x, s, minPrecedence).result.Err?
  {
    var operand := ParsePrimary(x, Advance(x, s));
    if operand.result.Ok? {
      OperandLoopFails(x, operand.state, operand.result.value);
    }
  }
}
