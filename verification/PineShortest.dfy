/** No tokens that parse to an expression are fewer than its print (internal/pine/parser.go:651-862). */
module PineShortest {
  import opened Common
  import opened PineIR
  import opened PineLexer
  import opened PineGrammar
  import opened PineWellFormed
  import opened PinePrinter

  // How long prints are ---------------------------------------------------------------------------------------------

  function Width(e: Expression, level: int, last: bool): nat
    requires Grammatical(e)
  {
    |Print(e, level, last)|
  }

  /** The width of the print without parentheses of its own. */
  function Inside(e: Expression, last: bool): nat
    requires Grammatical(e)
  {
    |Bare(e, last)|
  }

  lemma WidthOf(e: Expression, level: int, last: bool)
    requires Grammatical(e)
    ensures Width(e, level, last) == if Wrapped(e, level, last) then Inside(e, true) + 2 else Inside(e, last)
  {
    hide Bare;
  }

  lemma ReferenceWidth(e: Expression, level: int, last: bool)
    requires Grammatical(e) && e.op == Ref && level <= 4
    ensures Width(e, level, last) == 1
  {
    WidthOf(e, level, last);
    assert Bare(e, last) == [RefToken(e.val)];
  }

  lemma BinaryWidth(e: Expression, last: bool)
    requires Grammatical(e) && IsBinary(e.op)
    ensures |e.args| == 2 && Grammatical(e.args[0]) && Grammatical(e.args[1])
    ensures Inside(e, last) == Width(e.args[0], Level(e), false) + 1 + Width(e.args[1], Level(e) + 1, last)
  {
    hide Print;
  }

  lemma TernaryWidth(e: Expression, level: int, last: bool)
    requires Grammatical(e) && e.op == Ternary
    ensures |e.args| == 3 && Grammatical(e.args[0]) && Grammatical(e.args[1]) && Grammatical(e.args[2])
    ensures Inside(e, last) == Width(e.args[0], 4, false) + 1 + Width(e.args[1], 0, true) + 1 + Width(e.args[2], 0, true)
  {
    TernaryShape(e);
    hide Print, Bare;
  }

  /** Where operators may follow, a ternary at the end costs a pair of parentheses and nothing else costs more. */
  lemma {:induction false} InsideOpen(e: Expression)
    requires Grammatical(e)
    ensures Inside(e, true) <= Inside(e, false) <= Inside(e, true) + 2
    decreases e
  {
    if IsBinary(e.op) {
      BinaryWidth(e, true);
      BinaryWidth(e, false);
      var right := e.args[1];
      InsideOpen(right);
      WidthOf(right, Level(e) + 1, true);
      WidthOf(right, Level(e) + 1, false);
      hide Print, Bare;
    }
  }

  /** Tighter surroundings never make a print shorter. */
  lemma WidthMonotone(e: Expression, level: int, last: bool, tighter: int, closed: bool)
    requires Grammatical(e) && level <= tighter && (closed ==> last)
    ensures Width(e, level, last) <= Width(e, tighter, closed)
  {
    hide Width, Inside;
    InsideOpen(e);
    WidthOf(e, level, last);
    WidthOf(e, tighter, closed);
  }

  /** A pair of parentheses is enough anywhere. */
  lemma ParenthesesSuffice(e: Expression)
    requires Grammatical(e)
    ensures Width(e, 4, false) <= Width(e, 0, true) + 2
  {
    hide Width, Inside;
    InsideOpen(e);
    WidthOf(e, 4, false);
    WidthOf(e, 0, true);
  }

  // What the parser has to have read ---------------------------------------------------------------------------

  /** Nothing after this token can belong to the expression before it. */
  predicate Closes(next: Token) {
    next.typ != TokQuestion && Precedence(next) < 0
  }

  /** How tightly an expression has to bind before this token in a loop that asks for `min`. */
  function Asked(min: int, next: Token): int {
    if next.typ == TokQuestion then 4 else if Precedence(next) > min then Precedence(next) else min
  }

  /** n tokens are enough for e where this token comes next. */
  predicate Enough(n: int, e: Expression, min: int, next: Token)
    requires Grammatical(e)
  {
    n >= Width(e, Asked(min, next), Closes(next))
  }

  /** A loop has ended with e before this token, and the n tokens read so far are enough for it. */
  predicate EndsEnough(n: int, e: Expression, min: int, next: Token)
    requires Grammatical(e)
  {
    next.typ != TokQuestion && Precedence(next) < min && n >= Width(e, min, Closes(next))
  }

  lemma StopEnough(n: int, e: Expression, min: int, next: Token)
    requires Grammatical(e) && Enough(n, e, min, next) && next.typ != TokQuestion && Precedence(next) < min
    ensures EndsEnough(n, e, min, next)
  {
  }

  /** What is enough on its own is enough anywhere. */
  lemma PrimaryEnough(n: int, e: Expression, min: int, next: Token)
    requires Grammatical(e) && n >= Width(e, 4, false) && min <= 4
    ensures Enough(n, e, min, next)
  {
    hide Width;
    WidthMonotone(e, Asked(min, next), Closes(next), 4, false);
  }

  lemma TernaryEnough(n: int, c: Expression, min: int, q: Token, ny: int, yes: Expression, colon: Token,
                      nn: int, no: Expression, next: Token)
    requires Grammatical(c) && Grammatical(yes) && Grammatical(no) && q.typ == TokQuestion && colon.typ == TokColon && min <= 4
    requires Enough(n, c, min, q) && EndsEnough(ny, yes, 0, colon) && EndsEnough(nn, no, 0, next)
    ensures var e := Expression(Ternary, [c, yes, no], "");
      Grammatical(e) && Enough(n + 1 + ny + 1 + nn, e, min, next)
  {
    TernaryGrammatical(c, yes, no);
    var e := Expression(Ternary, [c, yes, no], "");
    hide Width, Inside, Grammatical;
    TernaryWidth(e, min, true);
    WidthOf(e, Asked(min, next), true);
  }

  lemma BinaryEnough(n: int, left: Expression, min: int, tok: Token, nr: int, right: Expression, next: Token)
    requires Grammatical(left) && Grammatical(right) && (tok.typ == TokCompare ==> IsCompareText(tok.val))
    requires tok.typ != TokQuestion && 0 <= min <= Precedence(tok)
    requires Enough(n, left, min, tok) && EndsEnough(nr, right, Precedence(tok) + 1, next)
    ensures var e := Binary(OpOf(tok), left, right);
      Grammatical(e) && Enough(n + 1 + nr, e, min, next)
  {
    BinaryGrammatical(tok, left, right);
    var e := Binary(OpOf(tok), left, right);
    OperatorLevel(tok, e);
    hide Width, Inside, Grammatical, OpOf, IsBinary, Level;
    BinaryWidth(e, Closes(next));
    WidthOf(e, Asked(min, next), Closes(next));
  }

  lemma OperatorLevel(tok: Token, e: Expression)
    requires Precedence(tok) >= 0 && e.op == OpOf(tok) && (tok.typ == TokCompare ==> IsCompareText(tok.val))
    ensures IsBinary(e.op) && Level(e) == Precedence(tok) && e.op != Ternary
  {
  }

  // Arguments -------------------------------------------------------------------------------------------------------

  /** The tokens of arguments, each with the comma or parenthesis after it. */
  function Cost(es: seq<Expression>): nat
    requires AllGrammatical(es)
  {
    if es == [] then 0 else Cost(es[..|es| - 1]) + Width(es[|es| - 1], 0, true) + 1
  }

  lemma NoCost()
    ensures Cost([]) == 0
  {
  }

  lemma CostAppend(es: seq<Expression>, e: Expression)
    requires AllGrammatical(es) && Grammatical(e)
    ensures AllGrammatical(es + [e]) && Cost(es + [e]) == Cost(es) + Width(e, 0, true) + 1
  {
    hide Width, Grammatical;
    assert (es + [e])[..|es|] == es;
  }

  lemma {:induction false} CostFront(es: seq<Expression>)
    requires AllGrammatical(es) && es != []
    ensures Cost(es) == Width(es[0], 0, true) + 1 + Cost(es[1..])
    decreases |es|
  {
    hide Width, Grammatical;
    if |es| > 1 {
      var n := |es| - 1;
      CostFront(es[..n]);
      assert es[..n][1..] == es[1..][..n - 1];
    }
  }

  lemma {:induction false} AllWidth(es: seq<Expression>)
    requires AllGrammatical(es)
    ensures |PrintAll(es)| == if es == [] then 1 else Cost(es)
    decreases |es|
  {
    hide Print, Grammatical;
    if es != [] {
      CostFront(es);
      AllWidth(es[1..]);
    }
  }

  /** Moving indicator calls to variables only makes the arguments shorter. */
  lemma {:induction false} FlattenCheaper(x: Context, s: PState, args: seq<Expression>)
    requires AllGrammatical(args)
    ensures AllGrammatical(Flatten(x, s, args).0) && Cost(Flatten(x, s, args).0) <= Cost(args)
    decreases |args|
  {
    hide Width, Grammatical, Extends;
    if args != [] {
      var (first, t) := FlattenOne(x, s, args[0]);
      FlattenCheaper(x, t, args[1..]);
      OneCheaper(x, s, args[0]);
      var flat := Flatten(x, s, args).0;
      assert flat[0] == first && flat[1..] == Flatten(x, t, args[1..]).0;
      assert AllGrammatical(flat);
      CostFront(flat);
      CostFront(args);
    }
  }

  lemma OneCheaper(x: Context, s: PState, arg: Expression)
    requires Grammatical(arg)
    ensures var first := FlattenOne(x, s, arg).0; Grammatical(first) && Width(first, 0, true) <= Width(arg, 0, true)
  {
    var first := FlattenOne(x, s, arg).0;
    if arg.op == Indicator {
      ReferenceWidth(first, 0, true);
      BareFirst(arg, true);
    }
  }

  lemma CallEnough(x: Context, s: PState, name: string, args: seq<Expression>, n: int)
    requires AllGrammatical(args) && KnownKinds(s.indicators)
    requires n >= 3 && n >= 2 + Cost(args)
    ensures var r := CallResult(x, s, CallOf(name), args);
      r.result.Ok? && Grammatical(r.result.value) && n >= Width(r.result.value, 4, false)
  {
    hide Flatten, CallOf, Cost, Extends, KnownKinds;
    CallGrammatical(x, s, name, args);
    FlattenCheaper(x, s, args);
    OnlyCrossings(name);
    var e := CallResult(x, s, CallOf(name), args).result.value;
    match CallOf(name)
    case IndicatorCall(_) => CallWidth(e);
    case CrossCall(_) => CallWidth(e);
    case _ => ReferenceWidth(e, 4, false);
  }

  lemma OnlyCrossings(name: string)
    ensures CallOf(name).CrossCall? ==> IsCross(CallOf(name).op)
  {
    hide ToLower, HasPrefix;
  }

  lemma CallWidth(e: Expression)
    requires Grammatical(e) && IsCall(e.op)
    ensures AllGrammatical(e.args) && Width(e, 4, false) == 2 + if e.args == [] then 1 else Cost(e.args)
  {
    hide CallName, PrintAll;
    AllWidth(e.args);
    BareCall(e, false);
  }

  // Parsing -----------------------------------------------------------------------------------------------------------

  /** What is read as e took enough tokens for its print in that place. */
  lemma {:induction false} ExpressionEnough(x: Context, s: PState, min: int)
    requires Lexed(x.tokens) && s.pos <= |x.tokens| && KnownKinds(s.indicators) && 0 <= min <= 4
    ensures var r := ParseExpression(x, s, min);
      r.result.Ok? ==>
        Grammatical(r.result.value) && EndsEnough(r.state.pos - s.pos, r.result.value, min, Current(x, r.state.pos))
    decreases |x.tokens| - s.pos, 1
  {
    hide ParsePrimary, ParseLoop, Grammatical, KnownKinds, Width, Lexed, EndsEnough, Enough;
    PrimaryGrammatical(x, s);
    PrimaryTakesEnough(x, s);
    var left := ParsePrimary(x, s);
    if left.result.Ok? {
      PrimaryEnough(left.state.pos - s.pos, left.result.value, min, Current(x, left.state.pos));
      LoopEnough(x, left.state, left.result.value, min, left.state.pos - s.pos);
    }
  }

  lemma {:induction false} LoopEnough(x: Context, s: PState, left: Expression, min: int, n: int)
    requires Lexed(x.tokens) && s.pos <= |x.tokens| && KnownKinds(s.indicators) && 0 <= min <= 4
    requires Grammatical(left) && Enough(n, left, min, Current(x, s.pos))
    ensures var r := ParseLoop(x, s, left, min);
      r.result.Ok? ==>
        Grammatical(r.result.value) && EndsEnough(n + (r.state.pos - s.pos), r.result.value, min, Current(x, r.state.pos))
    decreases |x.tokens| - s.pos, 2
  {
    hide ParseExpression, Grammatical, KnownKinds, Width, EndsEnough, Enough, OpOf;
    var tok := Current(x, s.pos);
    if tok.typ == TokQuestion {
      var yes := ParseExpression(x, Advance(x, s), 0);
      ExpressionGrammatical(x, Advance(x, s), 0);
      ExpressionEnough(x, Advance(x, s), 0);
      if yes.result.Ok? && Current(x, yes.state.pos).typ == TokColon {
        var no := ParseExpression(x, Advance(x, yes.state), 0);
        ExpressionGrammatical(x, Advance(x, yes.state), 0);
        ExpressionEnough(x, Advance(x, yes.state), 0);
        if no.result.Ok? {
          var (ny, nn) := (yes.state.pos - (s.pos + 1), no.state.pos - (yes.state.pos + 1));
          TernaryEnough(n, left, min, tok, ny, yes.result.value, Current(x, yes.state.pos), nn, no.result.value,
                        Current(x, no.state.pos));
          LoopEnough(x, no.state, Expression(Ternary, [left, yes.result.value, no.result.value], ""), min, n + 1 + ny + 1 + nn);
        }
      }
    } else if Precedence(tok) >= min {
      var right := ParseExpression(x, Advance(x, s), Precedence(tok) + 1);
      ExpressionGrammatical(x, Advance(x, s), Precedence(tok) + 1);
      ExpressionEnough(x, Advance(x, s), Precedence(tok) + 1);
      if right.result.Ok? {
        var nr := right.state.pos - (s.pos + 1);
        BinaryEnough(n, left, min, tok, nr, right.result.value, Current(x, right.state.pos));
        LoopEnough(x, right.state, Binary(OpOf(tok), left, right.result.value), min, n + 1 + nr);
      }
    } else {
      StopEnough(n, left, min, tok);
    }
  }

  lemma {:induction false} PrimaryTakesEnough(x: Context, s: PState)
    requires Lexed(x.tokens) && s.pos <= |x.tokens| && KnownKinds(s.indicators)
    ensures var r := ParsePrimary(x, s);
      r.result.Ok? ==> Grammatical(r.result.value) && r.state.pos - s.pos >= Width(r.result.value, 4, false)
    decreases |x.tokens| - s.pos, 0
  {
    hide ParseExpression, KnownKinds, ParseCall, Width, Lexed;
    var tok := Current(x, s.pos);
    match tok.typ
    case TokLParen =>
      ExpressionGrammatical(x, Advance(x, s), 0);
      ExpressionEnough(x, Advance(x, s), 0);
      var inner := ParseExpression(x, Advance(x, s), 0);
      if inner.result.Ok? {
        ParenthesesSuffice(inner.result.value);
      }
    case TokNot => NotNeverParses(x, s);
    case TokNumber => ReferenceWidth(Reference(tok.val), 4, false);
    case TokIdentifier =>
      ReferenceWidth(Reference(tok.val), 4, false);
      var after := Advance(x, s);
      if Current(x, after.pos).typ == TokLParen {
        CallTakesEnough(x, Advance(x, after), tok.val);
      }
    case _ =>
  }

  lemma {:induction false} CallTakesEnough(x: Context, s: PState, name: string)
    requires Lexed(x.tokens) && s.pos <= |x.tokens| && KnownKinds(s.indicators)
    ensures var r := ParseCall(x, s, name);
      r.result.Ok? ==> Grammatical(r.result.value) && 2 + (r.state.pos - s.pos) >= Width(r.result.value, 4, false)
    decreases |x.tokens| - s.pos, 4
  {
    hide ParseExpression, ParseArguments, KnownKinds, Grammatical, CallOf, CallResult, SkipParentheses, Width, Lexed, Cost;
    ExpressionGrammatical(x, s, 0);
    ExpressionEnough(x, s, 0);
    ArgumentsGrammatical(x, s, []);
    NoCost();
    ArgumentsEnough(x, s, [], 0);
    var (first, args) := (ParseExpression(x, s, 0), ParseArguments(x, s, []));
    if CallOf(name) == InputCall {
      if first.result.Ok? {
        ParenthesesSuffice(first.result.value);
      }
    } else if args.result.Ok? && Current(x, args.state.pos).typ == TokRParen {
      CallEnough(x, Advance(x, args.state), name, args.result.value, 2 + (args.state.pos - s.pos) + 1);
    }
  }

  lemma {:induction false} ArgumentsEnough(x: Context, s: PState, args: seq<Expression>, n: int)
    requires Lexed(x.tokens) && s.pos <= |x.tokens| && KnownKinds(s.indicators) && AllGrammatical(args)
    requires (if Current(x, s.pos).typ == TokRParen then n + 1 else n) >= Cost(args)
    ensures var r := ParseArguments(x, s, args);
      r.result.Ok? ==> AllGrammatical(r.result.value) && n + (r.state.pos - s.pos) + 1 >= Cost(r.result.value)
    decreases |x.tokens| - s.pos, 3
  {
    hide ParseExpression, KnownKinds, Grammatical, Width, Lexed, Cost;
    var tok := Current(x, s.pos);
    if tok.typ != TokRParen && tok.typ != TokEOF {
      ExpressionGrammatical(x, s, 0);
      ExpressionEnough(x, s, 0);
      var arg := ParseExpression(x, s, 0);
      if arg.result.Ok? {
        var (next, more) := (Current(x, arg.state.pos), args + [arg.result.value]);
        CostAppend(args, arg.result.value);
        var m := n + (arg.state.pos - s.pos);
        if next.typ == TokComma {
          ArgumentsEnough(x, Advance(x, arg.state), more, m + 1);
        } else if next.typ == TokRParen {
          ArgumentsEnough(x, arg.state, more, m);
        }
      }
    }
  }

  /** The print of e is the shortest token sequence that parses to e: whatever else does is at least as long. So not a
      pair of the parentheses it writes can be left out, and no other way of writing e needs fewer tokens. */
  lemma PrintIsShortest(x: Context, s: PState)
    requires Lexed(x.tokens) && s.pos <= |x.tokens| && KnownKinds(s.indicators) && ParseExpression(x, s, 0).result.Ok?
    ensures var r := ParseExpression(x, s, 0);
      Grammatical(r.result.value) && r.state.pos - s.pos >= |Print(r.result.value, 0, true)|
  {
    hide ParseExpression, Print;
    ExpressionEnough(x, s, 0);
  }

  /** In particular the print with any of its parentheses left out is too short to be read as e. */
  lemma NothingShorter(ts: seq<Token>, constants: map<string, real>, parse: string -> Option<real>, e: Expression)
    requires Grammatical(e) && Lexed(ts) && |ts| < |Print(e, 0, true)|
    ensures ParseExpression(Context(ts, constants, parse), PState(0, 0, map[], []), 0).result != Ok(e)
  {
    hide ParseExpression, Print, Grammatical, Lexed;
    var (x, s) := (Context(ts, constants, parse), PState(0, 0, map[], []));
    if ParseExpression(x, s, 0).result.Ok? {
      PrintIsShortest(x, s);
    }
  }
}
