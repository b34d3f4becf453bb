/** What every expression that parses looks like (internal/pine/parser.go:41-257, 651-862): the operators the
    representation documents, with the right number of operands, over indicators of known kinds. */
module PineWellFormed {
  import opened PineIR
  import opened PineLexer
  import opened PineGrammar

  predicate IsBinary(op: Op) {
    IsComparison(op) || op == And || op == Or
  }

  predicate IsCross(op: Op) {
    op == Crossover || op == Crossunder
  }

  /** `not` is missing, because it never parses, and so is every operator the lexer has no token for. */
  predicate Grammatical(e: Expression) {
    && (if e.op == Ref then e.args == []
        else if IsBinary(e.op) then |e.args| == 2 && e.val == ""
        else if IsCross(e.op) then e.val == "" && NoneNested(e.args)
        else if e.op == Indicator then IsIndicatorType(e.val) && NoneNested(e.args)
        else e.op == Ternary && |e.args| == 3 && e.val == "")
    && forall i :: 0 <= i < |e.args| ==> Grammatical(e.args[i])
  }

  predicate AllGrammatical(es: seq<Expression>) {
    forall i :: 0 <= i < |es| ==> Grammatical(es[i])
  }

  /** Indicator calls among the arguments have moved to variables of their own. */
  predicate NoneNested(es: seq<Expression>) {
    forall i :: 0 <= i < |es| ==> es[i].op != Indicator
  }

  predicate KnownKinds(defs: map<string, IndicatorDef>) {
    forall name :: name in defs ==> !defs[name].kind.Unknown?
  }

  // Tokens ------------------------------------------------------------------------------------------------------

  predicate IsCompareText(val: string) {
    val in {">", "<", ">=", "<=", "==", "!="}
  }

  /** Comparison tokens are comparisons. */
  predicate Lexed(ts: seq<Token>) {
    forall i :: 0 <= i < |ts| ==> ts[i].typ == TokCompare ==> IsCompareText(ts[i].val)
  }

  lemma TokenLexed(a: Alphabet, input: string, c: Cursor)
    requires c.pos <= |input|
    ensures var t := TokenAt(a, input, c).token; t.typ == TokCompare ==> IsCompareText(t.val)
  {
    hide StringEnd, NumberEnd, NameEnd, ToLower;
  }

  lemma {:induction false} TokensLexed(a: Alphabet, input: string, c: Cursor)
    requires c.pos <= |input|
    ensures Lexed(Tokens(a, input, c))
    decreases |input| - c.pos
  {
    hide TokenAt, Skip;
    var l := Lex(a, input, c);
    TokenLexed(a, input, Skip(input, c));
    if l.token.typ != TokEOF {
      TokensLexed(a, input, l.rest);
    }
  }

  // Expressions ---------------------------------------------------------------------------------------------------

  lemma {:induction false} FlattenGrammatical(x: Context, s: PState, args: seq<Expression>)
    requires AllGrammatical(args) && KnownKinds(s.indicators)
    ensures var (flat, t) := Flatten(x, s, args);
      AllGrammatical(flat) && NoneNested(flat) && KnownKinds(t.indicators)
    decreases |args|
  {
    if args != [] {
      assert Grammatical(args[0]);
      FlattenGrammatical(x, FlattenOne(x, s, args[0]).1, args[1..]);
    }
  }

  lemma CallGrammatical(x: Context, s: PState, name: string, args: seq<Expression>)
    requires AllGrammatical(args) && KnownKinds(s.indicators)
    ensures var r := CallResult(x, s, CallOf(name), args);
      r.result.Ok? && Grammatical(r.result.value) && KnownKinds(r.state.indicators)
  {
    hide Flatten, ToLower;
    FlattenGrammatical(x, s, args);
  }

  lemma {:induction false} ExpressionGrammatical(x: Context, s: PState, min: int)
    requires Lexed(x.tokens) && s.pos <= |x.tokens| && KnownKinds(s.indicators) && min >= -1
    ensures var r := ParseExpression(x, s, min);
      KnownKinds(r.state.indicators) && (r.result.Ok? ==> Grammatical(r.result.value))
    decreases |x.tokens| - s.pos, 1
  {
    hide ParsePrimary, ParseLoop, Grammatical, KnownKinds;
    PrimaryGrammatical(x, s);
    var left := ParsePrimary(x, s);
    if left.result.Ok? {
      LoopGrammatical(x, left.state, left.result.value, min);
    }
  }

  lemma {:induction false} LoopGrammatical(x: Context, s: PState, left: Expression, min: int)
    requires Lexed(x.tokens) && s.pos <= |x.tokens| && KnownKinds(s.indicators)
    requires min >= -1 && (min >= 0 ==> Grammatical(left))
    ensures var r := ParseLoop(x, s, left, min);
      KnownKinds(r.state.indicators) && (r.result.Ok? ==> Grammatical(r.result.value))
    decreases |x.tokens| - s.pos, 2
  {
    hide ParseExpression, KnownKinds, Grammatical;
    if min == -1 {
      OperandLoopFails(x, s, left);
    }
    var tok := Current(x, s.pos);
    if tok.typ == TokQuestion {
      ExpressionGrammatical(x, Advance(x, s), 0);
      var yes := ParseExpression(x, Advance(x, s), 0);
      if yes.result.Ok? && Current(x, yes.state.pos).typ == TokColon {
        ExpressionGrammatical(x, Advance(x, yes.state), 0);
        var no := ParseExpression(x, Advance(x, yes.state), 0);
        if no.result.Ok? {
          if min >= 0 {
            TernaryGrammatical(left, yes.result.value, no.result.value);
          }
          LoopGrammatical(x, no.state, Expression(Ternary, [left, yes.result.value, no.result.value], ""), min);
        }
      }
    } else if Precedence(tok) >= min {
      ExpressionGrammatical(x, Advance(x, s), Precedence(tok) + 1);
      var right := ParseExpression(x, Advance(x, s), Precedence(tok) + 1);
      if right.result.Ok? {
        if min >= 0 {
          BinaryGrammatical(tok, left, right.result.value);
        }
        LoopGrammatical(x, right.state, Binary(OpOf(tok), left, right.result.value), min);
      }
    }
  }

  lemma TernaryGrammatical(c: Expression, yes: Expression, no: Expression)
    requires Grammatical(c) && Grammatical(yes) && Grammatical(no)
    ensures Grammatical(Expression(Ternary, [c, yes, no], ""))
  {
  }

  lemma BinaryGrammatical(tok: Token, left: Expression, right: Expression)
    requires Grammatical(left) && Grammatical(right) && Precedence(tok) >= 0
    requires tok.typ == TokCompare ==> IsCompareText(tok.val)
    ensures Grammatical(Binary(OpOf(tok), left, right))
  {
  }

  lemma {:induction false} PrimaryGrammatical(x: Context, s: PState)
    requires Lexed(x.tokens) && s.pos <= |x.tokens| && KnownKinds(s.indicators)
    ensures var r := ParsePrimary(x, s);
      KnownKinds(r.state.indicators) && (r.result.Ok? ==> Grammatical(r.result.value))
    decreases |x.tokens| - s.pos, 0
  {
    hide ParseExpression, KnownKinds, ParseCall;
    var tok := Current(x, s.pos);
    match tok.typ
    case TokLParen =>
      ExpressionGrammatical(x, Advance(x, s), 0);
    case TokNot =>
      NotNeverParses(x, s);
      ExpressionGrammatical(x, Advance(x, s), -1);
    case TokIdentifier =>
      var after := Advance(x, s);
      if Current(x, after.pos).typ == TokLParen {
        CallOfGrammatical(x, Advance(x, after), tok.val);
      }
    case _ =>
  }

  lemma {:induction false} CallOfGrammatical(x: Context, s: PState, name: string)
    requires Lexed(x.tokens) && s.pos <= |x.tokens| && KnownKinds(s.indicators)
    ensures var r := ParseCall(x, s, name);
      KnownKinds(r.state.indicators) && (r.result.Ok? ==> Grammatical(r.result.value))
    decreases |x.tokens| - s.pos, 4
  {
    hide ParseExpression, ParseArguments, KnownKinds, Grammatical, CallOf, CallResult, SkipParentheses;
    ExpressionGrammatical(x, s, 0);
    ArgumentsGrammatical(x, s, []);
    var args := ParseArguments(x, s, []);
    if args.result.Ok? && Current(x, args.state.pos).typ == TokRParen {
      CallGrammatical(x, Advance(x, args.state), name, args.result.value);
    }
  }

  lemma {:induction false} ArgumentsGrammatical(x: Context, s: PState, args: seq<Expression>)
    requires Lexed(x.tokens) && s.pos <= |x.tokens| && KnownKinds(s.indicators) && AllGrammatical(args)
    ensures var r := ParseArguments(x, s, args);
      KnownKinds(r.state.indicators) && (r.result.Ok? ==> AllGrammatical(r.result.value))
    decreases |x.tokens| - s.pos, 3
  {
    hide ParseExpression, KnownKinds, Grammatical;
    var tok := Current(x, s.pos);
    if tok.typ != TokRParen && tok.typ != TokEOF {
      ExpressionGrammatical(x, s, 0);
      var arg := ParseExpression(x, s, 0);
      if arg.result.Ok? {
        var next := Current(x, arg.state.pos);
        var more := args + [arg.result.value];
        assert AllGrammatical(more);
        if next.typ == TokComma {
          ArgumentsGrammatical(x, Advance(x, arg.state), more);
        } else if next.typ == TokRParen {
          ArgumentsGrammatical(x, arg.state, more);
        }
      }
    }
  }
}
