/** A printer for Pine expressions that writes no more tokens than it has to, and the proof that the parser inverts it
    (internal/pine/parser.go:651-875). Every expression the parser can produce is printable, nothing else is:
    parsing and printing are inverse on exactly the grammatical expressions. */
module PinePrinter {
  import opened Common
  import opened PineIR
  import opened PineLexer
  import opened PineGrammar
  import opened PineWellFormed

  // What is printed ----------------------------------------------------------------------------------------------

  function CompareText(op: Op): string {
    match op
    case Gt => ">"
    case Lt => "<"
    case Ge => ">="
    case Le => "<="
    case Eq => "=="
    case _ => "!="
  }

  predicate IsCall(op: Op) {
    IsCross(op) || op == Indicator
  }

  /** How tightly an expression binds; everything but a binary operator stands on its own. */
  function Level(e: Expression): int {
    if e.op == Or then 1 else if e.op == And then 2 else if IsComparison(e.op) then 3 else 4
  }

  const LP := Token(TokLParen, "(", 1)
  const RP := Token(TokRParen, ")", 1)
  const COMMA := Token(TokComma, ",", 1)
  const QUESTION := Token(TokQuestion, "?", 1)
  const COLON := Token(TokColon, ":", 1)

  function OpToken(op: Op): Token {
    if op == And then Token(TokAnd, "and", 1)
    else if op == Or then Token(TokOr, "or", 1)
    else Token(TokCompare, CompareText(op), 1)
  }

  function ShortName(e: Expression): string {
    if e.op == Crossover then "crossover" else if e.op == Crossunder then "crossunder" else e.val
  }

  /** The function whose call e is. */
  function CallName(e: Expression): string {
    "ta." + ShortName(e)
  }

  predicate LooksNumeric(val: string) {
    val != "" && ('0' <= val[0] <= '9' || val[0] == '.')
  }

  function RefToken(val: string): Token {
    Token(if LooksNumeric(val) then TokNumber else TokIdentifier, val, 1)
  }

  /** A binary operator is wrapped where tighter binding is asked for. A ternary binds its condition as tightly as can
      be but swallows whatever operator comes after it: it is wrapped unless it stands last. */
  predicate Wrapped(e: Expression, level: int, last: bool) {
    if e.op == Ternary then !last else Level(e) < level
  }

  /** The tokens of e where an operand of at least the given level is expected, last if what follows ends it. */
  function Print(e: Expression, level: int, last: bool): seq<Token>
    requires Grammatical(e)
    decreases e, 1
  {
    if Wrapped(e, level, last) then [LP] + Bare(e, true) + [RP] else Bare(e, last)
  }

  function Bare(e: Expression, last: bool): seq<Token>
    requires Grammatical(e)
    decreases e, 0
  {
    if e.op == Ref then [RefToken(e.val)]
    else if IsBinary(e.op) then
      Print(e.args[0], Level(e), false) + [OpToken(e.op)] + Print(e.args[1], Level(e) + 1, last)
    else if IsCall(e.op) then [Token(TokIdentifier, CallName(e), 1)] + ([LP] + PrintAll(e.args))
    else
      Print(e.args[0], 4, false) + ([QUESTION] + (Print(e.args[1], 0, true) + ([COLON] + Print(e.args[2], 0, true))))
  }

  /** Arguments and the parenthesis that closes them. */
  function PrintAll(es: seq<Expression>): seq<Token>
    requires AllGrammatical(es)
    decreases es, 2
  {
    if es == [] then [RP]
    else if |es| == 1 then Print(es[0], 0, true) + [RP]
    else Print(es[0], 0, true) + ([COMMA] + PrintAll(es[1..]))
  }

  // Single steps of the parser -----------------------------------------------------------------------------------

  /** A token says the same thing on whatever line it stands. */
  predicate Says(t: Token, u: Token) {
    t.typ == u.typ && t.val == u.val
  }

  /** The tokens printed are the ones to come. */
  predicate Ahead(x: Context, pos: nat, ts: seq<Token>) {
    pos + |ts| <= |x.tokens| && forall i :: 0 <= i < |ts| ==> Says(x.tokens[pos + i], ts[i])
  }

  lemma AheadSplits(x: Context, pos: nat, a: seq<Token>, b: seq<Token>)
    requires Ahead(x, pos, a + b)
    ensures Ahead(x, pos, a) && Ahead(x, pos + |a|, b)
  {
    forall i | 0 <= i < |a| ensures Says(x.tokens[pos + i], a[i]) {
      assert (a + b)[i] == a[i];
    }
    forall i | 0 <= i < |b| ensures Says(x.tokens[pos + |a| + i], b[i]) {
      assert (a + b)[|a| + i] == b[i];
    }
  }

  lemma AheadOne(x: Context, pos: nat, t: Token)
    requires Ahead(x, pos, [t])
    ensures pos < |x.tokens| && Says(Current(x, pos), t)
  {
    assert Says(x.tokens[pos + 0], [t][0]);
  }

  function Moved(s: PState, n: nat): PState {
    s.(pos := s.pos + n)
  }

  /** Parsing at s comes to entering the climbing loop at t with e in hand. */
  predicate Reads(x: Context, s: PState, min: int, e: Expression, t: PState)
    requires s.pos <= |x.tokens|
  {
    t.pos <= |x.tokens| && ParseExpression(x, s, min) == ParseLoop(x, t, e, min)
  }

  /** A primary is what the loop starts from. */
  lemma PrimaryRead(x: Context, s: PState, min: int, e: Expression, t: PState)
    requires s.pos <= |x.tokens| && t.pos <= |x.tokens| && ParsePrimary(x, s) == Parsed(Ok(e), t)
    ensures Reads(x, s, min, e, t)
  {
    hide ParsePrimary, ParseLoop;
  }

  lemma ReferenceRead(x: Context, s: PState, min: int, val: string)
    requires s.pos < |x.tokens| && Says(Current(x, s.pos), RefToken(val)) && Current(x, s.pos + 1).typ != TokLParen
    ensures Reads(x, s, min, Reference(val), Moved(s, 1))
  {
    hide ParseExpression, ParseLoop, ParseCall;
    PrimaryRead(x, s, min, Reference(val), Moved(s, 1));
  }

  lemma ParenthesesRead(x: Context, s: PState, min: int, e: Expression, t: PState)
    requires s.pos < |x.tokens| && Current(x, s.pos).typ == TokLParen
    requires ParseExpression(x, Moved(s, 1), 0) == Parsed(Ok(e), t)
    requires t.pos < |x.tokens| && Current(x, t.pos).typ == TokRParen
    ensures Reads(x, s, min, e, Moved(t, 1))
  {
    hide ParseExpression, ParseLoop, ParseCall;
    assert Advance(x, s) == Moved(s, 1) && Advance(x, t) == Moved(t, 1);
    PrimaryRead(x, s, min, e, Moved(t, 1));
  }

  /** The loop ends at a token that binds less tightly than it asks for. */
  lemma LoopStops(x: Context, s: PState, e: Expression, min: int)
    requires s.pos <= |x.tokens| && Current(x, s.pos).typ != TokQuestion && Precedence(Current(x, s.pos)) < min
    ensures ParseLoop(x, s, e, min) == Parsed(Ok(e), s)
  {
    hide ParseExpression;
  }

  lemma LoopTakesOperator(x: Context, s: PState, left: Expression, min: int, right: Expression, t: PState)
    requires s.pos < |x.tokens| && t.pos <= |x.tokens|
    requires var tok := Current(x, s.pos);
      && tok.typ != TokQuestion && min <= Precedence(tok)
      && ParseExpression(x, Moved(s, 1), Precedence(tok) + 1) == Parsed(Ok(right), t)
    ensures ParseLoop(x, s, left, min) == ParseLoop(x, t, Binary(OpOf(Current(x, s.pos)), left, right), min)
  {
    hide ParseExpression, Precedence, OpOf;
    assert Advance(x, s) == Moved(s, 1);
  }

  lemma LoopTakesTernary(x: Context, s: PState, c: Expression, min: int, yes: Expression, t: PState, no: Expression, u: PState)
    requires s.pos < |x.tokens| && t.pos < |x.tokens| && u.pos <= |x.tokens|
    requires Current(x, s.pos).typ == TokQuestion && ParseExpression(x, Moved(s, 1), 0) == Parsed(Ok(yes), t)
    requires Current(x, t.pos).typ == TokColon && ParseExpression(x, Moved(t, 1), 0) == Parsed(Ok(no), u)
    ensures ParseLoop(x, s, c, min) == ParseLoop(x, u, Expression(Ternary, [c, yes, no], ""), min)
  {
    hide ParseExpression, Precedence, OpOf;
    assert Advance(x, s) == Moved(s, 1) && Advance(x, t) == Moved(t, 1);
  }

  lemma ArgumentsEnd(x: Context, s: PState, args: seq<Expression>)
    requires s.pos < |x.tokens| && Current(x, s.pos).typ == TokRParen
    ensures ParseArguments(x, s, args) == ParsedArgs(Ok(args), s)
  {
    hide ParseExpression;
  }

  /** One more argument, with the comma after it when there is one. */
  lemma ArgumentRead(x: Context, s: PState, args: seq<Expression>, e: Expression, t: PState)
    requires s.pos < |x.tokens| && t.pos < |x.tokens| && s.pos <= t.pos
    requires Current(x, s.pos).typ != TokRParen && Current(x, s.pos).typ != TokEOF
    requires ParseExpression(x, s, 0) == Parsed(Ok(e), t)
    requires Current(x, t.pos).typ in {TokComma, TokRParen}
    ensures Current(x, t.pos).typ == TokComma ==>
      ParseArguments(x, s, args) == ParseArguments(x, Moved(t, 1), args + [e])
    ensures Current(x, t.pos).typ == TokRParen ==> ParseArguments(x, s, args) == ParsedArgs(Ok(args + [e]), t)
  {
    hide ParseExpression;
    assert Advance(x, t) == Moved(t, 1);
    if Current(x, t.pos).typ == TokRParen {
      ArgumentsEnd(x, t, args + [e]);
    }
  }

  lemma Lowercase(s: string)
    requires forall i :: 0 <= i < |s| ==> !('A' <= s[i] <= 'Z')
    ensures ToLower(s) == s
  {
  }

  lemma ShortNames(e: Expression)
    requires Grammatical(e) && IsCall(e.op)
    ensures forall i :: 0 <= i < |ShortName(e)| ==> 'a' <= ShortName(e)[i] <= 'z'
    ensures IsIndicatorType(ShortName(e)) <==> e.op == Indicator
  {
    assert |"crossover"| == 9 && |"crossunder"| == 10 && |"macd"| == 4 && |"bb"| == 2;
    assert |"sma"| == |"ema"| == |"rsi"| == |"atr"| == 3;
  }

  /** A name after "ta." is read as it stands. */
  lemma TaName(short: string)
    requires forall i :: 0 <= i < |short| ==> 'a' <= short[i] <= 'z'
    ensures var name := "ta." + short;
      ToLower(name) == name && HasPrefix(name, "ta.") && name[3..] == short
      && !HasPrefix(name, "input.") && name != "input"
  {
    var name := "ta." + short;
    Lowercase(name);
    assert name[..3] == "ta." && name[3..] == short;
    assert name[0] == 't' && "input."[0] == 'i' && "input"[0] == 'i';
    assert |name| >= 6 ==> name[..6][0] == 't';
  }

  /** Which call a printed name makes. */
  lemma CallNames(e: Expression)
    requires Grammatical(e) && IsCall(e.op)
    ensures CallOf(CallName(e)) == if e.op == Indicator then IndicatorCall(e.val) else CrossCall(e.op)
  {
    ShortNames(e);
    TaName(ShortName(e));
    assert |"crossover"| == 9 && |"crossunder"| == 10;
    hide ToLower, HasPrefix, IsIndicatorType;
  }

  lemma CallRead(x: Context, s: PState, min: int, e: Expression, t: PState)
    requires Grammatical(e) && IsCall(e.op) && s.pos + 1 < |x.tokens| && t.pos < |x.tokens|
    requires Says(Current(x, s.pos), Token(TokIdentifier, CallName(e), 1)) && Current(x, s.pos + 1).typ == TokLParen
    requires ParseArguments(x, Moved(s, 2), []) == ParsedArgs(Ok(e.args), t) && Current(x, t.pos).typ == TokRParen
    ensures Reads(x, s, min, e, Moved(t, 1))
  {
    hide ParseExpression, ParseLoop, ParseArguments, ParseCall, CallName, Grammatical, Extends;
    CallCloses(x, Moved(s, 2), e, t);
    assert Advance(x, Advance(x, s)) == Moved(s, 2) && Advance(x, s).pos == s.pos + 1;
    PrimaryRead(x, s, min, e, Moved(t, 1));
  }

  lemma CallCloses(x: Context, s: PState, e: Expression, t: PState)
    requires Grammatical(e) && IsCall(e.op) && s.pos <= |x.tokens| && t.pos < |x.tokens|
    requires ParseArguments(x, s, []) == ParsedArgs(Ok(e.args), t) && Current(x, t.pos).typ == TokRParen
    ensures ParseCall(x, s, CallName(e)) == Parsed(Ok(e), Moved(t, 1))
  {
    hide ParseExpression, ParseArguments, CallOf, CallName, CallResult, Grammatical, Extends;
    CallNames(e);
    CallBuilds(x, Moved(t, 1), e);
    assert Advance(x, t) == Moved(t, 1);
  }

  lemma CallBuilds(x: Context, s: PState, e: Expression)
    requires Grammatical(e) && IsCall(e.op)
    ensures CallResult(x, s, CallOf(CallName(e)), e.args) == Parsed(Ok(e), s)
  {
    hide CallOf, CallName, Flatten, Extends, NoneNested, Grammatical, IsIndicatorType;
    CallNames(e);
    CallShape(e);
    PlainArguments(x, s, e.args);
  }

  lemma CallShape(e: Expression)
    requires Grammatical(e) && IsCall(e.op)
    ensures NoneNested(e.args) && (e.op != Indicator ==> e == Expression(e.op, e.args, ""))
  {
  }

  lemma {:induction false} PlainArguments(x: Context, s: PState, args: seq<Expression>)
    requires NoneNested(args)
    ensures Flatten(x, s, args) == (args, s)
  {
    if args != [] {
      PlainArguments(x, s, args[1..]);
      assert [args[0]] + args[1..] == args;
    }
  }

  // Reading it back -------------------------------------------------------------------------------------------------

  /** The binding level of e as it stands in print: parentheses make it an operand of its own. */
  function Standing(e: Expression, level: int, last: bool): int {
    if Wrapped(e, level, last) then 4 else Level(e)
  }

  /** A token that cannot be mistaken for a continuation of what was printed before it. */
  predicate Stops(next: Token, standing: int) {
    next.typ != TokLParen && (standing < 4 ==> next.typ != TokQuestion && Precedence(next) <= standing)
  }

  /** A token that ends the expression altogether when operators of at least `min` are asked for. */
  predicate Ends(next: Token, min: int) {
    next.typ != TokLParen && next.typ != TokQuestion && Precedence(next) < min
  }

  /** The token may follow the print of e. */
  predicate MayFollow(next: Token, e: Expression, level: int, last: bool) {
    if last then Ends(next, 0) else Stops(next, Standing(e, level, last))
  }

  function After(x: Context, s: PState, ts: seq<Token>): Token {
    Current(x, s.pos + |ts|)
  }

  lemma {:induction false} BareFirst(e: Expression, last: bool)
    requires Grammatical(e)
    ensures Bare(e, last) != [] && Bare(e, last)[0].typ in {TokIdentifier, TokNumber, TokLParen}
  {
    if IsBinary(e.op) {
      BareFirst(e.args[0], false);
      BareFirst(e.args[0], true);
    } else if e.op == Ternary {
      TernaryShape(e);
      BareFirst(e.args[0], false);
      BareFirst(e.args[0], true);
    }
  }

  lemma PrintFirst(x: Context, pos: nat, e: Expression, level: int, last: bool)
    requires Grammatical(e) && Ahead(x, pos, Print(e, level, last))
    ensures pos < |x.tokens| && Current(x, pos).typ in {TokIdentifier, TokNumber, TokLParen}
  {
    BareFirst(e, true);
    BareFirst(e, last);
    var ts := Print(e, level, last);
    assert ts != [] && ts[0].typ in {TokIdentifier, TokNumber, TokLParen};
    assert Says(x.tokens[pos + 0], ts[0]);
  }

  /** Parsing the print of e comes to entering the climbing loop just after it, with e in hand. */
  lemma {:induction false} ParsePrinted(x: Context, s: PState, e: Expression, level: int, last: bool, min: int)
    requires Grammatical(e) && Ahead(x, s.pos, Print(e, level, last))
    requires 0 <= min <= Standing(e, level, last) && level <= 4
    requires MayFollow(After(x, s, Print(e, level, last)), e, level, last)
    ensures Reads(x, s, min, e, Moved(s, |Print(e, level, last)|))
    decreases e, if Wrapped(e, level, last) then 1 else 0, 2
  {
    hide Reads, Bare, Precedence;
    if Wrapped(e, level, last) {
      ParenthesesPrinted(x, s, e, level, last, min);
    } else if e.op == Ref {
      RefPrinted(x, s, e, last, min);
    } else if IsBinary(e.op) {
      BinaryPrinted(x, s, e, last, min);
    } else if IsCall(e.op) {
      CallPrinted(x, s, e, last, min);
    } else {
      TernaryPrinted(x, s, e, min);
    }
  }

  /** When the token after it cannot continue an expression, the print is read as exactly e. */
  lemma {:induction false} ParseWhole(x: Context, s: PState, e: Expression, level: int, last: bool, min: int)
    requires Grammatical(e) && Ahead(x, s.pos, Print(e, level, last))
    requires 0 <= min <= Standing(e, level, last) && level <= 4
    requires Ends(After(x, s, Print(e, level, last)), if last then 0 else min)
    ensures ParseExpression(x, s, min) == Parsed(Ok(e), Moved(s, |Print(e, level, last)|))
    decreases e, if Wrapped(e, level, last) then 1 else 0, 3
  {
    hide Print, Precedence, ParseExpression, ParseLoop, Wrapped;
    ParsePrinted(x, s, e, level, last, min);
    LoopStops(x, Moved(s, |Print(e, level, last)|), e, min);
  }

  lemma {:induction false} ParenthesesPrinted(x: Context, s: PState, e: Expression, level: int, last: bool, min: int)
    requires Grammatical(e) && Ahead(x, s.pos, Print(e, level, last)) && Wrapped(e, level, last) && level <= 4
    ensures Reads(x, s, min, e, Moved(s, |Print(e, level, last)|))
    decreases e, 1, 0
  {
    hide Bare, Grammatical, ParseExpression, Reads;
    var (bare, inner) := (Bare(e, true), Moved(s, 1));
    assert Print(e, level, last) == [LP] + (bare + [RP]) && Print(e, 0, true) == bare;
    AheadSplits(x, s.pos, [LP], bare + [RP]);
    AheadSplits(x, inner.pos, bare, [RP]);
    AheadOne(x, s.pos, LP);
    AheadOne(x, inner.pos + |bare|, RP);
    hide Ahead;
    ParseWhole(x, inner, e, 0, true, 0);
    ParenthesesRead(x, s, min, e, Moved(inner, |bare|));
    assert Moved(Moved(inner, |bare|), 1) == Moved(s, |Print(e, level, last)|);
  }

  lemma RefPrinted(x: Context, s: PState, e: Expression, last: bool, min: int)
    requires Grammatical(e) && e.op == Ref && Ahead(x, s.pos, Bare(e, last)) && After(x, s, Bare(e, last)).typ != TokLParen
    ensures Reads(x, s, min, e, Moved(s, |Bare(e, last)|))
  {
    hide Reads;
    assert Bare(e, last) == [RefToken(e.val)];
    AheadOne(x, s.pos, RefToken(e.val));
    assert e == Reference(e.val);
    ReferenceRead(x, s, min, e.val);
  }

  lemma {:induction false} BinaryPrinted(x: Context, s: PState, e: Expression, last: bool, min: int)
    requires Grammatical(e) && IsBinary(e.op) && Ahead(x, s.pos, Bare(e, last))
    requires 0 <= min <= Level(e)
    requires var next := After(x, s, Bare(e, last)); if last then Ends(next, 0) else Stops(next, Level(e))
    ensures Reads(x, s, min, e, Moved(s, |Bare(e, last)|))
    decreases e, 0, 0
  {
    hide Print, ParseExpression, ParseLoop, OpToken, OpOf, Precedence;
    var (l, r, lv) := (e.args[0], e.args[1], Level(e));
    var (left, op, right) := (Print(l, lv, false), OpToken(e.op), Print(r, lv + 1, last));
    assert Bare(e, last) == left + [op] + right == left + ([op] + right);
    AheadSplits(x, s.pos, left, [op] + right);
    var atOp := Moved(s, |left|);
    AheadSplits(x, atOp.pos, [op], right);
    AheadOne(x, atOp.pos, op);
    hide Ahead, Bare;
    OpTokenReads(e.op, Current(x, atOp.pos));
    ParsePrinted(x, s, l, lv, false, min);
    ParseWhole(x, Moved(atOp, 1), r, lv + 1, last, lv + 1);
    LoopTakesOperator(x, atOp, l, min, r, Moved(Moved(atOp, 1), |right|));
    assert e == Binary(e.op, l, r);
    assert Moved(Moved(atOp, 1), |right|) == Moved(s, |left| + 1 + |right|);
  }

  lemma OpTokenReads(op: Op, t: Token)
    requires IsBinary(op) && Says(t, OpToken(op))
    ensures OpOf(t) == op && t.typ != TokLParen && t.typ != TokQuestion
    ensures Precedence(t) == if op == Or then 1 else if op == And then 2 else 3
  {
  }

  lemma BareCall(e: Expression, last: bool)
    requires Grammatical(e) && IsCall(e.op)
    ensures Bare(e, last) == [Token(TokIdentifier, CallName(e), 1)] + ([LP] + PrintAll(e.args))
  {
    hide Print, CallName, PrintAll;
  }

  lemma {:induction false} CallPrinted(x: Context, s: PState, e: Expression, last: bool, min: int)
    requires Grammatical(e) && IsCall(e.op) && Ahead(x, s.pos, Bare(e, last))
    ensures Reads(x, s, min, e, Moved(s, |Bare(e, last)|))
    decreases e, 0, 1
  {
    hide Print, ParseExpression, ParseLoop, ParseArguments, CallName, Reads, PrintAll, Extends, Bare;
    var (name, list) := (Token(TokIdentifier, CallName(e), 1), PrintAll(e.args));
    BareCall(e, last);
    AheadSplits(x, s.pos, [name], [LP] + list);
    AheadSplits(x, s.pos + 1, [LP], list);
    AheadOne(x, s.pos, name);
    AheadOne(x, s.pos + 1, LP);
    ArgumentsPrinted(x, Moved(s, 2), e.args, []);
    assert [] + e.args == e.args;
    var t := Moved(s, 2 + |list| - 1);
    assert Moved(Moved(s, 2), |list| - 1) == t;
    CallRead(x, s, min, e, t);
    assert Moved(t, 1) == Moved(s, |Bare(e, last)|);
  }

  lemma {:induction false} ArgumentsPrinted(x: Context, s: PState, es: seq<Expression>, before: seq<Expression>)
    requires AllGrammatical(es) && Ahead(x, s.pos, PrintAll(es))
    ensures |PrintAll(es)| > 0
    ensures var t := Moved(s, |PrintAll(es)| - 1);
      && t.pos < |x.tokens| && Current(x, t.pos).typ == TokRParen
      && ParseArguments(x, s, before) == ParsedArgs(Ok(before + es), t)
    decreases es, 0, 0
  {
    hide Print, ParseExpression, ParseLoop, ParseArguments, Grammatical;
    if es == [] {
      AheadOne(x, s.pos, RP);
      ArgumentsEnd(x, s, before);
      assert before + es == before;
    } else if |es| == 1 {
      assert [RP] + [] == [RP];
      ArgumentPrinted(x, s, es[0], RP, [], before);
      assert before + es == before + [es[0]];
    } else {
      var (first, tail) := (Print(es[0], 0, true), PrintAll(es[1..]));
      ArgumentPrinted(x, s, es[0], COMMA, tail, before);
      var next := Moved(s, |first| + 1);
      ArgumentsPrinted(x, next, es[1..], before + [es[0]]);
      assert before + [es[0]] + es[1..] == before + es;
      assert Moved(next, |tail| - 1) == Moved(s, |PrintAll(es)| - 1);
    }
  }

  lemma {:induction false} ArgumentPrinted(x: Context, s: PState, e: Expression, sep: Token, tail: seq<Token>,
                                           before: seq<Expression>)
    requires Grammatical(e) && (sep == RP || sep == COMMA) && Ahead(x, s.pos, Print(e, 0, true) + ([sep] + tail))
    ensures var t := Moved(s, |Print(e, 0, true)|);
      && t.pos < |x.tokens| && Says(Current(x, t.pos), sep) && Ahead(x, t.pos + 1, tail)
      && (sep == COMMA ==> ParseArguments(x, s, before) == ParseArguments(x, Moved(s, |Print(e, 0, true)| + 1), before + [e]))
      && (sep == RP ==> ParseArguments(x, s, before) == ParsedArgs(Ok(before + [e]), t))
    decreases e, 0, 4
  {
    hide Print, ParseExpression, ParseArguments, Grammatical;
    var first := Print(e, 0, true);
    AheadSplits(x, s.pos, first, [sep] + tail);
    var t := Moved(s, |first|);
    AheadSplits(x, t.pos, [sep], tail);
    AheadOne(x, t.pos, sep);
    PrintFirst(x, s.pos, e, 0, true);
    hide Ahead;
    ParseWhole(x, s, e, 0, true, 0);
    ArgumentRead(x, s, before, e, t);
    assert Moved(t, 1) == Moved(s, |first| + 1);
  }

  /** Where the parts of a printed ternary stand. */
  lemma TernaryLaidOut(x: Context, pos: nat, cond: seq<Token>, yes: seq<Token>, no: seq<Token>)
    requires Ahead(x, pos, cond + ([QUESTION] + (yes + ([COLON] + no))))
    ensures var (q, c) := (pos + |cond|, pos + |cond| + 1 + |yes|);
      && Ahead(x, pos, cond) && Ahead(x, q + 1, yes) && Ahead(x, c + 1, no) && c + 1 + |no| <= |x.tokens|
      && Says(Current(x, q), QUESTION) && Says(Current(x, c), COLON)
  {
    hide Ahead;
    var (q, c) := (pos + |cond|, pos + |cond| + 1 + |yes|);
    AheadSplits(x, pos, cond, [QUESTION] + (yes + ([COLON] + no)));
    AheadSplits(x, q, [QUESTION], yes + ([COLON] + no));
    AheadSplits(x, q + 1, yes, [COLON] + no);
    AheadSplits(x, c, [COLON], no);
    AheadOne(x, q, QUESTION);
    AheadOne(x, c, COLON);
    AheadFits(x, c + 1, no);
  }

  lemma AheadFits(x: Context, pos: nat, ts: seq<Token>)
    requires Ahead(x, pos, ts)
    ensures pos + |ts| <= |x.tokens|
  {
  }

  /** A ternary that stands last needs no parentheses, whatever level is asked for. */
  lemma {:induction false} TernaryPrinted(x: Context, s: PState, e: Expression, min: int)
    requires Grammatical(e) && e.op == Ternary && Ahead(x, s.pos, Bare(e, true)) && 0 <= min <= 4
    requires Ends(After(x, s, Bare(e, true)), 0)
    ensures Reads(x, s, min, e, Moved(s, |Bare(e, true)|))
    decreases e, 0, 1
  {
    hide Print, ParseExpression, ParseLoop, Ahead, Bare, Grammatical;
    TernaryShape(e);
    var (cond, yes, no) := (Print(e.args[0], 4, false), Print(e.args[1], 0, true), Print(e.args[2], 0, true));
    TernaryLaidOut(x, s.pos, cond, yes, no);
    var (atQuestion, atColon) := (Moved(s, |cond|), Moved(s, |cond| + 1 + |yes|));
    var end := Moved(atColon, 1 + |no|);
    ParsePrinted(x, s, e.args[0], 4, false, min);
    ParseWhole(x, Moved(atQuestion, 1), e.args[1], 0, true, 0);
    ParseWhole(x, Moved(atColon, 1), e.args[2], 0, true, 0);
    LoopTakesTernary(x, atQuestion, e.args[0], min, e.args[1], atColon, e.args[2], end);
    assert end == Moved(s, |Bare(e, true)|);
  }

  lemma TernaryShape(e: Expression)
    requires Grammatical(e) && e.op == Ternary
    ensures |e.args| == 3 && e == Expression(Ternary, [e.args[0], e.args[1], e.args[2]], "")
    ensures Grammatical(e.args[0]) && Grammatical(e.args[1]) && Grammatical(e.args[2])
    ensures Bare(e, true) == Bare(e, false)
    ensures Bare(e, true) ==
      Print(e.args[0], 4, false) + ([QUESTION] + (Print(e.args[1], 0, true) + ([COLON] + Print(e.args[2], 0, true))))
  {
    hide Print;
  }

  // Main results ------------------------------------------------------------------------------------------------

  /** The parser inverts the printer: it rebuilds exactly e, stops at the first token that follows, and
      leaves every other part of its state alone. */
  lemma ParserInvertsPrinter(x: Context, s: PState, e: Expression)
    requires Grammatical(e) && Ahead(x, s.pos, Print(e, 0, true)) && Ends(After(x, s, Print(e, 0, true)), 0)
    ensures ParseExpression(x, s, 0) == Parsed(Ok(e), Moved(s, |Print(e, 0, true)|))
  {
    ParseWhole(x, s, e, 0, true, 0);
  }

  /** Parsing, printing and parsing again is parsing once: the print is a normal form for whatever text e came from. */
  lemma ReparsingIsStable(x: Context, s: PState, y: Context, t: PState)
    requires Lexed(x.tokens) && s.pos <= |x.tokens| && KnownKinds(s.indicators) && ParseExpression(x, s, 0).result.Ok?
    ensures Grammatical(ParseExpression(x, s, 0).result.value)
    ensures var e := ParseExpression(x, s, 0).result.value;
      Ahead(y, t.pos, Print(e, 0, true)) && Ends(After(y, t, Print(e, 0, true)), 0) ==>
        ParseExpression(y, t, 0) == Parsed(Ok(e), Moved(t, |Print(e, 0, true)|))
  {
    hide ParseExpression, Print, Ahead;
    ExpressionGrammatical(x, s, 0);
    var e := ParseExpression(x, s, 0).result.value;
    if Ahead(y, t.pos, Print(e, 0, true)) && Ends(After(y, t, Print(e, 0, true)), 0) {
      ParserInvertsPrinter(y, t, e);
    }
  }

  /** Some token stream parses to e. */
  ghost predicate ComesFromParsing(e: Expression) {
    exists x: Context, s: PState :: Lexed(x.tokens) && s.pos <= |x.tokens| && KnownKinds(s.indicators) &&
      ParseExpression(x, s, 0).result == Ok(e)
  }

  /** What can come out of the parser is exactly what is grammatical. */
  lemma ParsedIffGrammatical(e: Expression)
    ensures ComesFromParsing(e) <==> Grammatical(e)
  {
    hide ParseExpression, Print, Grammatical;
    if ComesFromParsing(e) {
      var x: Context, s: PState :| Lexed(x.tokens) && s.pos <= |x.tokens| && KnownKinds(s.indicators) &&
        ParseExpression(x, s, 0).result == Ok(e);
      ExpressionGrammatical(x, s, 0);
    }
    if Grammatical(e) {
      var x := Context(Print(e, 0, true), map[], Unparsed);
      var s := PState(0, 0, map[], []);
      PrintLexed(e, 0, true);
      assert Ahead(x, 0, Print(e, 0, true)) && After(x, s, Print(e, 0, true)) == Token(TokEOF, "", 0);
      ParserInvertsPrinter(x, s, e);
      assert Lexed(x.tokens) && KnownKinds(s.indicators) && ParseExpression(x, s, 0).result == Ok(e);
    }
  }

  function Unparsed(s: string): Option<real> {
    None
  }

  lemma {:induction false} PrintLexed(e: Expression, level: int, last: bool)
    requires Grammatical(e)
    ensures Lexed(Print(e, level, last))
    decreases e, 1
  {
    BareLexed(e, true);
    BareLexed(e, last);
  }

  lemma {:induction false} BareLexed(e: Expression, last: bool)
    requires Grammatical(e)
    ensures Lexed(Bare(e, last))
    decreases e, 0
  {
    hide Print, PrintAll;
    if IsBinary(e.op) {
      PrintLexed(e.args[0], Level(e), false);
      PrintLexed(e.args[1], Level(e) + 1, last);
    } else if IsCall(e.op) {
      AllLexed(e.args);
    } else if e.op == Ternary {
      PrintLexed(e.args[0], 4, false);
      PrintLexed(e.args[1], 0, true);
      PrintLexed(e.args[2], 0, true);
    }
  }

  lemma {:induction false} AllLexed(es: seq<Expression>)
    requires AllGrammatical(es)
    ensures Lexed(PrintAll(es))
    decreases es, 2
  {
    hide Print, Grammatical;
    if es != [] {
      PrintLexed(es[0], 0, true);
      if |es| > 1 {
        AllLexed(es[1..]);
      }
    }
  }
}
