/** From text and back: a printed expression, spelled out with blanks between its tokens, lexes to those tokens and
    parses to the expression (internal/pine/parser.go:60-257, 651-875). */
module PineText {
  import opened Common
  import opened PineIR
  import opened PineLexer
  import opened PineGrammar
  import opened PineWellFormed
  import opened PinePrinter

  // Spelling ------------------------------------------------------------------------------------------------------

  predicate IsSpecial(c: char) {
    c in {'"', '\'', '\n', '\r', ' ', '\t', '/', '.', '_'} || Symbol(c, false).Some?
  }

  /** What the Unicode classes say about the characters the lexer treats by name. */
  ghost predicate Sane(a: Alphabet) {
    && (forall c :: a.isLetter(c) ==> !a.isDigit(c) && !IsSpecial(c))
    && (forall c :: a.isDigit(c) ==> !IsSpecial(c))
    && (forall c :: 'a' <= c <= 'z' ==> a.isLetter(c))
  }

  predicate IsSymbol(t: Token) {
    && 1 <= |t.val| <= 2 && (|t.val| == 2 ==> t.val[1] == '=')
    && Symbol(t.val[0], |t.val| == 2) == Some(Glyph(t.typ, t.val, |t.val|))
  }

  predicate IsWord(a: Alphabet, t: Token) {
    && t.val != "" && (a.isLetter(t.val[0]) || t.val[0] == '_')
    && (forall i :: 0 <= i < |t.val| ==> InName(a, t.val[i]))
    && WordToken(t.val, t.line) == t
  }

  predicate IsNumeral(a: Alphabet, t: Token) {
    && t.val != "" && t.typ == TokNumber && (a.isDigit(t.val[0]) || t.val[0] == '.')
    && NumberEnd(a, t.val, 1, t.val[0] == '.') == |t.val|
  }

  predicate Spellable(a: Alphabet, t: Token) {
    IsSymbol(t) || IsWord(a, t) || IsNumeral(a, t)
  }

  function Render(ts: seq<Token>): string {
    if ts == [] then "" else ts[0].val + " " + Render(ts[1..])
  }

  // Lexing what was spelled -----------------------------------------------------------------------------------------

  /** The text `val`, then a blank, stands at pos. */
  predicate StandsAt(input: string, pos: nat, val: string) {
    pos + |val| < |input| && input[pos..pos + |val|] == val && input[pos + |val|] == ' '
  }

  lemma CharOf(input: string, pos: nat, val: string, i: nat)
    requires StandsAt(input, pos, val) && i < |val|
    ensures input[pos + i] == val[i]
  {
    assert input[pos..pos + |val|][i] == val[i];
  }

  lemma {:induction false} NameStands(a: Alphabet, input: string, pos: nat, val: string, i: nat)
    requires Sane(a) && StandsAt(input, pos, val) && i <= |val| && forall k :: 0 <= k < |val| ==> InName(a, val[k])
    ensures NameEnd(a, input, pos + i) == pos + |val|
    decreases |val| - i
  {
    if i < |val| {
      CharOf(input, pos, val, i);
      NameStands(a, input, pos, val, i + 1);
    } else {
      assert IsSpecial(' ');
    }
  }

  lemma {:induction false} NumberStands(a: Alphabet, input: string, pos: nat, val: string, i: nat, hasDec: bool)
    requires Sane(a) && StandsAt(input, pos, val) && i <= |val| && NumberEnd(a, val, i, hasDec) == |val|
    ensures NumberEnd(a, input, pos + i, hasDec) == pos + |val|
    decreases |val| - i
  {
    if i < |val| {
      CharOf(input, pos, val, i);
      NumberStands(a, input, pos, val, i + 1, hasDec || !a.isDigit(val[i]));
    } else {
      assert IsSpecial(' ');
    }
  }

  /** A spellable token is lexed as itself. */
  lemma TokenStands(a: Alphabet, input: string, c: Cursor, t: Token)
    requires Sane(a) && Spellable(a, t) && t.line == c.line && StandsAt(input, c.pos, t.val)
    ensures c.pos < |input| && Skip(input, c) == c
    ensures var l := TokenAt(a, input, c); l.token == t && l.rest.pos == c.pos + |t.val| && l.rest.line == c.line
  {
    hide Skip, TokenAt, IsSymbol, IsWord, IsNumeral, StandsAt, Sane;
    if IsSymbol(t) {
      SymbolStands(a, input, c, t);
    } else if IsWord(a, t) {
      WordStands(a, input, c, t);
    } else {
      NumeralStands(a, input, c, t);
    }
  }

  lemma NotSymbol(ch: char)
    requires !IsSpecial(ch) || ch == '_' || ch == '.'
    ensures Symbol(ch, true).None? && Symbol(ch, false).None?
    ensures ch !in {'"', '\'', '\n', '\r', ' ', '\t', '/'}
  {
  }

  lemma WordStands(a: Alphabet, input: string, c: Cursor, t: Token)
    requires Sane(a) && IsWord(a, t) && t.line == c.line && StandsAt(input, c.pos, t.val)
    ensures c.pos < |input| && Skip(input, c) == c
    ensures var l := TokenAt(a, input, c); l.token == t && l.rest.pos == c.pos + |t.val| && l.rest.line == c.line
  {
    CharOf(input, c.pos, t.val, 0);
    NotSymbol(t.val[0]);
    NameStands(a, input, c.pos, t.val, 1);
    assert IsSpecial('.') && IsSpecial('_');
    hide Symbol, NameEnd, StringEnd, NumberEnd, Keyword, IsSpecial;
  }

  lemma NumeralStands(a: Alphabet, input: string, c: Cursor, t: Token)
    requires Sane(a) && IsNumeral(a, t) && t.line == c.line && StandsAt(input, c.pos, t.val)
    ensures c.pos < |input| && Skip(input, c) == c
    ensures var l := TokenAt(a, input, c); l.token == t && l.rest.pos == c.pos + |t.val| && l.rest.line == c.line
  {
    CharOf(input, c.pos, t.val, 0);
    NotSymbol(t.val[0]);
    NumberStands(a, input, c.pos, t.val, 1, t.val[0] == '.');
    hide Symbol, NameEnd, StringEnd, NumberEnd, Keyword, IsSpecial;
  }

  lemma SymbolStands(a: Alphabet, input: string, c: Cursor, t: Token)
    requires IsSymbol(t) && t.line == c.line && StandsAt(input, c.pos, t.val)
    ensures c.pos < |input| && Skip(input, c) == c
    ensures var l := TokenAt(a, input, c); l.token == t && l.rest.pos == c.pos + |t.val| && l.rest.line == c.line
  {
    CharOf(input, c.pos, t.val, 0);
    if |t.val| == 2 {
      CharOf(input, c.pos, t.val, 1);
    }
    assert At(input, c.pos + 1) == Some('=') <==> |t.val| == 2;
  }

  /** Spelling tokens out and lexing them gives them back, and nothing else. */
  lemma {:induction false} LexInvertsRender(a: Alphabet, input: string, c: Cursor, ts: seq<Token>)
    requires Sane(a) && c.pos <= |input| && input[c.pos..] == Render(ts)
    requires forall i :: 0 <= i < |ts| ==> Spellable(a, ts[i]) && ts[i].line == c.line
    ensures Tokens(a, input, c) == ts + [Token(TokEOF, "", c.line)]
    decreases |ts|
  {
    hide Spellable, Tokens, Sane;
    if ts == [] {
      EndOfText(a, input, c);
    } else {
      var next := FirstToken(a, input, c, ts[0], Render(ts[1..]));
      LexInvertsRender(a, input, next, ts[1..]);
      assert [ts[0]] + (ts[1..] + [Token(TokEOF, "", c.line)]) == ts + [Token(TokEOF, "", c.line)];
    }
  }

  /** One token, and the blank after it. */
  lemma FirstToken(a: Alphabet, input: string, c: Cursor, t: Token, tail: string) returns (next: Cursor)
    requires Sane(a) && c.pos <= |input| && input[c.pos..] == t.val + " " + tail && Spellable(a, t) && t.line == c.line
    ensures next.pos <= |input| && input[next.pos..] == tail && next.line == c.line
    ensures Tokens(a, input, c) == [t] + Tokens(a, input, next)
  {
    hide Spellable, TokenAt, Sane;
    RenderedFirst(input, c.pos, t.val, tail);
    TokenStands(a, input, c, t);
    var l := TokenAt(a, input, c);
    next := l.rest.(pos := l.rest.pos + 1);
    NeverEOF(a, t);
    AfterBlank(a, input, l.rest);
  }

  lemma EndOfText(a: Alphabet, input: string, c: Cursor)
    requires c.pos == |input|
    ensures Tokens(a, input, c) == [Token(TokEOF, "", c.line)]
  {
  }

  lemma RenderedFirst(input: string, pos: nat, val: string, tail: string)
    requires pos <= |input| && input[pos..] == val + " " + tail
    ensures StandsAt(input, pos, val) && input[pos + |val| + 1..] == tail
  {
    var rest := input[pos..];
    assert rest[..|val|] == val && rest[|val|] == ' ' && rest[|val| + 1..] == tail;
  }

  lemma NeverEOF(a: Alphabet, t: Token)
    requires Spellable(a, t)
    ensures t.typ != TokEOF && t.val != ""
  {
  }

  lemma AfterBlank(a: Alphabet, input: string, c: Cursor)
    requires c.pos < |input| && input[c.pos] == ' '
    ensures Tokens(a, input, c) == Tokens(a, input, c.(pos := c.pos + 1))
  {
    hide TokenAt;
    assert Skip(input, c) == Skip(input, c.(pos := c.pos + 1));
  }

  // Expressions as text ---------------------------------------------------------------------------------------------

  /** Every name and number in e can be written without quotes. */
  predicate Writable(a: Alphabet, e: Expression) {
    && (e.op == Ref ==> Spellable(a, RefToken(e.val)))
    && forall i :: 0 <= i < |e.args| ==> Writable(a, e.args[i])
  }

  predicate AllSpellable(a: Alphabet, ts: seq<Token>) {
    forall i :: 0 <= i < |ts| ==> Spellable(a, ts[i]) && ts[i].line == 1
  }

  lemma FixedSpellable(a: Alphabet)
    requires Sane(a)
    ensures Spellable(a, LP) && Spellable(a, RP) && Spellable(a, COMMA) && Spellable(a, QUESTION) && Spellable(a, COLON)
    ensures forall op :: IsBinary(op) ==> AllSpellable(a, [OpToken(op)])
  {
    assert IsSymbol(LP) && IsSymbol(RP) && IsSymbol(COMMA) && IsSymbol(QUESTION) && IsSymbol(COLON);
    forall op | IsBinary(op)
      ensures Spellable(a, OpToken(op))
    {
      if op == And || op == Or {
        Lowercase(OpToken(op).val);
        assert IsWord(a, OpToken(op));
      } else {
        assert IsSymbol(OpToken(op));
      }
    }
  }

  lemma CallNameSpellable(a: Alphabet, e: Expression)
    requires Sane(a) && Grammatical(e) && IsCall(e.op)
    ensures AllSpellable(a, [Token(TokIdentifier, CallName(e), 1)])
  {
    ShortNames(e);
    TaName(ShortName(e));
    NameSpellable(a, CallName(e));
  }

  lemma NameSpellable(a: Alphabet, name: string)
    requires Sane(a) && |name| > 2 && ToLower(name) == name && name[0] == 't' && name[2] == '.'
    requires forall i :: 0 <= i < |name| ==> name[i] == '.' || 'a' <= name[i] <= 'z'
    ensures AllSpellable(a, [Token(TokIdentifier, name, 1)])
  {
    hide ToLower, IsSpecial;
    assert Keyword(name) == TokIdentifier by {
      assert "and"[2] == 'd' && "not"[2] == 't' && |"or"| == |"if"| == 2;
    }
    assert IsWord(a, Token(TokIdentifier, name, 1));
  }

  lemma {:induction false} PrintSpellable(a: Alphabet, e: Expression, level: int, last: bool)
    requires Sane(a) && Grammatical(e) && Writable(a, e)
    ensures AllSpellable(a, Print(e, level, last))
    decreases e, 1
  {
    hide Spellable, Sane, Bare, Grammatical, Writable;
    FixedSpellable(a);
    BareSpellable(a, e, true);
    BareSpellable(a, e, last);
  }

  lemma {:induction false} BareSpellable(a: Alphabet, e: Expression, last: bool)
    requires Sane(a) && Grammatical(e) && Writable(a, e)
    ensures AllSpellable(a, Bare(e, last))
    decreases e, 0
  {
    hide Print, PrintAll, Spellable, Sane;
    FixedSpellable(a);
    if IsBinary(e.op) {
      PrintSpellable(a, e.args[0], Level(e), false);
      PrintSpellable(a, e.args[1], Level(e) + 1, last);
    } else if IsCall(e.op) {
      CallNameSpellable(a, e);
      ArgumentsSpellable(a, e.args);
    } else if e.op == Ternary {
      PrintSpellable(a, e.args[0], 4, false);
      PrintSpellable(a, e.args[1], 0, true);
      PrintSpellable(a, e.args[2], 0, true);
    }
  }

  lemma {:induction false} ArgumentsSpellable(a: Alphabet, es: seq<Expression>)
    requires Sane(a) && AllGrammatical(es) && forall i :: 0 <= i < |es| ==> Writable(a, es[i])
    ensures AllSpellable(a, PrintAll(es))
    decreases es, 2
  {
    hide Print, Grammatical, Writable, Spellable, Sane;
    FixedSpellable(a);
    if es != [] {
      PrintSpellable(a, es[0], 0, true);
      if |es| > 1 {
        ArgumentsSpellable(a, es[1..]);
      }
    }
  }

  /** The front end as a whole is inverted: an expression written out as text is lexed and parsed to itself, every
      token consumed. */
  lemma SourceRoundTrip(a: Alphabet, parse: string -> Option<real>, e: Expression)
    requires Sane(a) && Grammatical(e) && Writable(a, e)
    ensures var tokens := Tokens(a, Render(Print(e, 0, true)), BEGIN);
      ParseExpression(Context(tokens, map[], parse), PState(0, 0, map[], []), 0)
      == Parsed(Ok(e), PState(|tokens| - 1, 0, map[], []))
  {
    hide Print, Sane, Spellable, Tokens, ParseExpression, Grammatical;
    var (printed, s) := (Print(e, 0, true), PState(0, 0, map[], []));
    PrintSpellable(a, e, 0, true);
    var input := Render(printed);
    assert input[0..] == input;
    LexInvertsRender(a, input, BEGIN, printed);
    var x := Context(Tokens(a, input, BEGIN), map[], parse);
    assert Ahead(x, 0, printed);
    assert After(x, s, printed) == Token(TokEOF, "", 1);
    ParserInvertsPrinter(x, s, e);
  }
}
