/** Statements as source text (internal/pine/parser.go:60-257, 400-511, 525-649): what a script says, down to its characters. */
module PineSource {
  import opened Common
  import opened PineIR
  import opened PineLexer
  import opened PineGrammar
  import opened PineWellFormed
  import opened PinePrinter
  import opened PineText
  import opened PineAssignments
  import S = PineStatements
  import PineStatementText

  // Letters and line breaks ---------------------------------------------------------------------------------------------

  /** The same word but for the case of its letters. */
  predicate SameLetters(val: string, lower: string) {
    |val| == |lower| &&
    forall i :: 0 <= i < |val| ==>
      val[i] == lower[i] || ('A' <= val[i] <= 'Z' && lower[i] as int == val[i] as int + 32)
  }

  /** Keywords are recognised in any case, and so is the name of a directive. */
  lemma CaseIgnored(val: string, lower: string, line: int)
    requires SameLetters(val, lower) && forall i :: 0 <= i < |lower| ==> !('A' <= lower[i] <= 'Z')
    ensures ToLower(val) == lower
    ensures lower == "and" ==> WordToken(val, line) == Token(TokAnd, "and", line)
    ensures lower == "or" ==> WordToken(val, line) == Token(TokOr, "or", line)
    ensures lower == "not" ==> WordToken(val, line) == Token(TokNot, "not", line)
    ensures lower == "if" ==> WordToken(val, line) == Token(TokIf, "if", line)
  {
    assert ToLower(val) == lower;
  }

  /** How many brackets of a kind are open after n tokens, never fewer than none. */
  function OpenAfter(ts: seq<Token>, n: nat, open: TokenType, close: TokenType, before: nat): nat
    requires n <= |ts|
  {
    if n == 0 then before
    else
      var depth := OpenAfter(ts, n - 1, open, close, before);
      if ts[n - 1].typ == open then depth + 1
      else if ts[n - 1].typ == close && depth > 0 then depth - 1
      else depth
  }

  lemma {:induction false} OpenAfterFirst(t: Token, rest: seq<Token>, n: nat, open: TokenType, close: TokenType, before: nat)
    requires n <= |rest|
    ensures OpenAfter([t] + rest, n + 1, open, close, before) ==
            OpenAfter(rest, n, open, close, OpenAfter([t], 1, open, close, before))
    decreases n
  {
    if n > 0 {
      OpenAfterFirst(t, rest, n - 1, open, close, before);
      assert ([t] + rest)[n] == rest[n - 1];
    } else {
      assert ([t] + rest)[0] == [t][0];
    }
  }

  /** The lexer's own count goes along with its tokens, and a line break counts only outside. */
  lemma TokenDepth(a: Alphabet, input: string, c: Cursor)
    requires c.pos <= |input|
    ensures var l := Lex(a, input, c);
      && l.rest.parens == OpenAfter([l.token], 1, TokLParen, TokRParen, c.parens)
      && l.rest.brackets == OpenAfter([l.token], 1, TokLBracket, TokRBracket, c.brackets)
      && (l.token.typ == TokNewline ==> c.parens == 0 && c.brackets == 0)
  {
    hide StringEnd, NumberEnd, NameEnd, Keyword, CommentEnd;
    var d := Skip(input, c);
    SkippedBreaks(input, c);
    KeywordsOnly(input, d);
  }

  lemma {:induction false} SkippedBreaks(input: string, c: Cursor)
    requires c.pos <= |input|
    ensures var d := Skip(input, c);
      d.pos < |input| && (c.parens > 0 || c.brackets > 0) ==> input[d.pos] != '\n' && input[d.pos] != '\r'
    decreases |input| - c.pos
  {
    hide CommentEnd;
    if c.pos < |input| {
      var ch := input[c.pos];
      if ch == ' ' || ch == '\t' {
        SkippedBreaks(input, c.(pos := c.pos + 1));
      } else if (c.parens > 0 || c.brackets > 0) && (ch == '\n' || ch == '\r') {
        if ch == '\n' {
          SkippedBreaks(input, c.(pos := c.pos + 1, line := c.line + 1));
        } else if At(input, c.pos + 1) == Some('\n') {
          SkippedBreaks(input, c.(pos := c.pos + 2, line := c.line + 1));
        } else {
          SkippedBreaks(input, c.(pos := c.pos + 1));
        }
      } else if StartsComment(input, c.pos) {
        SkippedBreaks(input, c.(pos := CommentEnd(input, c.pos + 2)));
      }
    }
  }

  lemma KeywordsOnly(input: string, d: Cursor)
    ensures forall val, line :: WordToken(val, line).typ in {TokAnd, TokOr, TokNot, TokIf, TokIdentifier}
  {
  }

  /** A line break ends up among the tokens only where no parenthesis and no bracket is open. */
  lemma {:induction false} BreaksOutside(a: Alphabet, input: string, c: Cursor, i: nat)
    requires c.pos <= |input| && i < |Tokens(a, input, c)| && Tokens(a, input, c)[i].typ == TokNewline
    ensures OpenAfter(Tokens(a, input, c), i, TokLParen, TokRParen, c.parens) == 0
    ensures OpenAfter(Tokens(a, input, c), i, TokLBracket, TokRBracket, c.brackets) == 0
    decreases i
  {
    hide Lex, OpenAfter;
    var l := Lex(a, input, c);
    TokenDepth(a, input, c);
    if i == 0 {
      NothingYet(Tokens(a, input, c), c);
    } else {
      var rest := Tokens(a, input, l.rest);
      assert Tokens(a, input, c) == [l.token] + rest;
      BreaksOutside(a, input, l.rest, i - 1);
      OpenAfterFirst(l.token, rest, i - 1, TokLParen, TokRParen, c.parens);
      OpenAfterFirst(l.token, rest, i - 1, TokLBracket, TokRBracket, c.brackets);
    }
  }

  lemma NothingYet(ts: seq<Token>, c: Cursor)
    ensures OpenAfter(ts, 0, TokLParen, TokRParen, c.parens) == c.parens
    ensures OpenAfter(ts, 0, TokLBracket, TokRBracket, c.brackets) == c.brackets
  {
  }

  // Statements as text --------------------------------------------------------------------------------------------------

  /** The tokens of a text whose tokens can be spelled. */
  lemma TextTokens(a: Alphabet, ts: seq<Token>)
    requires Sane(a) && AllSpellable(a, ts)
    ensures Tokens(a, Render(ts), BEGIN) == ts + [Token(TokEOF, "", 1)]
  {
    hide Sane, Spellable, Tokens, Render;
    var input := Render(ts);
    assert input[0..] == input;
    LexInvertsRender(a, input, BEGIN, ts);
  }

  /** A name that can be written without quotes. */
  predicate Bare(a: Alphabet, name: string) {
    IsWord(a, Token(TokIdentifier, name, 1))
  }

  lemma AssignSpellable(a: Alphabet, equals: string)
    requires equals == "=" || equals == ":="
    ensures AllSpellable(a, [Token(TokAssign, equals, 1)])
  {
    assert IsSymbol(Token(TokAssign, equals, 1));
  }

  /** The source text of an assignment. */
  function AssignmentText(n: string, equals: string, def: IndicatorDef, texts: seq<string>): seq<Token> {
    [Token(TokIdentifier, n, 1), Token(TokAssign, equals, 1)] + CallTokens(KindText(def.kind), ArgumentsOf(def, texts))
  }

  /** What is written in the arguments can be spelled: the source, if there is one, and every parameter. */
  predicate ArgumentsBare(a: Alphabet, def: IndicatorDef, texts: seq<string>) {
    && (def.kind != ATR ==> Spellable(a, RefToken(def.source)))
    && forall i :: 0 <= i < |texts| ==> Spellable(a, RefToken(texts[i]))
  }

  lemma CallSpellable(a: Alphabet, def: IndicatorDef, texts: seq<string>)
    requires Sane(a) && Callable(def) && ArgumentsBare(a, def, texts)
    ensures AllSpellable(a, CallTokens(KindText(def.kind), ArgumentsOf(def, texts)))
  {
    hide Sane, Spellable, PrintAll, KindText;
    var args := ArgumentsOf(def, texts);
    IndicatorNamed(def.kind);
    TaName(KindText(def.kind));
    SpelledName(a, def.kind);
    FixedSpellable(a);
    forall i | 0 <= i < |args|
      ensures Writable(a, args[i])
    {
      ReferenceSpelled(a, def, texts, i);
    }
    ArgumentsSpellable(a, args);
  }

  lemma SpelledName(a: Alphabet, kind: Kind)
    requires Sane(a) && !kind.Unknown?
    ensures AllSpellable(a, [Token(TokIdentifier, "ta." + KindText(kind), 1)])
  {
    hide Sane;
    IndicatorNamed(kind);
    TaName(KindText(kind));
    NameSpellable(a, "ta." + KindText(kind));
  }

  lemma ReferenceSpelled(a: Alphabet, def: IndicatorDef, texts: seq<string>, i: nat)
    requires ArgumentsBare(a, def, texts) && i < |ArgumentsOf(def, texts)|
    ensures Writable(a, ArgumentsOf(def, texts)[i])
  {
    hide Spellable;
  }

  /** From characters to definitions: the text of an assignment, with = or :=, compiles to exactly the definition it spells,
      and the parser has read all of it. */
  lemma AssignmentSource(a: Alphabet, parse: string -> Option<real>, snap: S.Snapshot, n: string, equals: string,
                         def: IndicatorDef, texts: seq<string>, b: S.Mark)
    requires Sane(a) && Callable(def) && Bare(a, n) && '.' !in n && ToLower(n) !in RESERVED && (equals == "=" || equals == ":=")
    requires ArgumentsBare(a, def, texts)
    requires var tokens := Tokens(a, Render(AssignmentText(n, equals, def, texts)), BEGIN);
      Spelled(Context(tokens, snap.constants, parse), texts, def.params) && S.NextStatement(tokens, parse, S.Mark(0, snap), b)
    ensures b.snap == snap.(config := snap.config.(indicators := snap.config.indicators[n := def]))
    ensures b.pos == |AssignmentText(n, equals, def, texts)|
  {
    hide Sane, Spellable, Tokens, Render, CallTokens, KindText, ArgumentsOf, Spelled, ToLower, IsWord, S.NextStatement, ArgumentsBare;
    var ts := AssignmentText(n, equals, def, texts);
    var call := CallTokens(KindText(def.kind), ArgumentsOf(def, texts));
    CallSpellable(a, def, texts);
    AssignSpellable(a, equals);
    BareSpelled(a, n);
    assert AllSpellable(a, ts) by {
      assert ts == [Token(TokIdentifier, n, 1)] + [Token(TokAssign, equals, 1)] + call;
    }
    TextTokens(a, ts);
    var x := Context(Tokens(a, Render(ts), BEGIN), snap.constants, parse);
    assert x.tokens == ts + [Token(TokEOF, "", 1)];
    AssignmentStands(x, ts, n, equals, KindText(def.kind), ArgumentsOf(def, texts));
    StatementRoundTrip(x.tokens, parse, S.Mark(0, snap), 0, n, def, texts, b);
  }

  lemma BareSpelled(a: Alphabet, n: string)
    requires Bare(a, n)
    ensures AllSpellable(a, [Token(TokIdentifier, n, 1)])
  {
    hide IsWord;
  }

  /** The tokens of an assignment, and the end of the file behind them. */
  lemma AssignmentStands(x: Context, ts: seq<Token>, n: string, equals: string, name: string, args: seq<Expression>)
    requires AllGrammatical(args) && x.tokens == ts + [Token(TokEOF, "", 1)]
    requires ts == [Token(TokIdentifier, n, 1), Token(TokAssign, equals, 1)] + CallTokens(name, args)
    ensures S.NewlinesEnd(x, 0) == 0 && Stated(x, 0, 0, n, name, args)
  {
    hide CallTokens;
    assert x.tokens[0] == ts[0] && x.tokens[1] == ts[1];
    assert forall i :: 0 <= i < |CallTokens(name, args)| ==> x.tokens[2 + i] == CallTokens(name, args)[i];
    assert x.tokens[2 + |CallTokens(name, args)|] == Token(TokEOF, "", 1);
  }

  /** The tokens of strategy.entry(id, side). */
  function EntryTokens(id: string, direction: Direction): seq<Token> {
    [Token(TokIdentifier, "strategy.entry", 1), LP, Token(TokIdentifier, id, 1), COMMA,
     Token(TokIdentifier, S.SideText(direction), 1), RP]
  }

  const IF := Token(TokIf, "if", 1)

  lemma StrategySpelled(a: Alphabet, name: string)
    requires Sane(a) && name in {"strategy.entry", "strategy.long", "strategy.short"}
    ensures AllSpellable(a, [Token(TokIdentifier, name, 1)])
  {
    Lowercase(name);
    hide ToLower, IsSpecial;
    assert forall i :: 0 <= i < |name| ==> name[i] == '.' || 'a' <= name[i] <= 'z';
    assert Keyword(name) == TokIdentifier by {
      assert |"and"| == |"not"| == 3 && |"or"| == |"if"| == 2;
    }
    assert IsWord(a, Token(TokIdentifier, name, 1));
  }

  lemma IfSpelled(a: Alphabet)
    requires Sane(a)
    ensures AllSpellable(a, [IF])
  {
    Lowercase("if");
    assert Keyword("if") == TokIf && WordToken("if", 1) == IF;
    hide ToLower, IsSpecial;
    assert IsWord(a, IF);
  }

  lemma EntrySpellable(a: Alphabet, id: string, direction: Direction)
    requires Sane(a) && Bare(a, id)
    ensures AllSpellable(a, EntryTokens(id, direction))
  {
    hide Sane, Spellable, IsWord;
    FixedSpellable(a);
    StrategySpelled(a, "strategy.entry");
    StrategySpelled(a, S.SideText(direction));
    BareSpelled(a, id);
    var ts := EntryTokens(id, direction);
    assert ts[0] == [Token(TokIdentifier, "strategy.entry", 1)][0] && ts[2] == [Token(TokIdentifier, id, 1)][0]
           && ts[4] == [Token(TokIdentifier, S.SideText(direction), 1)][0];
  }

  /** From characters to rules: the text of an if with an entry behind it adds the rule that enters on its side under the
      condition written, and the parser has read all of it. */
  lemma IfSource(a: Alphabet, parse: string -> Option<real>, snap: S.Snapshot, e: Expression, id: string, direction: Direction,
                 b: S.Mark)
    requires Sane(a) && Grammatical(e) && Writable(a, e) && Bare(a, id) && S.TrimQuotes(id) == id
    requires direction == Long || direction == Short
    requires S.NextStatement(Tokens(a, Render([IF] + Print(e, 0, true) + EntryTokens(id, direction)), BEGIN), parse, S.Mark(0, snap), b)
    ensures b.pos == |[IF] + Print(e, 0, true) + EntryTokens(id, direction)| && b.snap.errors == snap.errors
    ensures b.snap.config.indicators == snap.config.indicators
    ensures var name := if e.op == Ref then e.val else AutoName(snap.autoVar);
      && b.snap.config.rules == snap.config.rules + [Rule(name, Entry, id, direction)]
      && b.snap.config.conditions == (if e.op == Ref then snap.config.conditions else snap.config.conditions[name := e])
  {
    hide Sane, Spellable, Tokens, Render, Print, IsWord, S.NextStatement, EntryTokens, Grammatical, Writable, AutoName;
    var (cond, entry) := (Print(e, 0, true), EntryTokens(id, direction));
    var ts := [IF] + cond + entry;
    IfSpelled(a);
    PrintSpellable(a, e, 0, true);
    EntrySpellable(a, id, direction);
    TextTokens(a, ts);
    var x := Context(Tokens(a, Render(ts), BEGIN), snap.constants, parse);
    IfStands(x, e, id, direction);
    NamedCondition(a, e);
    PineStatementText.IfRoundTrip(x.tokens, parse, S.Mark(0, snap), e, Entry, id, direction, |ts|, b);
  }

  lemma NamedCondition(a: Alphabet, e: Expression)
    requires Writable(a, e)
    ensures e.op == Ref ==> e.val != ""
  {
  }

  lemma EntryStands(x: Context, at: nat, id: string, direction: Direction)
    requires S.TrimQuotes(id) == id && (direction == Long || direction == Short)
    requires at + 6 < |x.tokens| && x.tokens[at..at + 6] == EntryTokens(id, direction)
    ensures S.NewlinesEnd(x, at) == at
    ensures PineStatementText.DirectiveWritten(x, at, Entry, id, direction, at + 6)
  {
    hide S.TrimQuotes, S.SideText;
    var entry := x.tokens[at..at + 6];
    assert x.tokens[at] == entry[0] && x.tokens[at + 1] == entry[1] && x.tokens[at + 2] == entry[2];
    assert x.tokens[at + 3] == entry[3] && x.tokens[at + 4] == entry[4] && x.tokens[at + 5] == entry[5];
    assert PineStatementText.EntryWritten(x, at, id, direction);
  }

  lemma IfStands(x: Context, e: Expression, id: string, direction: Direction)
    requires Grammatical(e) && S.TrimQuotes(id) == id && (direction == Long || direction == Short)
    requires x.tokens == [IF] + Print(e, 0, true) + EntryTokens(id, direction) + [Token(TokEOF, "", 1)]
    ensures S.NewlinesEnd(x, 0) == 0
    ensures PineStatementText.IfWritten(x, 0, e, Entry, id, direction, |[IF] + Print(e, 0, true) + EntryTokens(id, direction)|)
  {
    hide Print, S.TrimQuotes, S.SideText, Grammatical, PineStatementText.DirectiveWritten;
    var (n, entry) := (|Print(e, 0, true)|, EntryTokens(id, direction));
    assert x.tokens[0] == IF;
    assert forall i :: 0 <= i < n ==> x.tokens[1 + i] == Print(e, 0, true)[i];
    assert x.tokens[1 + n..1 + n + 6] == entry;
    EntryStands(x, 1 + n, id, direction);
    assert x.tokens[1 + n] == entry[0];
  }
}
