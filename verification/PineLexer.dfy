/** The Pine lexer (internal/pine/parser.go:41-257, 270-290). */
module PineLexer {
  import opened Common

  datatype TokenType =
    | TokError | TokEOF | TokIdentifier | TokNumber | TokAssign | TokLParen | TokRParen | TokLBracket | TokRBracket
    | TokComma | TokCompare | TokAnd | TokOr | TokNot | TokIf | TokQuestion | TokColon | TokNewline

  datatype Token = Token(typ: TokenType, val: string, line: int)

  /** unicode.IsLetter and unicode.IsDigit. */
  datatype Alphabet = Alphabet(isLetter: char -> bool, isDigit: char -> bool)

  /** ToLower on the letters that keywords and function names are made of. */
  function LowerChar(c: char): char {
    if 'A' <= c <= 'Z' then c + ('a' - 'A') else c
  }

  function ToLower(s: string): (t: string)
    ensures |t| == |s|
  {
    seq(|s|, i requires 0 <= i < |s| => LowerChar(s[i]))
  }

  /** Where the lexer stands. */
  datatype Cursor = Cursor(pos: nat, line: int, parens: nat, brackets: nat)

  // Scanning --------------------------------------------------------------------------------------------------

  function At(input: string, pos: nat): Option<char> {
    if pos < |input| then Some(input[pos]) else None
  }

  function CommentEnd(input: string, pos: nat): (end: nat)
    requires pos <= |input|
    ensures pos <= end <= |input|
    decreases |input| - pos
  {
    if pos < |input| && input[pos] != '\n' && input[pos] != '\r' then CommentEnd(input, pos + 1) else pos
  }

  /** Position of the closing quote, or the end of the input. */
  function StringEnd(input: string, pos: nat, quote: char): (end: nat)
    requires pos <= |input|
    ensures pos <= end <= |input|
    decreases |input| - pos
  {
    if pos < |input| && input[pos] != quote then StringEnd(input, pos + 1, quote) else pos
  }

  function NumberEnd(a: Alphabet, input: string, pos: nat, hasDec: bool): (end: nat)
    requires pos <= |input|
    ensures pos <= end <= |input|
    decreases |input| - pos
  {
    if pos < |input| && a.isDigit(input[pos]) then NumberEnd(a, input, pos + 1, hasDec)
    else if pos < |input| && input[pos] == '.' && !hasDec then NumberEnd(a, input, pos + 1, true)
    else pos
  }

  predicate InName(a: Alphabet, c: char) {
    a.isLetter(c) || a.isDigit(c) || c == '_' || c == '.'
  }

  function NameEnd(a: Alphabet, input: string, pos: nat): (end: nat)
    requires pos <= |input|
    ensures pos <= end <= |input|
    decreases |input| - pos
  {
    if pos < |input| && InName(a, input[pos]) then NameEnd(a, input, pos + 1) else pos
  }

  predicate StartsComment(input: string, pos: nat) {
    At(input, pos) == Some('/') && At(input, pos + 1) == Some('/')
  }

  /** Blanks, comments, and inside parentheses or brackets newlines. */
  function Skip(input: string, c: Cursor): (d: Cursor)
    requires c.pos <= |input|
    ensures c.pos <= d.pos <= |input| && d.parens == c.parens && d.brackets == c.brackets
    decreases |input| - c.pos
  {
    if c.pos >= |input| then c
    else
      var ch := input[c.pos];
      if ch == ' ' || ch == '\t' then Skip(input, c.(pos := c.pos + 1))
      else if (c.parens > 0 || c.brackets > 0) && (ch == '\n' || ch == '\r') then
        if ch == '\n' then Skip(input, c.(pos := c.pos + 1, line := c.line + 1))
        else if At(input, c.pos + 1) == Some('\n') then Skip(input, c.(pos := c.pos + 2, line := c.line + 1))
        else Skip(input, c.(pos := c.pos + 1))
      else if StartsComment(input, c.pos) then Skip(input, c.(pos := CommentEnd(input, c.pos + 2)))
      else c
  }

  function Keyword(val: string): TokenType {
    var lower := ToLower(val);
    if lower == "and" then TokAnd
    else if lower == "or" then TokOr
    else if lower == "not" then TokNot
    else if lower == "if" then TokIf
    else TokIdentifier
  }

  function WordToken(val: string, line: int): Token {
    var kind := Keyword(val);
    Token(kind, if kind == TokIdentifier then val else ToLower(val), line)
  }

  function Decrement(depth: nat): nat {
    if depth > 0 then depth - 1 else 0
  }

  datatype Glyph = Glyph(typ: TokenType, val: string, width: nat)

  /** One token of a single character, or of two when the second is '='. */
  function Symbol(ch: char, equals: bool): Option<Glyph> {
    if ch == '(' then Some(Glyph(TokLParen, "(", 1))
    else if ch == ')' then Some(Glyph(TokRParen, ")", 1))
    else if ch == '[' then Some(Glyph(TokLBracket, "[", 1))
    else if ch == ']' then Some(Glyph(TokRBracket, "]", 1))
    else if ch == ',' then Some(Glyph(TokComma, ",", 1))
    else if ch == '=' then Some(if equals then Glyph(TokCompare, "==", 2) else Glyph(TokAssign, "=", 1))
    else if ch == ':' then Some(if equals then Glyph(TokAssign, ":=", 2) else Glyph(TokColon, ":", 1))
    else if ch == '?' then Some(Glyph(TokQuestion, "?", 1))
    else if ch == '!' then Some(if equals then Glyph(TokCompare, "!=", 2) else Glyph(TokError, "!", 1))
    else if ch == '>' then Some(if equals then Glyph(TokCompare, ">=", 2) else Glyph(TokCompare, ">", 1))
    else if ch == '<' then Some(if equals then Glyph(TokCompare, "<=", 2) else Glyph(TokCompare, "<", 1))
    else None
  }

  function Nested(c: Cursor, ch: char): (d: Cursor)
    ensures d.pos == c.pos && d.line == c.line
  {
    if ch == '(' then c.(parens := c.parens + 1)
    else if ch == ')' then c.(parens := Decrement(c.parens))
    else if ch == '[' then c.(brackets := c.brackets + 1)
    else if ch == ']' then c.(brackets := Decrement(c.brackets))
    else c
  }

  datatype Lexeme = Lexeme(token: Token, rest: Cursor)

  /** The token at the cursor, once blanks are skipped. */
  function TokenAt(a: Alphabet, input: string, c: Cursor): (l: Lexeme)
    requires c.pos <= |input|
    ensures l.token.typ == TokEOF <==> c.pos == |input|
    ensures l.rest.pos <= |input|
    ensures c.pos < |input| ==> c.pos < l.rest.pos
  {
    if c.pos >= |input| then Lexeme(Token(TokEOF, "", c.line), c)
    else
      var ch := input[c.pos];
      var next := At(input, c.pos + 1);
      if ch == '"' || ch == '\'' then
        var end := StringEnd(input, c.pos + 1, ch);
        if end < |input| then Lexeme(Token(TokIdentifier, input[c.pos + 1..end], c.line), c.(pos := end + 1))
        else Lexeme(Token(TokError, input[c.pos..], c.line), c.(pos := end))
      else if ch == '\n' then Lexeme(Token(TokNewline, "\n", c.line), c.(pos := c.pos + 1, line := c.line + 1))
      else if ch == '\r' then
        Lexeme(Token(TokNewline, "\n", c.line), c.(pos := if next == Some('\n') then c.pos + 2 else c.pos + 1, line := c.line + 1))
      else match Symbol(ch, next == Some('='))
        case Some(g) => Lexeme(Token(g.typ, g.val, c.line), Nested(c, ch).(pos := c.pos + g.width))
        case None =>
          if a.isDigit(ch) || ch == '.' then
            var end := NumberEnd(a, input, c.pos + 1, ch == '.');
            Lexeme(Token(TokNumber, input[c.pos..end], c.line), c.(pos := end))
          else if a.isLetter(ch) || ch == '_' then
            var end := NameEnd(a, input, c.pos + 1);
            Lexeme(WordToken(input[c.pos..end], c.line), c.(pos := end))
          else Lexeme(Token(TokError, [ch], c.line), c.(pos := c.pos + 1))
  }

  function Lex(a: Alphabet, input: string, c: Cursor): (l: Lexeme)
    requires c.pos <= |input|
    ensures l.rest.pos <= |input|
    ensures l.token.typ != TokEOF ==> c.pos < l.rest.pos
  {
    TokenAt(a, input, Skip(input, c))
  }

  /** The whole token stream from a cursor on. */
  function Tokens(a: Alphabet, input: string, c: Cursor): seq<Token>
    requires c.pos <= |input|
    decreases |input| - c.pos
  {
    var l := Lex(a, input, c);
    if l.token.typ == TokEOF then [l.token] else [l.token] + Tokens(a, input, l.rest)
  }

  const BEGIN := Cursor(0, 1, 0, 0)

  /** On every input the stream is finite and ends in exactly one end-of-file token. */
  lemma {:induction false} OneEOF(a: Alphabet, input: string, c: Cursor)
    requires c.pos <= |input|
    ensures var ts := Tokens(a, input, c);
      && ts != [] && ts[|ts| - 1].typ == TokEOF
      && forall i :: 0 <= i < |ts| - 1 ==> ts[i].typ != TokEOF
    decreases |input| - c.pos
  {
    var l := Lex(a, input, c);
    if l.token.typ != TokEOF {
      OneEOF(a, input, l.rest);
    }
  }

  /** There are never more tokens than characters, plus the end of file. */
  lemma {:induction false} FewTokens(a: Alphabet, input: string, c: Cursor)
    requires c.pos <= |input|
    ensures |Tokens(a, input, c)| <= |input| - c.pos + 1
    decreases |input| - c.pos
  {
    var l := Lex(a, input, c);
    if l.token.typ != TokEOF {
      FewTokens(a, input, l.rest);
    }
  }

  // The lexer object ----------------------------------------------------------------------------------------------

  class Lexer {
    const alphabet: Alphabet
    const input: string
    var pos: nat
    var line: int
    var parenDepth: nat
    var bracketDepth: nat

    predicate Valid()
      reads this
    {
      pos <= |input|
    }

    function Here(): Cursor
      reads this
    {
      Cursor(pos, line, parenDepth, bracketDepth)
    }

    constructor (alphabet: Alphabet, input: string)
      ensures this.alphabet == alphabet && this.input == input && Valid() && Here() == BEGIN
    {
      this.alphabet := alphabet;
      this.input := input;
      pos, line, parenDepth, bracketDepth := 0, 1, 0, 0;
    }

    method ScanComment()
      requires Valid()
      modifies this`pos
      ensures Valid() && pos == old(CommentEnd(input, pos))
    {
      while pos < |input| && input[pos] != '\n' && input[pos] != '\r'
        invariant Valid() && CommentEnd(input, pos) == old(CommentEnd(input, pos))
      {
        pos := pos + 1;
      }
    }

    method SkipWhitespaceAndComments()
      requires Valid()
      modifies this
      ensures Valid() && Here() == old(Skip(input, Here()))
    {
      while pos < |input|
        invariant Valid() && Skip(input, Here()) == old(Skip(input, Here()))
        decreases |input| - pos
      {
        var ch := input[pos];
        if ch == ' ' || ch == '\t' {
          pos := pos + 1;
          continue;
        }
        if (parenDepth > 0 || bracketDepth > 0) && (ch == '\n' || ch == '\r') {
          if ch == '\n' {
            line := line + 1;
          } else if pos + 1 < |input| && input[pos + 1] == '\n' {
            pos := pos + 1;
            line := line + 1;
          }
          pos := pos + 1;
          continue;
        }
        if ch == '/' && pos + 1 < |input| && input[pos + 1] == '/' {
          pos := pos + 2;
          ScanComment();
          continue;
        }
        break;
      }
    }

    method ScanNumber(start: nat)
      requires Valid() && start < |input| && pos == start + 1
      modifies this`pos
      ensures pos == NumberEnd(alphabet, input, start + 1, input[start] == '.')
    {
      var hasDec := input[start] == '.';
      while pos < |input|
        invariant Valid()
        invariant NumberEnd(alphabet, input, pos, hasDec) == NumberEnd(alphabet, input, start + 1, input[start] == '.')
      {
        var nextCh := input[pos];
        if alphabet.isDigit(nextCh) {
          pos := pos + 1;
        } else if nextCh == '.' && !hasDec {
          hasDec := true;
          pos := pos + 1;
        } else {
          break;
        }
      }
    }

    method ScanName(start: nat)
      requires Valid() && start < |input| && pos == start + 1
      modifies this`pos
      ensures pos == NameEnd(alphabet, input, start + 1)
    {
      while pos < |input|
        invariant Valid() && NameEnd(alphabet, input, pos) == NameEnd(alphabet, input, start + 1)
      {
        if !InName(alphabet, input[pos]) {
          break;
        }
        pos := pos + 1;
      }
    }

    /** A quoted string, from its opening quote on. */
    method ScanString(quote: char) returns (token: Token)
      requires Valid() && pos < |input|
      modifies this`pos
      ensures var end := StringEnd(input, old(pos) + 1, quote);
        if end < |input| then token == Token(TokIdentifier, input[old(pos) + 1..end], line) && pos == end + 1
        else token == Token(TokError, input[old(pos)..], line) && pos == end
    {
      var start := pos;
      pos := pos + 1;
      while pos < |input|
        invariant start < pos <= |input| && StringEnd(input, pos, quote) == StringEnd(input, start + 1, quote)
      {
        if input[pos] == quote {
          pos := pos + 1;
          return Token(TokIdentifier, input[start + 1..pos - 1], line);
        }
        pos := pos + 1;
      }
      return Token(TokError, input[start..], line);
    }

    method TakeSymbol(ch: char, width: nat)
      modifies this
      ensures Here() == old(Nested(Here(), ch).(pos := pos + width))
    {
      pos := pos + width;
      if ch == '(' {
        parenDepth := parenDepth + 1;
      } else if ch == ')' {
        parenDepth := Decrement(parenDepth);
      } else if ch == '[' {
        bracketDepth := bracketDepth + 1;
      } else if ch == ']' {
        bracketDepth := Decrement(bracketDepth);
      }
    }

    method NextToken() returns (token: Token)
      requires Valid()
      modifies this
      ensures Valid()
      ensures Lexeme(token, Here()) == Lex(alphabet, input, old(Here()))
    {
      hide Skip, TokenAt;
      SkipWhitespaceAndComments();
      token := TakeToken();
    }

    method TakeToken() returns (token: Token)
      requires Valid()
      modifies this
      ensures Valid()
      ensures Lexeme(token, Here()) == TokenAt(alphabet, input, old(Here()))
    {
      hide NumberEnd, NameEnd, StringEnd, WordToken, Nested;
      if pos >= |input| {
        return Token(TokEOF, "", line);
      }
      var ch := input[pos];
      var start := pos;
      if ch == '"' || ch == '\'' {
        token := ScanString(ch);
        return;
      }
      if ch == '\n' || ch == '\r' {
        pos := pos + 1;
        if ch == '\r' && pos < |input| && input[pos] == '\n' {
          pos := pos + 1;
        }
        token := Token(TokNewline, "\n", line);
        line := line + 1;
        return;
      }
      var symbol := Symbol(ch, At(input, pos + 1) == Some('='));
      if symbol.Some? {
        TakeSymbol(ch, symbol.value.width);
        return Token(symbol.value.typ, symbol.value.val, line);
      }
      if alphabet.isDigit(ch) || ch == '.' {
        pos := pos + 1;
        ScanNumber(start);
        return Token(TokNumber, input[start..pos], line);
      }
      if alphabet.isLetter(ch) || ch == '_' {
        pos := pos + 1;
        ScanName(start);
        return WordToken(input[start..pos], line);
      }
      pos := pos + 1;
      return Token(TokError, [ch], line);
    }
  }

  /** NewParser's loop: lex until the end of file. */
  method Tokenize(alphabet: Alphabet, input: string) returns (tokens: seq<Token>)
    ensures tokens == Tokens(alphabet, input, BEGIN)
    ensures tokens != [] && tokens[|tokens| - 1].typ == TokEOF
    ensures forall i :: 0 <= i < |tokens| - 1 ==> tokens[i].typ != TokEOF
  {
    OneEOF(alphabet, input, BEGIN);
    var lexer := new Lexer(alphabet, input);
    tokens := [];
    while true
      invariant fresh(lexer) && lexer.Valid() && lexer.alphabet == alphabet && lexer.input == input
      invariant tokens + Tokens(alphabet, input, lexer.Here()) == Tokens(alphabet, input, BEGIN)
      decreases |input| - lexer.pos
    {
      ghost var here := lexer.Here();
      var token := lexer.NextToken();
      assert token.typ != TokEOF ==>
        tokens + Tokens(alphabet, input, here) == (tokens + [token]) + Tokens(alphabet, input, lexer.Here());
      tokens := tokens + [token];
      if token.typ == TokEOF {
        break;
      }
    }
  }
}
