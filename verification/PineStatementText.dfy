/** Statements written out and read back (internal/pine/parser.go:400-456, 458-473, 550-649): conditions, directives, and
    directives under an if. Calls that define indicators are in PineAssignments. */
module PineStatementText {
  import opened Common
  import opened PineIR
  import opened PineLexer
  import opened PineGrammar
  import opened PineWellFormed
  import opened PinePrinter
  import opened PineAssignments
  import opened S = PineStatements

  // Conditions --------------------------------------------------------------------------------------------------------

  /** n = expression, for an expression that is no indicator call. */
  predicate ConditionStated(x: Context, pos: nat, at: nat, n: string, e: Expression)
    requires Grammatical(e)
  {
    var ts := Print(e, 0, true);
    && Introduced(x, pos, at) && at + 2 <= |x.tokens|
    && x.tokens[at].typ == TokIdentifier && x.tokens[at].val == n && x.tokens[at + 1].typ == TokAssign
    && Ahead(x, at + 2, ts) && Ends(Current(x, at + 2 + |ts|), 0)
  }

  /** A condition written out is recorded under its name; a number becomes a constant as well. */
  lemma ConditionRoundTrip(tokens: seq<Token>, parse: string -> Option<real>, a: Mark, at: nat, n: string, e: Expression, b: Mark)
    requires Grammatical(e) && e.op != Indicator && '.' !in n && ToLower(n) !in RESERVED
    requires a.pos <= |tokens| && NextStatement(tokens, parse, a, b)
    requires var x := Context(tokens, a.snap.constants, parse);
      ConditionStated(x, NewlinesEnd(x, a.pos), at, n, e) && !IsIdentifier(Current(x, at + 2), IsSkippable)
    ensures b.snap.config == a.snap.config.(conditions := a.snap.config.conditions[n := e])
    ensures b.snap.errors == a.snap.errors && b.snap.autoVar == a.snap.autoVar && b.pos == at + 2 + |Print(e, 0, true)|
    ensures b.snap.constants ==
      if e.op == Ref && parse(e.val).Some? then a.snap.constants[n := parse(e.val).value] else a.snap.constants
  {
    hide ToLower, Print, Ahead, Ends, Introduced, NewlinesEnd, FormOf, AssignmentDone, Grammatical, IsSkippable;
    var x := Context(tokens, a.snap.constants, parse);
    ConditionForm(x, NewlinesEnd(x, a.pos), at, n);
    ConditionAssigned(x, a.snap, at + 2, n, e, b.snap, b.pos);
  }

  lemma ConditionAssigned(x: Context, a: Snapshot, at: nat, n: string, e: Expression, b: Snapshot, end: nat)
    requires Grammatical(e) && e.op != Indicator && at <= |x.tokens| && AssignmentDone(x, a, at, n, b, end)
    requires Ahead(x, at, Print(e, 0, true)) && Ends(Current(x, at + |Print(e, 0, true)|), 0)
    ensures b.config == a.config.(conditions := a.config.conditions[n := e]) && b.errors == a.errors
    ensures b.autoVar == a.autoVar && end == at + |Print(e, 0, true)|
    ensures b.constants == if e.op == Ref && x.parse(e.val).Some? then a.constants[n := x.parse(e.val).value] else a.constants
  {
    hide Print, Ahead, Ends, ParseExpression, Grammatical, Complaints, Level;
    ParserInvertsPrinter(x, StateAt(a, at), e);
  }

  lemma ConditionForm(x: Context, pos: nat, at: nat, n: string)
    requires Introduced(x, pos, at) && at + 2 <= |x.tokens| && '.' !in n && ToLower(n) !in RESERVED
    requires x.tokens[at].typ == TokIdentifier && x.tokens[at].val == n && x.tokens[at + 1].typ == TokAssign
    requires !IsIdentifier(Current(x, at + 2), IsSkippable)
    ensures FormOf(x, pos) == Assignment(at + 2, n)
  {
    hide ToLower, IsSkippable, Introduced, Past, IsContinuation;
    ModifiersPassed(x, pos, at);
    FreeNames(n);
  }

  // Directives ----------------------------------------------------------------------------------------------------------

  /** strategy.entry("id", strategy.long) or strategy.short. */
  predicate EntryWritten(x: Context, at: nat, id: string, direction: Direction) {
    && (direction == Long || direction == Short) && TrimQuotes(id) == id && at + 6 <= |x.tokens|
    && S.Reads(x, at, TokIdentifier, "strategy.entry") && Current(x, at + 1).typ == TokLParen
    && S.Reads(x, at + 2, TokIdentifier, id) && Current(x, at + 3).typ == TokComma
    && S.Reads(x, at + 4, TokIdentifier, SideText(direction)) && Current(x, at + 5).typ == TokRParen
  }

  /** A directive whose only argument is a name. */
  predicate OneWritten(x: Context, at: nat, names: set<string>, id: string) {
    && TrimQuotes(id) == id && at + 4 <= |x.tokens|
    && Current(x, at).typ == TokIdentifier && Current(x, at).val in names && Current(x, at + 1).typ == TokLParen
    && S.Reads(x, at + 2, TokIdentifier, id) && Current(x, at + 3).typ == TokRParen
  }

  /** A directive of two names, of which the second says what it closes. */
  predicate TwoWritten(x: Context, at: nat, names: set<string>, id: string) {
    && TrimQuotes(id) == id && '=' !in id && at + 6 <= |x.tokens|
    && Current(x, at).typ == TokIdentifier && Current(x, at).val in names && Current(x, at + 1).typ == TokLParen
    && Current(x, at + 2).typ == TokIdentifier && TrimQuotes(Current(x, at + 2).val) == Current(x, at + 2).val
    && Current(x, at + 3).typ == TokComma
    && S.Reads(x, at + 4, TokIdentifier, id) && Current(x, at + 5).typ == TokRParen
  }

  /** A directive of a name and a setting such as qty = 5. */
  predicate SettingWritten(x: Context, at: nat, names: set<string>, id: string) {
    && TrimQuotes(id) == id && at + 8 <= |x.tokens|
    && Current(x, at).typ == TokIdentifier && Current(x, at).val in names && Current(x, at + 1).typ == TokLParen
    && S.Reads(x, at + 2, TokIdentifier, id) && Current(x, at + 3).typ == TokComma
    && Current(x, at + 4).typ == TokIdentifier && Current(x, at + 5).typ == TokAssign && Current(x, at + 7).typ == TokRParen
  }

  const CLOSING: set<string> := {"strategy.close", "strategy.exit"}

  /** What a directive in print asks for, and behind which token it ends: an entry names a side or is long, a close is of its
      only name, of the second of two, or of the one before a setting. */
  ghost predicate DirectiveWritten(x: Context, at: nat, action: Action, id: string, direction: Direction, end: nat) {
    if action == Entry then
      || (EntryWritten(x, at, id, direction) && end == at + 6)
      || (direction == Long && OneWritten(x, at, {"strategy.entry"}, id) && end == at + 4)
    else
      && action == Close && direction == SideNamed(id)
      && ((OneWritten(x, at, CLOSING, id) && end == at + 4) || (TwoWritten(x, at, CLOSING, id) && end == at + 6)
          || (SettingWritten(x, at, CLOSING, id) && end == at + 8))
  }

  /** A close is for the side that its name mentions, if any. */
  ghost function SideNamed(id: string): Direction {
    if Mentions(id, "short") then Short else if Mentions(id, "long") then Long else Undirected
  }

  ghost predicate Mentions(text: string, word: string) {
    exists i: nat :: OccursAt(ToLower(text), i, word)
  }

  predicate OccursAt(text: string, i: nat, word: string) {
    i + |word| <= |text| && text[i..i + |word|] == word
  }

  lemma {:induction false} ContainsIff(s: string, part: string)
    ensures Contains(s, part) <==> exists i: nat :: OccursAt(s, i, part)
    decreases |s|
  {
    if Contains(s, part) {
      if HasPrefix(s, part) {
        assert OccursAt(s, 0, part);
      } else {
        ContainsIff(s[1..], part);
        var i: nat :| OccursAt(s[1..], i, part);
        assert OccursAt(s, i + 1, part);
      }
    }
    if i: nat :| OccursAt(s, i, part) {
      if i == 0 {
        assert HasPrefix(s, part);
      } else {
        ContainsIff(s[1..], part);
        assert OccursAt(s[1..], i - 1, part);
      }
    }
  }

  lemma ClosingNames(name: string)
    requires name in CLOSING
    ensures ToLower(name) == name && name != "strategy.entry"
  {
    Lowercase(name);
    assert "strategy.entry"[9] == 'e' && "strategy.exit"[10] == 'x' && "strategy.close"[9] == 'c' && "strategy.entry"[10] == 'n';
  }

  /** What the words of a closing directive mean. */
  lemma CloseMeans(name: string, args: seq<string>, id: string)
    requires name in CLOSING
    requires args == [id] || (|args| == 2 && if Contains(args[1], "=") then id == args[0] else id == args[1])
    ensures Meaning(name, args) == Directive(Close, id, SideNamed(id), false)
  {
    ClosingNames(name);
    ContainsIff(ToLower(id), "short");
    ContainsIff(ToLower(id), "long");
    hide Contains, ToLower;
  }

  lemma OneRead(x: Context, s: PState, names: set<string>, id: string)
    requires OneWritten(x, s.pos, names, id)
    ensures s.pos <= |x.tokens| && DirectiveAt(x, s) == DirectiveText(Some([id]), s.(pos := s.pos + 4))
  {
    hide TrimQuotes, DirectiveArguments, OneArgument;
    LastArgumentRead(x, s.(pos := s.pos + 2), [], id);
    assert [] + [id] == [id];
  }

  lemma TwoRead(x: Context, s: PState, names: set<string>, id: string)
    requires TwoWritten(x, s.pos, names, id)
    ensures s.pos <= |x.tokens| && !Contains(id, "=")
    ensures DirectiveAt(x, s) == DirectiveText(Some([Current(x, s.pos + 2).val, id]), s.(pos := s.pos + 6))
  {
    hide TrimQuotes, DirectiveArguments, OneArgument;
    var first := Current(x, s.pos + 2).val;
    S.ArgumentRead(x, s.(pos := s.pos + 2), [], first);
    LastArgumentRead(x, s.(pos := s.pos + 4), [first], id);
    assert [] + [first] == [first] && [first] + [id] == [first, id];
    MissingLetter(id, "=");
  }

  lemma SettingRead(x: Context, s: PState, names: set<string>, id: string)
    requires SettingWritten(x, s.pos, names, id)
    ensures var setting := Current(x, s.pos + 4).val + "=" + Current(x, s.pos + 6).val;
      && s.pos <= |x.tokens| && Contains(setting, "=")
      && DirectiveAt(x, s) == DirectiveText(Some([id, setting]), s.(pos := s.pos + 8))
  {
    hide TrimQuotes, DirectiveArguments, OneArgument, Contains;
    var setting := Current(x, s.pos + 4).val + "=" + Current(x, s.pos + 6).val;
    S.ArgumentRead(x, s.(pos := s.pos + 2), [], id);
    SettingArgument(x, s.(pos := s.pos + 4), [id]);
    assert [] + [id] == [id] && [id] + [setting] == [id, setting];
    SettingHolds(Current(x, s.pos + 4).val, Current(x, s.pos + 6).val);
  }

  lemma SettingHolds(key: string, value: string)
    ensures Contains(key + "=" + value, "=")
  {
    ContainsIff(key + "=" + value, "=");
    assert OccursAt(key + "=" + value, |key|, "=");
  }

  lemma SettingArgument(x: Context, s: PState, list: seq<string>)
    requires s.pos + 3 <= |x.tokens| && Current(x, s.pos).typ == TokIdentifier && Current(x, s.pos + 1).typ == TokAssign
    requires Current(x, s.pos + 3).typ == TokRParen
    ensures DirectiveArguments(x, s, list) ==
      Arguments(list + [Current(x, s.pos).val + "=" + Current(x, s.pos + 2).val], s.(pos := s.pos + 3))
  {
    var one := OneArgument(x, s, list);
    assert one == Arguments(list + [Current(x, s.pos).val + "=" + Current(x, s.pos + 2).val], s.(pos := s.pos + 3));
    hide OneArgument;
  }

  lemma LongMeant(id: string)
    ensures Meaning("strategy.entry", [id]) == Directive(Entry, id, Long, false)
  {
    Lowercase("strategy.entry");
    hide ToLower;
  }

  /** A directive written out reads as what it says, whatever comes before and after it. */
  lemma DirectiveRoundTrip(x: Context, a: Snapshot, at: nat, condition: string, action: Action, id: string, direction: Direction,
                           end: nat, b: Snapshot, stop: nat)
    requires DirectiveWritten(x, at, action, id, direction, end) && at <= |x.tokens|
    requires DirectiveDone(x, a, at, condition, b, stop)
    ensures stop == end && b == a.(config := WithDirective(a.config, condition, Directive(action, id, direction, false)))
  {
    hide TrimQuotes, DirectiveAt, Meaning, SideText, SideNamed, WithDirective, EntryWritten, OneWritten, TwoWritten, SettingWritten,
      DirectiveDone;
    var args := DirectiveRead(x, StateAt(a, at), action, id, direction, end);
    DirectiveFollows(x, a, at, condition, b, stop, args, end, Directive(action, id, direction, false));
  }

  lemma DirectiveFollows(x: Context, a: Snapshot, at: nat, condition: string, b: Snapshot, stop: nat, args: seq<string>, end: nat,
                         d: Directive)
    requires at <= |x.tokens| && DirectiveDone(x, a, at, condition, b, stop) && d.Directive? && !d.misdirected
    requires DirectiveAt(x, StateAt(a, at)) == DirectiveText(Some(args), StateAt(a, at).(pos := end))
    requires Meaning(Current(x, at).val, args) == d
    ensures stop == end && b == a.(config := WithDirective(a.config, condition, d))
  {
    hide DirectiveAt, Meaning, WithDirective;
  }

  /** The arguments of a directive in print, and what they mean. */
  lemma DirectiveRead(x: Context, s: PState, action: Action, id: string, direction: Direction, end: nat)
    returns (args: seq<string>)
    requires DirectiveWritten(x, s.pos, action, id, direction, end)
    ensures s.pos <= |x.tokens| && DirectiveAt(x, s) == DirectiveText(Some(args), s.(pos := end))
    ensures Meaning(Current(x, s.pos).val, args) == Directive(action, id, direction, false)
  {
    hide TrimQuotes, DirectiveAt, Meaning, SideText, SideNamed, Contains;
    var name := Current(x, s.pos).val;
    if action == Entry {
      if EntryWritten(x, s.pos, id, direction) && end == s.pos + 6 {
        EntryRoundTrip(x, s, id, direction);
        args := [id, SideText(direction)];
      } else {
        OneRead(x, s, {"strategy.entry"}, id);
        LongMeant(id);
        args := [id];
      }
    } else {
      args := CloseArguments(x, s, id, end);
      CloseMeans(name, args, id);
    }
  }

  lemma CloseArguments(x: Context, s: PState, id: string, end: nat) returns (args: seq<string>)
    requires (OneWritten(x, s.pos, CLOSING, id) && end == s.pos + 4) || (TwoWritten(x, s.pos, CLOSING, id) && end == s.pos + 6)
          || (SettingWritten(x, s.pos, CLOSING, id) && end == s.pos + 8)
    ensures s.pos <= |x.tokens| && DirectiveAt(x, s) == DirectiveText(Some(args), s.(pos := end))
    ensures args == [id] || (|args| == 2 && if Contains(args[1], "=") then id == args[0] else id == args[1])
  {
    hide TrimQuotes, DirectiveAt, Contains;
    if OneWritten(x, s.pos, CLOSING, id) && end == s.pos + 4 {
      OneRead(x, s, CLOSING, id);
      args := [id];
    } else if TwoWritten(x, s.pos, CLOSING, id) && end == s.pos + 6 {
      TwoRead(x, s, CLOSING, id);
      args := [Current(x, s.pos + 2).val, id];
    } else {
      SettingRead(x, s, CLOSING, id);
      args := [id, Current(x, s.pos + 4).val + "=" + Current(x, s.pos + 6).val];
    }
  }

  /** On a line of its own a directive adds one rule that always holds. */
  lemma DirectiveStatement(tokens: seq<Token>, parse: string -> Option<real>, a: Mark, action: Action, id: string,
                           direction: Direction, end: nat, b: Mark)
    requires a.pos <= |tokens| && NextStatement(tokens, parse, a, b)
    requires var x := Context(tokens, a.snap.constants, parse);
      DirectiveWritten(x, NewlinesEnd(x, a.pos), action, id, direction, end)
    ensures b.pos == end && b.snap.errors == a.snap.errors && b.snap.autoVar == a.snap.autoVar
    ensures b.snap.constants == a.snap.constants && b.snap.config.indicators == a.snap.config.indicators
    ensures b.snap.config.rules == a.snap.config.rules + [Rule(ALWAYS_TRUE, action, id, direction)]
    ensures b.snap.config.conditions == a.snap.config.conditions[ALWAYS_TRUE := Reference("true")]
  {
    hide NewlinesEnd, DirectiveWritten, DirectiveDone, FormOf;
    var x := Context(tokens, a.snap.constants, parse);
    var p := NewlinesEnd(x, a.pos);
    DirectiveForm(x, p, action, id, direction, end);
    DirectiveRoundTrip(x, a.snap, p, "", action, id, direction, end, b.snap, b.pos);
  }

  lemma DirectiveNamed(x: Context, at: nat, action: Action, id: string, direction: Direction, end: nat)
    requires DirectiveWritten(x, at, action, id, direction, end)
    ensures at < |x.tokens| && Current(x, at).typ == TokIdentifier && Current(x, at + 1).typ == TokLParen
    ensures Current(x, at).val in {"strategy.entry", "strategy.close", "strategy.exit"}
  {
    hide TrimQuotes, SideText, SideNamed;
  }

  lemma StrategyPrefix(name: string)
    requires name in {"strategy.entry", "strategy.close", "strategy.exit"}
    ensures HasPrefix(ToLower(name), "strategy.")
  {
    Lowercase(name);
    hide ToLower;
    assert name[8] == '.' && name[..9] == "strategy.";
  }

  lemma DirectiveForm(x: Context, at: nat, action: Action, id: string, direction: Direction, end: nat)
    requires DirectiveWritten(x, at, action, id, direction, end)
    ensures at < |x.tokens| && FormOf(x, at) == DirectiveLine(at)
    ensures Current(x, at).typ == TokIdentifier && HasPrefix(ToLower(Current(x, at).val), "strategy.")
  {
    hide DirectiveWritten, ToLower, IsSkippable, IsVar, IsTypeName, HasPrefix;
    DirectiveNamed(x, at, action, id, direction, end);
    StrategyPrefix(Current(x, at).val);
    DirectiveNameFree(Current(x, at).val);
  }

  lemma DirectiveNameFree(name: string)
    requires name in {"strategy.entry", "strategy.close", "strategy.exit"}
    ensures !IsSkippable(name) && !IsVar(name) && !IsTypeName(name) && ToLower(name) != "else"
  {
    Lowercase(name);
    assert name[..6] == "strate" && name[..4] == "stra" && name[..5] == "strat";
    hide ToLower;
    assert "table."[0] == 't' && "color."[0] == 'c' && "str."[3] == '.' && "math."[0] == 'm';
    LongWords(name);
  }

  lemma LongWords(name: string)
    requires 13 <= |name| <= 14 && name[0] == 's'
    ensures name !in RESERVED
  {
    assert |"alertcondition"| == 14 && "alertcondition"[0] == 'a';
  }

  // Directives under an if ------------------------------------------------------------------------------------------------

  /** if condition, and on a line below it a directive. */
  ghost predicate IfWritten(x: Context, at: nat, e: Expression, action: Action, id: string, direction: Direction, end: nat)
    requires Grammatical(e)
  {
    var ts := Print(e, 0, true);
    && at < |x.tokens| && x.tokens[at].typ == TokIf && Ahead(x, at + 1, ts) && Ends(Current(x, at + 1 + |ts|), 0)
    && DirectiveWritten(x, NewlinesEnd(x, at + 1 + |ts|), action, id, direction, end)
  }

  /** A directive under an if adds its rule under the condition, which is recorded under an automatic name unless it is a
      name itself. */
  lemma IfRoundTrip(tokens: seq<Token>, parse: string -> Option<real>, a: Mark, e: Expression, action: Action, id: string,
                    direction: Direction, end: nat, b: Mark)
    requires Grammatical(e) && (e.op == Ref ==> e.val != "")
    requires a.pos <= |tokens| && NextStatement(tokens, parse, a, b)
    requires var x := Context(tokens, a.snap.constants, parse);
      IfWritten(x, NewlinesEnd(x, a.pos), e, action, id, direction, end)
    ensures b.pos == end && b.snap.errors == a.snap.errors && b.snap.constants == a.snap.constants
    ensures b.snap.config.indicators == a.snap.config.indicators
    ensures var name := if e.op == Ref then e.val else AutoName(a.snap.autoVar);
      && b.snap.config.rules == a.snap.config.rules + [Rule(name, action, id, direction)]
      && b.snap.config.conditions == (if e.op == Ref then a.snap.config.conditions else a.snap.config.conditions[name := e])
      && b.snap.autoVar == (if e.op == Ref then a.snap.autoVar else a.snap.autoVar + 1)
  {
    hide NewlinesEnd, IfWritten, IfDone, FormOf, Grammatical, AutoName;
    var x := Context(tokens, a.snap.constants, parse);
    var p := NewlinesEnd(x, a.pos);
    IfStarts(x, p, e, action, id, direction, end);
    IfForm(x, p);
    IfRead(x, a.snap, p, e, action, id, direction, end, b.snap, b.pos);
  }

  lemma IfStarts(x: Context, at: nat, e: Expression, action: Action, id: string, direction: Direction, end: nat)
    requires Grammatical(e) && IfWritten(x, at, e, action, id, direction, end)
    ensures at < |x.tokens| && x.tokens[at].typ == TokIf
  {
  }

  lemma IfRead(x: Context, a: Snapshot, at: nat, e: Expression, action: Action, id: string, direction: Direction, end: nat,
               b: Snapshot, stop: nat)
    requires Grammatical(e) && (e.op == Ref ==> e.val != "") && IfWritten(x, at, e, action, id, direction, end)
    requires IfDone(x, a, at + 1, b, stop)
    ensures stop == end && b.errors == a.errors && b.constants == a.constants && b.config.indicators == a.config.indicators
    ensures var name := if e.op == Ref then e.val else AutoName(a.autoVar);
      && b.config.rules == a.config.rules + [Rule(name, action, id, direction)]
      && b.config.conditions == (if e.op == Ref then a.config.conditions else a.config.conditions[name := e])
      && b.autoVar == (if e.op == Ref then a.autoVar else a.autoVar + 1)
  {
    hide NewlinesEnd, DirectiveWritten, DirectiveDone, Print, Ahead, Ends, ParseExpression, Grammatical, AutoName, HasPrefix, ToLower;
    var s := StateAt(a, at + 1);
    ParserInvertsPrinter(x, s, e);
    var r := ParseExpression(x, s, 0);
    var body := NewlinesEnd(x, r.state.pos);
    DirectiveForm(x, body, action, id, direction, end);
    AutoNamed(a.autoVar);
    DirectiveRoundTrip(x, Named(a, r.state, e), body, ConditionName(r.state, e), action, id, direction, end, b, stop);
  }

  lemma AutoNamed(n: nat)
    ensures AutoName(n) != ""
  {
  }

  lemma IfForm(x: Context, at: nat)
    requires at < |x.tokens| && x.tokens[at].typ == TokIf
    ensures FormOf(x, at) == IfLine(at + 1)
  {
  }

  // What is passed over -----------------------------------------------------------------------------------------------------

  /** Calls that only draw, alert or declare. */
  const DRAWING: set<string> := {
    "plot", "plotshape", "plotchar", "plotarrow", "plotbar", "plotcandle", "bgcolor", "alert", "alertcondition", "indicator",
    "strategy"}

  /** A name from one of the libraries that only draw or format. */
  predicate Library(name: string) {
    exists w :: w in {"table", "color", "str", "math"} && HasPrefix(name, w + ".")
  }

  /** A token that cannot start a statement of interest: a drawing call, a library name, or the tail of a statement that was
      broken over a line. */
  predicate PassedOver(t: Token) {
    || (t.typ == TokIdentifier && (ToLower(t.val) in DRAWING || ToLower(t.val) == "else" || Library(ToLower(t.val))))
    || t.typ in {TokAnd, TokOr, TokCompare, TokColon, TokError}
  }

  /** Such a statement leaves everything as it was, and the parser goes on behind it. */
  lemma PassedOverStatement(tokens: seq<Token>, parse: string -> Option<real>, a: Mark, b: Mark)
    requires a.pos <= |tokens| && NextStatement(tokens, parse, a, b)
    requires var x := Context(tokens, a.snap.constants, parse); PassedOver(Current(x, NewlinesEnd(x, a.pos)))
    ensures var x := Context(tokens, a.snap.constants, parse);
      b == Mark(StatementEnd(x, NewlinesEnd(x, a.pos), 0, 0), a.snap)
  {
    hide NewlinesEnd, StatementEnd, FormOf, PassedOver;
    var x := Context(tokens, a.snap.constants, parse);
    PassedOverForm(x, NewlinesEnd(x, a.pos));
  }

  lemma LibraryNames(val: string)
    requires Library(ToLower(val))
    ensures IsSkippable(val) && !IsVar(val) && !IsTypeName(val)
  {
    var lower := ToLower(val);
    hide ToLower;
    var w :| w in {"table", "color", "str", "math"} && HasPrefix(lower, w + ".");
    assert lower[|w|] == (w + ".")[|w|] == '.';
    assert "table" + "." == "table." && "color" + "." == "color." && "str" + "." == "str." && "math" + "." == "math.";
    if lower in {"var", "int", "float", "string", "bool", "table", "color"} {
      NoPoints(lower);
    }
  }

  lemma NoPoints(name: string)
    requires name in {"var", "int", "float", "string", "bool", "table", "color"}
    ensures '.' !in name
  {
  }

  lemma PassedOverForm(x: Context, at: nat)
    requires at <= |x.tokens| && PassedOver(Current(x, at))
    ensures FormOf(x, at) == Skipped(at)
  {
    if Library(ToLower(Current(x, at).val)) {
      LibraryNames(Current(x, at).val);
    }
    hide ToLower, Library;
  }

  /** How many tokens of a type there are from pos up to k. */
  function HowMany(x: Context, pos: nat, k: nat, typ: TokenType): nat
    requires pos <= k <= |x.tokens|
  {
    if k == pos then 0 else HowMany(x, pos, k - 1, typ) + if x.tokens[k - 1].typ == typ then 1 else 0
  }

  /** A statement is nested as deep as it has opened more than it has closed, parentheses and brackets apart. */
  lemma {:induction false} DepthCounts(x: Context, pos: nat, k: nat)
    requires pos <= k <= |x.tokens|
    ensures Depth(x, pos, k, Parens) == HowMany(x, pos, k, TokLParen) - HowMany(x, pos, k, TokRParen)
    ensures Depth(x, pos, k, Brackets) == HowMany(x, pos, k, TokLBracket) - HowMany(x, pos, k, TokRBracket)
    decreases k
  {
    if k > pos {
      DepthCounts(x, pos, k - 1);
    }
  }

  /** Quotes of either kind around a text are trimmed, however many. */
  lemma {:induction false} QuotesTrimmed(before: string, core: string, after: string)
    requires forall i :: 0 <= i < |before| ==> before[i] in {'"', '\''}
    requires forall i :: 0 <= i < |after| ==> after[i] in {'"', '\''}
    requires core != "" && core[0] !in {'"', '\''} && core[|core| - 1] !in {'"', '\''}
    ensures TrimQuotes(before + core + after) == core
    decreases |before| + |after|
  {
    var s := before + core + after;
    if before != "" {
      QuotesTrimmed(before[1..], core, after);
      assert s[0] == before[0] && s[1..] == before[1..] + core + after;
    } else if after != "" {
      QuotesTrimmed("", core, after[..|after| - 1]);
      assert s[0] == core[0] && s[|s| - 1] == after[|after| - 1] && s[..|s| - 1] == "" + core + after[..|after| - 1];
    } else {
      assert s == core;
    }
  }
}
