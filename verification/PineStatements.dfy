/** Pine statements (internal/pine/parser.go:348-456, 550-649, 877-925): what is skipped, how a directive reads, what
    a configuration built by the parser looks like and what it is warned about. */
module PineStatements {
  import opened Common
  import opened PineIR
  import opened PineLexer
  import opened PineGrammar
  import opened PineWellFormed

  // Skipping ------------------------------------------------------------------------------------------------------

  predicate IsSkippable(name: string) {
    var lower := ToLower(name);
    || lower in {"plot", "plotshape", "plotchar", "plotarrow", "plotbar", "plotcandle", "bgcolor", "alert",
                 "alertcondition", "indicator", "strategy"}
    || HasPrefix(lower, "table.") || HasPrefix(lower, "color.") || HasPrefix(lower, "str.") || HasPrefix(lower, "math.")
  }

  predicate IsTypeName(name: string) {
    ToLower(name) in {"int", "float", "string", "bool", "table", "color"}
  }

  /** The tail of a statement that broke over a line. */
  predicate IsContinuation(t: Token) {
    || t.typ in {TokAnd, TokOr, TokCompare, TokColon, TokError}
    || (t.typ == TokIdentifier && ToLower(t.val) == "else")
  }

  function NewlinesEnd(x: Context, pos: nat): (end: nat)
    requires pos <= |x.tokens|
    ensures pos <= end <= |x.tokens| && Current(x, end).typ != TokNewline
    decreases |x.tokens| - pos
  {
    if Current(x, pos).typ == TokNewline then NewlinesEnd(x, pos + 1) else pos
  }

  function Parens(t: Token): int {
    if t.typ == TokLParen then 1 else if t.typ == TokRParen then -1 else 0
  }

  function Brackets(t: Token): int {
    if t.typ == TokLBracket then 1 else if t.typ == TokRBracket then -1 else 0
  }

  /** Just past the first newline outside parentheses and brackets, or at the end of the file. */
  function StatementEnd(x: Context, pos: nat, parens: int, brackets: int): (end: nat)
    requires pos <= |x.tokens|
    ensures pos <= end <= |x.tokens| && (Current(x, pos).typ != TokEOF ==> pos < end)
    decreases |x.tokens| - pos
  {
    var t := Current(x, pos);
    if t.typ == TokEOF then pos
    else if t.typ == TokNewline && parens <= 0 && brackets <= 0 then pos + 1
    else StatementEnd(x, pos + 1, parens + Parens(t), brackets + Brackets(t))
  }

  /** One token of the skip, counted before it is looked at; newlines do not count. */
  lemma EndStep(x: Context, pos: nat, parens: int, brackets: int)
    requires pos <= |x.tokens|
    ensures var t := Current(x, pos);
      var (p, b) := (parens + Parens(t), brackets + Brackets(t));
      if t.typ == TokEOF then StatementEnd(x, pos, parens, brackets) == pos
      else pos < |x.tokens| && StatementEnd(x, pos, parens, brackets) ==
           if t.typ == TokNewline && p <= 0 && b <= 0 then pos + 1 else StatementEnd(x, pos + 1, p, b)
  {
  }

  /** How deep token k is nested, counting from pos. */
  function Depth(x: Context, pos: nat, k: nat, weigh: Token -> int): int
    requires pos <= k <= |x.tokens|
  {
    if k == pos then 0 else Depth(x, pos, k - 1, weigh) + weigh(x.tokens[k - 1])
  }

  /** A newline at which the statement that starts at pos can end. */
  predicate Breaks(x: Context, pos: nat, parens: int, brackets: int, k: nat)
    requires pos <= k < |x.tokens|
  {
    x.tokens[k].typ == TokNewline && parens + Depth(x, pos, k, Parens) <= 0 && brackets + Depth(x, pos, k, Brackets) <= 0
  }

  /** A statement ends at the first newline it can end at, or else at the end of the file: newlines inside
      parentheses and brackets are passed over, and no other token stops the skip. */
  lemma {:induction false} StatementEndFirst(x: Context, pos: nat, parens: int, brackets: int)
    requires pos <= |x.tokens|
    ensures var end := StatementEnd(x, pos, parens, brackets);
      && (forall k :: pos <= k < end - 1 ==> !Breaks(x, pos, parens, brackets, k))
      && (Current(x, end).typ == TokEOF || (pos < end && Breaks(x, pos, parens, brackets, end - 1)))
      && (forall k :: pos <= k < end ==> x.tokens[k].typ != TokEOF)
    decreases |x.tokens| - pos
  {
    var t := Current(x, pos);
    if t.typ != TokEOF && !(t.typ == TokNewline && parens <= 0 && brackets <= 0) {
      var end := StatementEnd(x, pos, parens, brackets);
      StatementEndFirst(x, pos + 1, parens + Parens(t), brackets + Brackets(t));
      forall k | pos + 1 <= k < end
        ensures Breaks(x, pos, parens, brackets, k) <==> Breaks(x, pos + 1, parens + Parens(t), brackets + Brackets(t), k)
      {
        DepthFrom(x, pos, k, Parens);
        DepthFrom(x, pos, k, Brackets);
      }
    }
  }

  lemma {:induction false} DepthFrom(x: Context, pos: nat, k: nat, weigh: Token -> int)
    requires pos < k <= |x.tokens|
    ensures Depth(x, pos, k, weigh) == weigh(x.tokens[pos]) + Depth(x, pos + 1, k, weigh)
    decreases k
  {
    if k > pos + 1 {
      DepthFrom(x, pos, k - 1, weigh);
    }
  }

  // Directives ------------------------------------------------------------------------------------------------------

  predicate Contains(s: string, part: string) {
    HasPrefix(s, part) || (s != "" && Contains(s[1..], part))
  }

  predicate IsQuote(c: char) {
    c == '"' || c == '\''
  }

  function TrimQuotes(s: string): string {
    if s == "" then s
    else if IsQuote(s[0]) then TrimQuotes(s[1..])
    else if IsQuote(s[|s| - 1]) then TrimQuotes(s[..|s| - 1])
    else s
  }

  datatype Arguments = Arguments(list: seq<string>, state: PState)

  /** One argument or one complaint, without the comma. */
  function OneArgument(x: Context, s: PState, list: seq<string>): (r: Arguments)
    requires s.pos <= |x.tokens| && Current(x, s.pos).typ != TokEOF
    ensures s.pos < r.state.pos <= |x.tokens| && r.state == s.(pos := r.state.pos, errors := r.state.errors)
    ensures s.errors <= r.state.errors
  {
    var t := Current(x, s.pos);
    var after := Advance(x, s);
    if t.typ == TokIdentifier || t.typ == TokNumber then
      if Current(x, after.pos).typ == TokAssign then
        var value := Advance(x, after);
        Arguments(list + [t.val + "=" + Current(x, value.pos).val], Advance(x, value))
      else Arguments(list + [TrimQuotes(t.val)], after)
    else Arguments(list, Advance(x, Expected(x, s, "unexpected directive argument")))
  }

  function DirectiveArguments(x: Context, s: PState, list: seq<string>): (r: Arguments)
    requires s.pos <= |x.tokens|
    ensures s.pos <= r.state.pos <= |x.tokens| && r.state == s.(pos := r.state.pos, errors := r.state.errors)
    ensures s.errors <= r.state.errors
    decreases |x.tokens| - s.pos
  {
    if Current(x, s.pos).typ == TokRParen || Current(x, s.pos).typ == TokEOF then Arguments(list, s)
    else
      var one := OneArgument(x, s, list);
      var next := Current(x, one.state.pos);
      if next.typ == TokComma then DirectiveArguments(x, Advance(x, one.state), one.list)
      else if next.typ != TokRParen then
        Arguments(one.list, Expected(x, one.state, "expected ',' or ')' in directive arguments"))
      else DirectiveArguments(x, one.state, one.list)
  }

  datatype DirectiveText = DirectiveText(args: Option<seq<string>>, state: PState)

  /** A directive's arguments between parentheses; none when a parenthesis is missing. */
  function DirectiveAt(x: Context, s: PState): (r: DirectiveText)
    requires s.pos <= |x.tokens|
    ensures s.pos <= r.state.pos <= |x.tokens| && r.state == s.(pos := r.state.pos, errors := r.state.errors)
    ensures s.errors <= r.state.errors && (Current(x, s.pos).typ == TokIdentifier ==> s.pos < r.state.pos)
  {
    if Current(x, s.pos).typ != TokIdentifier then
      DirectiveText(None, Expected(x, s, "expected directive starting with strategy.entry/close/exit"))
    else
      var open := Advance(x, s);
      if Current(x, open.pos).typ != TokLParen then
        DirectiveText(None, Expected(x, open, "expected '(' after directive name"))
      else
        var args := DirectiveArguments(x, Advance(x, open), []);
        if Current(x, args.state.pos).typ != TokRParen then
          DirectiveText(None, Expected(x, args.state, "expected ')' after directive arguments"))
        else DirectiveText(Some(args.list), Advance(x, args.state))
  }

  datatype Directive = Ignored | Directive(action: Action, id: string, direction: Direction, misdirected: bool)

  /** What a directive of this name asks for. */
  function Meaning(name: string, args: seq<string>): Directive {
    var lower := ToLower(name);
    if lower == "strategy.entry" then
      var id := if |args| >= 1 then args[0] else "";
      if |args| < 2 then Directive(Entry, id, Long, false)
      else if Contains(ToLower(args[1]), "long") then Directive(Entry, id, Long, false)
      else if Contains(ToLower(args[1]), "short") then Directive(Entry, id, Short, false)
      else Directive(Entry, id, Undirected, true)
    else if lower == "strategy.close" || lower == "strategy.exit" then
      if args == [] then Directive(Close, "", Undirected, false)
      else
        var id := if |args| >= 2 && !Contains(args[1], "=") then args[1] else args[0];
        var direction :=
          if Contains(ToLower(id), "short") then Short else if Contains(ToLower(id), "long") then Long else Undirected;
        Directive(Close, id, direction, false)
    else Ignored
  }

  lemma {:induction false} ContainsAfter(before: string, part: string)
    ensures Contains(before + part, part)
  {
    if before == "" {
      assert before + part == part;
    } else {
      assert (before + part)[1..] == before[1..] + part;
      ContainsAfter(before[1..], part);
    }
  }

  lemma {:induction false} MissingLetter(s: string, part: string)
    requires part != "" && forall i :: 0 <= i < |s| ==> s[i] != part[0]
    ensures !Contains(s, part)
  {
    if s != "" {
      MissingLetter(s[1..], part);
      if |part| <= |s| {
        assert s[..|part|][0] == s[0];
      }
    }
  }

  function SideText(direction: Direction): string {
    if direction == Short then "strategy.short" else "strategy.long"
  }

  lemma SideRead(direction: Direction, id: string)
    requires direction == Long || direction == Short
    ensures Meaning("strategy.entry", [id, SideText(direction)]) == Directive(Entry, id, direction, false)
  {
    var text := SideText(direction);
    assert ToLower(text) == text && ToLower("strategy.entry") == "strategy.entry";
    if direction == Long {
      ContainsAfter("strategy.", "long");
      assert text == "strategy." + "long";
    } else {
      ContainsAfter("strategy.", "short");
      assert text == "strategy." + "short";
      MissingLetter(text, "long");
    }
  }

  predicate Reads(x: Context, pos: nat, typ: TokenType, val: string) {
    Current(x, pos).typ == typ && Current(x, pos).val == val
  }

  /** An entry written out, strategy.entry("id", strategy.long), reads as exactly that entry, and nothing is left over. */
  lemma EntryRoundTrip(x: Context, s: PState, id: string, direction: Direction)
    requires (direction == Long || direction == Short) && TrimQuotes(id) == id
    requires Reads(x, s.pos, TokIdentifier, "strategy.entry") && Current(x, s.pos + 1).typ == TokLParen
    requires Reads(x, s.pos + 2, TokIdentifier, id) && Current(x, s.pos + 3).typ == TokComma
    requires Reads(x, s.pos + 4, TokIdentifier, SideText(direction)) && Current(x, s.pos + 5).typ == TokRParen
    ensures s.pos <= |x.tokens| && DirectiveAt(x, s) == DirectiveText(Some([id, SideText(direction)]), s.(pos := s.pos + 6))
    ensures Meaning("strategy.entry", [id, SideText(direction)]) == Directive(Entry, id, direction, false)
  {
    hide Meaning, TrimQuotes, SideText, DirectiveArguments, OneArgument;
    SideRead(direction, id);
    var text := SideText(direction);
    SideBare(direction);
    LastArgumentRead(x, s.(pos := s.pos + 4), [id], text);
    ArgumentRead(x, s.(pos := s.pos + 2), [], id);
    assert [] + [id] == [id] && [id] + [text] == [id, text];
  }

  lemma SideBare(direction: Direction)
    ensures TrimQuotes(SideText(direction)) == SideText(direction)
  {
  }

  /** One argument and its comma. */
  lemma ArgumentRead(x: Context, s: PState, list: seq<string>, val: string)
    requires s.pos + 2 <= |x.tokens| && TrimQuotes(val) == val
    requires Reads(x, s.pos, TokIdentifier, val) && Current(x, s.pos + 1).typ == TokComma
    ensures DirectiveArguments(x, s, list) == DirectiveArguments(x, s.(pos := s.pos + 2), list + [val])
  {
    hide TrimQuotes;
    assert OneArgument(x, s, list) == Arguments(list + [val], s.(pos := s.pos + 1));
  }

  lemma LastArgumentRead(x: Context, s: PState, list: seq<string>, val: string)
    requires s.pos + 1 <= |x.tokens| && TrimQuotes(val) == val
    requires Reads(x, s.pos, TokIdentifier, val) && Current(x, s.pos + 1).typ == TokRParen
    ensures DirectiveArguments(x, s, list) == Arguments(list + [val], s.(pos := s.pos + 1))
  {
    hide TrimQuotes;
    assert OneArgument(x, s, list) == Arguments(list + [val], s.(pos := s.pos + 1));
  }

  // Configurations --------------------------------------------------------------------------------------------------

  /** A configuration the evaluator knows every part of: indicators of known kinds, conditions of documented
      operators with the right number of operands, rules that enter or close. */
  predicate Compiled(c: Config) {
    && KnownKinds(c.indicators)
    && (forall n :: n in c.conditions ==> Grammatical(c.conditions[n]))
    && (forall i :: 0 <= i < |c.rules| ==> c.rules[i].action != NoAction)
  }

  datatype Snapshot = Snapshot(config: Config, errors: seq<ParseError>, autoVar: nat, constants: map<string, real>)

  /** Names and errors are never lost, rules are only appended, and at most one at a time. */
  predicate Grows(a: Snapshot, b: Snapshot) {
    && a.errors <= b.errors && a.autoVar <= b.autoVar && a.constants.Keys <= b.constants.Keys
    && a.config.indicators.Keys <= b.config.indicators.Keys && a.config.conditions.Keys <= b.config.conditions.Keys
    && a.config.rules <= b.config.rules && |b.config.rules| <= |a.config.rules| + 1
  }

  /** The configuration once a directive's meaning d is known, under a condition. */
  function WithDirective(c: Config, condition: string, d: Directive): Config {
    if d == Ignored then c
    else if condition == "" then
      c.(rules := c.rules + [Rule(ALWAYS_TRUE, d.action, d.id, d.direction)],
         conditions := c.conditions[ALWAYS_TRUE := Reference("true")])
    else c.(rules := c.rules + [Rule(condition, d.action, d.id, d.direction)])
  }

  /** The configuration once a directive has been read: nothing changes when it is cut short. */
  function AfterDirective(c: Config, condition: string, name: string, text: DirectiveText): Config {
    if text.args.None? then c else WithDirective(c, condition, Meaning(name, text.args.value))
  }

  /** What is wrong with a directive that was read: an entry has to be long or short. */
  function Misdirected(name: string, text: DirectiveText, line: int): seq<ParseError> {
    if text.args.None? then []
    else
      var d := Meaning(name, text.args.value);
      if d != Ignored && d.misdirected
      then [ParseError(line, "strategy.entry direction must be strategy.long or strategy.short")] else []
  }

  /** Only entries are complained about, and only those whose second argument names neither side. */
  lemma MisdirectedIff(name: string, text: DirectiveText, line: int)
    ensures Misdirected(name, text, line) != [] <==>
      && text.args.Some? && |text.args.value| >= 2 && ToLower(name) == "strategy.entry"
      && !Contains(ToLower(text.args.value[1]), "long") && !Contains(ToLower(text.args.value[1]), "short")
  {
    hide Contains;
    assert "strategy.entry"[9] == 'e' && "strategy.exit"[10] == 'x' && "strategy.close"[9] == 'c';
  }

  lemma DirectiveCompiled(c: Config, condition: string, name: string, args: seq<string>)
    ensures var e := WithDirective(c, condition, Meaning(name, args));
      && (Compiled(c) ==> Compiled(e))
      && c.indicators == e.indicators && c.conditions.Keys <= e.conditions.Keys
      && c.rules <= e.rules && |e.rules| <= |c.rules| + 1
  {
    hide Contains, ToLower, KnownKinds;
    var d := Meaning(name, args);
    var e := WithDirective(c, condition, d);
    assert d != Ignored ==> d.action != NoAction;
    if Compiled(c) {
      assert Grammatical(Reference("true"));
      forall n | n in e.conditions
        ensures Grammatical(e.conditions[n])
      {
      }
    }
  }

  // Assignments -----------------------------------------------------------------------------------------------------

  /** The constants once name = e has been read. */
  function ConstantsWith(constants: map<string, real>, name: string, e: Expression, parse: string -> Option<real>): map<string, real>
  {
    if e.op == Ref && parse(e.val).Some? then constants[name := parse(e.val).value] else constants
  }

  /** The configuration once name = e has been read, with e already parsed. */
  function ConfigWith(x: Context, c: Config, name: string, e: Expression): Config {
    if e.op == Indicator then c.(indicators := c.indicators[name := DefinitionOf(x, e)])
    else c.(conditions := c.conditions[name := e])
  }

  lemma AssignmentCompiled(x: Context, c: Config, name: string, e: Expression)
    requires Compiled(c) && Grammatical(e)
    ensures Compiled(ConfigWith(x, c, name, e))
  {
  }

  /** An indicator call whose source is a name and whose parameters are all known numbers. */
  predicate Resolvable(x: Context, e: Expression) {
    && (e.args != [] && KindOf(e.val) != ATR ==> e.args[0].op == Ref)
    && forall i :: 0 <= i < |e.args| && (KindOf(e.val) == ATR <==> i == 0) ==> ResolveConstant(x, e.args[i]).Some?
  }

  /** One error for each part of an indicator call that cannot be resolved, in order. */
  function Complaints(x: Context, e: Expression, line: int): seq<ParseError> {
    if e.args == [] then []
    else if KindOf(e.val) == ATR then
      if ResolveConstant(x, e.args[0]).None?
      then [ParseError(line, "atr period must be a literal number or constant variable")] else []
    else
      (if e.args[0].op != Ref then [ParseError(line, "indicator source must be a variable or input name")] else [])
        + ParameterComplaints(x, e.args[1..], line)
  }

  function ParameterComplaints(x: Context, args: seq<Expression>, line: int): seq<ParseError> {
    if args == [] then []
    else
      var last := args[|args| - 1];
      ParameterComplaints(x, args[..|args| - 1], line)
        + if ResolveConstant(x, last).None?
          then [ParseError(line, "indicator parameters must be literal numbers or constant variables")] else []
  }

  lemma {:induction false} ParametersResolve(x: Context, args: seq<Expression>, line: int)
    ensures ParameterComplaints(x, args, line) == [] <==>
      forall i :: 0 <= i < |args| ==> ResolveConstant(x, args[i]).Some?
    decreases |args|
  {
    if args != [] {
      ParametersResolve(x, args[..|args| - 1], line);
    }
  }

  /** An indicator call draws no error if and only if all of it can be resolved. */
  lemma ComplaintsIff(x: Context, e: Expression, line: int)
    ensures Complaints(x, e, line) == [] <==> Resolvable(x, e)
  {
    if e.args != [] {
      ParametersResolve(x, e.args[1..], line);
      assert forall i :: 1 <= i < |e.args| ==> e.args[i] == e.args[1..][i - 1];
    }
    hide ResolveConstant, ParameterComplaints;
  }

  /** The rule of an if statement stands under the condition the statement was read with. */
  predicate StandsUnder(c: Config, rule: Rule, e: Expression, autoVar: nat) {
    if e.op == Ref then rule.condition == if e.val == "" then ALWAYS_TRUE else e.val
    else rule.condition == AutoName(autoVar) && rule.condition in c.conditions && c.conditions[rule.condition] == e
  }

  // Whole statements ------------------------------------------------------------------------------------------------

  /** What a statement turns out to be, and where the part that matters starts. */
  datatype Form =
    | Skipped(at: nat)
    | Assignment(at: nat, name: string)
    | DirectiveLine(at: nat)
    | IfLine(at: nat)
    | Unexpected(at: nat)

  predicate IsIdentifier(t: Token, test: string -> bool) {
    t.typ == TokIdentifier && test(t.val)
  }

  predicate IsVar(name: string) {
    ToLower(name) == "var"
  }

  function Past(x: Context, pos: nat, test: string -> bool): (p: nat)
    requires pos <= |x.tokens|
    ensures pos <= p <= |x.tokens|
  {
    if IsIdentifier(Current(x, pos), test) then pos + 1 else pos
  }

  function FormOf(x: Context, pos: nat): (f: Form)
    requires pos <= |x.tokens|
    ensures pos <= f.at <= |x.tokens|
  {
    if IsContinuation(Current(x, pos)) then Skipped(pos)
    else
      var p := Past(x, Past(x, pos, IsVar), IsTypeName);
      if IsIdentifier(Current(x, p), IsSkippable) then Skipped(p) else BareForm(x, p)
  }

  function BareForm(x: Context, pos: nat): (f: Form)
    requires pos <= |x.tokens|
    ensures pos <= f.at <= |x.tokens|
  {
    var t := Current(x, pos);
    if t.typ == TokIdentifier then
      if Current(x, pos + 1).typ != TokAssign then DirectiveLine(pos)
      else if IsIdentifier(Current(x, pos + 2), IsSkippable) then Skipped(pos + 2)
      else Assignment(pos + 2, t.val)
    else if t.typ == TokIf then IfLine(pos + 1)
    else Unexpected(pos)
  }

  function StateAt(a: Snapshot, pos: nat): PState {
    PState(pos, a.autoVar, a.config.indicators, a.errors)
  }

  predicate AssignmentDone(x: Context, a: Snapshot, at: nat, name: string, b: Snapshot, end: nat)
    requires at <= |x.tokens|
  {
    var r := ParseExpression(x, StateAt(a, at), 0);
    var c := a.config.(indicators := r.state.indicators);
    var line := Current(x, r.state.pos).line;
    && b.autoVar == r.state.autoVar
    && (match r.result
        case Ok(e) =>
          && end == r.state.pos && b.constants == ConstantsWith(a.constants, name, e, x.parse)
          && b.config == ConfigWith(x, c, name, e)
          && b.errors == r.state.errors + (if e.op == Indicator then Complaints(x, e, line) else [])
        case Err(_) =>
          && end == StatementEnd(x, r.state.pos, 0, 0) && b.constants == a.constants && b.config == c
          && b.errors == r.state.errors + [ParseError(line, "invalid assignment")])
  }

  predicate DirectiveDone(x: Context, a: Snapshot, at: nat, condition: string, b: Snapshot, end: nat)
    requires at <= |x.tokens|
  {
    var (d, t) := (DirectiveAt(x, StateAt(a, at)), Current(x, at));
    && end == d.state.pos
    && b == Snapshot(AfterDirective(a.config, condition, t.val, d), d.state.errors + Misdirected(t.val, d, t.line),
                     a.autoVar, a.constants)
  }

  /** The snapshot once a condition has been read and named: a bare name keeps its name. */
  function Named(a: Snapshot, s: PState, e: Expression): Snapshot {
    var c := a.config.(indicators := s.indicators);
    if e.op == Ref then Snapshot(c, s.errors, s.autoVar, a.constants)
    else Snapshot(c.(conditions := c.conditions[AutoName(s.autoVar) := e]), s.errors, s.autoVar + 1, a.constants)
  }

  function ConditionName(s: PState, e: Expression): string {
    if e.op == Ref then e.val else AutoName(s.autoVar)
  }

  predicate IfDone(x: Context, a: Snapshot, at: nat, b: Snapshot, end: nat)
    requires at <= |x.tokens|
  {
    var r := ParseExpression(x, StateAt(a, at), 0);
    match r.result
    case Err(_) =>
      && end == r.state.pos
      && b == Snapshot(a.config.(indicators := r.state.indicators),
                       r.state.errors + [ParseError(Current(x, r.state.pos).line, "invalid if condition")],
                       r.state.autoVar, a.constants)
    case Ok(e) =>
      BodyDone(x, Named(a, r.state, e), NewlinesEnd(x, r.state.pos), ConditionName(r.state, e), b, end)
  }

  /** A directive under the condition; any other statement is passed over. */
  predicate BodyDone(x: Context, a: Snapshot, at: nat, condition: string, b: Snapshot, end: nat)
    requires at <= |x.tokens|
  {
    var t := Current(x, at);
    if t.typ == TokIdentifier && HasPrefix(ToLower(t.val), "strategy.") then DirectiveDone(x, a, at, condition, b, end)
    else b == a && end == StatementEnd(x, at, 0, 0)
  }

  predicate FormDone(x: Context, a: Snapshot, form: Form, b: Snapshot, end: nat)
    requires form.at <= |x.tokens|
  {
    match form
    case Skipped(at) => b == a && end == StatementEnd(x, at, 0, 0)
    case Assignment(at, name) => AssignmentDone(x, a, at, name, b, end)
    case DirectiveLine(at) => DirectiveDone(x, a, at, "", b, end)
    case IfLine(at) => IfDone(x, a, at, b, end)
    case Unexpected(at) =>
      && b == a.(errors := a.errors + [ParseError(Current(x, at).line, "unexpected token")])
      && end == if at < |x.tokens| then at + 1 else at
  }

  lemma SkippedDone(x: Context, a: Snapshot, at: nat)
    requires at <= |x.tokens|
    ensures FormDone(x, a, Skipped(at), a, StatementEnd(x, at, 0, 0))
  {
  }

  /** The parser between two statements. */
  datatype Mark = Mark(pos: nat, snap: Snapshot)

  /** b is where one more statement, after any blank lines, takes the parser from a. */
  predicate NextStatement(tokens: seq<Token>, parse: string -> Option<real>, a: Mark, b: Mark) {
    a.pos <= |tokens| &&
    var x := Context(tokens, a.snap.constants, parse);
    var p := NewlinesEnd(x, a.pos);
    Current(x, p).typ != TokEOF && FormDone(x, a.snap, FormOf(x, p), b.snap, b.pos)
  }

  /** Where a statement leads is fixed by where it starts: errors, names, rules and constants included. */
  lemma NextStatementUnique(tokens: seq<Token>, parse: string -> Option<real>, a: Mark, b: Mark, c: Mark)
    requires NextStatement(tokens, parse, a, b) && NextStatement(tokens, parse, a, c)
    ensures b == c
  {
    hide ParseExpression, NewlinesEnd, StatementEnd, DirectiveAt, FormOf, Complaints, AfterDirective, Misdirected, Named,
      ConfigWith, ConstantsWith, HasPrefix, ToLower;
  }

  /** A rule that an if statement adds stands under the condition the statement was read with. */
  lemma IfStandsUnder(x: Context, a: Snapshot, at: nat, b: Snapshot, end: nat)
    requires at <= |x.tokens| && IfDone(x, a, at, b, end) && |b.config.rules| > |a.config.rules|
    ensures var r := ParseExpression(x, StateAt(a, at), 0);
      r.result.Ok? && StandsUnder(b.config, b.config.rules[|b.config.rules| - 1], r.result.value, r.state.autoVar)
  {
    hide ParseExpression, NewlinesEnd, BodyDone, StandsUnder, Named, ConditionName;
    var r := ParseExpression(x, StateAt(a, at), 0);
    if r.result.Ok? {
      NamedKeeps(a, r.state, r.result.value);
      BodyStandsUnder(x, a, r.state, r.result.value, NewlinesEnd(x, r.state.pos), b, end);
    }
  }

  lemma NamedKeeps(a: Snapshot, s: PState, e: Expression)
    ensures Named(a, s, e).config.rules == a.config.rules
  {
  }

  lemma BodyStandsUnder(x: Context, a: Snapshot, s: PState, e: Expression, at: nat, b: Snapshot, end: nat)
    requires at <= |x.tokens| && BodyDone(x, Named(a, s, e), at, ConditionName(s, e), b, end)
    requires |b.config.rules| > |a.config.rules|
    ensures StandsUnder(b.config, b.config.rules[|b.config.rules| - 1], e, s.autoVar)
  {
    hide StatementEnd, DirectiveAt, Meaning, HasPrefix, ToLower, Misdirected;
  }

  // Warnings --------------------------------------------------------------------------------------------------------

  datatype Warning = NoEntryRules | NoCloseRules | HardcodedConstant(condition: string, constant: string)

  predicate HasAction(rules: seq<Rule>, action: Action) {
    exists i :: 0 <= i < |rules| && rules[i].action == action
  }

  predicate HardcodesDirectly(parseFloat: string -> Option<real>, operands: seq<Expression>, v: string) {
    parseFloat(v).Some? && exists i :: 0 <= i < |operands| && operands[i] == Expression(Ref, operands[i].args, v)
  }

  /** Somewhere in e a comparison has v, a number, for an operand. */
  predicate Hardcodes(parseFloat: string -> Option<real>, e: Expression, v: string) {
    || (IsComparison(e.op) && HardcodesDirectly(parseFloat, e.args, v))
    || exists i :: 0 <= i < |e.args| && Hardcodes(parseFloat, e.args[i], v)
  }

  /** The warnings a configuration calls for. */
  predicate Deserved(parseFloat: string -> Option<real>, c: Config, w: Warning) {
    match w
    case NoEntryRules => !HasAction(c.rules, Entry)
    case NoCloseRules => !HasAction(c.rules, Close)
    case HardcodedConstant(condition, v) => condition in c.conditions && Hardcodes(parseFloat, c.conditions[condition], v)
  }
}
