/** The Pine parser object (internal/pine/parser.go:259-925): one cursor shared by the expression methods, which are
    proved to compute the functions of PineGrammar, and by the statement methods, which build the configuration. */
module PineParser {
  import opened Common
  import opened PineIR
  import opened PineLexer
  import opened PineGrammar
  import opened PineWellFormed
  import opened PineStatements

  class Parser {
    const tokens: seq<Token>
    const parseFloat: string -> Option<real>
    var pos: nat
    var config: Config
    var errors: seq<ParseError>
    var warnings: seq<Warning>
    var autoVar: nat
    var constants: map<string, real>

    predicate Valid()
      reads this
    {
      pos <= |tokens|
    }

    function Ctx(): Context
      reads this`constants
    {
      Context(tokens, constants, parseFloat)
    }

    function State(): PState
      reads this
    {
      PState(pos, autoVar, config.indicators, errors)
    }

    /** Everything a statement may change besides the cursor. */
    function Now(): Snapshot
      reads this
    {
      Snapshot(config, errors, autoVar, constants)
    }

    predicate Sound()
      reads this
    {
      pos <= |tokens| && Lexed(tokens) && Compiled(config)
    }

    constructor (alphabet: Alphabet, input: string, parseFloat: string -> Option<real>)
      ensures Valid() && Sound() && tokens == Tokens(alphabet, input, BEGIN) && this.parseFloat == parseFloat
      ensures State() == PState(0, 0, map[], []) && config == Config(map[], map[], []) && warnings == [] && constants == map[]
    {
      TokensLexed(alphabet, input, BEGIN);
      var list := Tokenize(alphabet, input);
      tokens, this.parseFloat := list, parseFloat;
      pos, autoVar := 0, 0;
      config := Config(map[], map[], []);
      errors, warnings, constants := [], [], map[];
    }

    // Cursor ----------------------------------------------------------------------------------------------------

    method Step()
      requires Valid()
      modifies this`pos
      ensures Valid() && State() == old(Advance(Ctx(), State()))
    {
      if pos < |tokens| {
        pos := pos + 1;
      }
    }

    method AddError(line: int, message: string)
      modifies this`errors
      ensures errors == old(errors) + [ParseError(line, message)]
    {
      errors := errors + [ParseError(line, message)];
    }

    method Expect(typ: TokenType, message: string) returns (ok: bool)
      requires Valid()
      modifies this`pos, this`errors
      ensures Valid() && ok == (old(Current(Ctx(), pos)).typ == typ)
      ensures State() == old(if Current(Ctx(), pos).typ == typ then Advance(Ctx(), State()) else Expected(Ctx(), State(), message))
    {
      if Current(Ctx(), pos).typ != typ {
        AddError(Current(Ctx(), pos).line, message);
        return false;
      }
      Step();
      return true;
    }

    // Expressions -------------------------------------------------------------------------------------------------

    method ReadExpression(minPrecedence: int) returns (r: Result<Expression, Failure>)
      requires Valid()
      modifies this`pos, this`autoVar, this`errors, this`config
      ensures Valid() && config == old(config).(indicators := config.indicators)
      ensures Parsed(r, State()) == old(ParseExpression(Ctx(), State(), minPrecedence))
      decreases |tokens| - pos, 1
    {
      hide Precedence, OpOf, Extends;
      var left := ReadPrimary();
      if left.Err? {
        return left;
      }
      var tree := left.value;
      while true
        invariant Valid() && old(pos) < pos && config == old(config).(indicators := config.indicators)
        invariant ParseLoop(Ctx(), State(), tree, minPrecedence) == old(ParseExpression(Ctx(), State(), minPrecedence))
        decreases |tokens| - pos
      {
        var tok := Current(Ctx(), pos);
        if tok.typ == TokQuestion {
          Step();
          var yes := ReadExpression(0);
          if yes.Err? {
            return yes;
          }
          if Current(Ctx(), pos).typ != TokColon {
            return Err(MissingColon);
          }
          Step();
          var no := ReadExpression(0);
          if no.Err? {
            return no;
          }
          tree := Expression(Ternary, [tree, yes.value, no.value], "");
          continue;
        }
        var precedence := Precedence(tok);
        if precedence < minPrecedence {
          break;
        }
        Step();
        var right := ReadExpression(precedence + 1);
        if right.Err? {
          return right;
        }
        tree := Binary(OpOf(tok), tree, right.value);
      }
      return Ok(tree);
    }

    method ReadPrimary() returns (r: Result<Expression, Failure>)
      requires Valid()
      modifies this`pos, this`autoVar, this`errors, this`config
      ensures Valid() && config == old(config).(indicators := config.indicators)
      ensures Parsed(r, State()) == old(ParsePrimary(Ctx(), State()))
      decreases |tokens| - pos, 0
    {
      var tok := Current(Ctx(), pos);
      if tok.typ == TokLParen {
        Step();
        r := ReadExpression(0);
        if r.Err? {
          return;
        }
        var closed := Expect(TokRParen, "expected ')'");
        if !closed {
          return Err(MissingParenthesis);
        }
        return;
      }
      if tok.typ == TokNot {
        Step();
        r := ReadExpression(Precedence(tok));
        if r.Err? {
          return;
        }
        return Ok(Expression(Not, [r.value], ""));
      }
      if tok.typ == TokNumber {
        Step();
        return Ok(Reference(tok.val));
      }
      if tok.typ == TokIdentifier {
        Step();
        if Current(Ctx(), pos).typ == TokLParen {
          Step();
          r := ReadCall(tok.val);
          return;
        }
        return Ok(Reference(tok.val));
      }
      return Err(UnexpectedToken(tok.val));
    }

    method ReadCall(name: string) returns (r: Result<Expression, Failure>)
      requires Valid()
      modifies this`pos, this`autoVar, this`errors, this`config
      ensures Valid() && config == old(config).(indicators := config.indicators)
      ensures Parsed(r, State()) == old(ParseCall(Ctx(), State(), name))
      decreases |tokens| - pos, 4
    {
      hide CallOf, CallResult;
      var call := CallOf(name);
      if call == InputCall {
        r := ReadExpression(0);
        if r.Err? {
          return;
        }
        SkipToClose();
        return;
      }
      var args := ReadArguments();
      if args.Err? {
        return Err(args.error);
      }
      var closed := Expect(TokRParen, "expected ')' after argument list");
      if !closed {
        return Err(MissingParenthesis);
      }
      r := BuildCall(call, args.value);
    }

    method ReadArguments() returns (r: Result<seq<Expression>, Failure>)
      requires Valid()
      modifies this`pos, this`autoVar, this`errors, this`config
      ensures Valid() && config == old(config).(indicators := config.indicators)
      ensures ParsedArgs(r, State()) == old(ParseArguments(Ctx(), State(), []))
      decreases |tokens| - pos, 3
    {
      hide ParseExpression;
      var args: seq<Expression> := [];
      while Current(Ctx(), pos).typ != TokRParen && Current(Ctx(), pos).typ != TokEOF
        invariant Valid() && old(pos) <= pos && config == old(config).(indicators := config.indicators)
        invariant ParseArguments(Ctx(), State(), args) == old(ParseArguments(Ctx(), State(), []))
        decreases |tokens| - pos
      {
        var arg := ReadExpression(0);
        if arg.Err? {
          return Err(arg.error);
        }
        args := args + [arg.value];
        if Current(Ctx(), pos).typ == TokComma {
          Step();
        } else if Current(Ctx(), pos).typ != TokRParen {
          return Err(BadArgumentList);
        }
      }
      return Ok(args);
    }

    method SkipToClose()
      requires Valid()
      modifies this`pos
      ensures Valid() && State() == old(SkipParentheses(Ctx(), State(), 1))
    {
      var depth := 1;
      while depth > 0 && Current(Ctx(), pos).typ != TokEOF
        invariant Valid() && depth >= 0
        invariant SkipParentheses(Ctx(), State(), depth) == old(SkipParentheses(Ctx(), State(), 1))
        decreases |tokens| - pos
      {
        var tok := Current(Ctx(), pos);
        if tok.typ == TokLParen {
          depth := depth + 1;
        } else if tok.typ == TokRParen {
          depth := depth - 1;
        }
        Step();
      }
    }

    method BuildCall(call: Call, args: seq<Expression>) returns (r: Result<Expression, Failure>)
      modifies this`autoVar, this`config
      ensures config == old(config).(indicators := config.indicators)
      ensures Parsed(r, State()) == old(CallResult(Ctx(), State(), call, args))
    {
      match call
      case IndicatorCall(name) =>
        var flat := FlattenArguments(args);
        return Ok(Expression(Indicator, flat, name));
      case CrossCall(op) =>
        var flat := FlattenArguments(args);
        return Ok(Expression(op, flat, ""));
      case _ =>
        return Ok(Reference("0"));
    }

    method FlattenArguments(args: seq<Expression>) returns (flat: seq<Expression>)
      modifies this`autoVar, this`config
      ensures config == old(config).(indicators := config.indicators)
      ensures (flat, State()) == old(Flatten(Ctx(), State(), args))
    {
      hide FlattenOne;
      flat := [];
      ghost var whole := Flatten(Ctx(), State(), args);
      assert args[0..] == args && [] + whole.0 == whole.0;
      for i := 0 to |args|
        invariant config == old(config).(indicators := config.indicators)
        invariant var r := Flatten(Ctx(), State(), args[i..]); flat + r.0 == whole.0 && r.1 == whole.1
      {
        assert args[i..][0] == args[i] && args[i..][1..] == args[i + 1..];
        ghost var before := flat;
        ghost var r := Flatten(Ctx(), State(), args[i..]);
        var one := FlattenArgument(args[i]);
        flat := flat + [one];
        ghost var t := Flatten(Ctx(), State(), args[i + 1..]);
        assert r.0 == [one] + t.0 && r.1 == t.1;
        assert before + ([one] + t.0) == flat + t.0;
      }
      assert args[|args|..] == [] && flat + [] == flat;
    }

    method FlattenArgument(arg: Expression) returns (flat: Expression)
      modifies this`autoVar, this`config
      ensures config == old(config).(indicators := config.indicators)
      ensures (flat, State()) == old(FlattenOne(Ctx(), State(), arg))
    {
      if arg.op != Indicator {
        return arg;
      }
      var name := AutoName(autoVar);
      autoVar := autoVar + 1;
      var def := BuildDefinition(arg);
      config := config.(indicators := config.indicators[name := def]);
      return Reference(name);
    }

    /** The part saveAutoIndicator and parseAssignment share: source and parameters of an indicator call. */
    method BuildDefinition(e: Expression) returns (def: IndicatorDef)
      ensures def == DefinitionOf(Ctx(), e)
    {
      var kind := KindOf(e.val);
      if |e.args| == 0 {
        return IndicatorDef(kind, "", []);
      }
      if kind == ATR {
        var params := ResolveAll(e.args[..1]);
        return IndicatorDef(kind, "", params);
      }
      var params := ResolveAll(e.args[1..]);
      return IndicatorDef(kind, if e.args[0].op == Ref then e.args[0].val else "", params);
    }

    method ResolveAll(args: seq<Expression>) returns (params: seq<real>)
      ensures params == Constants(Ctx(), args)
    {
      hide ResolveConstant;
      params := [];
      for i := 0 to |args|
        invariant params == Constants(Ctx(), args[..i])
      {
        assert args[..i + 1][..i] == args[..i];
        var v := ResolveConstant(Ctx(), args[i]);
        if v.Some? {
          params := params + [v.value];
        }
      }
      assert args[..|args|] == args;
    }

    // Statements ------------------------------------------------------------------------------------------------

    method SkipNewlines()
      requires Valid()
      modifies this`pos
      ensures Valid() && pos == old(NewlinesEnd(Ctx(), pos))
    {
      while Current(Ctx(), pos).typ == TokNewline
        invariant Valid() && NewlinesEnd(Ctx(), pos) == old(NewlinesEnd(Ctx(), pos))
        decreases |tokens| - pos
      {
        Step();
      }
    }

    method SkipRestOfStatement()
      requires Valid()
      modifies this`pos
      ensures Valid() && pos == old(StatementEnd(Ctx(), pos, 0, 0))
    {
      hide StatementEnd, Parens, Brackets;
      var parens, brackets := 0, 0;
      while Current(Ctx(), pos).typ != TokEOF
        invariant Valid() && StatementEnd(Ctx(), pos, parens, brackets) == old(StatementEnd(Ctx(), pos, 0, 0))
        decreases |tokens| - pos
      {
        EndStep(Ctx(), pos, parens, brackets);
        var tok := Current(Ctx(), pos);
        parens := parens + Parens(tok);
        brackets := brackets + Brackets(tok);
        if tok.typ == TokNewline && parens <= 0 && brackets <= 0 {
          Step();
          return;
        }
        Step();
      }
      EndStep(Ctx(), pos, parens, brackets);
    }

    method ReadDirectiveArguments() returns (list: seq<string>)
      requires Valid()
      modifies this`pos, this`errors
      ensures Valid() && Arguments(list, State()) == old(DirectiveArguments(Ctx(), State(), []))
    {
      hide OneArgument;
      list := [];
      while Current(Ctx(), pos).typ != TokRParen && Current(Ctx(), pos).typ != TokEOF
        invariant Valid()
        invariant DirectiveArguments(Ctx(), State(), list) == old(DirectiveArguments(Ctx(), State(), []))
        decreases |tokens| - pos
      {
        list := ReadOneArgument(list);
        if Current(Ctx(), pos).typ == TokComma {
          Step();
        } else if Current(Ctx(), pos).typ != TokRParen {
          AddError(Current(Ctx(), pos).line, "expected ',' or ')' in directive arguments");
          break;
        }
      }
    }

    method ReadOneArgument(before: seq<string>) returns (list: seq<string>)
      requires Valid() && Current(Ctx(), pos).typ != TokEOF
      modifies this`pos, this`errors
      ensures Valid() && Arguments(list, State()) == old(OneArgument(Ctx(), State(), before))
    {
      var tok := Current(Ctx(), pos);
      if tok.typ == TokIdentifier || tok.typ == TokNumber {
        Step();
        if Current(Ctx(), pos).typ == TokAssign {
          Step();
          var value := Current(Ctx(), pos).val;
          Step();
          return before + [tok.val + "=" + value];
        }
        return before + [TrimQuotes(tok.val)];
      }
      AddError(tok.line, "unexpected directive argument");
      Step();
      return before;
    }

    method ReadDirectiveText() returns (args: Option<seq<string>>)
      requires Valid()
      modifies this`pos, this`errors
      ensures Valid() && DirectiveText(args, State()) == old(DirectiveAt(Ctx(), State()))
    {
      hide DirectiveArguments;
      var tok := Current(Ctx(), pos);
      if tok.typ != TokIdentifier {
        AddError(tok.line, "expected directive starting with strategy.entry/close/exit");
        return None;
      }
      Step();
      var open := Expect(TokLParen, "expected '(' after directive name");
      if !open {
        return None;
      }
      var list := ReadDirectiveArguments();
      var closed := Expect(TokRParen, "expected ')' after directive arguments");
      return if closed then Some(list) else None;
    }

    /** A directive adds the one rule it means, under the condition given, or nothing when it is cut short. */
    method ReadDirective(condition: string)
      requires Sound()
      modifies this`pos, this`errors, this`config
      ensures Sound() && Grows(old(Now()), Now()) && old(pos) <= pos
      ensures DirectiveDone(Ctx(), old(Now()), old(pos), condition, Now(), pos)
    {
      hide Compiled, Lexed, DirectiveAt, Meaning, WithDirective;
      var tok := Current(Ctx(), pos);
      var args := ReadDirectiveText();
      if args.None? {
        return;
      }
      var meaning := Meaning(tok.val, args.value);
      DirectiveCompiled(config, condition, tok.val, args.value);
      if meaning != Ignored && meaning.misdirected {
        AddError(tok.line, "strategy.entry direction must be strategy.long or strategy.short");
      }
      config := WithDirective(config, condition, meaning);
    }

    /** name = expression: an indicator call defines an indicator, anything else a condition, and a number a constant. */
    method ReadAssignment(name: string)
      requires Sound()
      modifies this`pos, this`errors, this`config, this`autoVar, this`constants
      ensures Sound() && Grows(old(Now()), Now()) && old(pos) <= pos
      ensures AssignmentDone(old(Ctx()), old(Now()), old(pos), name, Now(), pos)
    {
      hide ParseExpression, Lexed, Grammatical, KnownKinds, DefinitionOf, StatementEnd, Resolvable;
      ExpressionGrammatical(Ctx(), State(), 0);
      var e := ReadExpression(0);
      if e.Err? {
        AddError(Current(Ctx(), pos).line, "invalid assignment");
        SkipRestOfStatement();
        return;
      }
      AssignmentCompiled(Ctx(), config, name, e.value);
      if e.value.op == Indicator {
        Complain(e.value);
        var def := BuildDefinition(e.value);
        config := config.(indicators := config.indicators[name := def]);
      } else {
        if e.value.op == Ref && parseFloat(e.value.val).Some? {
          constants := constants[name := parseFloat(e.value.val).value];
        }
        config := config.(conditions := config.conditions[name := e.value]);
      }
    }

    /** One error for each part of an indicator call that cannot be resolved. */
    method Complain(e: Expression)
      modifies this`errors
      ensures errors == old(errors) + Complaints(Ctx(), e, Current(Ctx(), pos).line)
      ensures errors == old(errors) <==> Resolvable(Ctx(), e)
    {
      var line := Current(Ctx(), pos).line;
      ComplaintsIff(Ctx(), e, line);
      hide ResolveConstant, Resolvable;
      if e.args == [] {
        return;
      }
      if KindOf(e.val) == ATR {
        if ResolveConstant(Ctx(), e.args[0]).None? {
          AddError(line, "atr period must be a literal number or constant variable");
        }
        return;
      }
      if e.args[0].op != Ref {
        AddError(line, "indicator source must be a variable or input name");
      }
      ComplainAboutParameters(e.args[1..], line);
    }

    method ComplainAboutParameters(args: seq<Expression>, line: int)
      modifies this`errors
      ensures errors == old(errors) + ParameterComplaints(Ctx(), args, line)
    {
      hide ResolveConstant;
      for i := 0 to |args|
        invariant errors == old(errors) + ParameterComplaints(Ctx(), args[..i], line)
      {
        assert args[..i + 1][..i] == args[..i];
        if ResolveConstant(Ctx(), args[i]).None? {
          AddError(line, "indicator parameters must be literal numbers or constant variables");
        }
      }
      assert args[..|args|] == args;
    }

    /** if condition, then a directive under that condition, or nothing at all. */
    method ReadIf()
      requires Sound()
      modifies this`pos, this`errors, this`config, this`autoVar
      ensures Sound() && Grows(old(Now()), Now()) && old(pos) <= pos
      ensures IfDone(Ctx(), old(Now()), old(pos), Now(), pos)
    {
      hide ParseExpression, Lexed, KnownKinds, Grammatical, NewlinesEnd, BodyDone;
      ExpressionGrammatical(Ctx(), State(), 0);
      var e := ReadExpression(0);
      if e.Err? {
        AddError(Current(Ctx(), pos).line, "invalid if condition");
        return;
      }
      SkipNewlines();
      var condition := NameCondition(e.value);
      ReadIfBody(condition);
    }

    /** The directive that stands under a condition. */
    method ReadIfBody(condition: string)
      requires Sound()
      modifies this`pos, this`errors, this`config
      ensures Sound() && Grows(old(Now()), Now()) && old(pos) <= pos
      ensures BodyDone(Ctx(), old(Now()), old(pos), condition, Now(), pos)
    {
      hide Lexed, Compiled, StatementEnd, DirectiveDone, HasPrefix, ToLower, Grows;
      GrowsItself(Now());
      var tok := Current(Ctx(), pos);
      if tok.typ != TokIdentifier || !HasPrefix(ToLower(tok.val), "strategy.") {
        SkipRestOfStatement();
        return;
      }
      ReadDirective(condition);
    }

    /** A bare name is a condition already; anything else becomes one under an automatic name. */
    method NameCondition(e: Expression) returns (condition: string)
      requires Sound() && Grammatical(e)
      modifies this`config, this`autoVar
      ensures Sound() && Grows(old(Now()), Now()) && config.rules == old(config).rules
      ensures condition == ConditionName(old(State()), e) && Now() == Named(old(Now()), old(State()), e)
    {
      hide Lexed, Grammatical, KnownKinds;
      if e.op == Ref {
        return e.val;
      }
      condition := AutoName(autoVar);
      autoVar := autoVar + 1;
      config := config.(conditions := config.conditions[condition := e]);
    }

    /** Every statement consumes at least one token, keeps what the ones before it built, and does what its form says. */
    method ReadStatement()
      requires Sound() && Current(Ctx(), pos).typ != TokEOF
      modifies this`pos, this`errors, this`config, this`autoVar, this`constants
      ensures Sound() && Grows(old(Now()), Now()) && old(pos) < pos
      ensures FormDone(old(Ctx()), old(Now()), FormOf(old(Ctx()), old(pos)), Now(), pos)
    {
      hide Lexed, Compiled, StatementEnd, IsContinuation, IsTypeName, IsSkippable, BareForm, Grows, FormDone;
      GrowsItself(Now());
      var tok := Current(Ctx(), pos);
      if IsContinuation(tok) {
        SkippedDone(Ctx(), Now(), pos);
        SkipRestOfStatement();
        return;
      }
      if tok.typ == TokIdentifier && IsVar(tok.val) {
        Step();
        tok := Current(Ctx(), pos);
      }
      if tok.typ == TokIdentifier && IsTypeName(tok.val) {
        Step();
        tok := Current(Ctx(), pos);
      }
      if tok.typ == TokIdentifier && IsSkippable(tok.val) {
        SkippedDone(Ctx(), Now(), pos);
        SkipRestOfStatement();
        return;
      }
      ReadBareStatement();
    }

    /** A statement without `var`, type name, or a call to skip. */
    method ReadBareStatement()
      requires Sound()
      modifies this`pos, this`errors, this`config, this`autoVar, this`constants
      ensures Sound() && Grows(old(Now()), Now()) && old(pos) <= pos
      ensures old(Current(Ctx(), pos)).typ != TokEOF ==> old(pos) < pos
      ensures FormDone(old(Ctx()), old(Now()), BareForm(old(Ctx()), old(pos)), Now(), pos)
    {
      hide Lexed, Compiled, StatementEnd, IsSkippable, Grows, AssignmentDone, IfDone;
      GrowsItself(Now());
      var tok := Current(Ctx(), pos);
      if tok.typ == TokIdentifier {
        Step();
        if Current(Ctx(), pos).typ == TokAssign {
          Step();
          var next := Current(Ctx(), pos);
          if next.typ == TokIdentifier && IsSkippable(next.val) {
            SkipRestOfStatement();
            return;
          }
          ReadAssignment(tok.val);
        } else {
          pos := pos - 1;
          hide AfterDirective, DirectiveArguments;
          ReadDirective("");
        }
      } else if tok.typ == TokIf {
        Step();
        ReadIf();
      } else {
        AddError(tok.line, "unexpected token");
        Step();
        GrowsByError(old(Now()), Now());
      }
    }

    lemma GrowsItself(a: Snapshot)
      ensures Grows(a, a)
    {
    }

    lemma GrowsByError(a: Snapshot, b: Snapshot)
      requires b == a.(errors := b.errors) && a.errors <= b.errors
      ensures Grows(a, b)
    {
    }

    // Warnings ----------------------------------------------------------------------------------------------------

    method WarnHardcoded(condition: string, e: Expression)
      modifies this`warnings
      ensures forall w :: w in warnings <==>
        w in old(warnings) || (w.HardcodedConstant? && w.condition == condition && Hardcodes(parseFloat, e, w.constant))
    {
      if IsComparison(e.op) {
        for i := 0 to |e.args|
          invariant forall w :: w in warnings <==>
            (w in old(warnings) ||
             (w.HardcodedConstant? && w.condition == condition && HardcodesDirectly(parseFloat, e.args[..i], w.constant)))
        {
          if e.args[i].op == Ref && parseFloat(e.args[i].val).Some? {
            warnings := warnings + [HardcodedConstant(condition, e.args[i].val)];
          }
          assert e.args[..i + 1] == e.args[..i] + [e.args[i]];
        }
        assert e.args[..|e.args|] == e.args;
      }
      for i := 0 to |e.args|
        invariant forall w :: w in warnings <==>
          (w in old(warnings) ||
           (w.HardcodedConstant? && w.condition == condition &&
            ((IsComparison(e.op) && HardcodesDirectly(parseFloat, e.args, w.constant)) ||
             exists k :: 0 <= k < i && Hardcodes(parseFloat, e.args[k], w.constant))))
      {
        WarnHardcoded(condition, e.args[i]);
      }
    }

    /** Warnings are exact: which actions no rule takes, and which numbers conditions compare with. */
    method ValidateStrategy()
      modifies this`warnings
      ensures forall w :: w in warnings <==> w in old(warnings) || Deserved(parseFloat, config, w)
    {
      hide Hardcodes;
      var (hasEntry, hasClose) := (false, false);
      for i := 0 to |config.rules|
        invariant hasEntry == HasAction(config.rules[..i], Entry) && hasClose == HasAction(config.rules[..i], Close)
      {
        assert config.rules[..i + 1] == config.rules[..i] + [config.rules[i]];
        if config.rules[i].action == Entry {
          hasEntry := true;
          assert config.rules[..i + 1][i].action == Entry;
        }
        if config.rules[i].action == Close {
          hasClose := true;
          assert config.rules[..i + 1][i].action == Close;
        }
      }
      assert config.rules[..|config.rules|] == config.rules;
      if !hasEntry {
        warnings := warnings + [NoEntryRules];
      }
      if !hasClose {
        warnings := warnings + [NoCloseRules];
      }
      ghost var before := warnings;
      var names := config.conditions.Keys;
      while names != {}
        invariant names <= config.conditions.Keys
        invariant forall w :: w in warnings <==>
          (w in before ||
           (w.HardcodedConstant? && w.condition in config.conditions.Keys - names &&
            Hardcodes(parseFloat, config.conditions[w.condition], w.constant)))
        decreases |names|
      {
        var name :| name in names;
        WarnHardcoded(name, config.conditions[name]);
        names := names - {name};
      }
    }

    /** Parsing any text terminates at its end, one statement after another, with a configuration the evaluator knows
        every part of. */
    method Parse() returns (ghost trace: seq<Mark>)
      requires Sound()
      modifies this
      ensures Sound() && Current(Ctx(), pos).typ == TokEOF
      ensures old(errors) <= errors && old(config).rules <= config.rules
      ensures forall w :: w in warnings <==> w in old(warnings) || Deserved(parseFloat, config, w)
      ensures trace != [] && trace[0] == Mark(old(pos), old(Now()))
      ensures forall i :: 0 <= i < |trace| - 1 ==> NextStatement(tokens, parseFloat, trace[i], trace[i + 1])
      ensures var last := trace[|trace| - 1]; last.snap == Now() && last.pos <= pos == NewlinesEnd(Ctx(), last.pos)
    {
      hide Lexed, Compiled, Deserved, FormDone, FormOf;
      trace := [Mark(pos, Now())];
      while Current(Ctx(), pos).typ != TokEOF
        invariant Sound() && old(errors) <= errors && old(config).rules <= config.rules && warnings == old(warnings)
        invariant trace != [] && trace[0] == Mark(old(pos), old(Now())) && trace[|trace| - 1] == Mark(pos, Now())
        invariant forall i :: 0 <= i < |trace| - 1 ==> NextStatement(tokens, parseFloat, trace[i], trace[i + 1])
        decreases |tokens| - pos
      {
        SkipNewlines();
        if Current(Ctx(), pos).typ == TokEOF {
          break;
        }
        ReadStatement();
        assert NextStatement(tokens, parseFloat, trace[|trace| - 1], Mark(pos, Now()));
        trace := trace + [Mark(pos, Now())];
      }
      ValidateStrategy();
    }
  }
}
