/** The intermediate representation a Pine script compiles to (internal/pine/types.go). */
module PineIR {

  datatype Op =
    | Ref
    | Not
    | Gt | Lt | Ge | Le | Eq | Ne
    | And | Or
    | Crossover | Crossunder
    | Ternary
    | Indicator
    | Other(name: string)

  predicate IsComparison(op: Op) {
    op in {Gt, Lt, Ge, Le, Eq, Ne}
  }

  datatype Expression = Expression(op: Op, args: seq<Expression>, val: string)

  datatype Kind = SMA | EMA | RSI | ATR | MACD | BB | Unknown(name: string)

  datatype IndicatorDef = IndicatorDef(kind: Kind, source: string, params: seq<real>)

  datatype Rule = Rule(condition: string, action: Action, id: string, direction: Direction)

  datatype Action = Entry | Close | NoAction

  datatype Direction = Long | Short | Undirected

  datatype Config = Config(
    indicators: map<string, IndicatorDef>,
    conditions: map<string, Expression>,
    rules: seq<Rule>)

  const ALWAYS_TRUE := "_always_true"

  function Reference(name: string): Expression {
    Expression(Ref, [], name)
  }

  function Binary(op: Op, left: Expression, right: Expression): Expression {
    Expression(op, [left, right], "")
  }
}
