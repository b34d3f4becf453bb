/** Trading signals (internal/strategy/types.go). */
module Signals {
  import opened MarketData

  datatype Side = Buy | Sell | Hold

  /** How far apart two averages must be, relative to the slower one, for a crossing to count. */
  const MIN_GAP: real := 0.0001

  datatype Signal = Signal(side: Side, reason: string, generatedAt: Time)

  datatype StrategyError =
    | Data(cause: DataError)
    | NoCandles
    | BadPeriods
    | BadThresholds
    | TooFewCandles
    | MissingParameters(indicator: string)
    | UnsupportedIndicator(indicator: string)
    | CircularDependency
    | UndefinedCondition(condition: string)
    | UndefinedVariable(name: string)
    | WrongArity(operator: string)
    | WrongOperandType(operator: string)
    | NotAReference(operator: string)
    | UnsupportedOperator(operator: string)
    | IndexPanic
}
