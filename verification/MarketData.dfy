/** Candles, intervals and price fields (internal/marketdata/candle.go, interval.go). */
module MarketData {
  import opened Common

  /** A numeric field as the feed delivers it: text that is empty, not a number, or a number. */
  datatype Field = Missing | Garbled | Number(value: real)

  /** Instants and durations count nanoseconds from Go's zero time, which is instant 0. */
  type Time = int
  const SECOND: int := 1_000_000_000
  const MINUTE: int := 60 * SECOND

  /** An interval label such as 15m: a count and a unit letter; Unlabelled is the empty string. */
  datatype Interval = Unlabelled | Every(count: int, unit: char)

  datatype Candle = Candle(
    exchange: string, symbol: string, interval: Interval,
    openTime: Time, closeTime: Time, eventTime: Time,
    open: Field, high: Field, low: Field, close: Field,
    volume: Field, quoteVolume: Field, tradeCount: int, isClosed: bool)

  datatype DataError =
    | BadInterval
    | BadField
    | NotPositive
    | InsufficientCandles
    | NotAMultiple
    | EmptyRange
    | BadPeriod

  function IntervalDuration(interval: Interval): (r: Result<int, DataError>)
    ensures r.Ok? ==> r.value >= MINUTE
  {
    match interval
    case Unlabelled => Err(BadInterval)
    case Every(count, unit) =>
      if count <= 0 then Err(BadInterval)
      else if unit == 'm' then Ok(count * MINUTE)
      else if unit == 'h' then Ok(count * (60 * MINUTE))
      else if unit == 'd' then Ok(count * (24 * 60 * MINUTE))
      else if unit == 'w' then Ok(count * (7 * 24 * 60 * MINUTE))
      else Err(BadInterval)
  }

  /** The units agree with one another, and a minute is sixty billion nanoseconds. */
  lemma UnitsAgree(count: int)
    requires count > 0
    ensures IntervalDuration(Every(count, 'm')) == Ok(count * 60_000_000_000)
    ensures IntervalDuration(Every(60 * count, 'm')) == IntervalDuration(Every(count, 'h'))
    ensures IntervalDuration(Every(24 * count, 'h')) == IntervalDuration(Every(count, 'd'))
    ensures IntervalDuration(Every(7 * count, 'd')) == IntervalDuration(Every(count, 'w'))
  {
  }

  function ParseField(field: Field): Result<real, DataError> {
    match field
    case Number(v) => Ok(v)
    case _ => Err(BadField)
  }

  function ParsePositive(field: Field): Result<real, DataError> {
    var v :- ParseField(field);
    if v <= 0.0 then Err(NotPositive) else Ok(v)
  }
}
