/**
 * Shared value types of the event counter: the stored record, one chart row,
 * the chart period selector and a calendar date, plus the usual Option and
 * Result wrappers for absent values and error paths.
 */
module Types {

  datatype Option<+T> = None | Some(value: T)

  datatype Result<+T, +E> = Success(value: T) | Failure(error: E)

  /** One recorded event: opaque id, instant in milliseconds since the epoch, and the person tracked. */
  datatype PokyRecord = PokyRecord(id: string, timestamp: int, employee: string)

  /** One point of the statistics chart: a period key and the number of events in it. */
  datatype StatsData = StatsData(date: string, count: int)

  /** The three chart periods and the query-string values that name them. */
  datatype PeriodType = Daily | Monthly | Yearly

  function PeriodValue(p: PeriodType): string
  {
    match p
    case Daily => "daily"
    case Monthly => "monthly"
    case Yearly => "yearly"
  }

  /** A local calendar date; month and day are 1-based. */
  datatype Date = Date(year: int, month: int, day: int)

  /** An error answer of an API route: HTTP status and message. */
  datatype ApiError = ApiError(status: int, message: string)

  /** The person the application tracks; every route uses it when no employee is given. */
  const DefaultEmployee: string := "馬"

  /**
   * `param || fallback` on an optional query parameter: a missing parameter and the
   * empty string are both falsy, so both give the fallback.
   */
  function ParamOr(param: Option<string>, fallback: string): (r: string)
    ensures param.Some? && param.value != "" ==> r == param.value
    ensures param.None? || param.value == "" ==> r == fallback
  {
    if param.Some? && param.value != "" then param.value else fallback
  }
}
