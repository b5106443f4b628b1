/**
 * GET /api/search: the filter handed to the database. It always requires the
 * employee to be equal; a start bound adds `timestamp >= start`, an end
 * bound adds `timestamp <= end`, both bounds inclusive. A bound given as the
 * empty string counts as absent.
 */
module SearchRoute {
  import opened Types

  /** A date query parameter: its text (tested for truthiness) and the instant it parses to. */
  datatype DateParam = DateParam(text: string, instant: int)

  datatype SearchParams = SearchParams(startDate: Option<DateParam>, endDate: Option<DateParam>, employee: Option<string>)

  /** `{ gte, lte }`: inclusive bounds on the timestamp; None where there is no bound. */
  datatype TimeRange = TimeRange(gte: Option<int>, lte: Option<int>)

  /** `whereCondition`: the employee, and a timestamp range when some bound was given. */
  datatype WhereCondition = WhereCondition(employee: string, timestamp: Option<TimeRange>)

  /** A parameter is used iff it is present and not the empty string. */
  predicate Truthy(p: Option<DateParam>)
  {
    p.Some? && p.value.text != ""
  }

  /** Building `whereCondition` from the query parameters. */
  function BuildWhere(params: SearchParams): (w: WhereCondition)
    ensures w.employee == ParamOr(params.employee, DefaultEmployee)
    ensures w.timestamp.None? <==> !Truthy(params.startDate) && !Truthy(params.endDate)
    ensures w.timestamp.Some? ==>
              (w.timestamp.value.gte.Some? <==> Truthy(params.startDate))
              && (w.timestamp.value.lte.Some? <==> Truthy(params.endDate))
    ensures w.timestamp.Some? && w.timestamp.value.gte.Some? ==> w.timestamp.value.gte.value == params.startDate.value.instant
    ensures w.timestamp.Some? && w.timestamp.value.lte.Some? ==> w.timestamp.value.lte.value == params.endDate.value.instant
  {
    var employee := ParamOr(params.employee, DefaultEmployee);
    if Truthy(params.startDate) && Truthy(params.endDate) then
      WhereCondition(employee, Some(TimeRange(Some(params.startDate.value.instant), Some(params.endDate.value.instant))))
    else if Truthy(params.startDate) then
      WhereCondition(employee, Some(TimeRange(Some(params.startDate.value.instant), None)))
    else if Truthy(params.endDate) then
      WhereCondition(employee, Some(TimeRange(None, Some(params.endDate.value.instant))))
    else
      WhereCondition(employee, None)
  }

  /** The meaning of a where condition for one stored record. */
  predicate Satisfies(r: PokyRecord, w: WhereCondition)
  {
    && r.employee == w.employee
    && (w.timestamp.Some? && w.timestamp.value.gte.Some? ==> r.timestamp >= w.timestamp.value.gte.value)
    && (w.timestamp.Some? && w.timestamp.value.lte.Some? ==> r.timestamp <= w.timestamp.value.lte.value)
  }

  /**
   * A record matches the search iff it is the employee's and lies within
   * every bound that was given, bounds included.
   */
  lemma SearchMatch(params: SearchParams, r: PokyRecord)
    ensures Satisfies(r, BuildWhere(params)) <==>
              && r.employee == ParamOr(params.employee, DefaultEmployee)
              && (Truthy(params.startDate) ==> params.startDate.value.instant <= r.timestamp)
              && (Truthy(params.endDate) ==> r.timestamp <= params.endDate.value.instant)
  {
  }

  /** Without usable bounds only the employee matters. */
  lemma NoBoundsNoTimeConstraint(params: SearchParams, r: PokyRecord)
    requires !Truthy(params.startDate) && !Truthy(params.endDate)
    ensures Satisfies(r, BuildWhere(params)) <==> r.employee == ParamOr(params.employee, DefaultEmployee)
  {
  }

  /** A start after the end matches nothing. */
  lemma InvertedRangeMatchesNothing(params: SearchParams, r: PokyRecord)
    requires Truthy(params.startDate) && Truthy(params.endDate)
    requires params.startDate.value.instant > params.endDate.value.instant
    ensures !Satisfies(r, BuildWhere(params))
  {
  }
}
