/**
 * GET /api/chart: picks the grouping for the requested period, runs the
 * grouped count query (executed by the database, so a parameter here) and
 * turns its rows into chart points. The rows are passed on as they come:
 * periods without records are absent, not filled with zeros.
 */
module ChartRoute {
  import opened Types
  import opened Text
  import opened StatsChart

  /** The unit given to DATE_TRUNC. */
  datatype TruncUnit = Day | Month | Year

  /** Truncation unit and TO_CHAR format of one period type. */
  datatype Grouping = Grouping(unit: TruncUnit, format: string)

  function UnitOf(p: PeriodType): TruncUnit
  {
    match p
    case Daily => Day
    case Monthly => Month
    case Yearly => Year
  }

  function KeyFormat(u: TruncUnit): string
  {
    match u
    case Day => "YYYY-MM-DD"
    case Month => "YYYY-MM"
    case Year => "YYYY"
  }

  /**
   * The `switch (period)`: the three period names select their grouping,
   * every other value is refused with status 400.
   */
  function SelectPeriod(period: string): (r: Result<Grouping, ApiError>)
    ensures r.Success? <==> exists p :: PeriodValue(p) == period
    ensures forall p :: PeriodValue(p) == period ==> r == Success(Grouping(UnitOf(p), KeyFormat(UnitOf(p))))
    ensures r.Failure? ==> r.error.status == 400
  {
    if period == PeriodValue(Daily) then Success(Grouping(Day, "YYYY-MM-DD"))
    else if period == PeriodValue(Monthly) then Success(Grouping(Month, "YYYY-MM"))
    else if period == PeriodValue(Yearly) then Success(Grouping(Year, "YYYY"))
    else Failure(ApiError(400, "無効な期間タイプです"))
  }

  /** Query-string parameters of the route; None when absent. */
  datatype ChartParams = ChartParams(period: Option<string>, employee: Option<string>)

  /** The grouped count query: whose records, grouped how. */
  datatype ChartQuery = ChartQuery(employee: string, grouping: Grouping)

  /** One row of the query: the formatted period and the COUNT(*) of its group. */
  datatype QueryRow = QueryRow(date: string, count: int)

  /** Each query row becomes one chart point with the same date and its count as a number. */
  function MapRows(rows: seq<QueryRow>): (data: seq<StatsData>)
    ensures |data| == |rows|
    ensures forall i :: 0 <= i < |rows| ==> data[i].date == rows[i].date && data[i].count == rows[i].count
  {
    seq(|rows|, i requires 0 <= i < |rows| => StatsData(rows[i].date, rows[i].count))
  }

  /**
   * The query the route issues for its parameters: period defaults to daily,
   * employee to the tracked person (both also when given empty).
   */
  function PlanQuery(params: ChartParams): (r: Result<ChartQuery, ApiError>)
    ensures r.Success? <==> exists p :: PeriodValue(p) == ParamOr(params.period, "daily")
    ensures r.Success? ==> r.value.employee == ParamOr(params.employee, DefaultEmployee)
    ensures r.Success? ==> SelectPeriod(ParamOr(params.period, "daily")) == Success(r.value.grouping)
    ensures params.period.None? ==> r.Success? && r.value.grouping == Grouping(Day, "YYYY-MM-DD")
    ensures r.Failure? ==> r.error.status == 400
  {
    var period := ParamOr(params.period, "daily");
    var employee := ParamOr(params.employee, DefaultEmployee);
    match SelectPeriod(period)
    case Success(g) => Success(ChartQuery(employee, g))
    case Failure(e) => Failure(e)
  }

  /**
   * The whole route. `runQuery` stands for the database: None when the query
   * throws (answered with 500), otherwise its rows. A refused period is
   * answered before any query is run.
   */
  function ChartGet(params: ChartParams, runQuery: ChartQuery -> Option<seq<QueryRow>>): (r: Result<seq<StatsData>, ApiError>)
    ensures PlanQuery(params).Failure? ==> r == Failure(PlanQuery(params).error) && r.error.status == 400
    ensures PlanQuery(params).Success? && runQuery(PlanQuery(params).value).None? ==> r.Failure? && r.error.status == 500
    ensures PlanQuery(params).Success? && runQuery(PlanQuery(params).value).Some? ==>
              r == Success(MapRows(runQuery(PlanQuery(params).value).value))
  {
    match PlanQuery(params)
    case Failure(e) => Failure(e)
    case Success(q) =>
      match runQuery(q)
      case None => Failure(ApiError(500, "グラフデータの取得に失敗しました"))
      case Some(rows) => Success(MapRows(rows))
  }

  /** A refused period never depends on the database: no query is issued. */
  lemma RejectionIssuesNoQuery(params: ChartParams, db1: ChartQuery -> Option<seq<QueryRow>>, db2: ChartQuery -> Option<seq<QueryRow>>)
    requires PlanQuery(params).Failure?
    ensures ChartGet(params, db1) == ChartGet(params, db2)
  {
  }

  // ---------------------------------------------------------------------
  // What the SQL promises, assumed rather than executed: records of exactly
  // the given employee, grouped by the key of their truncated timestamp
  // (`key`, i.e. TO_CHAR of DATE_TRUNC in the database's time zone), in
  // ascending order of the groups.

  /** Number of the employee's records whose period key is in `keys`. */
  function CountIn(db: seq<PokyRecord>, employee: string, key: int -> string, keys: set<string>): nat
  {
    if db == [] then 0
    else (if db[0].employee == employee && key(db[0].timestamp) in keys then 1 else 0)
         + CountIn(db[1..], employee, key, keys)
  }

  /** Number of the employee's records. */
  function CountEmployee(db: seq<PokyRecord>, employee: string): nat
  {
    if db == [] then 0
    else (if db[0].employee == employee then 1 else 0) + CountEmployee(db[1..], employee)
  }

  ghost predicate GroupedCounts(db: seq<PokyRecord>, employee: string, key: int -> string, rows: seq<QueryRow>)
  {
    && (forall i, j :: 0 <= i < j < |rows| ==> StrLt(rows[i].date, rows[j].date))
    && (forall i :: 0 <= i < |rows| ==> rows[i].count == CountIn(db, employee, key, {rows[i].date}))
    && (forall r :: r in db && r.employee == employee ==>
          exists i :: 0 <= i < |rows| && rows[i].date == key(r.timestamp))
  }

  function Dates(rows: seq<QueryRow>): (d: set<string>)
    ensures forall x :: x in d <==> exists i :: 0 <= i < |rows| && rows[i].date == x
  {
    set i | 0 <= i < |rows| :: rows[i].date
  }

  lemma {:induction false} CountInUnion(db: seq<PokyRecord>, employee: string, key: int -> string, a: set<string>, b: set<string>)
    requires a !! b
    ensures CountIn(db, employee, key, a + b) == CountIn(db, employee, key, a) + CountIn(db, employee, key, b)
    decreases |db|
  {
    if db != [] {
      CountInUnion(db[1..], employee, key, a, b);
    }
  }

  lemma {:induction false} CountInNone(db: seq<PokyRecord>, employee: string, key: int -> string)
    ensures CountIn(db, employee, key, {}) == 0
    decreases |db|
  {
    if db != [] {
      CountInNone(db[1..], employee, key);
    }
  }

  lemma {:induction false} CountInCovering(db: seq<PokyRecord>, employee: string, key: int -> string, keys: set<string>)
    requires forall r :: r in db && r.employee == employee ==> key(r.timestamp) in keys
    ensures CountIn(db, employee, key, keys) == CountEmployee(db, employee)
    decreases |db|
  {
    if db != [] {
      assert forall r :: r in db[1..] ==> r in db;
      CountInCovering(db[1..], employee, key, keys);
    }
  }

  /** The rows' counts add up to the number of records whose key is one of the rows' dates. */
  lemma {:induction false} RowsTotal(db: seq<PokyRecord>, employee: string, key: int -> string, rows: seq<QueryRow>)
    requires forall i, j :: 0 <= i < j < |rows| ==> rows[i].date != rows[j].date
    requires forall i :: 0 <= i < |rows| ==> rows[i].count == CountIn(db, employee, key, {rows[i].date})
    ensures Total(MapRows(rows)) == CountIn(db, employee, key, Dates(rows))
    decreases |rows|
  {
    if rows == [] {
      assert Dates(rows) == {};
      CountInNone(db, employee, key);
    } else {
      var n := |rows| - 1;
      var init := rows[..n];
      RowsTotal(db, employee, key, init);
      assert MapRows(rows)[..n] == MapRows(init);
      assert Dates(rows) == Dates(init) + {rows[n].date};
      assert rows[n].date !in Dates(init);
      CountInUnion(db, employee, key, Dates(init), {rows[n].date});
    }
  }

  /**
   * Under the query's contract, the chart's total is the number of the
   * employee's records: grouping neither loses nor invents an event.
   */
  lemma ChartTotalIsRecordCount(db: seq<PokyRecord>, employee: string, key: int -> string, rows: seq<QueryRow>)
    requires GroupedCounts(db, employee, key, rows)
    ensures Total(MapRows(rows)) == CountEmployee(db, employee)
    ensures rows != [] ==> Summarize(MapRows(rows)).value.total == CountEmployee(db, employee)
  {
    forall i, j | 0 <= i < j < |rows|
      ensures rows[i].date != rows[j].date
    {
      if rows[i].date == rows[j].date {
        StrLtIrreflexive(rows[i].date);
      }
    }
    RowsTotal(db, employee, key, rows);
    CountInCovering(db, employee, key, Dates(rows));
  }
}
