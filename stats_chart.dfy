/**
 * The summary above the statistics chart: the total and the largest count of
 * the series returned by the chart route, and the date range it covers. An
 * empty series shows the no-data message instead.
 */
module StatsChart {
  import opened Types

  /** The total of all counts, summed from the left starting at zero. */
  function Total(data: seq<StatsData>): int
  {
    if data == [] then 0 else Total(data[..|data| - 1]) + data[|data| - 1].count
  }

  /** The total of two consecutive parts of a series is the sum of their totals. */
  lemma {:induction false} TotalAppend(a: seq<StatsData>, b: seq<StatsData>)
    ensures Total(a + b) == Total(a) + Total(b)
    decreases |b|
  {
    if b == [] {
      assert a + b == a;
    } else {
      assert (a + b)[..|a + b| - 1] == a + b[..|b| - 1];
      TotalAppend(a, b[..|b| - 1]);
    }
  }

  /** The total counts every entry once: it equals the sum taken from the front as well. */
  lemma TotalFromFront(data: seq<StatsData>)
    requires data != []
    ensures Total(data) == data[0].count + Total(data[1..])
  {
    TotalAppend([data[0]], data[1..]);
    assert [data[0]] + data[1..] == data;
    assert Total([data[0]]) == Total([]) + data[0].count;
  }

  /** The largest count of a non-empty series. */
  function MaxCount(data: seq<StatsData>): (m: int)
    requires data != []
    ensures forall i :: 0 <= i < |data| ==> data[i].count <= m
    ensures exists i :: 0 <= i < |data| && data[i].count == m
  {
    if |data| == 1 then data[0].count
    else
      var rest := MaxCount(data[1..]);
      assert forall i :: 1 <= i < |data| ==> data[i].count == data[1..][i - 1].count;
      if data[0].count >= rest then data[0].count else rest
  }

  /** With no negative counts, no entry exceeds the total; in particular the maximum does not. */
  lemma {:induction false} CountAtMostTotal(data: seq<StatsData>, k: nat)
    requires forall i :: 0 <= i < |data| ==> data[i].count >= 0
    requires k < |data|
    ensures data[k].count <= Total(data)
    decreases |data|
  {
    var n := |data| - 1;
    assert Total(data) == Total(data[..n]) + data[n].count;
    if k < n {
      CountAtMostTotal(data[..n], k);
    } else {
      TotalNonNegative(data[..n]);
    }
  }

  lemma {:induction false} TotalNonNegative(data: seq<StatsData>)
    requires forall i :: 0 <= i < |data| ==> data[i].count >= 0
    ensures Total(data) >= 0
    decreases |data|
  {
    if data != [] {
      TotalNonNegative(data[..|data| - 1]);
    }
  }

  /** The caption under the chart: first date 〜 last date, and the number of entries. */
  datatype RangeLabel = RangeLabel(first: string, last: string, entries: nat)

  datatype Summary = Summary(total: int, max: int, range: RangeLabel)

  /**
   * The figures shown for a series: nothing for an empty series (the
   * no-data branch), otherwise total, maximum and range caption.
   */
  function Summarize(data: seq<StatsData>): (r: Option<Summary>)
    ensures r.None? <==> data == []
    ensures r.Some? ==> r.value.total == Total(data)
    ensures r.Some? ==> (forall i :: 0 <= i < |data| ==> data[i].count <= r.value.max)
                        && (exists i :: 0 <= i < |data| && data[i].count == r.value.max)
    ensures r.Some? ==> r.value.range == RangeLabel(data[0].date, data[|data| - 1].date, |data|)
  {
    if data == [] then None
    else Some(Summary(Total(data), MaxCount(data), RangeLabel(data[0].date, data[|data| - 1].date, |data|)))
  }

  /** With no negative counts (counts come from COUNT(*)), the maximum shown never exceeds the total shown. */
  lemma SummaryMaxAtMostTotal(data: seq<StatsData>)
    requires data != []
    requires forall i :: 0 <= i < |data| ==> data[i].count >= 0
    ensures Summarize(data).value.max <= Summarize(data).value.total
  {
    var k :| 0 <= k < |data| && data[k].count == Summarize(data).value.max;
    CountAtMostTotal(data, k);
  }
}
