/**
 * Paging of the sorted record list: twenty records per page, the number of
 * pages rounded up, and the current page cut out with `Array.prototype.slice`.
 */
module Pagination {

  const RecordsPerPage: nat := 20

  /** `Math.ceil(n / recordsPerPage)`: the least page count whose pages hold all n records. */
  function TotalPages(n: nat): (pages: nat)
    ensures pages * RecordsPerPage >= n
    ensures pages > 0 ==> (pages - 1) * RecordsPerPage < n
    ensures n == 0 <==> pages == 0
  {
    (n + RecordsPerPage - 1) / RecordsPerPage
  }

  /** Where a `slice` argument points: a negative argument counts back from the end; both are clamped to [0, n]. */
  function SliceIndex(x: int, n: nat): (k: nat)
    ensures k <= n
    ensures 0 <= x <= n ==> k == x
    ensures x > n ==> k == n
    ensures x < 0 ==> k == if n + x < 0 then 0 else n + x
  {
    if x < 0 then (if n + x < 0 then 0 else n + x)
    else if x > n then n
    else x
  }

  /** `s.slice(start, end)` of JavaScript. */
  function JsSlice<T>(s: seq<T>, start: int, end: int): seq<T>
  {
    var from, to := SliceIndex(start, |s|), SliceIndex(end, |s|);
    if from < to then s[from..to] else []
  }

  /** The first index of a page: `(currentPage - 1) * recordsPerPage`. */
  function StartIndex(page: int): int
  {
    (page - 1) * RecordsPerPage
  }

  /**
   * `currentRecords`: the slice from startIndex to endIndex. For any page number
   * it holds at most twenty records; for page p >= 1 it holds exactly the
   * records at positions (p-1)*20 up to (p-1)*20+20 that exist.
   */
  function PageRecords<T>(s: seq<T>, page: int): (r: seq<T>)
    ensures |r| <= RecordsPerPage
    ensures page >= 1 ==> |r| == if StartIndex(page) >= |s| then 0
                                 else if |s| - StartIndex(page) < RecordsPerPage then |s| - StartIndex(page)
                                 else RecordsPerPage
    ensures page >= 1 ==> forall k :: 0 <= k < |r| ==> r[k] == s[StartIndex(page) + k]
  {
    JsSlice(s, StartIndex(page), StartIndex(page) + RecordsPerPage)
  }

  /** The pages 1..k laid end to end. */
  function PagesUpTo<T>(s: seq<T>, k: nat): seq<T>
  {
    if k == 0 then [] else PagesUpTo(s, k - 1) + PageRecords(s, k)
  }

  /** Pages 1..k together are the first 20k records (or all of them). */
  lemma {:induction false} PagesUpToPrefix<T>(s: seq<T>, k: nat)
    ensures PagesUpTo(s, k) == s[..if k * RecordsPerPage <= |s| then k * RecordsPerPage else |s|]
  {
    if k > 0 {
      PagesUpToPrefix(s, k - 1);
      var lo := if (k - 1) * RecordsPerPage <= |s| then (k - 1) * RecordsPerPage else |s|;
      var hi := if k * RecordsPerPage <= |s| then k * RecordsPerPage else |s|;
      var page := PageRecords(s, k);
      assert |page| == hi - lo;
      assert page == s[lo..hi];
      assert s[..lo] + s[lo..hi] == s[..hi];
    }
  }

  /** Paging loses and repeats nothing: the pages 1..totalPages, in order, are the whole list. */
  lemma PagesCoverList<T>(s: seq<T>)
    ensures PagesUpTo(s, TotalPages(|s|)) == s
  {
    PagesUpToPrefix(s, TotalPages(|s|));
    assert s[..|s|] == s;
  }

  /** A page in 1..totalPages is never empty; a page past the last one always is. */
  lemma PageEmptiness<T>(s: seq<T>, page: int)
    requires page >= 1
    ensures page <= TotalPages(|s|) <==> PageRecords(s, page) != []
  {
    if page <= TotalPages(|s|) {
      assert StartIndex(page) < |s|;
      assert |PageRecords(s, page)| > 0;
    }
  }
}
