/**
 * The page buttons under the record table: every page when there are at most
 * five, otherwise the first page, a window of up to five pages around the
 * current one and the last page, with an ellipsis wherever pages are skipped.
 */
module PageNumbers {

  datatype PageItem = Page(n: int) | Ellipsis

  const MaxVisiblePages: int := 5

  /** [Page(1), ..., Page(k)] */
  function Range(k: nat): (r: seq<PageItem>)
    ensures |r| == k
    ensures forall i :: 0 <= i < k ==> r[i] == Page(i + 1)
  {
    seq(k, i requires 0 <= i < k => Page(i + 1))
  }

  /** First page of the window: two before the current page, but not before page 1. */
  function WindowStart(currentPage: int): int
  {
    if currentPage - MaxVisiblePages / 2 > 1 then currentPage - MaxVisiblePages / 2 else 1
  }

  /** Last page of the window: four after its start, but not past the last page. */
  function WindowEnd(totalPages: int, currentPage: int): int
  {
    var e := WindowStart(currentPage) + MaxVisiblePages - 1;
    if totalPages < e then totalPages else e
  }

  /** Numbered entries strictly increase from left to right. */
  predicate Ascending(pages: seq<PageItem>)
  {
    forall i, j :: 0 <= i < j < |pages| && pages[i].Page? && pages[j].Page? ==> pages[i].n < pages[j].n
  }

  /** Neighbouring numbers are consecutive, and an ellipsis always stands between two numbers at least two apart. */
  predicate GapsMarked(pages: seq<PageItem>)
  {
    && (forall i :: 0 < i < |pages| && pages[i - 1].Page? && pages[i].Page? ==> pages[i].n == pages[i - 1].n + 1)
    && (forall i :: 0 <= i < |pages| && pages[i].Ellipsis? ==>
          0 < i < |pages| - 1 && pages[i - 1].Page? && pages[i + 1].Page? && pages[i + 1].n >= pages[i - 1].n + 2)
  }

  /** The pages other than the first and the last span at most five numbers. */
  predicate WindowBounded(pages: seq<PageItem>, totalPages: int)
  {
    forall i, j :: 0 <= i < |pages| && 0 <= j < |pages| && pages[i].Page? && pages[j].Page?
      && 1 < pages[i].n < totalPages && 1 < pages[j].n < totalPages
      ==> pages[j].n - pages[i].n < MaxVisiblePages
  }

  /** The list of buttons for more than five pages, while the current page is one of them. */
  predicate WellFormedNav(pages: seq<PageItem>, totalPages: int, currentPage: int)
  {
    && |pages| > 0
    && pages[0] == Page(1)
    && pages[|pages| - 1] == Page(totalPages)
    && Ascending(pages)
    && GapsMarked(pages)
    && WindowBounded(pages, totalPages)
    && Page(currentPage) in pages
    && (forall q :: 1 <= q <= totalPages && currentPage - 2 <= q <= currentPage + 2 ==> Page(q) in pages)
  }

  function HeadLen(s: int): nat
  {
    if s > 2 then 2 else if s > 1 then 1 else 0
  }

  function TailLen(e: int, totalPages: int): nat
  {
    if e < totalPages - 1 then 2 else if e < totalPages then 1 else 0
  }

  /**
   * Entry i of the button list for the window s..e: page 1 and an ellipsis
   * before the window when it starts late, the window itself, and an ellipsis
   * and the last page after it when it ends early.
   */
  function NavItem(s: int, e: int, totalPages: int, i: int): PageItem
  {
    var h, w := HeadLen(s), e - s + 1;
    if i < h then (if i == 0 then Page(1) else Ellipsis)
    else if i < h + w then Page(s + i - h)
    else if i == h + w && TailLen(e, totalPages) == 2 then Ellipsis
    else Page(totalPages)
  }

  /** The button list for more than five pages, entry by entry. */
  function Nav(totalPages: int, currentPage: int): seq<PageItem>
    requires totalPages > MaxVisiblePages && 1 <= currentPage <= totalPages
  {
    var s, e := WindowStart(currentPage), WindowEnd(totalPages, currentPage);
    seq(HeadLen(s) + (e - s + 1) + TailLen(e, totalPages), i => NavItem(s, e, totalPages, i))
  }

  /** The button list for more than five pages has every property of WellFormedNav. */
  lemma NavWellFormed(totalPages: int, currentPage: int)
    requires totalPages > MaxVisiblePages && 1 <= currentPage <= totalPages
    ensures WellFormedNav(Nav(totalPages, currentPage), totalPages, currentPage)
  {
    var pages := Nav(totalPages, currentPage);
    var s, e := WindowStart(currentPage), WindowEnd(totalPages, currentPage);
    var h := HeadLen(s);
    assert 1 <= s <= currentPage <= e <= totalPages;
    assert e - s + 1 <= MaxVisiblePages;
    NavAscending(pages, s, e, totalPages);
    NavGaps(pages, s, e, totalPages);
    NavWindow(pages, s, e, totalPages);
    assert pages[h + currentPage - s] == Page(currentPage);
    forall q | 1 <= q <= totalPages && currentPage - 2 <= q <= currentPage + 2
      ensures Page(q) in pages
    {
      assert pages[h + q - s] == Page(q);
    }
  }

  lemma NavAscending(pages: seq<PageItem>, s: int, e: int, totalPages: int)
    requires 1 <= s <= e <= totalPages
    requires |pages| == HeadLen(s) + (e - s + 1) + TailLen(e, totalPages)
    requires forall i :: 0 <= i < |pages| ==> pages[i] == NavItem(s, e, totalPages, i)
    ensures Ascending(pages)
  {
  }

  lemma NavGaps(pages: seq<PageItem>, s: int, e: int, totalPages: int)
    requires 1 <= s <= e <= totalPages
    requires |pages| == HeadLen(s) + (e - s + 1) + TailLen(e, totalPages)
    requires forall i :: 0 <= i < |pages| ==> pages[i] == NavItem(s, e, totalPages, i)
    ensures GapsMarked(pages)
  {
  }

  lemma NavWindow(pages: seq<PageItem>, s: int, e: int, totalPages: int)
    requires 1 <= s <= e <= totalPages && e - s + 1 <= MaxVisiblePages
    requires |pages| == HeadLen(s) + (e - s + 1) + TailLen(e, totalPages)
    requires forall i :: 0 <= i < |pages| ==> pages[i] == NavItem(s, e, totalPages, i)
    ensures WindowBounded(pages, totalPages)
    ensures pages[0] == Page(1) && pages[|pages| - 1] == Page(totalPages)
  {
  }

  /** `generatePageNumbers()` */
  method GeneratePageNumbers(totalPages: int, currentPage: int) returns (pages: seq<PageItem>)
    ensures totalPages <= MaxVisiblePages ==> pages == Range(if totalPages < 0 then 0 else totalPages)
    ensures totalPages > MaxVisiblePages && 1 <= currentPage <= totalPages ==> pages == Nav(totalPages, currentPage)
    ensures totalPages > MaxVisiblePages && 1 <= currentPage <= totalPages ==> WellFormedNav(pages, totalPages, currentPage)
  {
    pages := [];
    if totalPages <= MaxVisiblePages {
      var i := 1;
      while i <= totalPages
        invariant 1 <= i <= (if totalPages < 1 then 1 else totalPages + 1)
        invariant pages == Range(i - 1)
      {
        pages := pages + [Page(i)];
        i := i + 1;
      }
    } else {
      var startPage := if 1 > currentPage - MaxVisiblePages / 2 then 1 else currentPage - MaxVisiblePages / 2;
      var endPage := if totalPages < startPage + MaxVisiblePages - 1 then totalPages else startPage + MaxVisiblePages - 1;
      assert startPage == WindowStart(currentPage) && endPage == WindowEnd(totalPages, currentPage);

      if startPage > 1 {
        pages := pages + [Page(1)];
        if startPage > 2 {
          pages := pages + [Ellipsis];
        }
      }
      var h := |pages|;
      assert h == HeadLen(startPage);

      var i := startPage;
      while i <= endPage
        invariant startPage <= i <= (if endPage < startPage then startPage else endPage + 1)
        invariant |pages| == h + (i - startPage)
        invariant forall k :: 0 <= k < |pages| ==> pages[k] == NavItem(startPage, endPage, totalPages, k)
      {
        pages := pages + [Page(i)];
        i := i + 1;
      }

      if endPage < totalPages {
        if endPage < totalPages - 1 {
          pages := pages + [Ellipsis];
        }
        pages := pages + [Page(totalPages)];
      }
      if 1 <= currentPage <= totalPages {
        assert pages == Nav(totalPages, currentPage);
        NavWellFormed(totalPages, currentPage);
      }
    }
  }
}
