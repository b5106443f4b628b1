/**
 * The record table: its view state (search term, sort key and direction,
 * current page), the handlers that change it, and the pipeline that turns
 * the records into the visible page: filter, sort, slice, page buttons.
 */
module RecordsTable {
  import opened Types
  import opened RecordFilter
  import opened RecordSort
  import opened Pagination
  import opened PageNumbers

  /**
   * `filteredAndSortedRecords`: the records matching the search term, copied
   * into a fresh array by `filter` and sorted there in place.
   */
  method FilterAndSort(records: seq<PokyRecord>, searchTerm: string, field: SortField, order: SortOrder)
    returns (r: seq<PokyRecord>)
    ensures multiset(r) == multiset(Filter(records, searchTerm))
    ensures Sorted(r, field, order)
  {
    var filtered := Filter(records, searchTerm);
    var a := new PokyRecord[|filtered|](i requires 0 <= i < |filtered| => filtered[i]);
    assert a[..] == filtered;
    SortInPlace(a, field, order);
    r := a[..];
  }

  /** The sorted list holds exactly the matching records, each as often as in the input. */
  lemma SortedListContents(records: seq<PokyRecord>, searchTerm: string, r: seq<PokyRecord>, x: PokyRecord)
    requires multiset(r) == multiset(Filter(records, searchTerm))
    ensures |r| == |Filter(records, searchTerm)|
    ensures multiset(r)[x] == if Matches(x, searchTerm) then multiset(records)[x] else 0
  {
    FilterCount(records, searchTerm, x);
    assert |multiset(r)| == |multiset(Filter(records, searchTerm))|;
  }

  class TableView {
    var searchTerm: string
    var sortField: SortField
    var sortOrder: SortOrder
    var currentPage: int

    /** Initial state: no search term, newest first, first page. */
    constructor ()
      ensures searchTerm == "" && sortField == Timestamp && sortOrder == Desc && currentPage == 1
    {
      searchTerm := "";
      sortField := Timestamp;
      sortOrder := Desc;
      currentPage := 1;
    }

    /** `handleSort`: the current key flips direction, another key starts descending; back to page 1. */
    method HandleSort(field: SortField)
      modifies this
      ensures old(sortField) == field ==> sortField == field && sortOrder == (if old(sortOrder) == Asc then Desc else Asc)
      ensures old(sortField) != field ==> sortField == field && sortOrder == Desc
      ensures currentPage == 1
      ensures searchTerm == old(searchTerm)
    {
      if sortField == field {
        sortOrder := if sortOrder == Asc then Desc else Asc;
      } else {
        sortField := field;
        sortOrder := Desc;
      }
      currentPage := 1;
    }

    /** `handlePageChange`: only the page changes. */
    method HandlePageChange(page: int)
      modifies this
      ensures currentPage == page
      ensures searchTerm == old(searchTerm) && sortField == old(sortField) && sortOrder == old(sortOrder)
    {
      currentPage := page;
    }

    /** Typing in the search box: the new term, and back to page 1. */
    method HandleSearchInput(term: string)
      modifies this
      ensures searchTerm == term && currentPage == 1
      ensures sortField == old(sortField) && sortOrder == old(sortOrder)
    {
      searchTerm := term;
      currentPage := 1;
    }

    /**
     * What the table shows for the given records: the filtered and sorted
     * list, the number of pages, the current page of that list and the page
     * buttons. The button bar is only shown when there is more than one page;
     * with at most one page it is empty.
     */
    method Render(records: seq<PokyRecord>)
      returns (list: seq<PokyRecord>, totalPages: nat, shown: seq<PokyRecord>, buttons: seq<PageItem>)
      ensures multiset(list) == multiset(Filter(records, searchTerm))
      ensures Sorted(list, sortField, sortOrder)
      ensures totalPages == TotalPages(|list|)
      ensures shown == PageRecords(list, currentPage)
      ensures Sorted(shown, sortField, sortOrder) && multiset(shown) <= multiset(list)
      ensures 1 <= currentPage <= totalPages ==> shown != []
      ensures totalPages <= 1 ==> buttons == []
      ensures 1 < totalPages <= MaxVisiblePages ==> buttons == Range(totalPages)
      ensures totalPages > MaxVisiblePages && 1 <= currentPage <= totalPages
              ==> buttons == Nav(totalPages, currentPage) && WellFormedNav(buttons, totalPages, currentPage)
    {
      list := FilterAndSort(records, searchTerm, sortField, sortOrder);
      totalPages := TotalPages(|list|);
      shown := PageRecords(list, currentPage);
      SortedSlice(list, currentPage, sortField, sortOrder);
      if 1 <= currentPage <= totalPages {
        PageEmptiness(list, currentPage);
      }
      if totalPages > 1 {
        buttons := GeneratePageNumbers(totalPages, currentPage);
      } else {
        buttons := [];
      }
    }
  }

  /** A page of a sorted list is sorted and is part of the list. */
  lemma SortedSlice(s: seq<PokyRecord>, page: int, field: SortField, order: SortOrder)
    requires Sorted(s, field, order)
    ensures Sorted(PageRecords(s, page), field, order)
    ensures multiset(PageRecords(s, page)) <= multiset(s)
  {
    var from, to := SliceIndex(StartIndex(page), |s|), SliceIndex(StartIndex(page) + RecordsPerPage, |s|);
    if from < to {
      assert PageRecords(s, page) == s[from..to];
      SortedRange(s, from, to, field, order);
      RangeSubMultiset(s, from, to);
    }
  }

  lemma SortedRange(s: seq<PokyRecord>, from: int, to: int, field: SortField, order: SortOrder)
    requires 0 <= from <= to <= |s| && Sorted(s, field, order)
    ensures Sorted(s[from..to], field, order)
  {
    forall i, j | 0 <= i < j < to - from
      ensures InOrder(s[from..to][i], s[from..to][j], field, order)
    {
      assert s[from..to][i] == s[from + i] && s[from..to][j] == s[from + j];
    }
  }

  lemma RangeSubMultiset<T>(s: seq<T>, from: int, to: int)
    requires 0 <= from <= to <= |s|
    ensures multiset(s[from..to]) <= multiset(s)
  {
    assert s == s[..from] + s[from..to] + s[to..];
  }
}
