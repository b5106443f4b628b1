/**
 * The search box of the record list: a record is kept when its lower-cased
 * employee name contains the lower-cased search term. Filtering is
 * order-preserving and keeps every matching record (with its multiplicity).
 */
module RecordFilter {
  import opened Types
  import opened Text

  predicate Matches(r: PokyRecord, searchTerm: string)
  {
    Contains(Lower(r.employee), Lower(searchTerm))
  }

  /** The search filter: keeps, in order, the records whose lower-cased name contains the lower-cased term. */
  function Filter(records: seq<PokyRecord>, searchTerm: string): (r: seq<PokyRecord>)
    ensures |r| <= |records|
    ensures forall i :: 0 <= i < |r| ==> Matches(r[i], searchTerm)
    ensures forall x :: x in r ==> x in records
  {
    if records == [] then []
    else (if Matches(records[0], searchTerm) then [records[0]] else [])
         + Filter(records[1..], searchTerm)
  }

  /** Filtering a concatenation filters each part: the kept records stay in their original relative order. */
  lemma {:induction false} FilterAppend(a: seq<PokyRecord>, b: seq<PokyRecord>, searchTerm: string)
    ensures Filter(a + b, searchTerm) == Filter(a, searchTerm) + Filter(b, searchTerm)
    decreases |a|
  {
    if a != [] {
      assert (a + b)[1..] == a[1..] + b;
      FilterAppend(a[1..], b, searchTerm);
    } else {
      assert a + b == b;
    }
  }

  /** Exactly the matching records are kept, each as often as it occurs in the input. */
  lemma {:induction false} FilterCount(records: seq<PokyRecord>, searchTerm: string, x: PokyRecord)
    ensures multiset(Filter(records, searchTerm))[x]
         == if Matches(x, searchTerm) then multiset(records)[x] else 0
    decreases |records|
  {
    if records != [] {
      FilterCount(records[1..], searchTerm, x);
      assert records == [records[0]] + records[1..];
    }
  }

  /** A record is in the filtered list iff it is in the input and matches. */
  lemma FilterMembership(records: seq<PokyRecord>, searchTerm: string, x: PokyRecord)
    ensures x in Filter(records, searchTerm) <==> x in records && Matches(x, searchTerm)
  {
    FilterCount(records, searchTerm, x);
  }

  /** The empty search term (the initial state of the search box) keeps every record. */
  lemma {:induction false} FilterEmptyTerm(records: seq<PokyRecord>)
    ensures Filter(records, "") == records
    decreases |records|
  {
    if records != [] {
      ContainsEmpty(Lower(records[0].employee));
      FilterEmptyTerm(records[1..]);
    }
  }
}
