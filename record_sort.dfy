/**
 * Sorting of the filtered record list by timestamp or by name, ascending or
 * descending, with the comparator of the table: -1 / 1 / 0 from `<` and `>`
 * on the chosen key, flipped for descending order. The list is sorted in place.
 */
module RecordSort {
  import opened Types
  import opened Text

  datatype SortField = Timestamp | Employee

  datatype SortOrder = Asc | Desc

  /** `aValue < bValue` for the key the table sorts by. */
  predicate KeyLt(a: PokyRecord, b: PokyRecord, field: SortField)
  {
    match field
    case Timestamp => a.timestamp < b.timestamp
    case Employee => StrLt(a.employee, b.employee)
  }

  /** The comparator handed to `Array.prototype.sort`. */
  function Compare(a: PokyRecord, b: PokyRecord, field: SortField, order: SortOrder): int
  {
    if KeyLt(a, b, field) then (if order == Asc then -1 else 1)
    else if KeyLt(b, a, field) then (if order == Asc then 1 else -1)
    else 0
  }

  /** a may stand before b in the sorted list. */
  predicate InOrder(a: PokyRecord, b: PokyRecord, field: SortField, order: SortOrder)
  {
    Compare(a, b, field, order) <= 0
  }

  predicate Sorted(s: seq<PokyRecord>, field: SortField, order: SortOrder)
  {
    forall i, j :: 0 <= i < j < |s| ==> InOrder(s[i], s[j], field, order)
  }

  lemma KeyLtAsymmetric(a: PokyRecord, b: PokyRecord, field: SortField)
    requires KeyLt(a, b, field)
    ensures !KeyLt(b, a, field)
  {
    if field == Employee {
      StrLtAsymmetric(a.employee, b.employee);
    }
  }

  /** In ascending order a record may precede another iff its key is not larger; in descending order iff not smaller. */
  lemma InOrderMeaning(a: PokyRecord, b: PokyRecord, field: SortField, order: SortOrder)
    ensures order == Asc ==> (InOrder(a, b, field, order) <==> !KeyLt(b, a, field))
    ensures order == Desc ==> (InOrder(a, b, field, order) <==> !KeyLt(a, b, field))
  {
    if KeyLt(a, b, field) {
      KeyLtAsymmetric(a, b, field);
    }
  }

  /** Any two records can be put in order one way round: the comparator is total. */
  lemma InOrderTotal(a: PokyRecord, b: PokyRecord, field: SortField, order: SortOrder)
    ensures InOrder(a, b, field, order) || InOrder(b, a, field, order)
  {
    InOrderMeaning(a, b, field, order);
    InOrderMeaning(b, a, field, order);
    if KeyLt(a, b, field) {
      KeyLtAsymmetric(a, b, field);
    }
  }

  lemma KeyNotLtTransitive(a: PokyRecord, b: PokyRecord, c: PokyRecord, field: SortField)
    requires !KeyLt(b, a, field) && !KeyLt(c, b, field)
    ensures !KeyLt(c, a, field)
  {
    if field == Employee && StrLt(c.employee, a.employee) {
      StrLtTrichotomy(a.employee, b.employee);
      if StrLt(a.employee, b.employee) {
        StrLtTransitive(c.employee, a.employee, b.employee);
      }
    }
  }

  lemma InOrderTransitive(a: PokyRecord, b: PokyRecord, c: PokyRecord, field: SortField, order: SortOrder)
    requires InOrder(a, b, field, order) && InOrder(b, c, field, order)
    ensures InOrder(a, c, field, order)
  {
    InOrderMeaning(a, b, field, order);
    InOrderMeaning(b, c, field, order);
    InOrderMeaning(a, c, field, order);
    if order == Asc {
      KeyNotLtTransitive(a, b, c, field);
    } else {
      KeyNotLtTransitive(c, b, a, field);
    }
  }

  /**
   * `filtered.sort(comparator)`: sorts the array in place. Insertion by adjacent
   * swaps, exchanging only when the comparator answers 1, so equal keys keep
   * their relative order as in the stable sort of the JavaScript engine.
   */
  method SortInPlace(a: array<PokyRecord>, field: SortField, order: SortOrder)
    modifies a
    ensures Sorted(a[..], field, order)
    ensures multiset(a[..]) == old(multiset(a[..]))
  {
    if a.Length == 0 {
      return;
    }
    var i := 1;
    while i < a.Length
      invariant 1 <= i <= a.Length
      invariant Sorted(a[..i], field, order)
      invariant multiset(a[..]) == old(multiset(a[..]))
    {
      InsertLast(a, i, field, order);
      i := i + 1;
    }
    assert a[..] == a[..a.Length];
  }

  /** Moves a[i] left past every element that the comparator puts after it, extending the sorted prefix by one. */
  method InsertLast(a: array<PokyRecord>, i: nat, field: SortField, order: SortOrder)
    requires i < a.Length
    requires Sorted(a[..i], field, order)
    modifies a
    ensures Sorted(a[..i + 1], field, order)
    ensures multiset(a[..]) == old(multiset(a[..]))
    ensures a[i + 1..] == old(a[i + 1..])
  {
    var j := i;
    while j > 0 && Compare(a[j - 1], a[j], field, order) > 0
      invariant 0 <= j <= i
      invariant forall p, q :: 0 <= p < q <= i && p != j && q != j ==> InOrder(a[p], a[q], field, order)
      invariant forall q :: j < q <= i ==> InOrder(a[j], a[q], field, order)
      invariant multiset(a[..]) == old(multiset(a[..]))
      invariant a[i + 1..] == old(a[i + 1..])
    {
      InOrderTotal(a[j - 1], a[j], field, order);
      SwapAdjacent(a, j);
      j := j - 1;
    }
    forall p | 0 <= p < j
      ensures InOrder(a[p], a[j], field, order)
    {
      if p < j - 1 {
        InOrderTransitive(a[p], a[j - 1], a[j], field, order);
      }
    }
  }

  method SwapAdjacent(a: array<PokyRecord>, k: nat)
    requires 0 < k < a.Length
    modifies a
    ensures a[k - 1] == old(a[k]) && a[k] == old(a[k - 1])
    ensures forall m :: 0 <= m < a.Length && m != k - 1 && m != k ==> a[m] == old(a[m])
    ensures multiset(a[..]) == old(multiset(a[..]))
  {
    a[k - 1], a[k] := a[k], a[k - 1];
  }
}
