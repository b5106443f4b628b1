/**
 * The two string operations the record list relies on: case-insensitive
 * substring search (`toLowerCase().includes(...)`) and the `<` comparison of
 * strings used when the list is sorted by name.
 */
module Text {

  /** Lower-cases one character; only the ASCII letters A-Z are mapped. */
  function LowerChar(c: char): (r: char)
    ensures 'A' <= c <= 'Z' ==> 'a' <= r <= 'z' && r as int - c as int == 32
    ensures !('A' <= c <= 'Z') ==> r == c
  {
    if 'A' <= c <= 'Z' then (c as int + 32) as char else c
  }

  function Lower(s: string): (r: string)
    ensures |r| == |s|
    ensures forall i :: 0 <= i < |s| ==> r[i] == LowerChar(s[i])
  {
    seq(|s|, i requires 0 <= i < |s| => LowerChar(s[i]))
  }

  predicate IsPrefix(t: string, s: string)
  {
    |t| <= |s| && s[..|t|] == t
  }

  /** `s.includes(t)`: t occurs in s at some position (the empty string occurs everywhere). */
  predicate Contains(s: string, t: string)
    decreases |s|
  {
    IsPrefix(t, s) || (|s| > 0 && Contains(s[1..], t))
  }

  /** t occurs in s starting at index i. */
  predicate OccursAt(s: string, t: string, i: int)
  {
    0 <= i <= |s| - |t| && s[i..i + |t|] == t
  }

  /** Contains agrees with the direct definition: some window of s equals t. */
  lemma {:induction false} ContainsIff(s: string, t: string)
    ensures Contains(s, t) <==> exists i :: OccursAt(s, t, i)
    decreases |s|
  {
    if Contains(s, t) {
      if IsPrefix(t, s) {
        assert OccursAt(s, t, 0);
      } else {
        ContainsIff(s[1..], t);
        var i :| OccursAt(s[1..], t, i);
        assert s[i + 1..i + 1 + |t|] == s[1..][i..i + |t|];
        assert OccursAt(s, t, i + 1);
      }
    }
    if exists i :: OccursAt(s, t, i) {
      var i :| OccursAt(s, t, i);
      if i == 0 {
        assert IsPrefix(t, s);
      } else {
        assert s[1..][i - 1..i - 1 + |t|] == s[i..i + |t|];
        assert OccursAt(s[1..], t, i - 1);
        ContainsIff(s[1..], t);
      }
    }
  }

  lemma ContainsEmpty(s: string)
    ensures Contains(s, "")
  {
    assert IsPrefix("", s);
  }

  /**
   * JavaScript's `a < b` on strings: lexicographic comparison, element by
   * element, where a proper prefix is smaller.
   */
  predicate StrLt(a: string, b: string)
    decreases |a|
  {
    if |a| == 0 then |b| > 0
    else if |b| == 0 then false
    else if a[0] != b[0] then a[0] < b[0]
    else StrLt(a[1..], b[1..])
  }

  lemma {:induction false} StrLtIrreflexive(a: string)
    ensures !StrLt(a, a)
    decreases |a|
  {
    if |a| > 0 {
      StrLtIrreflexive(a[1..]);
    }
  }

  lemma {:induction false} StrLtTransitive(a: string, b: string, c: string)
    requires StrLt(a, b) && StrLt(b, c)
    ensures StrLt(a, c)
    decreases |a|
  {
    if |a| > 0 && a[0] == b[0] && b[0] == c[0] {
      StrLtTransitive(a[1..], b[1..], c[1..]);
    }
  }

  /** Two strings are equal or one is smaller: `<` is a strict total order. */
  lemma {:induction false} StrLtTrichotomy(a: string, b: string)
    ensures a == b || StrLt(a, b) || StrLt(b, a)
    decreases |a|
  {
    if |a| > 0 && |b| > 0 && a[0] == b[0] {
      StrLtTrichotomy(a[1..], b[1..]);
      if a[1..] == b[1..] {
        assert a == [a[0]] + a[1..] && b == [b[0]] + b[1..];
      }
    }
  }

  lemma StrLtAsymmetric(a: string, b: string)
    requires StrLt(a, b)
    ensures !StrLt(b, a)
  {
    if StrLt(b, a) {
      StrLtTransitive(a, b, a);
      StrLtIrreflexive(a);
    }
  }
}
