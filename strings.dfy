/** Go's ordering of strings and `sort.Strings`.

    Go compares strings byte by byte; for UTF-8 text that is the same order
    as comparing code points, which is what `Le` does on `seq<char>`. */
module Strings {

  /** Go's `a <= b` on strings: lexicographic, a proper prefix comes first. */
  predicate Le(a: string, b: string)
  {
    |a| == 0 || (|b| > 0 && (a[0] < b[0] || (a[0] == b[0] && Le(a[1..], b[1..]))))
  }

  lemma {:induction false} LeTotal(a: string, b: string)
    ensures Le(a, b) || Le(b, a)
  {
    if |a| > 0 && |b| > 0 && a[0] == b[0] {
      LeTotal(a[1..], b[1..]);
    }
  }

  lemma {:induction false} LeTransitive(a: string, b: string, c: string)
    requires Le(a, b) && Le(b, c)
    ensures Le(a, c)
  {
    if |a| > 0 && a[0] == b[0] && b[0] == c[0] {
      LeTransitive(a[1..], b[1..], c[1..]);
    }
  }

  lemma {:induction false} LeAntisymmetric(a: string, b: string)
    requires Le(a, b) && Le(b, a)
    ensures a == b
  {
    if |a| > 0 {
      LeAntisymmetric(a[1..], b[1..]);
      assert a == [a[0]] + a[1..];
      assert b == [b[0]] + b[1..];
    }
  }

  /** Strings that agree on their first `k` characters compare as their rests do. */
  lemma {:induction false} LeCommonPrefix(a: string, b: string, k: nat)
    requires k <= |a| && k <= |b| && a[..k] == b[..k]
    ensures Le(a, b) <==> Le(a[k..], b[k..])
  {
    if k > 0 {
      assert a[0] == a[..k][0] && b[0] == b[..k][0];
      assert a[1..][..k - 1] == a[..k][1..] && b[1..][..k - 1] == b[..k][1..];
      LeCommonPrefix(a[1..], b[1..], k - 1);
      assert a[1..][k - 1..] == a[k..] && b[1..][k - 1..] == b[k..];
    }
  }

  /** Every earlier element is at most every later one. */
  predicate Sorted(s: seq<string>)
  {
    forall i, j :: 0 <= i < j < |s| ==> Le(s[i], s[j])
  }

  /** A list whose first two elements are out of order is not sorted. */
  lemma UnsortedPair(s: seq<string>)
    requires |s| >= 2 && !Le(s[0], s[1])
    ensures !Sorted(s)
  {
  }

  /** Places `x` before the first element it does not exceed. */
  function Insert(x: string, s: seq<string>): (r: seq<string>)
    ensures multiset(r) == multiset(s) + multiset{x}
  {
    if s == [] then [x]
    else if Le(x, s[0]) then [x] + s
    else
      assert s == [s[0]] + s[1..];
      [s[0]] + Insert(x, s[1..])
  }

  lemma {:induction false} InsertSorted(x: string, s: seq<string>)
    requires Sorted(s)
    ensures Sorted(Insert(x, s))
  {
    if s == [] {
    } else if Le(x, s[0]) {
      InsertFrontSorted(x, s);
    } else {
      SortedTail(s);
      InsertSorted(x, s[1..]);
      InsertAfterHeadSorted(x, s);
    }
  }

  /** `x` placed before a sorted list whose head it does not exceed. */
  lemma InsertFrontSorted(x: string, s: seq<string>)
    requires Sorted(s) && s != [] && Le(x, s[0])
    ensures Sorted([x] + s)
  {
    forall j | 0 <= j < |s|
      ensures Le(x, s[j])
    {
      if j > 0 { LeTransitive(x, s[0], s[j]); }
    }
    var r := [x] + s;
    assert forall j :: 0 < j < |r| ==> r[j] == s[j - 1];
  }

  /** A lower bound of `x` and of every element of `t` bounds the insertion. */
  lemma {:induction false} InsertLowerBound(lo: string, x: string, t: seq<string>)
    requires Le(lo, x) && forall k :: 0 <= k < |t| ==> Le(lo, t[k])
    ensures forall k :: 0 <= k < |Insert(x, t)| ==> Le(lo, Insert(x, t)[k])
  {
    if t != [] && !Le(x, t[0]) {
      InsertLowerBound(lo, x, t[1..]);
      var it := Insert(x, t[1..]);
      var r := [t[0]] + it;
      assert forall k :: 0 < k < |r| ==> r[k] == it[k - 1];
    } else if t != [] {
      var r := [x] + t;
      assert forall k :: 0 < k < |r| ==> r[k] == t[k - 1];
    }
  }

  /** The head of a sorted list, followed by the sorted insertion of `x` into
      its tail, when `x` comes after the head. */
  lemma InsertAfterHeadSorted(x: string, s: seq<string>)
    requires Sorted(s) && s != [] && !Le(x, s[0]) && Sorted(Insert(x, s[1..]))
    ensures Sorted([s[0]] + Insert(x, s[1..]))
  {
    LeTotal(x, s[0]);
    var t := s[1..];
    assert forall k :: 0 <= k < |t| ==> t[k] == s[k + 1];
    InsertLowerBound(s[0], x, t);
    var it := Insert(x, t);
    var r := [s[0]] + it;
    assert forall j :: 0 < j < |r| ==> r[j] == it[j - 1];
  }

  /** Insertion sort: the value `sort.Strings` leaves in a slice. */
  function Sort(s: seq<string>): (r: seq<string>)
    ensures multiset(r) == multiset(s)
  {
    if s == [] then []
    else
      assert s == s[..|s| - 1] + [s[|s| - 1]];
      Insert(s[|s| - 1], Sort(s[..|s| - 1]))
  }

  lemma {:induction false} SortSorted(s: seq<string>)
    ensures Sorted(Sort(s))
  {
    if s != [] {
      SortSorted(s[..|s| - 1]);
      InsertSorted(s[|s| - 1], Sort(s[..|s| - 1]));
    }
  }

  lemma SortedTail(s: seq<string>)
    requires Sorted(s) && s != []
    ensures Sorted(s[1..])
  {
    var t := s[1..];
    forall x, y | 0 <= x < y < |t| ensures Le(t[x], t[y]) {
      assert t[x] == s[x + 1] && t[y] == s[y + 1];
    }
  }

  /** The head of a sorted list is at most any element of it. */
  lemma SortedHeadLe(s: seq<string>, x: string)
    requires Sorted(s) && x in multiset(s)
    ensures Le(s[0], x)
  {
    var k :| 0 <= k < |s| && s[k] == x;
    if k == 0 { LeTotal(x, x); }
  }

  /** Two sorted lists with the same elements are the same list: the result of
      sorting does not depend on the order the elements arrived in. */
  lemma {:induction false} SortedUnique(a: seq<string>, b: seq<string>)
    requires Sorted(a) && Sorted(b) && multiset(a) == multiset(b)
    ensures a == b
  {
    if a == [] {
      assert |multiset(b)| == 0;
    } else {
      assert |multiset(b)| == |a|;
      assert a[0] in multiset(a) && b[0] in multiset(b);
      SortedHeadLe(b, a[0]);
      SortedHeadLe(a, b[0]);
      LeAntisymmetric(a[0], b[0]);
      assert a == [a[0]] + a[1..];
      assert b == [b[0]] + b[1..];
      assert multiset(a[1..]) == multiset(a) - multiset{a[0]};
      assert multiset(b[1..]) == multiset(b) - multiset{b[0]};
      SortedTail(a);
      SortedTail(b);
      SortedUnique(a[1..], b[1..]);
    }
  }

  /** Sorting two permutations of one list gives one result. */
  lemma SortPermutationInvariant(a: seq<string>, b: seq<string>)
    requires multiset(a) == multiset(b)
    ensures Sort(a) == Sort(b)
  {
    SortSorted(a);
    SortSorted(b);
    SortedUnique(Sort(a), Sort(b));
  }

  /** `sort.Strings`: sorts in increasing order, keeping every element. */
  method SortStrings(s: seq<string>) returns (r: seq<string>)
    ensures Sorted(r) && multiset(r) == multiset(s)
    ensures r == Sort(s)
  {
    r := [];
    for i := 0 to |s|
      invariant r == Sort(s[..i])
    {
      assert s[..i + 1][..i] == s[..i];
      r := Insert(s[i], r);
    }
    assert s[..|s|] == s;
    SortSorted(s);
  }

  /** Formats built as prefix + value + suffix determine the value. */
  lemma AffixInjective(pre: string, a: string, b: string, suf: string)
    requires pre + a + suf == pre + b + suf
    ensures a == b
  {
    var s := pre + a + suf;
    assert |a| == |b|;
    assert a == s[|pre|..|pre| + |a|];
    assert b == (pre + b + suf)[|pre|..|pre| + |b|];
  }
}
