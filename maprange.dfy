/** Go's `for k := range m` and `m[k]` on maps.

    Go leaves the order of a map range unspecified and may pick a different
    one every time; the model takes that order as an explicit sequence that
    lists each key exactly once. */
module MapRange {

  predicate NoDup<T(==)>(s: seq<T>)
  {
    forall i, j :: 0 <= i < j < |s| ==> s[i] != s[j]
  }

  /** `order` is one of the orders in which `range` may visit `keys`. */
  ghost predicate IsOrderOf<K(!new)>(order: seq<K>, keys: set<K>)
  {
    NoDup(order) && (forall k :: k in order <==> k in keys)
  }

  /** A list without repetitions holds each element of its set once. */
  lemma {:induction false} NoDupMultiset<T(!new)>(s: seq<T>, elems: set<T>)
    requires NoDup(s) && forall x :: x in s <==> x in elems
    ensures multiset(s) == multiset(elems)
  {
    if s == [] {
      assert forall x :: x !in elems;
      assert elems == {};
    } else {
      var last, init := s[|s| - 1], s[..|s| - 1];
      assert s == init + [last];
      assert last !in init by {
        forall k | 0 <= k < |init| ensures init[k] != last {
          assert init[k] == s[k];
        }
      }
      forall x ensures x in init <==> x in elems - {last} {
        if x in init {
          var k :| 0 <= k < |init| && init[k] == x;
          assert s[k] == x;
        }
        if x in elems - {last} {
          assert x in s;
          var k :| 0 <= k < |s| && s[k] == x;
          assert k < |init| && init[k] == x;
        }
      }
      assert NoDup(init) by {
        forall i, j | 0 <= i < j < |init| ensures init[i] != init[j] {
          assert init[i] == s[i] && init[j] == s[j];
        }
      }
      NoDupMultiset(init, elems - {last});
      assert elems == (elems - {last}) + {last};
      assert multiset(elems) == multiset(elems - {last}) + multiset{last};
    }
  }

  /** A range over a map visits as many keys as the map has. */
  lemma OrderLength<K(!new)>(order: seq<K>, keys: set<K>)
    requires IsOrderOf(order, keys)
    ensures |order| == |keys|
  {
    NoDupMultiset(order, keys);
    assert |multiset(order)| == |order|;
    assert |multiset(keys)| == |keys|;
  }

  /** Go's `m[k]` on a `map[string]bool`: a missing key reads as false. */
  function Lookup(m: map<string, bool>, k: string): bool
  {
    k in m && m[k]
  }

  /** The keys whose flag is true. */
  function Flagged(m: map<string, bool>): set<string>
  {
    set k | k in m && m[k]
  }

  /** The entries of `m` whose key is also in `keys`. */
  function Restrict(m: map<string, bool>, keys: set<string>): (r: map<string, bool>)
    ensures forall k :: Lookup(r, k) <==> Lookup(m, k) && k in keys
  {
    map k | k in m && k in keys :: m[k]
  }

  /** The keys of `order` whose flag in `m` is true, in visiting order. */
  function Selected(order: seq<string>, m: map<string, bool>): (r: seq<string>)
    ensures forall k :: k in r <==> k in order && Lookup(m, k)
    ensures NoDup(order) ==> NoDup(r)
  {
    if order == [] then []
    else
      var init, last := order[..|order| - 1], order[|order| - 1];
      assert order == init + [last];
      assert NoDup(order) ==> NoDup(init) && last !in init by {
        if NoDup(order) {
          forall i, j | 0 <= i < j < |init| ensures init[i] != init[j] {
            assert init[i] == order[i] && init[j] == order[j];
          }
          forall k | 0 <= k < |init| ensures init[k] != last {
            assert init[k] == order[k];
          }
        }
      }
      Selected(init, m) + (if Lookup(m, last) then [last] else [])
  }

  /** Visiting one more key keeps it when its flag is true. */
  lemma SelectedPrefixStep(order: seq<string>, i: nat, m: map<string, bool>)
    requires i < |order|
    ensures Selected(order[..i + 1], m) == Selected(order[..i], m) + (if Lookup(m, order[i]) then [order[i]] else [])
  {
    assert order[..i + 1][..i] == order[..i];
  }

  /** A prefix of a prefix is a prefix. */
  lemma PrefixOfPrefix<T>(s: seq<T>, n: nat, k: nat)
    requires k <= n <= |s|
    ensures s[..n][..k] == s[..k]
  {
  }

  /** The prefix one longer is the prefix and the next element. */
  lemma NextPrefix<T>(s: seq<T>, k: nat)
    requires k < |s|
    ensures s[..k] + [s[k]] == s[..k + 1]
  {
  }

  /** The `i`th key of a range is new: it is not among those visited before it. */
  lemma NoDupPrefixStep<T>(order: seq<T>, i: nat)
    requires NoDup(order) && i < |order|
    ensures order[..i + 1] == order[..i] + [order[i]]
    ensures order[i] !in order[..i]
  {
    assert order[..i + 1] == order[..i] + [order[i]];
  }

  /** Visiting every key of `m` and keeping the true ones keeps each flagged key once. */
  lemma SelectedMultiset(order: seq<string>, m: map<string, bool>)
    requires IsOrderOf(order, m.Keys)
    ensures multiset(Selected(order, m)) == multiset(Flagged(m))
  {
    NoDupMultiset(Selected(order, m), Flagged(m));
  }

  /** `a` is `b` with some elements left out, the rest in the same order. */
  predicate IsSubsequence<T(==)>(a: seq<T>, b: seq<T>)
    decreases |b|
  {
    if a == [] then true
    else if b == [] then false
    else if a[|a| - 1] == b[|b| - 1] then IsSubsequence(a[..|a| - 1], b[..|b| - 1])
    else IsSubsequence(a, b[..|b| - 1])
  }

  /** Appending to the longer list keeps a subsequence a subsequence. */
  lemma {:induction false} SubsequenceSnoc<T>(a: seq<T>, b: seq<T>, x: T)
    requires IsSubsequence(a, b)
    ensures IsSubsequence(a, b + [x])
    decreases |b|, 1
  {
    assert (b + [x])[..|b|] == b;
    if a != [] && a[|a| - 1] == x {
      SubsequenceDropLast(a, b);
    }
  }

  /** Dropping the last element of a subsequence keeps it a subsequence. */
  lemma {:induction false} SubsequenceDropLast<T>(a: seq<T>, b: seq<T>)
    requires a != [] && IsSubsequence(a, b)
    ensures IsSubsequence(a[..|a| - 1], b)
    decreases |b|, 0
  {
    var b', y := b[..|b| - 1], b[|b| - 1];
    assert b == b' + [y];
    if a[|a| - 1] == y {
      SubsequenceSnoc(a[..|a| - 1], b', y);
    } else {
      SubsequenceDropLast(a, b');
      SubsequenceSnoc(a[..|a| - 1], b', y);
    }
  }

  /** Appending the same element to both lists keeps a subsequence. */
  lemma SnocSubsequence<T>(a: seq<T>, b: seq<T>, x: T)
    requires IsSubsequence(a, b)
    ensures IsSubsequence(a + [x], b + [x])
  {
    assert (a + [x])[..|a|] == a;
    assert (b + [x])[..|b|] == b;
  }
}
