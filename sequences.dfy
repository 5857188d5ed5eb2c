// Python's sorted() on a list of numbers, and the ordering facts the callers use.
module Sequences {

  predicate Sorted(s: seq<real>)
  {
    forall i, j :: 0 <= i < j < |s| ==> s[i] <= s[j]
  }

  /** Insert x into a sorted sequence before the first element larger than it. */
  function Insert(x: real, s: seq<real>): (r: seq<real>)
    requires Sorted(s)
    ensures Sorted(r)
    ensures multiset(r) == multiset(s) + multiset{x}
    ensures |r| == |s| + 1
  {
    if s == [] then [x]
    else if x <= s[0] then [x] + s
    else
      var rest := Insert(x, s[1..]);
      assert multiset(s) == multiset{s[0]} + multiset(s[1..]) by { assert s == [s[0]] + s[1..]; }
      LowerBoundKept(s[0], x, s[1..], rest);
      ConsSorted(s[0], rest);
      [s[0]] + rest
  }

  /** A lower bound of x and of every element of s bounds every element of a permutation of s + [x]. */
  lemma LowerBoundKept(y: real, x: real, s: seq<real>, r: seq<real>)
    requires multiset(r) == multiset(s) + multiset{x}
    requires y <= x && forall i :: 0 <= i < |s| ==> y <= s[i]
    ensures forall i :: 0 <= i < |r| ==> y <= r[i]
  {
    forall i | 0 <= i < |r|
      ensures y <= r[i]
    {
      assert r[i] in multiset(r);
      if r[i] != x {
        assert r[i] in multiset(s);
        var k :| 0 <= k < |s| && s[k] == r[i];
      }
    }
  }

  lemma ConsSorted(y: real, r: seq<real>)
    requires Sorted(r) && forall i :: 0 <= i < |r| ==> y <= r[i]
    ensures Sorted([y] + r)
  {
    var c := [y] + r;
    forall i, j | 0 <= i < j < |c|
      ensures c[i] <= c[j]
    {
      assert c[j] == r[j - 1];
      if i > 0 {
        assert c[i] == r[i - 1];
      }
    }
  }

  /** sorted(s): the ascending permutation of s. */
  function SortAscending(s: seq<real>): (r: seq<real>)
    ensures Sorted(r)
    ensures multiset(r) == multiset(s)
    ensures |r| == |s|
  {
    if s == [] then []
    else
      assert s == s[..|s| - 1] + [s[|s| - 1]];
      Insert(s[|s| - 1], SortAscending(s[..|s| - 1]))
  }

  /**
   * r is the k smallest elements of s in ascending order: together with the
   * rest of sorted(s) it is a permutation of s, and no kept element exceeds a
   * dropped one.
   */
  predicate SmallestK(r: seq<real>, s: seq<real>, k: nat)
  {
    |r| == k && k <= |s| && Sorted(r) &&
    var rest := SortAscending(s)[k..];
    multiset(r) + multiset(rest) == multiset(s) && AllAtMost(r, rest)
  }

  /** r is the k largest elements of s in ascending order, in the same sense. */
  predicate LargestK(r: seq<real>, s: seq<real>, k: nat)
  {
    |r| == k && k <= |s| && Sorted(r) &&
    var rest := SortAscending(s)[..|s| - k];
    multiset(rest) + multiset(r) == multiset(s) && AllAtMost(rest, r)
  }

  /** No element of lo exceeds any element of hi. */
  predicate AllAtMost(lo: seq<real>, hi: seq<real>)
  {
    forall i, j :: 0 <= i < |lo| && 0 <= j < |hi| ==> lo[i] <= hi[j]
  }

  /** sorted(s)[:k] holds the k smallest elements. */
  lemma SortedPrefixSmallest(s: seq<real>, k: nat)
    requires k <= |s|
    ensures SmallestK(SortAscending(s)[..k], s, k)
  {
    CutOfSorted(SortAscending(s), s, k);
  }

  /** sorted(s)[-k:] holds the k largest elements. */
  lemma SortedSuffixLargest(s: seq<real>, k: nat)
    requires k <= |s|
    ensures LargestK(SortAscending(s)[|s| - k..], s, k)
  {
    var t := SortAscending(s);
    var m := |s| - k;
    CutOfSorted(t, s, m);
    var rest, r := t[..m], t[m..];
    assert |r| == k;
    assert Sorted(r);
    assert multiset(rest) + multiset(r) == multiset(s);
    assert AllAtMost(rest, r);
  }

  /** Cutting an ascending permutation t of s at m: the facts both predicates need. */
  lemma CutOfSorted(t: seq<real>, s: seq<real>, m: nat)
    requires Sorted(t) && multiset(t) == multiset(s) && |t| == |s| && m <= |t|
    ensures Sorted(t[..m]) && Sorted(t[m..])
    ensures multiset(t[..m]) + multiset(t[m..]) == multiset(s)
    ensures AllAtMost(t[..m], t[m..])
  {
    SortedSplit(t, m);
    forall i, j | 0 <= i < m && 0 <= j < |t| - m
      ensures t[..m][i] <= t[m..][j]
    {
      assert t[..m][i] == t[i] && t[m..][j] == t[m + j];
    }
  }

  /** Both parts of a sorted sequence are sorted, and nothing before the cut exceeds anything after it. */
  lemma SortedSplit(t: seq<real>, m: nat)
    requires Sorted(t) && m <= |t|
    ensures Sorted(t[..m]) && Sorted(t[m..])
    ensures multiset(t[..m]) + multiset(t[m..]) == multiset(t)
    ensures forall i, j :: 0 <= i < m <= j < |t| ==> t[i] <= t[j]
  {
    var a, b := t[..m], t[m..];
    forall i, j | 0 <= i < j < |a|
      ensures a[i] <= a[j]
    {
      assert a[i] == t[i] && a[j] == t[j];
    }
    forall i, j | 0 <= i < j < |b|
      ensures b[i] <= b[j]
    {
      assert b[i] == t[m + i] && b[j] == t[m + j];
    }
    assert t == a + b;
  }
}
