/**
 * The array operations the store and the pages are built from, with the
 * semantics of JavaScript's `findIndex`, `find` and `filter`, plus the
 * "replace the first match" step that every `update*` operation performs.
 */
module Sequences {
  import opened Wrappers

  /** `a` is obtained from `b` by dropping elements: same elements, same relative order. */
  ghost predicate IsSubsequence<T>(a: seq<T>, b: seq<T>)
    decreases |b|
  {
    if b == [] then a == []
    else IsSubsequence(a, b[1..]) || (a != [] && a[0] == b[0] && IsSubsequence(a[1..], b[1..]))
  }

  /** `s.findIndex(p)`: the first index whose element satisfies `p`, or -1 when none does. */
  function IndexWhere<T>(s: seq<T>, p: T -> bool): (r: int)
    ensures -1 <= r < |s|
    ensures r == -1 <==> forall i :: 0 <= i < |s| ==> !p(s[i])
    ensures 0 <= r ==> p(s[r]) && forall i :: 0 <= i < r ==> !p(s[i])
  {
    if s == [] then -1
    else if p(s[0]) then 0
    else
      var k := IndexWhere(s[1..], p);
      assert forall i :: 1 <= i < |s| ==> s[i] == s[1..][i - 1];
      if k == -1 then -1 else k + 1
  }

  /** `s.find(p)`: the first element that satisfies `p`, if any. */
  function Find<T>(s: seq<T>, p: T -> bool): (r: Option<T>)
    ensures r.None? <==> forall i :: 0 <= i < |s| ==> !p(s[i])
    ensures r.Some? ==> r.value in s && p(r.value)
    ensures r.Some? ==> r == Some(s[IndexWhere(s, p)])
  {
    var i := IndexWhere(s, p);
    if i == -1 then None else Some(s[i])
  }

  /** `s.filter(p)`: exactly the elements satisfying `p`, in their original order. */
  function Filter<T(!new)>(s: seq<T>, p: T -> bool): (r: seq<T>)
    ensures |r| <= |s|
    ensures forall x :: x in r <==> x in s && p(x)
    ensures IsSubsequence(r, s)
  {
    if s == [] then []
    else
      var rest := Filter(s[1..], p);
      assert forall x :: x in s <==> x == s[0] || x in s[1..];
      if p(s[0]) then [s[0]] + rest else rest
  }

  /** `filter` keeps every copy of a kept element: its count is its count in `s`. */
  lemma {:induction false} FilterCounts<T(!new)>(s: seq<T>, p: T -> bool, x: T)
    ensures multiset(Filter(s, p))[x] == if p(x) then multiset(s)[x] else 0
  {
    if s != [] {
      var rest := s[1..];
      FilterCounts(rest, p, x);
      assert s == [s[0]] + rest;
      assert multiset(s) == multiset{s[0]} + multiset(rest);
      if p(s[0]) {
        assert Filter(s, p) == [s[0]] + Filter(rest, p);
        assert multiset(Filter(s, p)) == multiset{s[0]} + multiset(Filter(rest, p));
      } else {
        assert Filter(s, p) == Filter(rest, p);
      }
    }
  }

  /**
   * `s[i] = f(s[i])` at the first index where `p` holds, written as a recursion
   * over the sequence; its contract ties it to the `findIndex` formulation.
   */
  function UpdateFirst<T>(s: seq<T>, p: T -> bool, f: T -> T): (r: seq<T>)
    ensures |r| == |s|
    ensures IndexWhere(s, p) == -1 ==> r == s
    ensures IndexWhere(s, p) != -1 ==> r == s[IndexWhere(s, p) := f(s[IndexWhere(s, p)])]
  {
    if s == [] then []
    else if p(s[0]) then [f(s[0])] + s[1..]
    else [s[0]] + UpdateFirst(s[1..], p, f)
  }

  /** Being a subsequence is transitive. */
  lemma {:induction false} SubsequenceTransitive<T>(a: seq<T>, b: seq<T>, c: seq<T>)
    requires IsSubsequence(a, b) && IsSubsequence(b, c)
    ensures IsSubsequence(a, c)
    decreases |c|
  {
    if c == [] {
    } else if IsSubsequence(b, c[1..]) {
      SubsequenceTransitive(a, b, c[1..]);
    } else {
      assert b != [] && b[0] == c[0] && IsSubsequence(b[1..], c[1..]);
      if IsSubsequence(a, b[1..]) {
        SubsequenceTransitive(a, b[1..], c[1..]);
      } else {
        assert a != [] && a[0] == b[0] && IsSubsequence(a[1..], b[1..]);
        SubsequenceTransitive(a[1..], b[1..], c[1..]);
      }
    }
  }

  /** Filtering by a stronger condition keeps a subsequence of what the weaker one keeps. */
  lemma {:induction false} FilterStronger<T(!new)>(s: seq<T>, p: T -> bool, q: T -> bool)
    requires forall x :: x in s && p(x) ==> q(x)
    ensures IsSubsequence(Filter(s, p), Filter(s, q))
  {
    if s != [] {
      FilterStronger(s[1..], p, q);
      var a, b := Filter(s[1..], p), Filter(s[1..], q);
      if p(s[0]) {
        assert Filter(s, p) == [s[0]] + a && Filter(s, q) == [s[0]] + b;
        assert ([s[0]] + a)[1..] == a && ([s[0]] + b)[1..] == b;
      } else if q(s[0]) {
        assert Filter(s, q) == [s[0]] + b;
        assert ([s[0]] + b)[1..] == b;
      }
    }
  }

  /** A filter that rejects nothing in `s` returns `s` itself. */
  lemma {:induction false} FilterKeepsAll<T(!new)>(s: seq<T>, p: T -> bool)
    requires forall x :: x in s ==> p(x)
    ensures Filter(s, p) == s
  {
    if s != [] {
      FilterKeepsAll(s[1..], p);
    }
  }

  /**
   * Two conditions that disagree on every element split `s` in two: the two
   * filters together hold exactly the elements of `s`, each as often as in `s`.
   */
  lemma {:induction false} FilterPartition<T(!new)>(s: seq<T>, p: T -> bool, q: T -> bool)
    requires forall x :: x in s ==> p(x) != q(x)
    ensures multiset(Filter(s, p)) + multiset(Filter(s, q)) == multiset(s)
    ensures |Filter(s, p)| + |Filter(s, q)| == |s|
  {
    if s != [] {
      var rest := s[1..];
      FilterPartition(rest, p, q);
      assert s == [s[0]] + rest;
      assert multiset(s) == multiset{s[0]} + multiset(rest);
      if p(s[0]) {
        assert Filter(s, p) == [s[0]] + Filter(rest, p);
        assert multiset(Filter(s, p)) == multiset{s[0]} + multiset(Filter(rest, p));
        assert Filter(s, q) == Filter(rest, q);
      } else {
        assert Filter(s, p) == Filter(rest, p);
        assert Filter(s, q) == [s[0]] + Filter(rest, q);
        assert multiset(Filter(s, q)) == multiset{s[0]} + multiset(Filter(rest, q));
      }
    }
  }

  /** When the first match keeps satisfying `p` after `f`, it is still the first match. */
  lemma UpdateFirstKeepsIndex<T>(s: seq<T>, p: T -> bool, f: T -> T)
    requires IndexWhere(s, p) != -1 ==> p(f(s[IndexWhere(s, p)]))
    ensures IndexWhere(UpdateFirst(s, p, f), p) == IndexWhere(s, p)
  {
    var i := IndexWhere(s, p);
    var r := UpdateFirst(s, p, f);
    if i != -1 {
      assert forall j :: 0 <= j < i ==> r[j] == s[j];
    }
  }

  /**
   * When element `i` matches, the update lands on the first match at or
   * before `i`, which becomes `f` of itself; every other element stays.
   */
  lemma UpdateFirstAt<T>(s: seq<T>, p: T -> bool, f: T -> T, i: int)
    requires 0 <= i < |s| && p(s[i])
    ensures var k := IndexWhere(s, p);
      var r := UpdateFirst(s, p, f);
      && 0 <= k <= i && p(s[k])
      && |r| == |s| && r[k] == f(s[k])
      && forall j :: 0 <= j < |s| && j != k ==> r[j] == s[j]
  {
  }

  /** Every sequence is a subsequence of itself. */
  lemma {:induction false} SubsequenceReflexive<T>(s: seq<T>)
    ensures IsSubsequence(s, s)
  {
    if s != [] {
      SubsequenceReflexive(s[1..]);
    }
  }

  /** Filtering preserves being a subsequence. */
  lemma {:induction false} FilterMonotone<T(!new)>(a: seq<T>, b: seq<T>, p: T -> bool)
    requires IsSubsequence(a, b)
    ensures IsSubsequence(Filter(a, p), Filter(b, p))
    decreases |b|
  {
    if b == [] {
      assert a == [];
    } else {
      var fb := Filter(b[1..], p);
      assert Filter(b, p) == if p(b[0]) then [b[0]] + fb else fb;
      assert ([b[0]] + fb)[1..] == fb;
      if IsSubsequence(a, b[1..]) {
        FilterMonotone(a, b[1..], p);
      } else {
        assert a != [] && a[0] == b[0] && IsSubsequence(a[1..], b[1..]);
        FilterMonotone(a[1..], b[1..], p);
        var fa := Filter(a[1..], p);
        assert Filter(a, p) == if p(a[0]) then [a[0]] + fa else fa;
        assert ([a[0]] + fa)[1..] == fa;
      }
    }
  }

  /** Filtering a concatenation filters each part. */
  lemma {:induction false} FilterConcat<T(!new)>(a: seq<T>, b: seq<T>, p: T -> bool)
    ensures Filter(a + b, p) == Filter(a, p) + Filter(b, p)
  {
    if a == [] {
      assert a + b == b;
    } else {
      var ab := a + b;
      assert ab[0] == a[0] && ab[1..] == a[1..] + b;
      FilterConcat(a[1..], b, p);
      var rest := Filter(a[1..], p) + Filter(b, p);
      assert Filter(ab, p) == (if p(a[0]) then [a[0]] + rest else rest);
      assert Filter(a, p) == (if p(a[0]) then [a[0]] + Filter(a[1..], p) else Filter(a[1..], p));
    }
  }
}
