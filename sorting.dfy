/**
 * Ordering and filtering of query results: the in-memory meaning given to the
 * query builder's `order(...)`, `limit(...)` and equality/range filters.
 */
module Sorting {

  /** Non-decreasing by `key`. */
  ghost predicate SortedBy<T>(s: seq<T>, key: T -> int) {
    forall i, j :: 0 <= i < j < |s| ==> key(s[i]) <= key(s[j])
  }

  /** Non-increasing by `key`. */
  ghost predicate SortedDescBy<T>(s: seq<T>, key: T -> int) {
    forall i, j :: 0 <= i < j < |s| ==> key(s[i]) >= key(s[j])
  }

  /** Putting an element no larger than the head in front keeps a sequence sorted. */
  lemma ConsSorted<T>(a: T, s: seq<T>, key: T -> int)
    requires SortedBy(s, key) && (s != [] ==> key(a) <= key(s[0]))
    ensures SortedBy([a] + s, key)
  {
    var r := [a] + s;
    forall i, j | 0 <= i < j < |r| ensures key(r[i]) <= key(r[j]) {
      if i == 0 {
        assert r[j] == s[j - 1];
      } else {
        assert r[i] == s[i - 1] && r[j] == s[j - 1];
      }
    }
  }

  /** Putting an element no smaller than the head in front keeps a sequence descending. */
  lemma ConsSortedDesc<T>(a: T, s: seq<T>, key: T -> int)
    requires SortedDescBy(s, key) && (s != [] ==> key(a) >= key(s[0]))
    ensures SortedDescBy([a] + s, key)
  {
    var r := [a] + s;
    forall i, j | 0 <= i < j < |r| ensures key(r[i]) >= key(r[j]) {
      if i == 0 {
        assert r[j] == s[j - 1];
      } else {
        assert r[i] == s[i - 1] && r[j] == s[j - 1];
      }
    }
  }

  /** Inserts `x` before the first element whose key is not smaller, so equal keys keep their order. */
  function Insert<T>(x: T, s: seq<T>, key: T -> int): (r: seq<T>)
    requires SortedBy(s, key)
    ensures SortedBy(r, key)
    ensures multiset(r) == multiset(s) + multiset{x}
    ensures |r| == |s| + 1 && (r[0] == x || (s != [] && r[0] == s[0]))
  {
    if s == [] || key(x) <= key(s[0]) then
      ConsSorted(x, s, key);
      [x] + s
    else
      var tail := s[1..];
      assert s == [s[0]] + tail;
      assert SortedBy(tail, key) by {
        forall i, j | 0 <= i < j < |tail| ensures key(tail[i]) <= key(tail[j]) {
          assert tail[i] == s[i + 1] && tail[j] == s[j + 1];
        }
      }
      var rest := Insert(x, tail, key);
      assert key(s[0]) <= key(rest[0]) by {
        if rest[0] != x { assert rest[0] == s[1]; }
      }
      ConsSorted(s[0], rest, key);
      [s[0]] + rest
  }

  /** Orders `s` by ascending `key` (a stable insertion sort). */
  function SortBy<T>(s: seq<T>, key: T -> int): (r: seq<T>)
    ensures SortedBy(r, key)
    ensures multiset(r) == multiset(s)
    ensures |r| == |s|
  {
    if s == [] then []
    else
      assert s == [s[0]] + s[1..];
      Insert(s[0], SortBy(s[1..], key), key)
  }

  /** Orders `s` by descending `key`. */
  function SortDescBy<T>(s: seq<T>, key: T -> int): (r: seq<T>)
    ensures SortedDescBy(r, key)
    ensures multiset(r) == multiset(s)
    ensures |r| == |s|
  {
    var neg := (x: T) => -key(x);
    var r := SortBy(s, neg);
    assert forall i, j :: 0 <= i < j < |r| ==> neg(r[i]) <= neg(r[j]);
    r
  }

  /** `limit(n)`: the first `n` elements, or all of them when there are fewer. */
  function Take<T>(s: seq<T>, n: nat): (r: seq<T>)
    ensures |r| <= n && |r| <= |s|
    ensures |s| <= n ==> r == s
    ensures forall i :: 0 <= i < |r| ==> r[i] == s[i]
  {
    if |s| <= n then s else s[..n]
  }

  /** `filter(p)`: the elements satisfying `p`, in their original order. */
  function Filter<T>(s: seq<T>, p: T -> bool): (r: seq<T>)
    ensures forall i :: 0 <= i < |r| ==> r[i] in s && p(r[i])
    ensures forall i :: 0 <= i < |s| && p(s[i]) ==> s[i] in r
    ensures multiset(r) <= multiset(s)
    ensures |r| <= |s|
  {
    if s == [] then []
    else
      var tail := s[1..];
      var rest := Filter(tail, p);
      assert s == [s[0]] + tail;
      assert forall i :: 1 <= i < |s| ==> s[i] == tail[i - 1];
      assert forall y :: y in tail ==> y in s;
      if p(s[0]) then [s[0]] + rest else rest
  }

  /** Filtering keeps a sorted sequence sorted. */
  lemma {:induction false} FilterKeepsSorted<T>(s: seq<T>, p: T -> bool, key: T -> int)
    requires SortedBy(s, key)
    ensures SortedBy(Filter(s, p), key)
  {
    if s != [] {
      var tail := s[1..];
      assert SortedBy(tail, key) by {
        forall i, j | 0 <= i < j < |tail| ensures key(tail[i]) <= key(tail[j]) {
          assert tail[i] == s[i + 1] && tail[j] == s[j + 1];
        }
      }
      FilterKeepsSorted(tail, p, key);
      var rest := Filter(tail, p);
      if p(s[0]) {
        assert forall k :: 0 <= k < |rest| ==> rest[k] in tail;
        assert rest != [] ==> key(s[0]) <= key(rest[0]) by {
          if rest != [] {
            var m :| 0 <= m < |tail| && tail[m] == rest[0];
            assert s[m + 1] == rest[0];
          }
        }
        ConsSorted(s[0], rest, key);
      }
    }
  }

  /** Filtering keeps a descending sequence descending. */
  lemma {:induction false} FilterKeepsSortedDesc<T>(s: seq<T>, p: T -> bool, key: T -> int)
    requires SortedDescBy(s, key)
    ensures SortedDescBy(Filter(s, p), key)
  {
    if s != [] {
      var tail := s[1..];
      assert SortedDescBy(tail, key) by {
        forall i, j | 0 <= i < j < |tail| ensures key(tail[i]) >= key(tail[j]) {
          assert tail[i] == s[i + 1] && tail[j] == s[j + 1];
        }
      }
      FilterKeepsSortedDesc(tail, p, key);
      var rest := Filter(tail, p);
      if p(s[0]) {
        assert forall k :: 0 <= k < |rest| ==> rest[k] in tail;
        assert rest != [] ==> key(s[0]) >= key(rest[0]) by {
          if rest != [] {
            var m :| 0 <= m < |tail| && tail[m] == rest[0];
            assert s[m + 1] == rest[0];
          }
        }
        ConsSortedDesc(s[0], rest, key);
      }
    }
  }
  /** An element is kept by the filter exactly when it occurs in `s` and satisfies `p`. */
  lemma FilterMembers<T>(s: seq<T>, p: T -> bool)
    ensures forall x :: x in Filter(s, p) <==> x in s && p(x)
  {
    var r := Filter(s, p);
    forall x | x in r ensures x in s && p(x) {
      var i :| 0 <= i < |r| && r[i] == x;
    }
    forall x | x in s && p(x) ensures x in r {
      var i :| 0 <= i < |s| && s[i] == x;
    }
  }

  /** Two sequences with the same multiset hold the same elements. */
  lemma SameMembers<T>(s: seq<T>, r: seq<T>)
    requires multiset(r) == multiset(s)
    ensures forall x :: x in r <==> x in s
  {
    forall x ensures x in r <==> x in s {
      assert x in r <==> x in multiset(r);
      assert x in s <==> x in multiset(s);
    }
  }

  /**
   * The first `n` elements of a list sorted by descending `key` are taken
   * from it, and every element left behind has a key no larger than any
   * element taken.
   */
  lemma TakeSortedDesc<T>(s: seq<T>, key: T -> int, n: nat)
    requires SortedDescBy(s, key)
    ensures multiset(Take(s, n)) <= multiset(s)
    ensures forall x :: x in multiset(s) - multiset(Take(s, n)) ==>
      forall k :: 0 <= k < |Take(s, n)| ==> key(x) <= key(Take(s, n)[k])
  {
    var t := Take(s, n);
    if |s| > n {
      assert s == t + s[n..];
      assert multiset(s) == multiset(t) + multiset(s[n..]);
      assert multiset(s) - multiset(t) == multiset(s[n..]);
      forall x | x in multiset(s) - multiset(t)
        ensures forall k :: 0 <= k < |t| ==> key(x) <= key(t[k])
      {
        assert x in s[n..];
        var m :| 0 <= m < |s[n..]| && s[n..][m] == x;
        assert s[n + m] == x;
      }
    }
  }
}
