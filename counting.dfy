/**
 * Counting folds: how many elements of a sequence carry a given key, and the
 * fact that over a list of all possible keys those counts add up to the
 * length of the sequence.
 */
module Counting {

  /** The number of elements of `s` whose key is `k`. */
  function CountKey<T, K(==)>(s: seq<T>, key: T -> K, k: K): (n: nat)
    ensures n <= |s|
    ensures n == 0 <==> forall i :: 0 <= i < |s| ==> key(s[i]) != k
  {
    if s == [] then 0
    else
      var init := s[..|s| - 1];
      assert forall i :: 0 <= i < |init| ==> init[i] == s[i];
      CountKey(init, key, k) + (if key(s[|s| - 1]) == k then 1 else 0)
  }

  /** One more element adds one to the count of its own key and nothing to the others. */
  lemma CountKeyAppend<T, K>(s: seq<T>, x: T, key: T -> K, k: K)
    ensures CountKey(s + [x], key, k) == CountKey(s, key, k) + (if key(x) == k then 1 else 0)
  {
    assert (s + [x])[..|s|] == s;
  }

  /** How often `v` occurs in `keys`. */
  function Occurrences<K(==)>(keys: seq<K>, v: K): nat {
    if keys == [] then 0 else (if keys[0] == v then 1 else 0) + Occurrences(keys[1..], v)
  }

  /** The counts of `s` for each key in `keys`, added up. */
  function SumCounts<T, K(==)>(s: seq<T>, key: T -> K, keys: seq<K>): nat {
    if keys == [] then 0 else CountKey(s, key, keys[0]) + SumCounts(s, key, keys[1..])
  }

  lemma {:induction false} SumCountsAppend<T, K>(s: seq<T>, x: T, key: T -> K, keys: seq<K>)
    ensures SumCounts(s + [x], key, keys) == SumCounts(s, key, keys) + Occurrences(keys, key(x))
  {
    if keys != [] {
      CountKeyAppend(s, x, key, keys[0]);
      SumCountsAppend(s, x, key, keys[1..]);
    }
  }

  /**
   * When every key of `s` occurs exactly once in `keys`, the per-key counts
   * add up to the length of `s`.
   */
  lemma {:induction false} SumCountsTotal<T, K>(s: seq<T>, key: T -> K, keys: seq<K>)
    requires forall i :: 0 <= i < |s| ==> Occurrences(keys, key(s[i])) == 1
    ensures SumCounts(s, key, keys) == |s|
  {
    if s == [] {
      SumCountsEmpty(key, keys);
    } else {
      var init := s[..|s| - 1];
      assert s == init + [s[|s| - 1]];
      SumCountsTotal(init, key, keys);
      SumCountsAppend(init, s[|s| - 1], key, keys);
    }
  }

  lemma {:induction false} SumCountsEmpty<T, K>(key: T -> K, keys: seq<K>)
    ensures SumCounts([], key, keys) == 0
  {
    if keys != [] {
      SumCountsEmpty(key, keys[1..]);
    }
  }

  /** A value absent from `keys` occurs there zero times. */
  lemma {:induction false} NoOccurrences<K>(keys: seq<K>, v: K)
    requires v !in keys
    ensures Occurrences(keys, v) == 0
  {
    if keys != [] {
      assert v !in keys[1..];
      NoOccurrences(keys[1..], v);
    }
  }

  /** A value found at exactly one index occurs exactly once. */
  lemma {:induction false} OccursOnce<K>(keys: seq<K>, v: K, i: nat)
    requires i < |keys| && keys[i] == v
    requires forall j :: 0 <= j < |keys| && keys[j] == v ==> j == i
    ensures Occurrences(keys, v) == 1
  {
    if i == 0 {
      assert v !in keys[1..] by {
        forall j | 0 <= j < |keys[1..]| ensures keys[1..][j] != v {
          assert keys[1..][j] == keys[j + 1];
        }
      }
      NoOccurrences(keys[1..], v);
    } else {
      assert keys[1..][i - 1] == v;
      forall j | 0 <= j < |keys[1..]| && keys[1..][j] == v ensures j == i - 1 {
        assert keys[j + 1] == v;
      }
      OccursOnce(keys[1..], v, i - 1);
    }
  }
}
