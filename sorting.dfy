/** Python's `sorted(xs, key=...)`: a stable sort. It is written here as an
    insertion sort over an integer key and proved to return an ascending
    permutation of its input that keeps the input order among elements with equal
    keys. */
module Sorting {

  predicate SortedBy<T>(s: seq<T>, key: T -> int) {
    forall i, j | 0 <= i < j < |s| :: key(s[i]) <= key(s[j])
  }

  /** The elements of `s` whose key is `k`, in the order of `s`. */
  function WithKey<T>(s: seq<T>, key: T -> int, k: int): seq<T> {
    if s == [] then []
    else (if key(s[0]) == k then [s[0]] else []) + WithKey(s[1..], key, k)
  }

  /** Places `x` in front of the first element whose key is not below its own. */
  function Insert<T>(x: T, s: seq<T>, key: T -> int): (r: seq<T>)
    ensures multiset(r) == multiset(s) + multiset{x}
    ensures |r| == |s| + 1
  {
    if s == [] || key(x) <= key(s[0]) then [x] + s
    else
      assert s == [s[0]] + s[1..];
      [s[0]] + Insert(x, s[1..], key)
  }

  /** `sorted(s, key=key)`. */
  function SortBy<T>(s: seq<T>, key: T -> int): (r: seq<T>)
    ensures multiset(r) == multiset(s)
    ensures |r| == |s|
  {
    if s == [] then []
    else
      assert s == [s[0]] + s[1..];
      Insert(s[0], SortBy(s[1..], key), key)
  }

  lemma {:induction false} InsertSorted<T>(x: T, s: seq<T>, key: T -> int)
    requires SortedBy(s, key)
    ensures SortedBy(Insert(x, s, key), key)
  {
    if s != [] && key(x) > key(s[0]) {
      InsertSorted(x, s[1..], key);
      var t := Insert(x, s[1..], key);
      assert forall i | 0 <= i < |t| :: key(s[0]) <= key(t[i]) by {
        forall i | 0 <= i < |t|
          ensures key(s[0]) <= key(t[i])
        {
          assert t[i] in multiset(t);
          assert t[i] in multiset(s[1..]) + multiset{x};
          if t[i] in multiset(s[1..]) {
            var j :| 0 <= j < |s[1..]| && s[1..][j] == t[i];
            assert s[j + 1] == t[i];
          }
        }
      }
    }
  }

  /** The result of `SortBy` is in ascending key order. */
  lemma {:induction false} SortBySorted<T>(s: seq<T>, key: T -> int)
    ensures SortedBy(SortBy(s, key), key)
  {
    if s != [] {
      SortBySorted(s[1..], key);
      InsertSorted(s[0], SortBy(s[1..], key), key);
    }
  }

  lemma WithKeyCons<T>(x: T, s: seq<T>, key: T -> int, k: int)
    ensures WithKey([x] + s, key, k) == (if key(x) == k then [x] else []) + WithKey(s, key, k)
  {
    assert ([x] + s)[1..] == s;
  }

  lemma {:induction false} InsertKeepsKeyOrder<T>(x: T, s: seq<T>, key: T -> int, k: int)
    ensures WithKey(Insert(x, s, key), key, k) == WithKey([x] + s, key, k)
  {
    if s != [] && key(x) > key(s[0]) {
      var y, rest := s[0], s[1..];
      assert s == [y] + rest;
      var a := if key(y) == k then [y] else [];
      var b := if key(x) == k then [x] else [];
      calc {
        WithKey(Insert(x, s, key), key, k);
        WithKey([y] + Insert(x, rest, key), key, k);
        { WithKeyCons(y, Insert(x, rest, key), key, k); }
        a + WithKey(Insert(x, rest, key), key, k);
        { InsertKeepsKeyOrder(x, rest, key, k); WithKeyCons(x, rest, key, k); }
        a + (b + WithKey(rest, key, k));
        { assert key(y) == k ==> key(x) != k; }
        b + (a + WithKey(rest, key, k));
        { WithKeyCons(y, rest, key, k); }
        b + WithKey(s, key, k);
        { WithKeyCons(x, s, key, k); }
        WithKey([x] + s, key, k);
      }
    }
  }

  /** Stability: among the elements with any one key, `SortBy` keeps the input
      order, as Python's `sorted` promises. */
  lemma {:induction false} SortByStable<T>(s: seq<T>, key: T -> int, k: int)
    ensures WithKey(SortBy(s, key), key, k) == WithKey(s, key, k)
  {
    if s != [] {
      SortByStable(s[1..], key, k);
      InsertKeepsKeyOrder(s[0], SortBy(s[1..], key), key, k);
      WithKeyCons(s[0], SortBy(s[1..], key), key, k);
      WithKeyCons(s[0], s[1..], key, k);
      assert [s[0]] + s[1..] == s;
    }
  }

  /** An input already in key order comes back unchanged. */
  lemma {:induction false} SortBySortedInput<T>(s: seq<T>, key: T -> int)
    requires SortedBy(s, key)
    ensures SortBy(s, key) == s
  {
    if s != [] {
      assert SortedBy(s[1..], key);
      SortBySortedInput(s[1..], key);
      assert s == [s[0]] + s[1..];
    }
  }
}
