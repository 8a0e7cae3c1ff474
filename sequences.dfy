/**
 * Array operations of the JavaScript runtime that the blog calls:
 * `Array.prototype.sort` with a numeric comparator (a stable sort, as
 * ECMAScript 2019 requires) and `Array.prototype.slice(0, end)`.
 *
 * A comparator of the form `(a, b) => key(b) - key(a)` orders by `key`,
 * largest first; equal keys compare as 0 and keep their input order.
 */
module Sequences {

  /** `s` is ordered by `key`, largest first. */
  predicate Descending<T>(s: seq<T>, key: T -> int) {
    forall i, j :: 0 <= i < j < |s| ==> key(s[i]) >= key(s[j])
  }

  /** Inserts `x` before the first element whose key is not larger than its own. */
  function Insert<T>(x: T, s: seq<T>, key: T -> int): (r: seq<T>)
    ensures |r| == |s| + 1 && multiset(r) == multiset(s) + multiset{x}
  {
    if s == [] || key(x) >= key(s[0]) then [x] + s
    else
      assert s == [s[0]] + s[1..];
      [s[0]] + Insert(x, s[1..], key)
  }

  /** Inserting into a descending sequence keeps it descending; the new head is `x` or the old one. */
  lemma {:induction false} InsertDescending<T>(x: T, s: seq<T>, key: T -> int)
    requires Descending(s, key)
    ensures Insert(x, s, key)[0] == x || (s != [] && Insert(x, s, key)[0] == s[0])
    ensures Descending(Insert(x, s, key), key)
  {
    var r := Insert(x, s, key);
    if s == [] || key(x) >= key(s[0]) {
      assert r == [x] + s;
      forall i, j | 0 <= i < j < |r| ensures key(r[i]) >= key(r[j]) {
        if i == 0 {
          assert r[j] == s[j - 1];
          assert key(s[0]) >= key(s[j - 1]);
        } else {
          assert r[i] == s[i - 1] && r[j] == s[j - 1];
        }
      }
    } else {
      var t := Insert(x, s[1..], key);
      assert r == [s[0]] + t;
      assert Descending(s[1..], key) by {
        forall i, j | 0 <= i < j < |s[1..]| ensures key(s[1..][i]) >= key(s[1..][j]) {
          assert s[1..][i] == s[i + 1] && s[1..][j] == s[j + 1];
        }
      }
      InsertDescending(x, s[1..], key);
      assert key(s[0]) >= key(t[0]) by {
        if t[0] != x {
          assert t[0] == s[1..][0] == s[1];
        }
      }
      forall i, j | 0 <= i < j < |r| ensures key(r[i]) >= key(r[j]) {
        assert r[j] == t[j - 1];
        if i == 0 {
          assert key(t[0]) >= key(t[j - 1]) || j - 1 == 0;
        } else {
          assert r[i] == t[i - 1];
        }
      }
    }
  }

  /**
   * The result of `[...s].sort((a, b) => key(b) - key(a))`: a permutation of
   * `s`, ordered by `key` from largest to smallest.
   */
  function SortDescending<T>(s: seq<T>, key: T -> int): (r: seq<T>)
    ensures |r| == |s| && multiset(r) == multiset(s)
    ensures Descending(r, key)
  {
    if s == [] then []
    else
      assert s == [s[0]] + s[1..];
      var sorted := SortDescending(s[1..], key);
      InsertDescending(s[0], sorted, key);
      Insert(s[0], sorted, key)
  }

  /** The elements of `s` whose key is `k`, in their order in `s`. */
  function WithKey<T>(s: seq<T>, key: T -> int, k: int): seq<T> {
    if s == [] then [] else (if key(s[0]) == k then [s[0]] else []) + WithKey(s[1..], key, k)
  }

  lemma {:induction false} WithKeyAppend<T>(a: seq<T>, b: seq<T>, key: T -> int, k: int)
    ensures WithKey(a + b, key, k) == WithKey(a, key, k) + WithKey(b, key, k)
  {
    if a != [] {
      assert (a + b)[0] == a[0] && (a + b)[1..] == a[1..] + b;
      WithKeyAppend(a[1..], b, key, k);
    } else {
      assert a + b == b;
    }
  }

  lemma {:induction false} InsertWithKey<T>(x: T, s: seq<T>, key: T -> int, k: int)
    ensures WithKey(Insert(x, s, key), key, k) == (if key(x) == k then [x] else []) + WithKey(s, key, k)
    decreases |s|, 1
  {
    if s == [] || key(x) >= key(s[0]) {
      WithKeyCons(x, s, key, k);
    } else {
      InsertBehindWithKey(x, s, key, k);
    }
  }

  /** The case where `x` goes behind the head of `s`. */
  lemma {:induction false} InsertBehindWithKey<T>(x: T, s: seq<T>, key: T -> int, k: int)
    requires s != [] && key(x) < key(s[0])
    ensures WithKey(Insert(x, s, key), key, k) == (if key(x) == k then [x] else []) + WithKey(s, key, k)
    decreases |s|, 0
  {
    var t := s[1..];
    var r := Insert(x, t, key);
    var xs: seq<T> := if key(x) == k then [x] else [];
    var heads: seq<T> := if key(s[0]) == k then [s[0]] else [];
    assert Insert(x, s, key) == [s[0]] + r;
    WithKeyCons(s[0], r, key, k);
    InsertWithKey(x, t, key, k);
    assert [s[0]] + t == s;
    WithKeyCons(s[0], t, key, k);
    // `s[0]` has a larger key than `x`, so at most one of them has key `k`
    SwapEmpty(heads, xs, WithKey(t, key, k));
  }

  lemma SwapEmpty<T>(a: seq<T>, b: seq<T>, c: seq<T>)
    requires a == [] || b == []
    ensures a + (b + c) == b + (a + c)
  {
    if a == [] {
      assert a + (b + c) == b + c == b + (a + c);
    } else {
      assert a + (b + c) == a + c == b + (a + c);
    }
  }

  lemma WithKeyCons<T>(y: T, t: seq<T>, key: T -> int, k: int)
    ensures WithKey([y] + t, key, k) == (if key(y) == k then [y] else []) + WithKey(t, key, k)
  {
    assert ([y] + t)[1..] == t;
  }

  /**
   * The sort is stable: for every key, the elements with that key appear in
   * the result in exactly the order they had in the input.
   */
  lemma {:induction false} SortIsStable<T>(s: seq<T>, key: T -> int, k: int)
    ensures WithKey(SortDescending(s, key), key, k) == WithKey(s, key, k)
  {
    if s != [] {
      SortIsStable(s[1..], key, k);
      InsertWithKey(s[0], SortDescending(s[1..], key), key, k);
    }
  }

  /** `s.slice(0, end)`: a negative `end` counts from the end of the array. */
  function SliceTo<T>(s: seq<T>, end: int): (r: seq<T>)
    ensures end >= 0 ==> |r| == if end < |s| then end else |s|
    ensures end < 0 ==> |r| == if |s| + end > 0 then |s| + end else 0
    ensures r <= s
  {
    var stop := if end < 0 then (if |s| + end > 0 then |s| + end else 0)
                else (if end < |s| then end else |s|);
    s[..stop]
  }

  /** Taking a prefix of a descending sequence keeps it descending. */
  lemma PrefixDescending<T>(s: seq<T>, p: seq<T>, key: T -> int)
    requires Descending(s, key) && p <= s
    ensures Descending(p, key)
  {
    forall i, j | 0 <= i < j < |p| ensures key(p[i]) >= key(p[j]) {
      assert p[i] == s[i] && p[j] == s[j];
    }
  }

  /** For every key, the elements of a prefix with that key are a prefix of those of the whole. */
  lemma {:induction false} PrefixWithKey<T>(s: seq<T>, p: seq<T>, key: T -> int, k: int)
    requires p <= s
    ensures WithKey(p, key, k) <= WithKey(s, key, k)
  {
    if p != [] {
      assert p[1..] <= s[1..];
      PrefixWithKey(s[1..], p[1..], key, k);
    }
  }
}
