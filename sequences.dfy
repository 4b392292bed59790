/** Generic facts about sequences used by several parts of the model. */
module Sequences {

  /** `s` read from back to front. */
  function Reversed<T>(s: seq<T>): (r: seq<T>)
    ensures |r| == |s|
  {
    if s == [] then [] else Reversed(s[1..]) + [s[0]]
  }

  /** Position `i` of the reversal holds position `|s| - 1 - i` of `s`. */
  lemma {:induction false} ReversedAt<T>(s: seq<T>)
    ensures forall i :: 0 <= i < |s| ==> Reversed(s)[i] == s[|s| - 1 - i]
  {
    if s != [] {
      ReversedAt(s[1..]);
    }
  }

  /** No element occurs twice. */
  predicate NoDup<T(==)>(s: seq<T>) {
    forall i, j :: 0 <= i < j < |s| ==> s[i] != s[j]
  }

  /** The elements of `s` that satisfy `p`, in order (`Array.prototype.filter`). */
  function Filter<T(==, !new)>(s: seq<T>, p: T -> bool): (r: seq<T>)
    ensures |r| <= |s|
    ensures forall x :: x in r <==> x in s && p(x)
  {
    if s == [] then [] else (if p(s[0]) then [s[0]] else []) + Filter(s[1..], p)
  }

  /** Filtering a concatenation filters each part. */
  lemma {:induction false} FilterConcat<T(!new)>(a: seq<T>, b: seq<T>, p: T -> bool)
    ensures Filter(a + b, p) == Filter(a, p) + Filter(b, p)
  {
    if a == [] {
      assert a + b == b;
    } else {
      assert (a + b)[0] == a[0] && (a + b)[1..] == a[1..] + b;
      FilterConcat(a[1..], b, p);
    }
  }

  /** Filtering keeps every element when all satisfy the predicate, and none when none do. */
  lemma {:induction false} FilterAllOrNone<T(!new)>(s: seq<T>, p: T -> bool)
    ensures (forall x :: x in s ==> p(x)) ==> Filter(s, p) == s
    ensures (forall x :: x in s ==> !p(x)) ==> Filter(s, p) == []
  {
    if s != [] {
      assert forall x :: x in s[1..] ==> x in s;
      FilterAllOrNone(s[1..], p);
      assert s == [s[0]] + s[1..];
      assert s[0] in s;
    }
  }

  /** A permutation of `a` holds `a[0]` somewhere, and without it is a permutation of `a[1..]`. */
  lemma PermutationSplit<T>(a: seq<T>, b: seq<T>) returns (j: nat)
    requires a != [] && multiset(a) == multiset(b)
    ensures j < |b| && b[j] == a[0]
    ensures multiset(a[1..]) == multiset(b[..j] + b[j + 1..])
  {
    var x := a[0];
    assert x in multiset(b);
    j :| 0 <= j < |b| && b[j] == x;
    var rest := b[..j] + b[j + 1..];
    assert b == b[..j] + [x] + b[j + 1..];
    assert a == [x] + a[1..];
    assert multiset(rest) == multiset(b[..j]) + multiset(b[j + 1..]);
    forall y ensures multiset(a[1..])[y] == multiset(rest)[y] {
      assert multiset(a)[y] == multiset(b)[y];
    }
    assert multiset(a[1..]) == multiset(rest);
  }

  /** The first position of `x` in `s` (`indexOf`). */
  function IndexOf<T(==)>(s: seq<T>, x: T): (i: nat)
    requires x in s
    ensures i < |s| && s[i] == x && x !in s[..i]
  {
    if s[0] == x then 0 else 1 + IndexOf(s[1..], x)
  }

  lemma {:induction false} IndexOfPrefix<T>(s: seq<T>, t: seq<T>, x: T)
    requires x in s
    ensures IndexOf(s + t, x) == IndexOf(s, x)
  {
    if s[0] != x {
      assert (s + t)[1..] == s[1..] + t;
      IndexOfPrefix(s[1..], t, x);
    }
  }

  /** Each element of `s` once, in order of first occurrence (`[...new Set(s)]`). */
  function Distinct<T(==, !new)>(s: seq<T>): (r: seq<T>)
    ensures forall x :: x in r <==> x in s
    ensures NoDup(r)
  {
    if s == [] then []
    else
      var r := Distinct(s[..|s| - 1]);
      var x := s[|s| - 1];
      assert s == s[..|s| - 1] + [x];
      if x in r then r else r + [x]
  }

  /** Distinct lists the elements in the order in which they first occur. */
  lemma {:induction false} DistinctFirstOccurrenceOrder<T(!new)>(s: seq<T>)
    ensures forall i, j :: 0 <= i < j < |Distinct(s)| ==> IndexOf(s, Distinct(s)[i]) < IndexOf(s, Distinct(s)[j])
  {
    if s != [] {
      var front, x := s[..|s| - 1], s[|s| - 1];
      assert s == front + [x];
      DistinctFirstOccurrenceOrder(front);
      var r0 := Distinct(front);
      var r := Distinct(s);
      forall y | y in front ensures IndexOf(s, y) == IndexOf(front, y) {
        IndexOfPrefix(front, [x], y);
      }
      if x !in r0 {
        assert x !in front;
        assert IndexOf(s, x) == |front|;
        forall i, j | 0 <= i < j < |r| ensures IndexOf(s, r[i]) < IndexOf(s, r[j]) {
          assert r[i] == r0[i] && r[i] in front;
          assert IndexOf(s, r[i]) == IndexOf(front, r0[i]);
          if j < |r0| {
            assert r[j] == r0[j] && r[j] in front;
            assert IndexOf(s, r[j]) == IndexOf(front, r0[j]);
            assert IndexOf(front, r0[i]) < IndexOf(front, r0[j]);
          } else {
            assert r[j] == x;
          }
        }
      } else {
        forall i, j | 0 <= i < j < |r| ensures IndexOf(s, r[i]) < IndexOf(s, r[j]) {
          assert r[i] in front && r[j] in front;
        }
      }
    }
  }

  /** Keys never increase from left to right. */
  predicate Descending<T>(s: seq<T>, key: T -> int) {
    forall i, j :: 0 <= i < j < |s| ==> key(s[i]) >= key(s[j])
  }

  /** Inserts `x` into `s` in front of the first element whose key is not larger than key(x). */
  function InsertDesc<T(==)>(x: T, s: seq<T>, key: T -> int): (r: seq<T>)
    ensures |r| == |s| + 1
    ensures multiset(r) == multiset(s) + multiset{x}
    ensures forall j :: 0 <= j < |r| ==> r[j] == x || r[j] in s
  {
    if s == [] then [x]
    else if key(s[0]) <= key(x) then [x] + s
    else
      assert s == [s[0]] + s[1..];
      [s[0]] + InsertDesc(x, s[1..], key)
  }

  lemma {:induction false} InsertDescSorted<T>(x: T, s: seq<T>, key: T -> int)
    requires Descending(s, key)
    ensures Descending(InsertDesc(x, s, key), key)
  {
    if s != [] && key(s[0]) > key(x) {
      var rest := InsertDesc(x, s[1..], key);
      InsertDescSorted(x, s[1..], key);
      forall j | 0 <= j < |rest| ensures key(rest[j]) <= key(s[0]) {
        if rest[j] != x {
          var k :| 0 <= k < |s[1..]| && s[1..][k] == rest[j];
          assert s[k + 1] == rest[j];
        }
      }
      assert InsertDesc(x, s, key) == [s[0]] + rest;
    }
  }

  /**
   * Stable sort by non-increasing key: `s.sort((a, b) => key(b) - key(a))`, where the
   * ECMAScript sort keeps elements with equal keys in their original order.
   */
  function SortDesc<T(==)>(s: seq<T>, key: T -> int): (r: seq<T>)
    ensures |r| == |s|
    ensures multiset(r) == multiset(s)
    ensures Descending(r, key)
  {
    if s == [] then []
    else
      assert s == [s[0]] + s[1..];
      InsertDescSorted(s[0], SortDesc(s[1..], key), key);
      InsertDesc(s[0], SortDesc(s[1..], key), key)
  }

  /** The first `k` elements (`slice(0, k)`). */
  function Take<T>(s: seq<T>, k: nat): (r: seq<T>)
    ensures |r| == if |s| <= k then |s| else k
    ensures r <= s
  {
    if |s| <= k then s else s[..k]
  }

  /**
   * The first `k` elements of the sorted sequence are a largest-`k` selection: they come
   * from `s`, keep the order, and no element left out has a larger key than one kept.
   */
  lemma {:induction false} TopOf<T>(s: seq<T>, key: T -> int, k: nat)
    ensures var top := Take(SortDesc(s, key), k);
      && |top| == (if |s| <= k then |s| else k)
      && Descending(top, key)
      && (forall x :: x in top ==> x in s)
      && (forall x, y :: x in s && x !in top && y in top ==> key(y) >= key(x))
  {
    var sorted := SortDesc(s, key);
    var top := Take(sorted, k);
    forall x | x in top ensures x in s {
      assert x in multiset(sorted);
    }
    forall x, y | x in s && x !in top && y in top ensures key(y) >= key(x) {
      assert x in multiset(sorted);
      var j :| 0 <= j < |sorted| && sorted[j] == x;
      var i :| 0 <= i < |top| && top[i] == y;
      assert sorted[i] == y;
    }
  }

  /** `[x]` when the key of `x` is `v`, and nothing otherwise. */
  function KeyHead<T>(x: T, key: T -> int, v: int): seq<T> {
    if key(x) == v then [x] else []
  }

  /** The elements of `s` whose key is `v`, in order. */
  function WithKey<T>(s: seq<T>, key: T -> int, v: int): (r: seq<T>)
    ensures |r| <= |s|
  {
    if s == [] then [] else KeyHead(s[0], key, v) + WithKey(s[1..], key, v)
  }

  lemma WithKeyCons<T>(x: T, s: seq<T>, key: T -> int, v: int)
    ensures WithKey([x] + s, key, v) == KeyHead(x, key, v) + WithKey(s, key, v)
  {
    assert ([x] + s)[0] == x && ([x] + s)[1..] == s;
  }

  lemma {:induction false} WithKeyNone<T>(s: seq<T>, key: T -> int, v: int)
    requires forall j :: 0 <= j < |s| ==> key(s[j]) != v
    ensures WithKey(s, key, v) == []
  {
    if s != [] {
      assert key(s[0]) != v;
      WithKeyNone(s[1..], key, v);
    }
  }

  lemma SwapEmpty<T>(a: seq<T>, b: seq<T>, c: seq<T>)
    requires a == [] || b == []
    ensures a + (b + c) == b + (a + c)
  {
    if a == [] {
      assert a + (b + c) == b + c == b + (a + c);
    } else {
      assert a + (b + c) == a + c == b + (a + c);
    }
  }

  /** Inserting `x` puts it in front of every element with the same key. */
  lemma {:induction false} InsertDescWithKey<T>(x: T, s: seq<T>, key: T -> int, v: int)
    requires Descending(s, key)
    ensures WithKey(InsertDesc(x, s, key), key, v) == KeyHead(x, key, v) + WithKey(s, key, v)
  {
    if s == [] {
      assert InsertDesc(x, s, key) == [x] + s;
      WithKeyCons(x, s, key, v);
    } else if key(s[0]) <= key(x) {
      assert InsertDesc(x, s, key) == [x] + s;
      WithKeyCons(x, s, key, v);
    } else {
      var rest := InsertDesc(x, s[1..], key);
      assert InsertDesc(x, s, key) == [s[0]] + rest;
      assert s == [s[0]] + s[1..];
      WithKeyCons(s[0], rest, key, v);
      WithKeyCons(s[0], s[1..], key, v);
      assert Descending(s[1..], key);
      InsertDescWithKey(x, s[1..], key, v);
      var h0, hx, w := KeyHead(s[0], key, v), KeyHead(x, key, v), WithKey(s[1..], key, v);
      // `s[0]` ranks above `x`, so at most one of them has key `v`
      assert h0 == [] || hx == [];
      SwapEmpty(h0, hx, w);
    }
  }

  /**
   * The sort is stable: for every key, the elements with that key keep their relative order
   * (as ECMAScript 2019 requires of `Array.prototype.sort`).
   */
  lemma {:induction false} SortDescStable<T>(s: seq<T>, key: T -> int, v: int)
    ensures WithKey(SortDesc(s, key), key, v) == WithKey(s, key, v)
  {
    if s != [] {
      SortDescStable(s[1..], key, v);
      InsertDescWithKey(s[0], SortDesc(s[1..], key), key, v);
      WithKeyCons(s[0], s[1..], key, v);
      assert s == [s[0]] + s[1..];
    }
  }

  /** Sorting a sequence that is already in order changes nothing. */
  lemma {:induction false} SortDescOfDescending<T>(s: seq<T>, key: T -> int)
    requires Descending(s, key)
    ensures SortDesc(s, key) == s
  {
    if s != [] {
      assert Descending(s[1..], key);
      SortDescOfDescending(s[1..], key);
      if |s| > 1 {
        assert key(s[1]) <= key(s[0]);
      }
    }
  }
}
