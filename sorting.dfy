/**
 * Python's `lst.sort(key=key, reverse=True)`: a stable sort into descending key order.
 * `SortDesc` is a reference definition (insertion, one element at a time, each new
 * element placed after every element whose key is not smaller). The lemmas below prove
 * what Python promises of the library sort: the result is ordered by descending key, it
 * is a permutation of the input, and elements with equal keys keep their input order.
 */
module Sorting {

  /** `le` is total and transitive on keys: the order Python's `<` comparisons induce. */
  ghost predicate TotalPreorder<K(!new)>(le: (K, K) -> bool) {
    && (forall a, b :: le(a, b) || le(b, a))
    && (forall a, b, c :: le(a, b) && le(b, c) ==> le(a, c))
  }

  /** Keys never increase from left to right. */
  predicate SortedDesc<T, K>(s: seq<T>, key: T -> K, le: (K, K) -> bool) {
    forall i, j :: 0 <= i < j < |s| ==> le(key(s[j]), key(s[i]))
  }

  /** Every key in `s` is at most `k`. */
  predicate AllAtMost<T, K>(s: seq<T>, key: T -> K, le: (K, K) -> bool, k: K) {
    forall i :: 0 <= i < |s| ==> le(key(s[i]), k)
  }

  /** The elements of `s` whose key is `k`, in their order in `s`. */
  function WithKey<T, K(==)>(s: seq<T>, key: T -> K, k: K): (r: seq<T>)
    ensures |r| <= |s|
  {
    if s == [] then [] else (if key(s[0]) == k then [s[0]] else []) + WithKey(s[1..], key, k)
  }

  /** No two elements of `s` agree on `f`. */
  predicate DistinctBy<T, U(==)>(s: seq<T>, f: T -> U) {
    forall i, j :: 0 <= i < j < |s| ==> f(s[i]) != f(s[j])
  }

  function MapSeq<T, U>(f: T -> U, s: seq<T>): (r: seq<U>)
    ensures |r| == |s| && forall i :: 0 <= i < |s| ==> r[i] == f(s[i])
  {
    if s == [] then [] else [f(s[0])] + MapSeq(f, s[1..])
  }

  /** Place `x` after the leading elements whose key is at least `x`'s. */
  function Insert<T, K>(x: T, s: seq<T>, key: T -> K, le: (K, K) -> bool): seq<T> {
    if s == [] then [x]
    else if le(key(x), key(s[0])) then [s[0]] + Insert(x, s[1..], key, le)
    else [x] + s
  }

  /** The stable descending sort of `s` by `key`. */
  function SortDesc<T, K>(s: seq<T>, key: T -> K, le: (K, K) -> bool): seq<T> {
    if s == [] then []
    else Insert(s[|s| - 1], SortDesc(s[..|s| - 1], key, le), key, le)
  }

  /** Inserting adds exactly one occurrence of `x`. */
  lemma {:induction false} InsertPermutation<T, K>(x: T, s: seq<T>, key: T -> K, le: (K, K) -> bool)
    ensures multiset(Insert(x, s, key, le)) == multiset(s) + multiset{x}
  {
    if s != [] && le(key(x), key(s[0])) {
      InsertPermutation(x, s[1..], key, le);
      assert s == [s[0]] + s[1..];
    }
  }

  /** The result is a permutation of the input. */
  lemma {:induction false} SortDescPermutation<T, K>(s: seq<T>, key: T -> K, le: (K, K) -> bool)
    ensures multiset(SortDesc(s, key, le)) == multiset(s)
    ensures |SortDesc(s, key, le)| == |s|
  {
    if s != [] {
      SortDescPermutation(s[..|s| - 1], key, le);
      InsertPermutation(s[|s| - 1], SortDesc(s[..|s| - 1], key, le), key, le);
      assert s == s[..|s| - 1] + [s[|s| - 1]];
    }
    assert |SortDesc(s, key, le)| == |multiset(SortDesc(s, key, le))|;
  }

  lemma {:induction false} InsertAtMost<T, K>(x: T, s: seq<T>, key: T -> K, le: (K, K) -> bool, k: K)
    requires AllAtMost(s, key, le, k) && le(key(x), k)
    ensures AllAtMost(Insert(x, s, key, le), key, le, k)
  {
    if s != [] && le(key(x), key(s[0])) {
      InsertAtMost(x, s[1..], key, le, k);
    }
  }

  lemma {:induction false} InsertSorted<T, K(!new)>(x: T, s: seq<T>, key: T -> K, le: (K, K) -> bool)
    requires TotalPreorder(le)
    requires SortedDesc(s, key, le)
    ensures SortedDesc(Insert(x, s, key, le), key, le)
  {
    if s == [] {
    } else if le(key(x), key(s[0])) {
      InsertSorted(x, s[1..], key, le);
      InsertAtMost(x, s[1..], key, le, key(s[0]));
    } else {
      assert le(key(s[0]), key(x));
      forall j | 0 <= j < |s| ensures le(key(s[j]), key(x)) {
        if j > 0 {
          assert le(key(s[j]), key(s[0]));
        }
      }
    }
  }

  /** The result is in descending key order. */
  lemma {:induction false} SortDescSorted<T, K(!new)>(s: seq<T>, key: T -> K, le: (K, K) -> bool)
    requires TotalPreorder(le)
    ensures SortedDesc(SortDesc(s, key, le), key, le)
  {
    if s != [] {
      SortDescSorted(s[..|s| - 1], key, le);
      InsertSorted(s[|s| - 1], SortDesc(s[..|s| - 1], key, le), key, le);
    }
  }

  lemma {:induction false} WithKeyAppend<T, K>(a: seq<T>, b: seq<T>, key: T -> K, k: K)
    ensures WithKey(a + b, key, k) == WithKey(a, key, k) + WithKey(b, key, k)
  {
    if a == [] {
      assert a + b == b;
    } else {
      var head := if key(a[0]) == k then [a[0]] else [];
      assert (a + b)[0] == a[0];
      assert (a + b)[1..] == a[1..] + b;
      calc {
        WithKey(a + b, key, k);
        head + WithKey(a[1..] + b, key, k);
        { WithKeyAppend(a[1..], b, key, k); }
        head + (WithKey(a[1..], key, k) + WithKey(b, key, k));
        (head + WithKey(a[1..], key, k)) + WithKey(b, key, k);
      }
    }
  }

  lemma {:induction false} WithKeyNone<T, K>(s: seq<T>, key: T -> K, k: K)
    requires forall i :: 0 <= i < |s| ==> key(s[i]) != k
    ensures WithKey(s, key, k) == []
  {
    if s != [] {
      WithKeyNone(s[1..], key, k);
    }
  }

  lemma SortedDescTail<T, K>(s: seq<T>, key: T -> K, le: (K, K) -> bool)
    requires s != [] && SortedDesc(s, key, le)
    ensures SortedDesc(s[1..], key, le)
  {
    forall i, j | 0 <= i < j < |s[1..]| ensures le(key(s[1..][j]), key(s[1..][i])) {
      assert s[1..][j] == s[j + 1] && s[1..][i] == s[i + 1];
    }
  }

  /** When `x` goes first, no element of `s` has the key of `x`. */
  lemma NoneAheadOfFront<T, K(!new)>(x: T, s: seq<T>, key: T -> K, le: (K, K) -> bool)
    requires TotalPreorder(le)
    requires SortedDesc(s, key, le)
    requires s != [] && !le(key(x), key(s[0]))
    ensures WithKey(s, key, key(x)) == []
  {
    assert le(key(s[0]), key(s[0]));
    forall j | 0 <= j < |s| ensures key(s[j]) != key(x) {
      if j > 0 {
        assert le(key(s[j]), key(s[0]));
      }
    }
    WithKeyNone(s, key, key(x));
  }

  lemma WithKeyCons<T, K>(y: T, q: seq<T>, key: T -> K, k: K)
    ensures WithKey([y] + q, key, k) == (if key(y) == k then [y] else []) + WithKey(q, key, k)
  {
    assert ([y] + q)[0] == y && ([y] + q)[1..] == q;
  }

  /** The step of `InsertWithKey` where `x` goes past the first element. */
  lemma InsertWithKeyPast<T, K>(x: T, s: seq<T>, key: T -> K, le: (K, K) -> bool, k: K, tail: seq<T>)
    requires s != [] && le(key(x), key(s[0]))
    requires WithKey(Insert(x, s[1..], key, le), key, k) == WithKey(s[1..], key, k) + tail
    ensures WithKey(Insert(x, s, key, le), key, k) == WithKey(s, key, k) + tail
  {
    var head := if key(s[0]) == k then [s[0]] else [];
    var q := Insert(x, s[1..], key, le);
    assert Insert(x, s, key, le) == [s[0]] + q;
    WithKeyCons(s[0], q, key, k);
    assert WithKey(s, key, k) == head + WithKey(s[1..], key, k);
    ConcatAssoc(head, WithKey(s[1..], key, k), tail);
  }

  lemma ConcatAssoc<T>(a: seq<T>, b: seq<T>, c: seq<T>)
    ensures a + (b + c) == (a + b) + c
  {
  }

  lemma {:induction false} InsertWithKey<T, K(!new)>(x: T, s: seq<T>, key: T -> K, le: (K, K) -> bool, k: K)
    requires TotalPreorder(le)
    requires SortedDesc(s, key, le)
    ensures WithKey(Insert(x, s, key, le), key, k) ==
            WithKey(s, key, k) + (if key(x) == k then [x] else [])
  {
    var tail := if key(x) == k then [x] else [];
    if s == [] {
      assert WithKey([x], key, k) == tail + WithKey([], key, k);
    } else if le(key(x), key(s[0])) {
      SortedDescTail(s, key, le);
      InsertWithKey(x, s[1..], key, le, k);
      InsertWithKeyPast(x, s, key, le, k, tail);
    } else {
      if key(x) == k {
        NoneAheadOfFront(x, s, key, le);
      }
      assert ([x] + s)[0] == x && ([x] + s)[1..] == s;
    }
  }

  /** Stability: among elements with equal keys, the input order survives. */
  lemma {:induction false} SortDescStable<T, K(!new)>(s: seq<T>, key: T -> K, le: (K, K) -> bool, k: K)
    requires TotalPreorder(le)
    ensures WithKey(SortDesc(s, key, le), key, k) == WithKey(s, key, k)
  {
    if s != [] {
      var p, x := s[..|s| - 1], s[|s| - 1];
      var sp := SortDesc(p, key, le);
      var tail := if key(x) == k then [x] else [];
      assert s == p + [x];
      assert WithKey([x], key, k) == tail + WithKey([], key, k);
      calc {
        WithKey(SortDesc(s, key, le), key, k);
        WithKey(Insert(x, sp, key, le), key, k);
        { SortDescSorted(p, key, le); InsertWithKey(x, sp, key, le, k); }
        WithKey(sp, key, k) + tail;
        { SortDescStable(p, key, le, k); }
        WithKey(p, key, k) + tail;
        { WithKeyAppend(p, [x], key, k); }
        WithKey(s, key, k);
      }
    }
  }

  lemma {:induction false} InsertDistinct<T, K, U>(x: T, s: seq<T>, key: T -> K, le: (K, K) -> bool, f: T -> U)
    requires DistinctBy(s, f)
    requires forall i :: 0 <= i < |s| ==> f(s[i]) != f(x)
    ensures DistinctBy(Insert(x, s, key, le), f)
  {
    if s != [] && le(key(x), key(s[0])) {
      var t := Insert(x, s[1..], key, le);
      InsertDistinct(x, s[1..], key, le, f);
      InsertPermutation(x, s[1..], key, le);
      forall j | 0 <= j < |t| ensures f(s[0]) != f(t[j]) {
        assert t[j] in multiset(t);
        if t[j] != x {
          assert t[j] in multiset(s[1..]);
          var m :| 0 <= m < |s[1..]| && s[1..][m] == t[j];
          assert s[m + 1] == t[j];
        }
      }
    }
  }

  /** Sorting keeps a sequence free of elements that agree on `f`. */
  lemma {:induction false} SortDescDistinct<T, K, U>(s: seq<T>, key: T -> K, le: (K, K) -> bool, f: T -> U)
    requires DistinctBy(s, f)
    ensures DistinctBy(SortDesc(s, key, le), f)
  {
    if s != [] {
      var p, x := s[..|s| - 1], s[|s| - 1];
      var sp := SortDesc(p, key, le);
      SortDescDistinct(p, key, le, f);
      SortDescPermutation(p, key, le);
      forall i | 0 <= i < |sp| ensures f(sp[i]) != f(x) {
        assert sp[i] in multiset(p);
        var m :| 0 <= m < |p| && p[m] == sp[i];
        assert s[m] == sp[i];
      }
      InsertDistinct(x, sp, key, le, f);
    }
  }

  lemma {:induction false} MapSeqAppend<T, U>(f: T -> U, a: seq<T>, b: seq<T>)
    ensures MapSeq(f, a + b) == MapSeq(f, a) + MapSeq(f, b)
  {
  }

  lemma {:induction false} MapSeqRemove<T, U>(f: T -> U, b: seq<T>, k: nat)
    requires k < |b|
    ensures multiset(b) == multiset(b[..k] + b[k + 1..]) + multiset{b[k]}
    ensures multiset(MapSeq(f, b)) == multiset(MapSeq(f, b[..k] + b[k + 1..])) + multiset{f(b[k])}
  {
    var b1, b2 := b[..k], b[k + 1..];
    assert b == b1 + ([b[k]] + b2);
    MapSeqAppend(f, b1, [b[k]] + b2);
    MapSeqAppend(f, [b[k]], b2);
    MapSeqAppend(f, b1, b2);
  }

  lemma MultisetCancel<T>(p: multiset<T>, q: multiset<T>, x: T)
    requires p + multiset{x} == q + multiset{x}
    ensures p == q
  {
    assert p == (p + multiset{x}) - multiset{x};
  }

  /** An index at which `x` occurs in `b`. */
  lemma IndexIn<T>(b: seq<T>, x: T) returns (k: nat)
    requires x in multiset(b)
    ensures k < |b| && b[k] == x
  {
    k :| 0 <= k < |b| && b[k] == x;
  }

  /** Taking the same element out of two permutations of each other leaves permutations. */
  lemma PermutationRest<T>(a: seq<T>, b: seq<T>, k: nat)
    requires multiset(a) == multiset(b) && a != [] && k < |b| && b[k] == a[0]
    ensures multiset(a[1..]) == multiset(b[..k] + b[k + 1..])
  {
    MapSeqRemove(x => x, b, k);
    assert a == [a[0]] + a[1..];
    MultisetCancel(multiset(a[1..]), multiset(b[..k] + b[k + 1..]), a[0]);
  }

  /** Putting the same element back into the images gives permutations again. */
  lemma PermutationStep<T, U>(f: T -> U, a: seq<T>, b: seq<T>, k: nat)
    requires a != [] && k < |b| && b[k] == a[0]
    requires multiset(MapSeq(f, a[1..])) == multiset(MapSeq(f, b[..k] + b[k + 1..]))
    ensures multiset(MapSeq(f, a)) == multiset(MapSeq(f, b))
  {
    MapSeqRemove(f, b, k);
    MapSeqRemove(f, a, 0);
    assert a[..0] + a[1..] == a[1..];
  }

  /** Rearranging a sequence rearranges its image under `f` in the same way. */
  lemma {:induction false} MapSeqPermutation<T, U>(f: T -> U, a: seq<T>, b: seq<T>)
    requires multiset(a) == multiset(b)
    ensures multiset(MapSeq(f, a)) == multiset(MapSeq(f, b))
    decreases |a|
  {
    if a == [] {
      assert |b| == |multiset(b)| == 0;
    } else {
      assert a[0] in multiset(a);
      var k := IndexIn(b, a[0]);
      PermutationRest(a, b, k);
      MapSeqPermutation(f, a[1..], b[..k] + b[k + 1..]);
      PermutationStep(f, a, b, k);
    }
  }

}
