/**
 * Python's `sorted(xs, key=key, reverse=True)` on numeric keys: a stable
 * sort into non-increasing key order. Stability is stated per key value:
 * the elements that share a key keep their input order.
 */
module Sorting {

  predicate NonIncreasing<T>(s: seq<T>, key: T -> real) {
    forall i, j :: 0 <= i < j < |s| ==> key(s[i]) >= key(s[j])
  }

  /** The subsequence of `s` whose key is `v`, in the order of `s`. */
  function WithKey<T>(s: seq<T>, key: T -> real, v: real): seq<T> {
    if s == [] then [] else (if key(s[0]) == v then [s[0]] else []) + WithKey(s[1..], key, v)
  }

  /** No two elements of `s` agree on `f`. */
  predicate DistinctBy<T, K(==)>(s: seq<T>, f: T -> K) {
    forall i, j :: 0 <= i < j < |s| ==> f(s[i]) != f(s[j])
  }

  /** Puts `x` before the first element whose key is not greater than its own. */
  function Insert<T>(x: T, t: seq<T>, key: T -> real): seq<T> {
    if t == [] then [x]
    else if key(x) >= key(t[0]) then [x] + t
    else [t[0]] + Insert(x, t[1..], key)
  }

  function SortDesc<T>(s: seq<T>, key: T -> real): seq<T> {
    if s == [] then [] else Insert(s[0], SortDesc(s[1..], key), key)
  }

  lemma {:induction false} InsertMultiset<T>(x: T, t: seq<T>, key: T -> real)
    ensures multiset(Insert(x, t, key)) == multiset(t) + multiset{x}
  {
    if t != [] && key(x) < key(t[0]) {
      InsertMultiset(x, t[1..], key);
      assert t == [t[0]] + t[1..];
    }
  }

  lemma {:induction false} InsertSorted<T>(x: T, t: seq<T>, key: T -> real)
    requires NonIncreasing(t, key)
    ensures NonIncreasing(Insert(x, t, key), key)
  {
    if t != [] && key(x) < key(t[0]) {
      var rest := Insert(x, t[1..], key);
      InsertSorted(x, t[1..], key);
      InsertMultiset(x, t[1..], key);
      forall j | 0 <= j < |rest|
        ensures key(t[0]) >= key(rest[j])
      {
        assert rest[j] in multiset(rest);
        if rest[j] != x {
          assert rest[j] in t[1..];
        }
      }
    }
  }

  lemma {:induction false} InsertWithKey<T>(x: T, t: seq<T>, key: T -> real, v: real)
    ensures WithKey(Insert(x, t, key), key, v) == WithKey([x], key, v) + WithKey(t, key, v)
  {
    if t == [] {
    } else if key(x) >= key(t[0]) {
      assert ([x] + t)[1..] == t;
    } else {
      var rest := Insert(x, t[1..], key);
      InsertWithKey(x, t[1..], key, v);
      assert ([t[0]] + rest)[1..] == rest;
      assert WithKey([x], key, v) == (if key(x) == v then [x] else []);
      assert WithKey([t[0]], key, v) == (if key(t[0]) == v then [t[0]] else []);
    }
  }

  /** The sort returns a rearrangement of its input. */
  lemma {:induction false} SortDescMultiset<T>(s: seq<T>, key: T -> real)
    ensures multiset(SortDesc(s, key)) == multiset(s)
    ensures |SortDesc(s, key)| == |s|
  {
    if s != [] {
      SortDescMultiset(s[1..], key);
      InsertMultiset(s[0], SortDesc(s[1..], key), key);
      assert s == [s[0]] + s[1..];
    }
  }

  /** The sort keeps exactly the elements of its input. */
  lemma SortDescElements<T>(s: seq<T>, key: T -> real)
    ensures |SortDesc(s, key)| == |s|
    ensures forall x :: x in SortDesc(s, key) <==> x in s
  {
    SortDescMultiset(s, key);
    forall x
      ensures x in SortDesc(s, key) <==> x in s
    {
      assert x in SortDesc(s, key) <==> x in multiset(SortDesc(s, key));
      assert x in s <==> x in multiset(s);
    }
  }

  /** The sort returns its input in non-increasing key order. */
  lemma {:induction false} SortDescSorted<T>(s: seq<T>, key: T -> real)
    ensures NonIncreasing(SortDesc(s, key), key)
  {
    if s != [] {
      SortDescSorted(s[1..], key);
      InsertSorted(s[0], SortDesc(s[1..], key), key);
    }
  }

  /** The sort is stable: elements with equal keys keep their relative order. */
  lemma {:induction false} SortDescStable<T>(s: seq<T>, key: T -> real, v: real)
    ensures WithKey(SortDesc(s, key), key, v) == WithKey(s, key, v)
  {
    if s != [] {
      SortDescStable(s[1..], key, v);
      InsertWithKey(s[0], SortDesc(s[1..], key), key, v);
      assert WithKey([s[0]], key, v) == (if key(s[0]) == v then [s[0]] else []);
    }
  }

  /** Everything `WithKey` returns is an element of its input with that key. */
  lemma {:induction false} WithKeyElements<T>(s: seq<T>, key: T -> real, v: real)
    ensures forall y :: y in WithKey(s, key, v) ==> y in s && key(y) == v
  {
    if s != [] {
      WithKeyElements(s[1..], key, v);
    }
  }

  /** Distinctness of a derived key survives a rearrangement. */
  lemma {:induction false} InsertDistinct<T, K>(x: T, t: seq<T>, key: T -> real, f: T -> K)
    requires DistinctBy(t, f)
    requires forall y :: y in t ==> f(y) != f(x)
    ensures DistinctBy(Insert(x, t, key), f)
  {
    if t != [] && key(x) < key(t[0]) {
      var rest := Insert(x, t[1..], key);
      InsertDistinct(x, t[1..], key, f);
      InsertMultiset(x, t[1..], key);
      forall j | 0 <= j < |rest|
        ensures f(t[0]) != f(rest[j])
      {
        assert rest[j] in multiset(rest);
        if rest[j] != x {
          assert rest[j] in t[1..];
        }
      }
    }
  }

  lemma {:induction false} SortDescDistinct<T, K>(s: seq<T>, key: T -> real, f: T -> K)
    requires DistinctBy(s, f)
    ensures DistinctBy(SortDesc(s, key), f)
  {
    if s != [] {
      SortDescDistinct(s[1..], key, f);
      SortDescMultiset(s[1..], key);
      forall y | y in SortDesc(s[1..], key)
        ensures f(y) != f(s[0])
      {
        assert y in multiset(SortDesc(s[1..], key));
        assert y in s[1..];
      }
      InsertDistinct(s[0], SortDesc(s[1..], key), key, f);
    }
  }
}
