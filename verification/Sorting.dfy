/**
  A stable sort into descending order of a real-valued key, written as an
  insertion sort. Python's `sorted(xs, key=k, reverse=True)` is exactly this:
  descending by key, and elements with equal keys keep their input order.
 */
module Sorting {

  /** Non-increasing in `key` from left to right. */
  ghost predicate Descending<T>(s: seq<T>, key: T -> real) {
    forall i, j :: 0 <= i < j < |s| ==> key(s[i]) >= key(s[j])
  }

  /** The elements of `s` whose key is `c`, in the order they occur in `s`. */
  function KeyClass<T>(s: seq<T>, key: T -> real, c: real): (r: seq<T>) {
    if s == [] then [] else Single(s[0], key, c) + KeyClass(s[1..], key, c)
  }

  /** `[x]` if `x` has key `c`, else `[]`. */
  function Single<T>(x: T, key: T -> real, c: real): (r: seq<T>) {
    if key(x) == c then [x] else []
  }

  /**
    Inserts `x` in front of the first element whose key is not greater than
    `x`'s, so that `x` precedes every element of `s` with an equal key.
   */
  function InsertDesc<T>(x: T, s: seq<T>, key: T -> real): (r: seq<T>)
    ensures multiset(r) == multiset(s) + multiset{x}
  {
    if s == [] || key(x) >= key(s[0]) then [x] + s
    else
      assert s == [s[0]] + s[1..];
      [s[0]] + InsertDesc(x, s[1..], key)
  }

  /** If `x` and all of `s` have keys at most `b`, so does every element of the insertion. */
  lemma InsertDescBounded<T>(x: T, s: seq<T>, key: T -> real, b: real)
    requires key(x) <= b
    requires forall i :: 0 <= i < |s| ==> key(s[i]) <= b
    ensures forall i :: 0 <= i < |InsertDesc(x, s, key)| ==> key(InsertDesc(x, s, key)[i]) <= b
  {
    var r := InsertDesc(x, s, key);
    forall i | 0 <= i < |r| ensures key(r[i]) <= b {
      assert r[i] in multiset(s) + multiset{x};
      if r[i] != x {
        assert r[i] in s;
      }
    }
  }

  /** Inserting into a descending list gives a descending list. */
  lemma {:induction false} InsertDescDescending<T>(x: T, s: seq<T>, key: T -> real)
    requires Descending(s, key)
    ensures Descending(InsertDesc(x, s, key), key)
  {
    if s == [] || key(x) >= key(s[0]) {
      var r := [x] + s;
      forall i, j | 0 <= i < j < |r| ensures key(r[i]) >= key(r[j]) {
        if i == 0 && j > 1 {
          assert key(s[0]) >= key(s[j - 1]);
        }
      }
    } else {
      var rest := InsertDesc(x, s[1..], key);
      assert Descending(s[1..], key);
      InsertDescDescending(x, s[1..], key);
      InsertDescBounded(x, s[1..], key, key(s[0]));
      var r := [s[0]] + rest;
      forall i, j | 0 <= i < j < |r| ensures key(r[i]) >= key(r[j]) {
        if i > 0 {
          assert r[i] == rest[i - 1] && r[j] == rest[j - 1];
        }
      }
    }
  }

  /** The stable descending sort: a permutation of `xs` in descending key order. */
  function SortDesc<T>(xs: seq<T>, key: T -> real): (r: seq<T>)
    ensures multiset(r) == multiset(xs)
    ensures |r| == |xs|
    ensures Descending(r, key)
  {
    if xs == [] then []
    else
      assert xs == [xs[0]] + xs[1..];
      var sorted := SortDesc(xs[1..], key);
      InsertDescDescending(xs[0], sorted, key);
      InsertDesc(xs[0], sorted, key)
  }

  /** `KeyClass([y] + s)` takes `y` if it is in the class, then the class of `s`. */
  lemma KeyClassCons<T>(y: T, s: seq<T>, key: T -> real, c: real)
    ensures KeyClass([y] + s, key, c) == Single(y, key, c) + KeyClass(s, key, c)
  {
    assert ([y] + s)[0] == y;
    assert ([y] + s)[1..] == s;
  }

  /** Inserting `x` keeps every key class in the order of `[x] + s`. */
  lemma {:induction false} InsertDescStable<T>(x: T, s: seq<T>, key: T -> real, c: real)
    ensures KeyClass(InsertDesc(x, s, key), key, c) == KeyClass([x] + s, key, c)
  {
    if s != [] && key(x) < key(s[0]) {
      var s0, tail := s[0], s[1..];
      var rest := InsertDesc(x, tail, key);
      assert s == [s0] + tail;
      assert InsertDesc(x, s, key) == [s0] + rest;
      calc {
        KeyClass(InsertDesc(x, s, key), key, c);
        { KeyClassCons(s0, rest, key, c); }
        Single(s0, key, c) + KeyClass(rest, key, c);
        { InsertDescStable(x, tail, key, c); KeyClassCons(x, tail, key, c); }
        Single(s0, key, c) + (Single(x, key, c) + KeyClass(tail, key, c));
        { SingleSwap(s0, x, KeyClass(tail, key, c), key, c); }
        Single(x, key, c) + (Single(s0, key, c) + KeyClass(tail, key, c));
        { KeyClassCons(s0, tail, key, c); }
        Single(x, key, c) + KeyClass(s, key, c);
        { KeyClassCons(x, s, key, c); }
        KeyClass([x] + s, key, c);
      }
    }
  }

  /** Two elements with different keys cannot both be in class `c`, so their order in it is immaterial. */
  lemma SingleSwap<T>(y: T, x: T, t: seq<T>, key: T -> real, c: real)
    requires key(x) != key(y)
    ensures Single(y, key, c) + (Single(x, key, c) + t) == Single(x, key, c) + (Single(y, key, c) + t)
  {
    if key(y) == c {
      assert Single(x, key, c) == [];
    } else if key(x) == c {
      assert Single(y, key, c) == [];
    } else {
      assert Single(x, key, c) == [] && Single(y, key, c) == [];
    }
  }

  /**
    Stability: for every key value, the elements with that key appear in the
    output in the same relative order as in the input.
   */
  lemma {:induction false} SortDescStable<T>(xs: seq<T>, key: T -> real, c: real)
    ensures KeyClass(SortDesc(xs, key), key, c) == KeyClass(xs, key, c)
  {
    if xs != [] {
      var sorted := SortDesc(xs[1..], key);
      assert SortDesc(xs, key) == InsertDesc(xs[0], sorted, key);
      InsertDescStable(xs[0], sorted, key, c);
      KeyClassCons(xs[0], sorted, key, c);
      SortDescStable(xs[1..], key, c);
      assert xs == [xs[0]] + xs[1..];
      KeyClassCons(xs[0], xs[1..], key, c);
    }
  }

  /** Sorting a list that is already in descending order returns it unchanged. */
  lemma {:induction false} SortDescOfDescending<T>(xs: seq<T>, key: T -> real)
    requires Descending(xs, key)
    ensures SortDesc(xs, key) == xs
  {
    if xs != [] {
      assert Descending(xs[1..], key);
      SortDescOfDescending(xs[1..], key);
      if |xs| > 1 {
        assert key(xs[0]) >= key(xs[1]);
      }
    }
  }

  /** Sorting twice is the same as sorting once. */
  lemma SortDescIdempotent<T>(xs: seq<T>, key: T -> real)
    ensures SortDesc(SortDesc(xs, key), key) == SortDesc(xs, key)
  {
    SortDescOfDescending(SortDesc(xs, key), key);
  }
}
