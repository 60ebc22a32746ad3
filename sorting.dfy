/** `Array.prototype.sort` with a comparator `(a, b) => key(b) - key(a)`:
    highest key first. JavaScript's sort is stable, so elements with equal
    keys keep their input order; the insertion sort below does the same. */
module Sorting {
  import opened Seqs

  predicate NonIncreasing<T>(s: seq<T>, key: T -> real)
  {
    forall i, j :: 0 <= i < j < |s| ==> key(s[i]) >= key(s[j])
  }

  /** Puts `x` after every element whose key is at least `key(x)`. */
  function Insert<T>(x: T, s: seq<T>, key: T -> real): seq<T>
  {
    if s == [] then [x]
    else if key(x) > key(s[0]) then [x] + s
    else [s[0]] + Insert(x, s[1..], key)
  }

  lemma {:induction false} InsertPermutes<T>(x: T, s: seq<T>, key: T -> real)
    ensures multiset(Insert(x, s, key)) == multiset(s) + multiset{x}
  {
    if s != [] && key(x) <= key(s[0]) {
      InsertPermutes(x, s[1..], key);
      assert s == [s[0]] + s[1..];
    }
  }

  /** A bound on every key survives insertion of an element within it. */
  lemma {:induction false} InsertBounded<T>(x: T, s: seq<T>, key: T -> real, b: real)
    requires key(x) <= b && forall i :: 0 <= i < |s| ==> key(s[i]) <= b
    ensures forall i :: 0 <= i < |Insert(x, s, key)| ==> key(Insert(x, s, key)[i]) <= b
  {
    if s != [] && key(x) <= key(s[0]) {
      InsertBounded(x, s[1..], key, b);
      var r := Insert(x, s, key);
      forall i | 1 <= i < |r| ensures key(r[i]) <= b {
        assert r[i] == Insert(x, s[1..], key)[i - 1];
      }
    }
  }

  lemma {:induction false} InsertSorted<T>(x: T, s: seq<T>, key: T -> real)
    requires NonIncreasing(s, key)
    ensures NonIncreasing(Insert(x, s, key), key)
  {
    if s != [] && key(x) <= key(s[0]) {
      var rest := Insert(x, s[1..], key);
      TailNonIncreasing(s, key);
      InsertSorted(x, s[1..], key);
      InsertBounded(x, s[1..], key, key(s[0]));
      var r := Insert(x, s, key);
      assert r == [s[0]] + rest;
      forall i, j | 0 <= i < j < |r| ensures key(r[i]) >= key(r[j]) {
        assert r[j] == rest[j - 1];
        if i > 0 {
          assert r[i] == rest[i - 1];
        }
      }
    }
  }

  function SortDescending<T>(s: seq<T>, key: T -> real): (r: seq<T>)
    ensures multiset(r) == multiset(s)
    ensures NonIncreasing(r, key)
  {
    if s == [] then []
    else
      var init, x := s[..|s| - 1], s[|s| - 1];
      var sorted := SortDescending(init, key);
      InsertPermutes(x, sorted, key);
      InsertSorted(x, sorted, key);
      assert s == init + [x];
      Insert(x, sorted, key)
  }

  /** The elements whose key is exactly `v`. */
  function KeyIs<T>(key: T -> real, v: real): T -> bool
  {
    x => key(x) == v
  }

  /** No element of a non-increasing list has a key above its head's. */
  lemma NoneAbove<T>(s: seq<T>, key: T -> real, v: real)
    requires NonIncreasing(s, key) && s != [] && v > key(s[0])
    ensures Filter(s, KeyIs(key, v)) == []
  {
  }

  lemma TailNonIncreasing<T>(s: seq<T>, key: T -> real)
    requires NonIncreasing(s, key) && s != []
    ensures NonIncreasing(s[1..], key)
  {
    forall i, j | 0 <= i < j < |s[1..]| ensures key(s[1..][i]) >= key(s[1..][j]) {
      assert s[1..][i] == s[i + 1] && s[1..][j] == s[j + 1];
    }
  }

  lemma InsertStableFront<T>(x: T, s: seq<T>, key: T -> real, v: real)
    requires NonIncreasing(s, key) && s != [] && key(x) > key(s[0])
    ensures Filter([x] + s, KeyIs(key, v)) == Filter(s, KeyIs(key, v)) + Filter([x], KeyIs(key, v))
  {
    FilterAppend([x], s, KeyIs(key, v));
    if key(x) == v {
      NoneAbove(s, key, v);
    }
  }

  lemma {:induction false} InsertStableBack<T>(x: T, s: seq<T>, key: T -> real, v: real)
    requires NonIncreasing(s, key) && s != [] && key(x) <= key(s[0])
    ensures Filter([s[0]] + Insert(x, s[1..], key), KeyIs(key, v))
         == Filter(s, KeyIs(key, v)) + Filter([x], KeyIs(key, v))
    decreases |s|, 0
  {
    var p := KeyIs(key, v);
    var rest := Insert(x, s[1..], key);
    TailNonIncreasing(s, key);
    InsertStable(x, s[1..], key, v);
    FilterAppend([s[0]], rest, p);
    FilterAppend([s[0]], s[1..], p);
    assert s == [s[0]] + s[1..];
  }

  lemma {:induction false} InsertStable<T>(x: T, s: seq<T>, key: T -> real, v: real)
    requires NonIncreasing(s, key)
    ensures Filter(Insert(x, s, key), KeyIs(key, v))
         == Filter(s, KeyIs(key, v)) + Filter([x], KeyIs(key, v))
    decreases |s|, 1
  {
    if s == [] {
      assert [x] == [] + [x];
    } else if key(x) > key(s[0]) {
      InsertStableFront(x, s, key, v);
    } else {
      InsertStableBack(x, s, key, v);
    }
  }

  /** Stability: among the elements with one key value, the sorted list keeps
      the input order. */
  lemma {:induction false} SortDescendingStable<T>(s: seq<T>, key: T -> real, v: real)
    ensures Filter(SortDescending(s, key), KeyIs(key, v)) == Filter(s, KeyIs(key, v))
  {
    if s != [] {
      var p := KeyIs(key, v);
      var init, x := s[..|s| - 1], s[|s| - 1];
      var sorted := SortDescending(init, key);
      assert SortDescending(s, key) == Insert(x, sorted, key);
      SortDescendingStable(init, key, v);
      InsertStable(x, sorted, key, v);
      assert s == init + [x];
      FilterAppend(init, [x], p);
    }
  }
}
