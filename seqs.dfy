/** Sequence helpers standing for the JavaScript array methods the budget code
    relies on: `filter`, `reduce` with `+`, and duplicate-freedom of a list. */
module Seqs {

  datatype Option<+T> = None | Some(value: T)

  /** `s.filter(p)`: the elements that satisfy `p`, in their original order. */
  function Filter<T>(s: seq<T>, p: T -> bool): (r: seq<T>)
    ensures |r| <= |s|
    ensures forall i :: 0 <= i < |r| ==> p(r[i])
  {
    if s == [] then []
    else
      var init := s[..|s| - 1];
      assert s == init + [s[|s| - 1]];
      Filter(init, p) + (if p(s[|s| - 1]) then [s[|s| - 1]] else [])
  }

  /** The filter keeps exactly the elements that pass. */
  lemma {:induction false} FilterMembers<T>(s: seq<T>, p: T -> bool)
    ensures forall i :: 0 <= i < |Filter(s, p)| ==> Filter(s, p)[i] in s
    ensures forall i :: 0 <= i < |s| && p(s[i]) ==> s[i] in Filter(s, p)
  {
    if s != [] {
      var init := s[..|s| - 1];
      FilterMembers(init, p);
      assert s == init + [s[|s| - 1]];
    }
  }

  lemma {:induction false} FilterAppend<T>(a: seq<T>, b: seq<T>, p: T -> bool)
    ensures Filter(a + b, p) == Filter(a, p) + Filter(b, p)
  {
    if b == [] {
      assert a + b == a;
    } else {
      var c := a + b;
      assert c[..|c| - 1] == a + b[..|b| - 1];
      FilterAppend(a, b[..|b| - 1], p);
    }
  }

  /** Filtering with a predicate every element passes changes nothing. */
  lemma {:induction false} FilterAllPass<T>(s: seq<T>, p: T -> bool)
    requires forall i :: 0 <= i < |s| ==> p(s[i])
    ensures Filter(s, p) == s
  {
    if s != [] {
      FilterAllPass(s[..|s| - 1], p);
      assert s == s[..|s| - 1] + [s[|s| - 1]];
    }
  }

  /** How often `x` occurs in `Filter(s, p)`. */
  lemma {:induction false} FilterCount<T>(s: seq<T>, p: T -> bool, x: T)
    ensures multiset(Filter(s, p))[x] == if p(x) then multiset(s)[x] else 0
  {
    if s != [] {
      var init := s[..|s| - 1];
      FilterCount(init, p, x);
      assert s == init + [s[|s| - 1]];
    }
  }

  /** `s.reduce((acc, x) => acc + f(x), 0)`: a left fold, as JavaScript's reduce. */
  function SumOf<T>(s: seq<T>, f: T -> real): real
  {
    if s == [] then 0.0 else SumOf(s[..|s| - 1], f) + f(s[|s| - 1])
  }

  lemma {:induction false} SumOfAppend<T>(a: seq<T>, b: seq<T>, f: T -> real)
    ensures SumOf(a + b, f) == SumOf(a, f) + SumOf(b, f)
  {
    if b == [] {
      assert a + b == a;
    } else {
      var c := a + b;
      assert c[..|c| - 1] == a + b[..|b| - 1];
      SumOfAppend(a, b[..|b| - 1], f);
    }
  }

  lemma SumOfSingle<T>(x: T, f: T -> real)
    ensures SumOf([x], f) == f(x)
  {
    assert [x][..0] == [];
  }

  /** Taking one element out of a sum. */
  lemma {:induction false} SumOfRemove<T>(s: seq<T>, j: nat, f: T -> real)
    requires j < |s|
    ensures SumOf(s, f) == SumOf(s[..j] + s[j + 1..], f) + f(s[j])
  {
    var n := |s| - 1;
    var rest := s[..j] + s[j + 1..];
    if j == n {
      assert rest == s[..n];
    } else {
      var init := s[..n];
      SumOfRemove(init, j, f);
      var restInit := init[..j] + init[j + 1..];
      assert rest == restInit + [s[n]];
      assert rest[..|rest| - 1] == restInit;
      assert init[j] == s[j];
    }
  }

  /** Taking the element at `j` out of a list takes one copy of it out of the
      list's multiset. */
  lemma MultisetRemove<T>(s: seq<T>, j: nat)
    requires j < |s|
    ensures multiset(s[..j] + s[j + 1..]) == multiset(s) - multiset{s[j]}
  {
    var front, back := s[..j], s[j + 1..];
    assert s == front + [s[j]] + back;
  }

  /** A sum does not depend on the order of its terms. */
  lemma {:induction false} SumOfPermutation<T>(a: seq<T>, b: seq<T>, f: T -> real)
    requires multiset(a) == multiset(b)
    ensures SumOf(a, f) == SumOf(b, f)
    decreases |a|
  {
    if a == [] {
      assert |b| == |multiset(b)| == 0;
    } else {
      var n := |a| - 1;
      var x := a[n];
      MultisetRemove(a, n);
      assert a[..n] + a[n + 1..] == a[..n];
      assert x in multiset(b);
      var j :| 0 <= j < |b| && b[j] == x;
      MultisetRemove(b, j);
      SumOfPermutation(a[..n], b[..j] + b[j + 1..], f);
      SumOfRemove(b, j, f);
    }
  }

  /** Sums over two lists of one length agree when the terms agree position
      by position. */
  lemma {:induction false} SumOfPointwise<T>(a: seq<T>, b: seq<T>, f: T -> real)
    requires |a| == |b|
    requires forall i :: 0 <= i < |a| ==> f(a[i]) == f(b[i])
    ensures SumOf(a, f) == SumOf(b, f)
  {
    if a != [] {
      SumOfPointwise(a[..|a| - 1], b[..|b| - 1], f);
    }
  }

  /** `f` where `p` holds and 0 elsewhere. */
  function Masked<T>(p: T -> bool, f: T -> real): T -> real
  {
    (x: T) => if p(x) then f(x) else 0.0
  }

  /** Summing what a filter keeps is summing the masked terms of the whole list. */
  lemma {:induction false} SumOfFilter<T>(s: seq<T>, p: T -> bool, f: T -> real)
    ensures SumOf(Filter(s, p), f) == SumOf(s, Masked(p, f))
  {
    if s != [] {
      var n := |s| - 1;
      SumOfFilter(s[..n], p, f);
      var kept := if p(s[n]) then [s[n]] else [];
      SumOfAppend(Filter(s[..n], p), kept, f);
      if p(s[n]) {
        SumOfSingle(s[n], f);
      }
    }
  }

  lemma {:induction false} SumOfNonNegative<T>(s: seq<T>, f: T -> real)
    requires forall i :: 0 <= i < |s| ==> f(s[i]) >= 0.0
    ensures SumOf(s, f) >= 0.0
  {
    if s != [] {
      SumOfNonNegative(s[..|s| - 1], f);
    }
  }

  lemma {:induction false} SumOfNonPositive<T>(s: seq<T>, f: T -> real)
    requires forall i :: 0 <= i < |s| ==> f(s[i]) <= 0.0
    ensures SumOf(s, f) <= 0.0
  {
    if s != [] {
      SumOfNonPositive(s[..|s| - 1], f);
    }
  }

  predicate Distinct<T(==)>(s: seq<T>)
  {
    forall i, j :: 0 <= i < j < |s| ==> s[i] != s[j]
  }

  /** What a filter keeps from a duplicate-free list is duplicate-free. */
  lemma {:induction false} FilterDistinct<T>(s: seq<T>, p: T -> bool)
    requires Distinct(s)
    ensures Distinct(Filter(s, p))
  {
    if s != [] {
      var init, x := s[..|s| - 1], s[|s| - 1];
      FilterDistinct(init, p);
      FilterMembers(init, p);
      forall k | 0 <= k < |init| ensures init[k] != x {
        assert init[k] == s[k];
      }
    }
  }

  function Min(a: int, b: int): int
  {
    if a <= b then a else b
  }
}
