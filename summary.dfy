/** The expense-by-category summary: an object from category name to the
    summed magnitude of that category's expenses, built by one pass over the
    transactions (src/script.js, createChart and generateReport). An object's
    string keys enumerate in insertion order, so the summary is a list of
    entries in the order each category is first met. */
module Summary {
  import opened Seqs
  import opened Ledger

  datatype Entry = Entry(category: string, amount: real)

  function EntryAmount(e: Entry): real { e.amount }

  function Abs(x: real): real { if x < 0.0 then -x else x }

  /** `Object.keys(summary)`. */
  function Categories(s: seq<Entry>): (r: seq<string>)
    ensures |r| == |s|
  {
    seq(|s|, i requires 0 <= i < |s| => s[i].category)
  }

  /** `Object.values(summary)` added up. */
  function EntrySum(s: seq<Entry>): real
  {
    SumOf(s, EntryAmount)
  }

  /** `summary[c] || 0`: the amount under `c`, or 0 when `c` is not a key. */
  function Lookup(s: seq<Entry>, c: string): real
  {
    if s == [] then 0.0
    else if s[0].category == c then s[0].amount
    else Lookup(s[1..], c)
  }

  /** `summary[c] = (summary[c] || 0) + x`: raises the entry for `c`, or adds a
      new entry for `c` at the end when there is none. */
  function Bump(s: seq<Entry>, c: string, x: real): seq<Entry>
  {
    if s == [] then [Entry(c, x)]
    else if s[0].category == c then [Entry(c, s[0].amount + x)] + s[1..]
    else [s[0]] + Bump(s[1..], c, x)
  }

  /** The key the chart buckets a transaction under. */
  function CategoryOf(t: Transaction): string { t.category }

  /** The expense summary of `ts`, each transaction bucketed under `key(t)`:
      only negative amounts count, each adds its magnitude. Every category
      appears once, and every amount in it is positive. */
  function Tally(ts: seq<Transaction>, key: Transaction -> string): (r: seq<Entry>)
    ensures Distinct(Categories(r))
    ensures forall i :: 0 <= i < |r| ==> r[i].amount > 0.0
  {
    if ts == [] then []
    else
      var s := Tally(ts[..|ts| - 1], key);
      var t := ts[|ts| - 1];
      if t.amount < 0.0 then
        BumpCategories(s, key(t), Abs(t.amount));
        BumpPositive(s, key(t), Abs(t.amount));
        Bump(s, key(t), Abs(t.amount))
      else s
  }

  /** The magnitude `t` contributes to the bucket `c`. */
  function BucketShare(key: Transaction -> string, c: string): Transaction -> real
  {
    (t: Transaction) => if t.amount < 0.0 && key(t) == c then Abs(t.amount) else 0.0
  }

  /** The summed expense magnitude of the bucket `c`, straight from the list. */
  function CategoryTotal(ts: seq<Transaction>, key: Transaction -> string, c: string): real
  {
    SumOf(ts, BucketShare(key, c))
  }

  lemma {:induction false} BumpCategories(s: seq<Entry>, c: string, x: real)
    ensures Categories(Bump(s, c, x))
         == if c in Categories(s) then Categories(s) else Categories(s) + [c]
    ensures Distinct(Categories(s)) ==> Distinct(Categories(Bump(s, c, x)))
  {
    BumpKeys(s, c, x);
    var ks := Categories(s);
    if Distinct(ks) && c !in ks {
      var ks' := ks + [c];
      forall i, j | 0 <= i < j < |ks'| ensures ks'[i] != ks'[j] {
        if j == |ks| {
          assert ks'[i] == ks[i];
        }
      }
    }
  }

  lemma {:induction false} BumpKeys(s: seq<Entry>, c: string, x: real)
    ensures Categories(Bump(s, c, x))
         == if c in Categories(s) then Categories(s) else Categories(s) + [c]
  {
    if s != [] {
      var ks := Categories(s);
      assert ks == [s[0].category] + Categories(s[1..]);
      if s[0].category == c {
        assert Categories(Bump(s, c, x)) == [c] + Categories(s[1..]);
      } else {
        BumpKeys(s[1..], c, x);
        assert Categories(Bump(s, c, x)) == [s[0].category] + Categories(Bump(s[1..], c, x));
      }
    }
  }

  lemma {:induction false} BumpPositive(s: seq<Entry>, c: string, x: real)
    requires x > 0.0 && forall i :: 0 <= i < |s| ==> s[i].amount > 0.0
    ensures forall i :: 0 <= i < |Bump(s, c, x)| ==> Bump(s, c, x)[i].amount > 0.0
  {
    if s != [] && s[0].category != c {
      BumpPositive(s[1..], c, x);
      assert Bump(s, c, x) == [s[0]] + Bump(s[1..], c, x);
    }
  }

  /** Bumping `c` raises `c`'s amount by `x` and leaves every other amount alone. */
  lemma {:induction false} BumpLookup(s: seq<Entry>, c: string, x: real, d: string)
    ensures Lookup(Bump(s, c, x), d) == Lookup(s, d) + (if d == c then x else 0.0)
  {
    if s != [] && s[0].category != c {
      BumpLookup(s[1..], c, x, d);
      assert Bump(s, c, x)[1..] == Bump(s[1..], c, x);
    }
  }

  lemma SumOfCons<T>(x: T, s: seq<T>, f: T -> real)
    ensures SumOf([x] + s, f) == f(x) + SumOf(s, f)
  {
    SumOfAppend([x], s, f);
    SumOfSingle(x, f);
  }

  /** Bumping by `x` raises the sum of the entries by `x`. */
  lemma {:induction false} BumpSum(s: seq<Entry>, c: string, x: real)
    ensures EntrySum(Bump(s, c, x)) == EntrySum(s) + x
  {
    if s == [] {
      SumOfSingle(Entry(c, x), EntryAmount);
    } else {
      assert s == [s[0]] + s[1..];
      SumOfCons(s[0], s[1..], EntryAmount);
      if s[0].category == c {
        SumOfCons(Entry(c, s[0].amount + x), s[1..], EntryAmount);
      } else {
        BumpSum(s[1..], c, x);
        SumOfCons(s[0], Bump(s[1..], c, x), EntryAmount);
      }
    }
  }

  /** Each entry of the summary holds its bucket's summed expense magnitude,
      and a bucket with no entry has none. */
  lemma {:induction false} TallyLookup(ts: seq<Transaction>, key: Transaction -> string, c: string)
    ensures Lookup(Tally(ts, key), c) == CategoryTotal(ts, key, c)
  {
    if ts != [] {
      var init, t := ts[..|ts| - 1], ts[|ts| - 1];
      TallyLookup(init, key, c);
      if t.amount < 0.0 {
        BumpLookup(Tally(init, key), key(t), Abs(t.amount), c);
      }
    }
  }

  /** The summary's keys are exactly the keys of the negative transactions. */
  lemma {:induction false} TallyCategories(ts: seq<Transaction>, key: Transaction -> string, c: string)
    ensures c in Categories(Tally(ts, key))
        <==> exists i :: 0 <= i < |ts| && ts[i].amount < 0.0 && key(ts[i]) == c
  {
    if ts != [] {
      var init, t := ts[..|ts| - 1], ts[|ts| - 1];
      TallyCategories(init, key, c);
      if t.amount < 0.0 {
        BumpCategories(Tally(init, key), key(t), Abs(t.amount));
      }
      if exists i :: 0 <= i < |ts| && ts[i].amount < 0.0 && key(ts[i]) == c {
        var i :| 0 <= i < |ts| && ts[i].amount < 0.0 && key(ts[i]) == c;
        if i < |init| {
          assert init[i] == ts[i];
        }
      }
    }
  }

  /** The summary's values add up to the expense total. */
  lemma {:induction false} TallySum(ts: seq<Transaction>, key: Transaction -> string)
    ensures EntrySum(Tally(ts, key)) == Totals(ts).expense
  {
    if ts == [] {
    } else {
      var init, t := ts[..|ts| - 1], ts[|ts| - 1];
      TallySum(init, key);
      assert ts == init + [t];
      TotalsAppend(init, t);
      if t.amount < 0.0 {
        BumpSum(Tally(init, key), key(t), Abs(t.amount));
      }
    }
  }

  /** The summary is empty exactly when no amount is negative. */
  lemma {:induction false} TallyEmpty(ts: seq<Transaction>, key: Transaction -> string)
    ensures Tally(ts, key) == [] <==> forall i :: 0 <= i < |ts| ==> ts[i].amount >= 0.0
  {
    var s := Tally(ts, key);
    if s != [] {
      TallyCategories(ts, key, s[0].category);
      assert Categories(s)[0] == s[0].category;
    } else if i :| 0 <= i < |ts| && ts[i].amount < 0.0 {
      TallyCategories(ts, key, key(ts[i]));
    }
  }

  /** The summary, read as a map from bucket to amount, does not depend on the
      order of the transactions. */
  lemma TallyPermutation(ts: seq<Transaction>, us: seq<Transaction>, key: Transaction -> string, c: string)
    requires multiset(ts) == multiset(us)
    ensures Lookup(Tally(ts, key), c) == Lookup(Tally(us, key), c)
    ensures c in Categories(Tally(ts, key)) <==> c in Categories(Tally(us, key))
  {
    TallyLookup(ts, key, c);
    TallyLookup(us, key, c);
    SumOfPermutation(ts, us, BucketShare(key, c));
    TallyCategories(ts, key, c);
    TallyCategories(us, key, c);
    if exists i :: 0 <= i < |ts| && ts[i].amount < 0.0 && key(ts[i]) == c {
      var i :| 0 <= i < |ts| && ts[i].amount < 0.0 && key(ts[i]) == c;
      assert ts[i] in multiset(us);
    }
    if exists i :: 0 <= i < |us| && us[i].amount < 0.0 && key(us[i]) == c {
      var i :| 0 <= i < |us| && us[i].amount < 0.0 && key(us[i]) == c;
      assert us[i] in multiset(ts);
    }
  }

  /** The `forEach` loop that fills the summary, one transaction at a time. */
  method SummarizeExpenses(ts: seq<Transaction>, key: Transaction -> string) returns (s: seq<Entry>)
    ensures s == Tally(ts, key)
  {
    s := [];
    for i := 0 to |ts|
      invariant s == Tally(ts[..i], key)
    {
      assert ts[..i + 1][..i] == ts[..i];
      if ts[i].amount < 0.0 {
        s := Bump(s, key(ts[i]), Abs(ts[i].amount));
      }
    }
    assert ts[..|ts|] == ts;
  }
}
