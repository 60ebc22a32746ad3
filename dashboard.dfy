/** What src/script.js computes for display apart from the three totals: the
    expense bar chart (createChart) and the text report (generateReport). */
module Dashboard {
  import opened Ledger
  import opened Summary
  import opened Sorting

  /** The y-axis has this many gradations, so NumTicks + 1 labels. */
  const NumTicks: nat := 5

  /** `Math.max(...Object.values(summary))`. */
  function MaxAmount(s: seq<Entry>): (m: real)
    requires s != []
    ensures forall i :: 0 <= i < |s| ==> s[i].amount <= m
    ensures exists i :: 0 <= i < |s| && s[i].amount == m
  {
    if |s| == 1 then s[0].amount
    else
      var rest := MaxAmount(s[1..]);
      assert forall i :: 1 <= i < |s| ==> s[i] == s[1..][i - 1];
      if s[0].amount >= rest then s[0].amount else rest
  }

  /** The value of the tick label at position `k` from the top. */
  function TickValue(maxAmount: real, k: int): real
  {
    maxAmount * (NumTicks - k) as real / NumTicks as real
  }

  /** The y-axis loop `for (let i = numTicks; i >= 0; i--)`: labels from the
      maximum down to 0 in equal steps. */
  method Ticks(maxAmount: real) returns (ticks: seq<real>)
    ensures |ticks| == NumTicks + 1
    ensures ticks[0] == maxAmount && ticks[NumTicks] == 0.0
    ensures forall k :: 0 <= k < NumTicks ==> ticks[k] - ticks[k + 1] == maxAmount / NumTicks as real
    ensures maxAmount >= 0.0 ==> forall j, k :: 0 <= j < k < |ticks| ==> ticks[j] >= ticks[k]
  {
    ticks := [];
    var i: int := NumTicks;
    while i >= 0
      invariant -1 <= i <= NumTicks
      invariant |ticks| == NumTicks - i
      invariant forall k :: 0 <= k < |ticks| ==> ticks[k] == TickValue(maxAmount, k)
    {
      ticks := ticks + [maxAmount * i as real / NumTicks as real];
      i := i - 1;
    }
    forall k | 0 <= k < NumTicks ensures ticks[k] - ticks[k + 1] == maxAmount / NumTicks as real {
      TickStep(maxAmount, k);
    }
    forall j, k | 0 <= j < k < |ticks| && maxAmount >= 0.0 ensures ticks[j] >= ticks[k] {
      TickOrder(maxAmount, j, k);
    }
  }

  /** Neighbouring labels are a fifth of the maximum apart. */
  lemma TickStep(maxAmount: real, k: int)
    ensures TickValue(maxAmount, k) - TickValue(maxAmount, k + 1) == maxAmount / NumTicks as real
  {
    assert maxAmount * (NumTicks - k) as real - maxAmount * (NumTicks - (k + 1)) as real == maxAmount;
  }

  lemma TickOrder(maxAmount: real, j: int, k: int)
    requires maxAmount >= 0.0 && j < k
    ensures TickValue(maxAmount, j) >= TickValue(maxAmount, k)
  {
    assert maxAmount * (NumTicks - j) as real >= maxAmount * (NumTicks - k) as real by {
      assert maxAmount * (NumTicks - j) as real - maxAmount * (NumTicks - k) as real
          == maxAmount * (k - j) as real;
    }
  }

  /** A bar's height in percent of the chart: `(amount / maxAmount) * 100`. */
  function BarHeight(amount: real, maxAmount: real): real
    requires maxAmount != 0.0
  {
    amount / maxAmount * 100.0
  }

  /** Every bar of a positive amount no larger than the maximum is drawn, and
      none is taller than the chart; the largest fills it. */
  lemma HeightBounds(amount: real, maxAmount: real)
    requires 0.0 < amount <= maxAmount
    ensures 0.0 < BarHeight(amount, maxAmount) <= 100.0
    ensures BarHeight(amount, maxAmount) == 100.0 <==> amount == maxAmount
  {
    var q := amount / maxAmount;
    assert q * maxAmount == amount;
    assert 0.0 < q;
    if q > 1.0 {
      assert q * maxAmount > maxAmount;
    }
    if q == 1.0 {
      assert amount == maxAmount;
    }
  }

  datatype ChartView =
    | NoData                       // "No data to display"
    | NoExpenseData                // "No expense data to display"
    | Drawn(maxAmount: real, ticks: seq<real>, sorted: seq<Entry>, heights: seq<real>)

  /** createChart without the DOM: what the chart shows for `ts`. */
  method CreateChart(ts: seq<Transaction>) returns (view: ChartView)
    ensures view.NoData? <==> ts == []
    ensures view.NoExpenseData? <==> ts != [] && forall i :: 0 <= i < |ts| ==> ts[i].amount >= 0.0
    ensures view.Drawn? ==>
      && view.sorted == SortDescending(Tally(ts, CategoryOf), EntryAmount)
      && view.sorted != [] && view.maxAmount == view.sorted[0].amount > 0.0
      && (forall i, j :: 0 <= i < j < |view.sorted| ==> view.sorted[i].amount >= view.sorted[j].amount)
    ensures view.Drawn? ==>
      && |view.ticks| == NumTicks + 1
      && view.ticks[0] == view.maxAmount && view.ticks[NumTicks] == 0.0
      && (forall k :: 0 <= k < NumTicks ==> view.ticks[k] - view.ticks[k + 1] == view.maxAmount / NumTicks as real)
    ensures view.Drawn? ==>
      && view.maxAmount > 0.0 && |view.heights| == |view.sorted|
      && (forall i :: 0 <= i < |view.heights| ==> view.heights[i] == BarHeight(view.sorted[i].amount, view.maxAmount))
      && (forall i :: 0 <= i < |view.heights| ==> 0.0 < view.heights[i] <= 100.0)
      && view.heights[0] == 100.0
  {
    if |ts| == 0 {
      return NoData;
    }
    var summary := SummarizeExpenses(ts, CategoryOf);
    TallyEmpty(ts, CategoryOf);
    if |summary| == 0 {
      return NoExpenseData;
    }
    var maxAmount := MaxAmount(summary);
    var sorted := SortDescending(summary, EntryAmount);
    SortedHeadIsMax(summary, sorted, maxAmount);
    var ticks := Ticks(maxAmount);
    var heights := Bars(sorted, maxAmount);
    view := Drawn(maxAmount, ticks, sorted, heights);
  }

  /** The bar heights of the `forEach` over the sorted categories: every bar
      of a summary whose amounts lie in (0, maximum] is drawn, none is taller
      than the chart, and exactly the bars of the maximum fill it. */
  function Bars(sorted: seq<Entry>, maxAmount: real): (h: seq<real>)
    requires maxAmount > 0.0
    requires forall i :: 0 <= i < |sorted| ==> 0.0 < sorted[i].amount <= maxAmount
    ensures |h| == |sorted|
    ensures forall i :: 0 <= i < |h| ==> h[i] == BarHeight(sorted[i].amount, maxAmount)
    ensures forall i :: 0 <= i < |h| ==> 0.0 < h[i] <= 100.0
    ensures forall i :: 0 <= i < |h| ==> (h[i] == 100.0 <==> sorted[i].amount == maxAmount)
  {
    var h := seq(|sorted|, i requires 0 <= i < |sorted| => BarHeight(sorted[i].amount, maxAmount));
    forall i | 0 <= i < |sorted|
      ensures 0.0 < h[i] <= 100.0 && (h[i] == 100.0 <==> sorted[i].amount == maxAmount)
    {
      HeightBounds(sorted[i].amount, maxAmount);
    }
    h
  }

  /** After sorting a summary of positive amounts, the first entry is the
      maximum and every entry lies in (0, maximum]. */
  lemma SortedHeadIsMax(s: seq<Entry>, sorted: seq<Entry>, m: real)
    requires s != [] && multiset(sorted) == multiset(s) && NonIncreasing(sorted, EntryAmount)
    requires forall i :: 0 <= i < |s| ==> 0.0 < s[i].amount <= m
    requires exists i :: 0 <= i < |s| && s[i].amount == m
    ensures sorted != [] && sorted[0].amount == m
    ensures forall i :: 0 <= i < |sorted| ==> 0.0 < sorted[i].amount <= m
  {
    var i :| 0 <= i < |s| && s[i].amount == m;
    assert s[i] in multiset(sorted);
    var j :| 0 <= j < |sorted| && sorted[j] == s[i];
    forall k | 0 <= k < |sorted| ensures 0.0 < sorted[k].amount <= m {
      assert sorted[k] in multiset(s);
    }
    assert EntryAmount(sorted[0]) >= EntryAmount(sorted[j]);
  }

  datatype TextReport = TextReport(income: real, expense: real, balance: real, breakdown: seq<Entry>)

  /** generateReport in src/script.js: income, expense magnitude, their
      difference as the balance, and the unsorted expense breakdown. */
  method BudgetReportText(ts: seq<Transaction>) returns (r: TextReport)
    ensures r.income == Totals(ts).income && r.expense == Totals(ts).expense
    ensures r.balance == Balance(ts)
    ensures r.breakdown == Tally(ts, CategoryOf)
    ensures EntrySum(r.breakdown) == r.expense
  {
    var income := IncomeTotal(ts);
    var expense := -ExpenseSum(ts);
    var balance := income - expense;
    var breakdown := SummarizeExpenses(ts, CategoryOf);
    BalanceSplit(ts);
    TallySum(ts, CategoryOf);
    r := TextReport(income, expense, balance, breakdown);
  }
}
