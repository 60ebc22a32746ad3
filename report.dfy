/** The figures and tables of the two PDF reports in
    src/utilities/generateReport.js (generateReport and generateBudgetReport),
    without the drawing. */
module Report {
  import opened Seqs
  import opened Ledger
  import opened Summary
  import opened Sorting
  import Goals

  /** The summary figures as the reports compute them: the expense is kept
      signed and the balance is income plus expense. */
  datatype ReportFigures = ReportFigures(income: real, expense: real, balance: real)

  function ReportTotals(ts: seq<Transaction>): (r: ReportFigures)
    ensures r.balance == Balance(ts)
    ensures r.income == Totals(ts).income
    ensures r.expense <= 0.0 && Abs(r.expense) == Totals(ts).expense
  {
    BalanceSplit(ts);
    var income := IncomeTotal(ts);
    var expense := ExpenseSum(ts);
    ReportFigures(income, expense, income + expense)
  }

  /** `t.category || "Uncategorized"`. */
  function ReportBucket(t: Transaction): string
  {
    if t.category == "" then "Uncategorized" else t.category
  }

  /** No bucket of the report's summary is empty: a transaction without a
      category is counted under "Uncategorized". */
  lemma ReportBucketsNamed(ts: seq<Transaction>)
    ensures forall i :: 0 <= i < |Tally(ts, ReportBucket)| ==> Tally(ts, ReportBucket)[i].category != ""
  {
    var s := Tally(ts, ReportBucket);
    forall i | 0 <= i < |s| ensures s[i].category != "" {
      assert Categories(s)[i] == s[i].category;
      TallyCategories(ts, ReportBucket, s[i].category);
    }
  }

  /** The category loop of generateReport, with its running `totalCategorized`. */
  method CategoryBreakdown(ts: seq<Transaction>) returns (summary: seq<Entry>, totalCategorized: real)
    ensures summary == Tally(ts, ReportBucket)
    ensures totalCategorized == EntrySum(summary)
    ensures totalCategorized == Totals(ts).expense
  {
    summary, totalCategorized := [], 0.0;
    for i := 0 to |ts|
      invariant summary == Tally(ts[..i], ReportBucket)
      invariant totalCategorized == EntrySum(summary)
    {
      assert ts[..i + 1][..i] == ts[..i];
      var t := ts[i];
      if t.amount < 0.0 {
        BumpSum(summary, ReportBucket(t), Abs(t.amount));
        summary := Bump(summary, ReportBucket(t), Abs(t.amount));
        totalCategorized := totalCategorized + Abs(t.amount);
      }
    }
    assert ts[..|ts|] == ts;
    TallySum(ts, ReportBucket);
  }

  /** The categories in the order the report lists them: largest first. */
  function SortedCategories(summary: seq<Entry>): (r: seq<Entry>)
    ensures multiset(r) == multiset(summary)
    ensures forall i, j :: 0 <= i < j < |r| ==> r[i].amount >= r[j].amount
  {
    var r := SortDescending(summary, EntryAmount);
    assert forall i, j :: 0 <= i < j < |r| ==> EntryAmount(r[i]) >= EntryAmount(r[j]);
    r
  }

  /** The key the recent-transactions sort compares. */
  function DateKey(t: Transaction): real
  {
    t.date as real
  }

  /** The five most recent transactions, newest first, from a sorted copy. */
  function Recent(ts: seq<Transaction>): (r: seq<Transaction>)
    ensures |r| == Min(5, |ts|)
    ensures multiset(r) <= multiset(ts)
    ensures forall i, j :: 0 <= i < j < |r| ==> r[i].date >= r[j].date
    ensures forall x, i :: x in multiset(ts) - multiset(r) && 0 <= i < |r| ==> x.date <= r[i].date
  {
    var sorted := SortDescending(ts, DateKey);
    var k := Min(5, |ts|);
    assert |sorted| == |multiset(sorted)| == |ts|;
    PrefixNewestFirst(sorted, k);
    PrefixOmitsOlder(sorted, k);
    sorted[..k]
  }

  /** A prefix of a list sorted by date is itself sorted and drawn from it. */
  lemma PrefixNewestFirst(sorted: seq<Transaction>, k: nat)
    requires k <= |sorted| && NonIncreasing(sorted, DateKey)
    ensures multiset(sorted[..k]) <= multiset(sorted)
    ensures forall i, j :: 0 <= i < j < k ==> sorted[..k][i].date >= sorted[..k][j].date
  {
    assert sorted == sorted[..k] + sorted[k..];
    forall i, j | 0 <= i < j < k ensures sorted[..k][i].date >= sorted[..k][j].date {
      assert DateKey(sorted[i]) >= DateKey(sorted[j]);
    }
  }

  /** What a prefix of a list sorted by date leaves out is no newer than
      anything it keeps. */
  lemma PrefixOmitsOlder(sorted: seq<Transaction>, k: nat)
    requires k <= |sorted| && NonIncreasing(sorted, DateKey)
    ensures forall x, i :: x in multiset(sorted) - multiset(sorted[..k]) && 0 <= i < k ==> x.date <= sorted[..k][i].date
  {
    var r, rest := sorted[..k], sorted[k..];
    assert sorted == r + rest;
    assert multiset(sorted) - multiset(r) == multiset(rest);
    forall x: Transaction, i | x in multiset(rest) && 0 <= i < k ensures x.date <= r[i].date {
      var m :| 0 <= m < |rest| && rest[m] == x;
      assert DateKey(sorted[i]) >= DateKey(sorted[k + m]);
    }
  }

  /** The description column: at most 25 characters, long texts cut to 22
      characters and "...". */
  function Truncate(d: string): (r: string)
    ensures |r| <= 25
    ensures |d| <= 25 ==> r == d
    ensures |d| > 25 ==> |r| == 25 && r[..22] == d[..22] && r[22..] == "..."
  {
    if |d| > 25 then d[..22] + "..." else d
  }

  /** A shown description is shown as it is the next time. */
  lemma TruncateIdempotent(d: string)
    ensures Truncate(Truncate(d)) == Truncate(d)
  {
  }

  /** The amount column of generateReport: a sign, then the magnitude. */
  datatype AmountLabel = AmountLabel(sign: char, magnitude: real)

  function Label(amount: real): (l: AmountLabel)
    ensures l.sign == '-' <==> amount < 0.0
    ensures l.sign == '-' || l.sign == '+'
    ensures l.magnitude >= 0.0
  {
    AmountLabel(if amount < 0.0 then '-' else '+', Abs(amount))
  }

  /** The amount a label stands for. */
  function LabelValue(l: AmountLabel): real
  {
    if l.sign == '-' then -l.magnitude else l.magnitude
  }

  /** The label loses nothing: reading it back gives the amount. */
  lemma LabelRoundTrip(amount: real)
    ensures LabelValue(Label(amount)) == amount
  {
  }

  /** `transactions.slice(-10)`. */
  function LastTen(ts: seq<Transaction>): (r: seq<Transaction>)
    ensures |r| == Min(10, |ts|)
    ensures r == ts[|ts| - |r|..]
  {
    ts[|ts| - Min(10, |ts|)..]
  }

  /** A short ledger is shown whole, and the newest entry is always last. */
  lemma LastTenFacts(ts: seq<Transaction>, t: Transaction)
    ensures |ts| <= 10 ==> LastTen(ts) == ts
    ensures LastTen(ts + [t])[|LastTen(ts + [t])| - 1] == t
    ensures LastTen(ts + [t])[..|LastTen(ts + [t])| - 1] == LastTen(ts)[|LastTen(ts)| - (|LastTen(ts + [t])| - 1)..]
  {
  }

  datatype TableRow = TableRow(date: int, description: string, amount: real, category: string)

  /** One row of the transactions table: `t.category || "-"`. */
  function Row(t: Transaction): TableRow
  {
    TableRow(t.date, t.description, t.amount, if t.category == "" then "-" else t.category)
  }

  /** The transactions table of generateBudgetReport; None stands for "No
      transactions available.". */
  function TransactionTable(ts: seq<Transaction>): (r: Option<seq<TableRow>>)
    ensures r.None? <==> ts == []
    ensures r.Some? ==> |r.value| == Min(10, |ts|)
    ensures r.Some? ==> forall i :: 0 <= i < |r.value| ==>
      var t := ts[|ts| - |r.value| + i];
      && r.value[i].date == t.date && r.value[i].description == t.description
      && r.value[i].amount == t.amount
      && r.value[i].category == (if t.category == "" then "-" else t.category)
  {
    if ts == [] then None
    else
      var last := LastTen(ts);
      Some(seq(|last|, i requires 0 <= i < |last| => Row(last[i])))
  }

  /** One row of the goals table: progress and remaining amount, neither clamped. */
  datatype GoalRow = GoalRow(name: string, current: real, target: real, progress: real, remaining: real)

  function GoalLine(g: Goals.Goal): GoalRow
    requires g.targetAmount != 0.0
  {
    GoalRow(g.name, g.currentAmount, g.targetAmount,
            g.currentAmount / g.targetAmount * 100.0, g.targetAmount - g.currentAmount)
  }

  /** The goals table of generateBudgetReport, one row per goal in order;
      None stands for "No savings goals available.". */
  function GoalTable(goals: seq<Goals.Goal>): (r: Option<seq<GoalRow>>)
    requires forall i :: 0 <= i < |goals| ==> goals[i].targetAmount != 0.0
    ensures r.None? <==> goals == []
    ensures r.Some? ==> |r.value| == |goals|
    ensures r.Some? ==> forall i :: 0 <= i < |goals| ==>
      && r.value[i].name == goals[i].name
      && r.value[i].current == goals[i].currentAmount && r.value[i].target == goals[i].targetAmount
      && r.value[i].remaining == goals[i].targetAmount - goals[i].currentAmount
      && r.value[i].progress * goals[i].targetAmount == goals[i].currentAmount * 100.0
  {
    if goals == [] then None
    else Some(seq(|goals|, i requires 0 <= i < |goals| => GoalLine(goals[i])))
  }

  /** The report's row and the goal view's figures differ only by clamping:
      the view caps the progress at 100 and the remaining amount at 0 from
      below; an overfunded goal shows a negative remaining amount in the
      report. */
  lemma GoalLineClamps(g: Goals.Goal, rawDays: int)
    requires g.targetAmount > 0.0
    ensures var p, row := Goals.GoalProgress(g, rawDays), GoalLine(g);
      && p.progress == (if row.progress >= 100.0 then 100.0 else row.progress)
      && p.remaining == (if row.remaining <= 0.0 then 0.0 else row.remaining)
      && (row.remaining < 0.0 <==> g.currentAmount > g.targetAmount)
      && (row.progress >= 100.0 <==> p.isCompleted)
  {
    Goals.RatioBounds(g.currentAmount, g.targetAmount);
  }
}
