/** The transaction record and the three figures the tracker shows above the
    list: the balance, the income and the expense (src/script.js, updateValues). */
module Ledger {
  import opened Seqs

  /** One money movement. A positive amount is income, a negative one an
      expense. `date` is the transaction's date as a point in time on the scale
      JavaScript's `Date` uses. */
  datatype Transaction = Transaction(id: int, description: string, amount: real, category: string, date: int)

  function AmountOf(t: Transaction): real { t.amount }

  predicate IsIncome(t: Transaction) { t.amount > 0.0 }

  predicate IsExpense(t: Transaction) { t.amount < 0.0 }

  /** The sum of all amounts: `transactions.reduce((acc, t) => acc + t.amount, 0)`. */
  function Balance(ts: seq<Transaction>): real
  {
    SumOf(ts, AmountOf)
  }

  /** The sum of the positive amounts. */
  function IncomeTotal(ts: seq<Transaction>): (r: real)
    ensures r >= 0.0
  {
    var income := Filter(ts, IsIncome);
    SumOfNonNegative(income, AmountOf);
    SumOf(income, AmountOf)
  }

  /** The signed sum of the negative amounts. */
  function ExpenseSum(ts: seq<Transaction>): (r: real)
    ensures r <= 0.0
  {
    var spent := Filter(ts, IsExpense);
    SumOfNonPositive(spent, AmountOf);
    SumOf(spent, AmountOf)
  }

  datatype Figures = Figures(balance: real, income: real, expense: real)

  /** updateValues: the total of all amounts, the income, and the expense as a
      magnitude (the signed sum of the negative amounts times -1). */
  function Totals(ts: seq<Transaction>): (r: Figures)
    ensures r.balance == r.income - r.expense
    ensures r.income >= 0.0 && r.expense >= 0.0
    ensures ts == [] ==> r == Figures(0.0, 0.0, 0.0)
  {
    BalanceSplit(ts);
    Figures(Balance(ts), IncomeTotal(ts), -ExpenseSum(ts))
  }

  /** Every amount is income, expense or zero, so the total splits in two. */
  lemma {:induction false} BalanceSplit(ts: seq<Transaction>)
    ensures Balance(ts) == IncomeTotal(ts) + ExpenseSum(ts)
  {
    if ts != [] {
      var init, t := ts[..|ts| - 1], ts[|ts| - 1];
      BalanceSplit(init);
      assert ts == init + [t];
      FilterAppend(init, [t], IsIncome);
      FilterAppend(init, [t], IsExpense);
      SumOfAppend(Filter(init, IsIncome), Filter([t], IsIncome), AmountOf);
      SumOfAppend(Filter(init, IsExpense), Filter([t], IsExpense), AmountOf);
      assert [t][..0] == [];
    }
  }

  /** Appending one transaction moves the balance by its amount. */
  lemma BalanceAppend(ts: seq<Transaction>, t: Transaction)
    ensures Balance(ts + [t]) == Balance(ts) + t.amount
  {
    assert (ts + [t])[..|ts|] == ts;
  }

  /** Appending one transaction moves the balance by its amount and moves
      exactly one of income and expense by its magnitude. */
  lemma TotalsAppend(ts: seq<Transaction>, t: Transaction)
    ensures Totals(ts + [t]).balance == Totals(ts).balance + t.amount
    ensures Totals(ts + [t]).income == Totals(ts).income + (if t.amount > 0.0 then t.amount else 0.0)
    ensures Totals(ts + [t]).expense == Totals(ts).expense + (if t.amount < 0.0 then -t.amount else 0.0)
  {
    var u := ts + [t];
    assert u[..|u| - 1] == ts;
    FilterAppend(ts, [t], IsIncome);
    FilterAppend(ts, [t], IsExpense);
    SumOfAppend(Filter(ts, IsIncome), Filter([t], IsIncome), AmountOf);
    SumOfAppend(Filter(ts, IsExpense), Filter([t], IsExpense), AmountOf);
    assert [t][..0] == [];
  }

  /** The figures depend only on the multiset of transactions, not on their order. */
  lemma TotalsPermutation(ts: seq<Transaction>, us: seq<Transaction>)
    requires multiset(ts) == multiset(us)
    ensures Totals(ts) == Totals(us)
  {
    SumOfPermutation(ts, us, AmountOf);
    SumOfFilter(ts, IsIncome, AmountOf);
    SumOfFilter(us, IsIncome, AmountOf);
    SumOfPermutation(ts, us, Masked(IsIncome, AmountOf));
    SumOfFilter(ts, IsExpense, AmountOf);
    SumOfFilter(us, IsExpense, AmountOf);
    SumOfPermutation(ts, us, Masked(IsExpense, AmountOf));
  }

  /** Two lists that agree position by position on the amounts have the same
      figures, whatever their other fields. */
  lemma SameAmountsSameTotals(ts: seq<Transaction>, us: seq<Transaction>)
    requires |ts| == |us|
    requires forall i :: 0 <= i < |ts| ==> ts[i].amount == us[i].amount
    ensures Totals(ts) == Totals(us)
  {
    SumOfPointwise(ts, us, AmountOf);
    SumOfFilter(ts, IsIncome, AmountOf);
    SumOfFilter(us, IsIncome, AmountOf);
    SumOfPointwise(ts, us, Masked(IsIncome, AmountOf));
    SumOfFilter(ts, IsExpense, AmountOf);
    SumOfFilter(us, IsExpense, AmountOf);
    SumOfPointwise(ts, us, Masked(IsExpense, AmountOf));
  }
}
