/** The state src/script.js keeps at module level, the `transactions` and
    `categories` arrays, and the operations that change them. */
module BudgetApp {
  import opened Seqs
  import opened Text
  import opened Ledger
  import opened Summary

  /** The categories a first visit starts with. */
  const DefaultCategories: seq<string> :=
    ["Food", "Transportation", "Housing", "Utilities", "Entertainment", "Income", "Other"]

  /** The category that can never be deleted and that takes over the
      transactions of a deleted one. */
  const Fallback: string := "Other"

  datatype AddOutcome = Added | InvalidAmount | EmptyDescription

  datatype CategoryOutcome = CategoryAdded | EmptyName | DuplicateName

  datatype DeleteOutcome = Deleted | LastCategory | ProtectedCategory | NotConfirmed

  /** `transaction.id !== id`, the test removeTransaction filters with. */
  function OtherId(id: int): Transaction -> bool
  {
    (t: Transaction) => t.id != id
  }

  /** `cat !== categoryName`, the test deleteCategory filters with. */
  function OtherName(name: string): string -> bool
  {
    (c: string) => c != name
  }

  /** One step of deleteCategory's loop: a transaction of the deleted category
      moves to the fallback one. */
  function Reassign(t: Transaction, name: string): Transaction
  {
    if t.category == name then t.(category := Fallback) else t
  }

  /** The whole ledger after deleteCategory's loop. */
  function Reassigned(ts: seq<Transaction>, name: string): seq<Transaction>
  {
    seq(|ts|, i requires 0 <= i < |ts| => Reassign(ts[i], name))
  }

  /** The seed is a list of distinct names that holds the fallback. */
  lemma DefaultsWellFormed()
    ensures Distinct(DefaultCategories) && Fallback in DefaultCategories
  {
    assert DefaultCategories[6] == Fallback;
  }

  /** Removing an id no transaction has leaves the ledger as it was. */
  lemma RemoveUnknownId(ts: seq<Transaction>, id: int)
    requires forall i :: 0 <= i < |ts| ==> ts[i].id != id
    ensures Filter(ts, OtherId(id)) == ts
  {
    FilterAllPass(ts, OtherId(id));
  }

  /** Removing by id takes out every copy of the records with that id and
      keeps every other record as often as it was there. */
  lemma RemoveCounts(ts: seq<Transaction>, id: int, t: Transaction)
    ensures multiset(Filter(ts, OtherId(id)))[t] == if t.id == id then 0 else multiset(ts)[t]
  {
    FilterCount(ts, OtherId(id), t);
  }

  /** Deleting a name from a duplicate-free list removes at most one entry. */
  lemma {:induction false} DeleteNameLength(s: seq<string>, name: string)
    requires Distinct(s)
    ensures |Filter(s, OtherName(name))| == |s| - (if name in s then 1 else 0)
  {
    if s != [] {
      var init, x := s[..|s| - 1], s[|s| - 1];
      DeleteNameLength(init, name);
      assert s == init + [x];
      forall k | 0 <= k < |init| ensures init[k] != x {
        assert init[k] == s[k];
      }
    }
  }

  /** The loop keeps every transaction in its place, changes only categories,
      and only those equal to the deleted name; the figures stay the same. */
  lemma ReassignedKeeps(ts: seq<Transaction>, name: string)
    ensures |Reassigned(ts, name)| == |ts|
    ensures forall i :: 0 <= i < |ts| ==>
      Reassigned(ts, name)[i] == ts[i].(category := Reassigned(ts, name)[i].category)
    ensures forall i :: 0 <= i < |ts| ==>
      Reassigned(ts, name)[i].category == if ts[i].category == name then Fallback else ts[i].category
    ensures name != Fallback ==> forall i :: 0 <= i < |ts| ==> Reassigned(ts, name)[i].category != name
    ensures Totals(Reassigned(ts, name)) == Totals(ts)
  {
    SameAmountsSameTotals(Reassigned(ts, name), ts);
  }

  /** What one reassigned transaction adds to the bucket `c`. */
  lemma ReassignShare(t: Transaction, name: string, c: string)
    requires name != Fallback
    ensures BucketShare(CategoryOf, c)(Reassign(t, name))
         == if c == Fallback then BucketShare(CategoryOf, Fallback)(t) + BucketShare(CategoryOf, name)(t)
            else if c == name then 0.0
            else BucketShare(CategoryOf, c)(t)
  {
    var u := Reassign(t, name);
    assert u.amount == t.amount;
    assert CategoryOf(u) == if CategoryOf(t) == name then Fallback else CategoryOf(t);
  }

  /** In the expense summary, the deleted category's spending is added to the
      fallback's, the deleted one has none left, and the rest are unchanged. */
  lemma {:induction false} ReassignedSpending(ts: seq<Transaction>, name: string, c: string)
    requires name != Fallback
    ensures CategoryTotal(Reassigned(ts, name), CategoryOf, c)
         == if c == Fallback then CategoryTotal(ts, CategoryOf, Fallback) + CategoryTotal(ts, CategoryOf, name)
            else if c == name then 0.0
            else CategoryTotal(ts, CategoryOf, c)
  {
    if ts != [] {
      var n := |ts| - 1;
      ReassignedSpending(ts[..n], name, c);
      var r := Reassigned(ts, name);
      assert r[..n] == Reassigned(ts[..n], name);
      ReassignShare(ts[n], name, c);
      if c == Fallback {
        ReassignedSpending(ts[..n], name, name);
      }
    }
  }

  class Budget {
    var transactions: seq<Transaction>
    var categories: seq<string>

    ghost predicate Valid()
      reads this
    {
      Distinct(categories)
    }

    /** Loading: a missing stored ledger is empty; missing stored categories
        are the seed (a stored empty list stays empty). */
    constructor (storedTransactions: Option<seq<Transaction>>, storedCategories: Option<seq<string>>)
      ensures transactions == if storedTransactions.Some? then storedTransactions.value else []
      ensures categories == if storedCategories.Some? then storedCategories.value else DefaultCategories
      ensures storedCategories.None? ==> Valid() && Fallback in categories
    {
      transactions := if storedTransactions.Some? then storedTransactions.value else [];
      categories := if storedCategories.Some? then storedCategories.value else DefaultCategories;
      DefaultsWellFormed();
    }

    /** addTransaction. `amount` is the parsed amount field (None for NaN);
        `id` is the generated id and `date` the date field. */
    method AddTransaction(amount: Option<real>, description: string, category: string, date: int, id: int)
      returns (outcome: AddOutcome)
      modifies this`transactions
      ensures outcome == InvalidAmount <==> amount.None?
      ensures outcome == EmptyDescription <==> amount.Some? && Trim(description) == []
      ensures outcome != Added ==> transactions == old(transactions)
      ensures outcome == Added ==>
        transactions == old(transactions) + [Transaction(id, Trim(description), amount.value, category, date)]
      ensures outcome == Added ==> Balance(transactions) == Balance(old(transactions)) + amount.value
    {
      if amount.None? {
        return InvalidAmount;
      }
      var trimmed := Trim(description);
      if trimmed == [] {
        return EmptyDescription;
      }
      var t := Transaction(id, trimmed, amount.value, category, date);
      BalanceAppend(transactions, t);
      transactions := transactions + [t];
      outcome := Added;
    }

    /** removeTransaction: every record with this id goes, the rest stay in order. */
    method RemoveTransaction(id: int)
      modifies this`transactions
      ensures transactions == Filter(old(transactions), OtherId(id))
      ensures forall i :: 0 <= i < |transactions| ==> transactions[i].id != id
    {
      transactions := Filter(transactions, OtherId(id));
    }

    /** addNewCategory: the trimmed name is appended unless it is empty or
        already present. */
    method AddNewCategory(input: string) returns (outcome: CategoryOutcome)
      modifies this`categories
      ensures outcome == EmptyName <==> Trim(input) == []
      ensures outcome == DuplicateName <==> Trim(input) != [] && Trim(input) in old(categories)
      ensures categories == if outcome == CategoryAdded then old(categories) + [Trim(input)] else old(categories)
      ensures old(Valid()) ==> Valid()
    {
      var name := Trim(input);
      if name == [] {
        return EmptyName;
      }
      if name in categories {
        return DuplicateName;
      }
      categories := categories + [name];
      outcome := CategoryAdded;
    }

    /** deleteCategory. `confirmed` is the user's answer to the confirmation. */
    method DeleteCategory(name: string, confirmed: bool) returns (outcome: DeleteOutcome)
      modifies this
      ensures outcome == LastCategory <==> |old(categories)| <= 1
      ensures outcome == ProtectedCategory <==> |old(categories)| > 1 && name == Fallback
      ensures outcome == NotConfirmed <==> |old(categories)| > 1 && name != Fallback && !confirmed
      ensures outcome != Deleted ==> categories == old(categories) && transactions == old(transactions)
      ensures outcome == Deleted ==>
        && categories == Filter(old(categories), OtherName(name))
        && transactions == Reassigned(old(transactions), name)
      ensures Fallback in old(categories) ==> Fallback in categories
      ensures old(Valid()) ==> Valid()
      ensures old(Valid()) && outcome == Deleted ==>
        |categories| == |old(categories)| - (if name in old(categories) then 1 else 0) >= 1
    {
      if |categories| <= 1 {
        return LastCategory;
      }
      if name == Fallback {
        return ProtectedCategory;
      }
      if !confirmed {
        return NotConfirmed;
      }
      FilterMembers(categories, OtherName(name));
      if Valid() {
        DeleteNameLength(categories, name);
        FilterDistinct(categories, OtherName(name));
      }
      categories := Filter(categories, OtherName(name));
      MoveToFallback(name);
      outcome := Deleted;
    }

    /** The `forEach` loop of deleteCategory, rewriting categories in place. */
    method MoveToFallback(name: string)
      modifies this`transactions
      ensures transactions == Reassigned(old(transactions), name)
    {
      var i := 0;
      while i < |transactions|
        invariant 0 <= i <= |transactions| == |old(transactions)|
        invariant forall k :: 0 <= k < i ==> transactions[k] == Reassign(old(transactions)[k], name)
        invariant forall k :: i <= k < |transactions| ==> transactions[k] == old(transactions)[k]
      {
        if transactions[i].category == name {
          transactions := transactions[i := transactions[i].(category := Fallback)];
        }
        i := i + 1;
      }
    }
  }
}
