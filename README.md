# Budget tracker model

This is a Dafny model of the money logic in a single-user, client-side budget
tracker. Page rendering, browser storage and PDF drawing are not modelled.

- **Ledger.** The ledger is a list of transactions `{id, description, amount,
  category, date}`. A positive amount is income and a negative amount is an
  expense.
  - Transactions are added with validation and removed by id.
  - The page shows three figures: the balance, the income, and the expense as
    a magnitude.
  - An expense-by-category summary feeds a bar chart. The chart has six
    y-axis labels and one bar per category, sized in percent of the largest
    category.
- **Categories.** The categories are a duplicate-free list of names,
  extended by a guarded add. A guarded delete never removes the last
  category or "Other". Deleting a category moves its transactions to
  "Other".
- **Savings goals.** Goals are created with validation.
  - A contribution is checked against the ledger balance. On success it adds
    an expense transaction and raises the goal.
  - A goal can be edited field by field.
  - Progress figures are clamped.
- **PDF reports.** There are two reports, and both show the same totals.
  - `generateReport` also shows a category summary that files uncategorised
    spending under "Uncategorized", and the five most recent transactions
    with truncated descriptions and signed amounts.
  - `generateBudgetReport` also shows the last ten transactions and
    unclamped goal rows.

The modules follow the parts of the program:

- `Seqs`: filtering and summing over sequences, an `Option` type, `Min`, and
  the lemmas about them (order independence, pointwise equality, masking).
- `Sorting`: a stable sort in non-increasing order of a real key
  (`Array.prototype.sort` with a `b - a` comparator). It is proved to be a
  permutation, sorted and stable.
- `Text`: ECMAScript's `String.prototype.trim`.
- `Ledger`: the `Transaction` record and the figures of `updateValues`.
- `Summary`: the per-category expense summary. It is kept in the order in
  which categories are first met, and it works for any bucketing function.
- `Dashboard`: the chart of `createChart` and the text report of
  `generateReport` in `src/script.js`.
- `BudgetApp`: the module-level state of `src/script.js`, a `Budget` class
  with `transactions` and `categories` fields, and its operations.
- `Goals`: `src/utilities/setGoalsScript.js`, with a `GoalBook` class that
  owns the `goals` list.
- `Report`: the computations of the two reports in
  `src/utilities/generateReport.js`.

How the source's inputs are represented:
- Amounts are `real`, and JavaScript's NaN from `parseFloat` is `None`.
- Transaction dates are integers on one time scale. A goal's date is a
  `DateField`: blank, unreadable, or a point in time. An unreadable date
  compares false with everything, as NaN does.
- `prompt` and `confirm` answers, `Math.random()` ids, `Date.now()` and
  `new Date()` are parameters.
- The goal progress's rounded-up day difference is a parameter `rawDays`.

Where the code and the documentation differ, the model follows the code:
- The chart has six y-axis labels, not five: the loop runs from 5 down to 0.
- `dailyNeeded` divides the unclamped remaining amount. For an overfunded
  goal with days left it is therefore negative.

There is one exception: the goal edit. `Goals.EditedAsWritten` follows the
code, while `Goals.Edited` and `Goals.GoalBook.EditGoal` apply the corrected
target rule (see "## Findings").

## Model

| member | source | states |
|---|---|---|
| Ledger.Totals | src/script.js:111-124 | The balance equals income minus expense. Both are non-negative, and an empty ledger gives three zeros. |
| Ledger.IncomeTotal | src/script.js:118-120 | The sum of the positive amounts is never negative. |
| Ledger.ExpenseSum | src/script.js:122-124 | The signed sum of the negative amounts is never positive. |
| Ledger.BalanceSplit | src/script.js:114-124 | The sum of all amounts is the income plus the signed expense, because every amount is positive, negative or zero. |
| Ledger.BalanceAppend | src/script.js:82 | Appending a transaction moves the balance by exactly its amount. |
| Ledger.TotalsAppend | src/script.js:82 | Appending a transaction moves the balance by its amount and moves exactly one of income and expense by its magnitude. |
| Ledger.TotalsPermutation | src/script.js:112-124 | The three figures depend only on which transactions there are, not on their order. |
| Ledger.SameAmountsSameTotals | src/script.js:112-124 | Two ledgers with the same amounts position by position have the same figures, whatever their descriptions, categories or dates. |
| Text.TrimShape | src/script.js:65 | The trimmed text is a slice of the input with only white space around it. When non-empty, it neither starts nor ends with white space. |
| Text.TrimEmpty | src/script.js:66 | A text trims to nothing exactly when every character is white space. |
| Text.TrimIdempotent | src/script.js:373 | Trimming twice is trimming once, so a stored trimmed name is found again when it is typed again. |
| BudgetApp.Budget.constructor | src/script.js:38-53 | The ledger is the stored one or empty. The categories are the stored ones or the seed, and the seed is duplicate-free and holds "Other". |
| BudgetApp.DefaultsWellFormed | src/script.js:43-51 | The seven default categories are distinct and include "Other". |
| BudgetApp.Budget.AddTransaction | src/script.js:56-82 | A NaN amount is rejected, and so is a description that trims to nothing; both leave the ledger unchanged. Otherwise exactly one record with the trimmed description is appended, earlier records are untouched, and the balance moves by the amount. |
| BudgetApp.Budget.RemoveTransaction | src/script.js:104-105 | The new ledger is the old one with every record of that id filtered out, in order; none with that id remains. |
| BudgetApp.RemoveUnknownId | src/script.js:105 | Removing an id that no record has leaves the ledger as it was. |
| BudgetApp.RemoveCounts | src/script.js:105 | Every record with the id is gone, and every other record stays as many times as it was there. |
| BudgetApp.Budget.AddNewCategory | src/script.js:364-378 | An empty trimmed name and a name already present are rejected without change. Otherwise the trimmed name is appended, and the list stays duplicate-free. |
| BudgetApp.Budget.DeleteCategory | src/script.js:384-403 | The outcome is "last category" when at most one is left. Otherwise it is "protected" for "Other", then "not confirmed"; every refusal changes nothing. On confirmation, the name is filtered out and the ledger is reassigned. "Other" survives if present. A duplicate-free list stays so, shrinks by one exactly when the name was in it, and keeps at least one category. |
| BudgetApp.Budget.MoveToFallback | src/script.js:399-403 | The in-place loop leaves the ledger equal to the reassigned one. |
| BudgetApp.DeleteNameLength | src/script.js:396 | Filtering a name out of a duplicate-free list removes one entry if the name was there and none otherwise. |
| BudgetApp.ReassignedKeeps | src/script.js:399-403 | Reassignment keeps the count, the order and every field but the category. A category becomes "Other" exactly when it was the deleted name, no transaction keeps that name, and the three figures are unchanged. |
| BudgetApp.ReassignShare | src/script.js:400-401 | One reassigned transaction moves its expense from the deleted name's bucket to the "Other" bucket. |
| BudgetApp.ReassignedSpending | src/script.js:399-403 | In the expense summary, "Other" gains the deleted category's spending, the deleted category has none, and every other category keeps its total. |
| Summary.Tally | src/script.js:185-192 | Each category appears at most once in the summary, and every summary amount is positive. |
| Summary.SummarizeExpenses | src/script.js:182-192 | The `forEach` loop builds exactly the expense summary of the ledger. |
| Summary.BumpLookup | src/script.js:187-190 | Adding to one bucket raises only that bucket, by exactly the amount. |
| Summary.BumpSum | src/script.js:190 | Adding to a bucket raises the summary's total by the amount. |
| Summary.TallyLookup | src/script.js:185-192 | Each bucket's amount is the sum of the magnitudes of the negative transactions in that category. |
| Summary.TallyCategories | src/script.js:185-192 | A category is in the summary exactly when some negative transaction has it. |
| Summary.TallySum | src/script.js:185-192 | The summary's amounts add up to the expense total. |
| Summary.TallyEmpty | src/script.js:194 | The summary is empty exactly when no amount is negative. |
| Summary.TallyPermutation | src/script.js:185-192 | Reordering the ledger changes neither the summary's keys nor any bucket's amount. |
| Sorting.SortDescending | src/script.js:203-205 | The sorted list is a permutation of its input, in non-increasing order of the key. |
| Sorting.SortDescendingStable | src/script.js:203-205 | Entries with equal keys keep their input order, as in a stable `Array.prototype.sort`. |
| Dashboard.MaxAmount | src/script.js:200 | The maximum bounds every amount of the summary and is one of them. |
| Dashboard.Ticks | src/script.js:216-223 | There are six labels. The first is the maximum and the last is 0. Consecutive labels differ by a fifth of the maximum, and for a non-negative maximum they never increase. |
| Dashboard.TickOrder | src/script.js:220 | With a non-negative maximum, a label higher up the axis is never smaller than one below it. |
| Dashboard.TickStep | src/script.js:220 | Neighbouring labels are exactly a fifth of the maximum apart. |
| Dashboard.Bars | src/script.js:244-246 | Each height is `amount / maxAmount * 100`. For amounts in (0, maximum] every height lies in (0, 100], and a height is 100 exactly for an amount equal to the maximum. |
| Dashboard.HeightBounds | src/script.js:246 | A positive amount no larger than the maximum gets a bar height in (0, 100], and the height is exactly 100 when the amount is the maximum. |
| Dashboard.SortedHeadIsMax | src/script.js:200-205 | After sorting a summary of positive amounts, the first entry carries the maximum and every entry lies in (0, maximum]. |
| Dashboard.CreateChart | src/script.js:173-246 | "No data" appears exactly for an empty ledger, and "no expense data" exactly when the ledger is non-empty without a negative amount. Otherwise the chart draws the sorted summary, in non-increasing order, with a positive maximum that is its first amount, and six ticks. Each bar's height is its amount over the maximum times 100: the first is 100% high, and every bar lies in (0, 100]. |
| Dashboard.BudgetReportText | src/script.js:274-308 | The text report shows the income, the expense magnitude and their difference as the balance, which equals the sum of all amounts. Its breakdown is the expense summary and adds up to the expense. |
| Goals.GoalBook.constructor | src/utilities/setGoalsScript.js:2 | The goals are the stored ones, or none. |
| Goals.FindGoal | src/utilities/setGoalsScript.js:55 | The result is the position of the first goal with the id, or None when no goal has it. |
| Goals.GoalBook.AddNewGoal | src/utilities/setGoalsScript.js:5-41 | The name, target, date and initial-amount checks apply in order, and each rejection leaves the goals unchanged. Otherwise one goal is appended with the trimmed name and `parseFloat(initial) \|\| 0` as its current amount, and every goal stays well-formed. |
| Goals.GoalBook.ContributeToGoal | src/utilities/setGoalsScript.js:54-88 | Three cases change nothing: an unknown id, a NaN or non-positive amount, and an amount above the balance (an amount equal to the balance is allowed). Otherwise one "Savings" expense of `-amount` is appended, only that goal's current amount rises by `amount`, and the balance drops by `amount` and stays non-negative. |
| Goals.GoalBook.EditGoal | src/utilities/setGoalsScript.js:103-121 | An unknown id changes nothing. Otherwise only the goal found is replaced, by its edit under the corrected target rule, so goals stay well-formed. The program itself does not keep this promise (see Goals.EditedAsWritten). |
| Goals.Edited | src/utilities/setGoalsScript.js:108-121 | The id, current amount and creation time never change. A changed name is the non-empty trimmed answer, and a changed date is the answered date, after now. A changed target is a positive number answered: this is the corrected rule, not the program's. |
| Goals.EditedAsWritten | src/utilities/setGoalsScript.js:108-121 | The program's edit, as the stored goal plus a flag for a NaN target. The name and date answers always apply, by the same rules as in Goals.Edited, even when the target becomes NaN. The id, current amount and creation time never change. The target is NaN exactly for a blank answer. Otherwise it is 0 for a hexadecimal, binary or octal literal, the number for any other number answered, and the old target for a cancelled or non-numeric answer. |
| Goals.EditedAsWrittenAgrees | src/utilities/setGoalsScript.js:113-116 | For a good goal, the program's edit and the corrected edit agree on every answer except blank text, a radix literal and a non-positive number. Those are exactly the answers after which the program stores a NaN target or a goal that is not good. |
| Goals.EditedTakesAnswers | src/utilities/setGoalsScript.js:109-120 | A non-empty trimmed name and a date after now always replace the old ones. |
| Goals.EditedIsGood | src/utilities/setGoalsScript.js:113-116 | Editing keeps a goal's target positive and its current amount non-negative. |
| Goals.AsWrittenAcceptsBadTargets | src/utilities/setGoalsScript.js:113-116 | As written, the target edit stores 0 for the answers "0" and "0x10", a negative number for a negative answer, and NaN for a blank answer. The corrected rule keeps the old target in every one of these cases. |
| Goals.EditTargetAgrees | src/utilities/setGoalsScript.js:113-116 | The as-written and corrected target rules agree on every answer that is not blank, not a radix literal and not a non-positive number. |
| Goals.GoalProgress | src/utilities/setGoalsScript.js:128-141 | Progress is at most 100, and remaining and daysLeft are at least 0. `dailyNeeded` is 0 without days left and is the unclamped remaining amount per day otherwise. Completed holds exactly when current >= target, which is when progress is 100 and when remaining is 0. Overdue holds exactly when the day difference is negative and the goal is not completed, so the two never hold together. |
| Goals.RatioBounds | src/utilities/setGoalsScript.js:129 | `current / target * 100` reaches 100 exactly when the target is reached, and it is not negative for a non-negative amount. |
| Report.ReportTotals | src/utilities/generateReport.js:263-271 | The balance, income + signed expense, equals the sum of all amounts. The income equals the page's income, and the absolute value of the signed expense equals the page's expense (the same code is at generateReport.js:64-72 and 100). |
| Report.CategoryBreakdown | src/utilities/generateReport.js:114-123 | The loop builds the expense summary with an empty category filed under "Uncategorized". Its running `totalCategorized` equals the sum of the summary and the expense total. |
| Report.ReportBucketsNamed | src/utilities/generateReport.js:119 | No bucket of the report's summary has an empty name. |
| Report.SortedCategories | src/utilities/generateReport.js:125-127 | The listed categories are a permutation of the summary in non-increasing order of amount. |
| Report.Recent | src/utilities/generateReport.js:186-188 | The selection has min(5, n) entries drawn from the ledger, newest first, and no transaction left out is newer than one shown. |
| Report.PrefixNewestFirst | src/utilities/generateReport.js:187-188 | A prefix of the date-sorted copy is sorted and drawn from it. |
| Report.PrefixOmitsOlder | src/utilities/generateReport.js:187-188 | What a prefix of the date-sorted copy leaves out is no newer than anything it keeps. |
| Report.Truncate | src/utilities/generateReport.js:203 | The shown text is at most 25 characters. A short text is unchanged; a long one is its first 22 characters followed by "...", exactly 25. |
| Report.TruncateIdempotent | src/utilities/generateReport.js:203 | Truncating a shown text again changes nothing. |
| Report.Label | src/utilities/generateReport.js:208-210 | The sign is "-" exactly for a negative amount and "+" otherwise, and the magnitude is non-negative. |
| Report.LabelRoundTrip | src/utilities/generateReport.js:208-210 | Sign and magnitude together give back the amount. |
| Report.LastTen | src/utilities/generateReport.js:288 | `slice(-10)` is the suffix of min(10, n) transactions, in their original order. |
| Report.LastTenFacts | src/utilities/generateReport.js:288 | A ledger of at most ten is shown whole. After an append, the new record is shown last, preceded by the tail of what was shown before. |
| Report.TransactionTable | src/utilities/generateReport.js:284-297 | There is no table exactly when the ledger is empty. Otherwise there are min(10, n) rows over the last transactions in order, showing date, description and amount, and an empty category as "-". |
| Report.GoalTable | src/utilities/generateReport.js:305-325 | There is no table exactly when there are no goals. Otherwise there is one row per goal in order. Each row shows the goal's name, current amount and target, the unclamped remaining amount target minus current (negative for an overfunded goal), and a progress whose product with the target is 100 times the current amount. |
| Report.GoalLineClamps | src/utilities/generateReport.js:306-308 | The goal view's progress is the row's progress capped at 100, and its remaining amount is the row's remaining floored at 0. The row's remaining is negative exactly for an overfunded goal, and the row's progress reaches 100 exactly when the goal is completed. |

## Left out

- Page rendering and event wiring are not modelled. That covers the list items, tabs, modals, dropdowns, the chart's elements and `showAlert`. `updateGoalsList` and `updateGoalsInLocalStorage` are not part of this model.
- Storage and JSON: `localStorage` reads and writes are not modelled. Loading is a constructor taking the stored value or None, and saving is not modelled.
- PDF drawing with jsPDF and autotable is not modelled: coordinates, colours, pages and `doc.save`.
- Number formatting is not modelled: `toFixed`, `Math.round`, `toLocaleDateString`, and the percentage at generateReport.js:135.
- `parseFloat` and `isNaN` are not modelled as text functions. Their results are inputs: `Option<real>` for a parsed field, and a `NumberAnswer` for the edit prompt. That answer tells apart a cancelled prompt, text that `isNaN` rejects, blank text, and a number.
- Floating point: amounts are exact reals, so rounding in sums and divisions is not modelled.
- Dates: a JavaScript date is an integer, or a `DateField` for goals, and the clock and the day difference are parameters. The recent-transactions sort assumes a readable date for every transaction; a NaN comparison in the comparator is not modelled.
- Report.Recent: ties between equal dates are broken by the stable sort's order. Engines before ES2019 might order them differently.
- Goals.GoalProgress: a NaN day difference (an unreadable target date) is not modelled. It behaves exactly like `rawDays = 0`: `daysLeft` and `dailyNeeded` are 0 and the goal is not overdue.
- Goals.GoalBook.EditGoal, Goals.Edited: both apply the corrected target rule `EditTarget`, not the program's. Goals.EditTargetAsWritten and Goals.EditedAsWritten model the program's rule, and Goals.EditedAsWrittenAgrees states where the two differ. The GoalBook keeps only the corrected edit, because its goals are reals and a NaN target cannot be stored in it; Goals.EditedAsWritten shows a NaN target by a flag beside the goal.
- Goals.NumberAnswer: `isNaN` and `parseFloat` are not modelled on text. The answer kinds stand for their outcomes, including the radix literals (such as "0x10", "0b1" and "0o7") that `isNaN` accepts and `parseFloat` reads as 0.
- Goals.GoalProgress: requires a positive target. A zero target (possible through the as-written edit) divides by zero in the source.
- Report.GoalTable: requires non-zero targets, because a zero target gives Infinity or NaN in the source.
- Goals.GoalBook.ContributeToGoal: the source reads and writes the stored ledger, not the in-memory array of src/script.js. The model uses one `Budget` ledger for both. So script.js's in-memory array goes stale. Its next save (after an add at src/script.js:82-83, a removal at 105-106 or a category deletion at 405) writes that stale array back to storage. This erases the contribution's transaction, while the goal keeps its raised current amount. The model does not capture this lost update.
- Summary.Tally: object-key quirks are not modelled. Keys are kept in first-encounter order, so integer-like category names, whose keys JavaScript orders numerically, are not covered. Category names that collide with `Object.prototype` members are not covered either.
- String lengths count code points, not UTF-16 code units, so `Truncate` and the three-character name check differ for characters outside the Basic Multilingual Plane.
- The module structure of generateReport.js is not modelled: the duplicate exports at lines 4/238 and 230/243, the console stub, and the import of `transactions` that script.js does not export.

## Findings

| source | as written | input that shows it | evidently intended | confidence | as-written member | corrected member |
|---|---|---|---|---|---|---|
| src/utilities/setGoalsScript.js:113-116 | The edit stores `parseFloat` of any answer that `isNaN` accepts. So "0" becomes 0, a negative answer is stored as is, "0x10" becomes 0, and blank text becomes NaN. Goals.EditedAsWritten is the whole edit as written. | The answer "0" for a goal with target 100 stores a target of 0. | The check addNewGoal applies at line 17: only a positive target replaces the old one. | not executed | Goals.AsWrittenAcceptsBadTargets | Goals.EditedIsGood |
