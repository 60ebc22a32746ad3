/** Savings goals (src/utilities/setGoalsScript.js): creating a goal,
    contributing to it out of the ledger's balance, editing it, and the
    progress figures shown for it. */
module Goals {
  import opened Seqs
  import opened Text
  import opened Ledger
  import BudgetApp

  /** A date typed into a form or a prompt, as `new Date(text)` reads it:
      nothing typed, text that is no date, or a point in time. JavaScript
      compares an unreadable date as NaN, so neither `<` nor `>` holds. */
  datatype DateField = Blank | Unparsable | At(time: int)

  datatype Goal = Goal(id: int, name: string, targetAmount: real, targetDate: DateField,
                       currentAmount: real, createdAt: int)

  /** What every goal the form creates satisfies. */
  predicate GoodGoal(g: Goal)
  {
    g.targetAmount > 0.0 && g.currentAmount >= 0.0
  }

  /** The number typed into the "initial amount" field: `parseFloat(text) || 0`. */
  function OrZero(x: Option<real>): real
  {
    if x.Some? then x.value else 0.0
  }

  /** `goals.find((g) => g.id === id)`, as the position of the goal found. */
  function FindGoal(goals: seq<Goal>, id: int): (r: Option<nat>)
    ensures r.Some? ==> r.value < |goals| && goals[r.value].id == id
    ensures r.Some? ==> forall k :: 0 <= k < r.value ==> goals[k].id != id
    ensures r.None? ==> forall k :: 0 <= k < |goals| ==> goals[k].id != id
  {
    if goals == [] then None
    else if goals[0].id == id then Some(0)
    else
      var r := FindGoal(goals[1..], id);
      assert forall k :: 1 <= k < |goals| ==> goals[k] == goals[1..][k - 1];
      if r.Some? then Some(r.value + 1) else None
  }

  datatype Progress = Progress(progress: real, remaining: real, daysLeft: int, dailyNeeded: real,
                               isCompleted: bool, isOverdue: bool)

  /** calculateGoalProgress. `rawDays` is the day difference between the
      target date and now, rounded up, before it is clamped. */
  function GoalProgress(g: Goal, rawDays: int): (p: Progress)
    requires g.targetAmount > 0.0
    ensures p.progress <= 100.0
    ensures g.currentAmount >= 0.0 ==> p.progress >= 0.0
    ensures p.isCompleted <==> p.progress == 100.0
    ensures p.remaining >= 0.0
    ensures p.remaining == 0.0 <==> p.isCompleted
    ensures p.remaining > 0.0 ==> p.remaining == g.targetAmount - g.currentAmount
    ensures p.daysLeft >= 0 && (rawDays > 0 ==> p.daysLeft == rawDays) && (rawDays <= 0 ==> p.daysLeft == 0)
    ensures rawDays <= 0 ==> p.dailyNeeded == 0.0
    ensures rawDays > 0 ==> p.dailyNeeded * rawDays as real == g.targetAmount - g.currentAmount
    ensures p.isCompleted <==> g.currentAmount >= g.targetAmount
    ensures p.isOverdue <==> rawDays < 0 && g.currentAmount < g.targetAmount
    ensures !(p.isCompleted && p.isOverdue)
  {
    var ratio := g.currentAmount / g.targetAmount * 100.0;
    var remaining := g.targetAmount - g.currentAmount;
    var completed := g.currentAmount >= g.targetAmount;
    RatioBounds(g.currentAmount, g.targetAmount);
    Progress(
      if 100.0 <= ratio then 100.0 else ratio,
      if remaining <= 0.0 then 0.0 else remaining,
      if rawDays > 0 then rawDays else 0,
      if rawDays > 0 then remaining / rawDays as real else 0.0,
      completed,
      rawDays < 0 && !completed)
  }

  /** `current / target * 100` reaches 100 exactly when the target is reached,
      and is not negative for a non-negative amount. */
  lemma RatioBounds(current: real, target: real)
    requires target > 0.0
    ensures current / target * 100.0 >= 100.0 <==> current >= target
    ensures current >= 0.0 ==> current / target * 100.0 >= 0.0
  {
    var q := current / target;
    assert q * target == current;
    if q >= 1.0 {
      assert q * target >= target;
    } else {
      assert q * target < target;
    }
  }

  datatype GoalOutcome = GoalAdded | ShortName | InvalidTarget | InvalidDate | NegativeInitial

  datatype ContributionOutcome = Contributed | UnknownGoal | InvalidContribution | InsufficientFunds

  /** A prompt answer read as a number: cancelled, text `isNaN` rejects, blank
      text (which `isNaN` reads as 0 while `parseFloat` reads it as NaN), a
      hexadecimal, binary or octal literal such as "0x10" (a number to `isNaN`,
      0 to `parseFloat`, which stops at the letter), or a number that both read
      alike. */
  datatype NumberAnswer = Cancelled | NotANumber | BlankText | RadixText | Number(value: real)

  /** Where the goal's name ends up after the name prompt. */
  function EditName(name: string, answer: Option<string>): string
  {
    if answer.Some? && Trim(answer.value) != [] then Trim(answer.value) else name
  }

  /** The target-amount rule as written: every answer `isNaN` lets through is
      stored, so the result is None where `parseFloat` gives NaN. */
  function EditTargetAsWritten(target: real, answer: NumberAnswer): Option<real>
  {
    match answer
    case Cancelled => Some(target)
    case NotANumber => Some(target)
    case BlankText => None
    case RadixText => Some(0.0)
    case Number(v) => Some(v)
  }

  /** The target-amount rule with the check addNewGoal applies: only a
      positive number replaces the target. */
  function EditTarget(target: real, answer: NumberAnswer): real
  {
    if answer.Number? && answer.value > 0.0 then answer.value else target
  }

  /** Where the target date ends up after the date prompt. */
  function EditDate(date: DateField, answer: Option<DateField>, now: int): DateField
  {
    if answer.Some? && answer.value.At? && answer.value.time > now then answer.value else date
  }

  /** One goal after editGoal's three prompts. */
  function Edited(g: Goal, nameAnswer: Option<string>, targetAnswer: NumberAnswer,
                  dateAnswer: Option<DateField>, now: int): (r: Goal)
    ensures r.id == g.id && r.currentAmount == g.currentAmount && r.createdAt == g.createdAt
    ensures r.name != g.name ==> nameAnswer.Some? && r.name == Trim(nameAnswer.value) != []
    ensures r.targetAmount != g.targetAmount ==> targetAnswer.Number? && r.targetAmount == targetAnswer.value > 0.0
    ensures r.targetDate != g.targetDate ==> dateAnswer.Some? && r.targetDate == dateAnswer.value
    ensures r.targetDate != g.targetDate ==> r.targetDate.At? && r.targetDate.time > now
  {
    g.(name := EditName(g.name, nameAnswer),
       targetAmount := EditTarget(g.targetAmount, targetAnswer),
       targetDate := EditDate(g.targetDate, dateAnswer, now))
  }

  /** A goal as the program stores it after editGoal. When `targetIsNaN`
      holds, the stored target is NaN and `goal.targetAmount` is the old target,
      which then stands for nothing. */
  datatype StoredEdit = StoredEdit(goal: Goal, targetIsNaN: bool)

  /** One goal after editGoal's three prompts as the program stores it: the
      name and date answers apply even when the target becomes NaN. */
  function EditedAsWritten(g: Goal, nameAnswer: Option<string>, targetAnswer: NumberAnswer,
                           dateAnswer: Option<DateField>, now: int): (r: StoredEdit)
    ensures r.targetIsNaN <==> targetAnswer.BlankText?
    ensures r.goal.id == g.id && r.goal.currentAmount == g.currentAmount && r.goal.createdAt == g.createdAt
    ensures r.goal.name == Edited(g, nameAnswer, targetAnswer, dateAnswer, now).name
    ensures r.goal.targetDate == Edited(g, nameAnswer, targetAnswer, dateAnswer, now).targetDate
    ensures !r.targetIsNaN ==> r.goal.targetAmount == (if targetAnswer.Number? then targetAnswer.value
                                                       else if targetAnswer.RadixText? then 0.0
                                                       else g.targetAmount)
  {
    var target := EditTargetAsWritten(g.targetAmount, targetAnswer);
    StoredEdit(g.(name := EditName(g.name, nameAnswer),
                  targetAmount := if target.Some? then target.value else g.targetAmount,
                  targetDate := EditDate(g.targetDate, dateAnswer, now)),
               target.None?)
  }

  /** The program's edit and the corrected one store the same goal for every
      answer except blank text, a radix literal and a non-positive number;
      for those the program's edit leaves a goal that is not good. */
  lemma EditedAsWrittenAgrees(g: Goal, nameAnswer: Option<string>, targetAnswer: NumberAnswer,
                              dateAnswer: Option<DateField>, now: int)
    requires GoodGoal(g)
    ensures var bad := targetAnswer.BlankText? || targetAnswer.RadixText?
                       || (targetAnswer.Number? && targetAnswer.value <= 0.0);
            var r := EditedAsWritten(g, nameAnswer, targetAnswer, dateAnswer, now);
      && (!bad ==> r == StoredEdit(Edited(g, nameAnswer, targetAnswer, dateAnswer, now), false))
      && (bad <==> r.targetIsNaN || !GoodGoal(r.goal))
  {
  }

  /** A non-empty trimmed name always replaces the old one, and a date after
      `now` always replaces the old one. */
  lemma EditedTakesAnswers(g: Goal, name: string, targetAnswer: NumberAnswer, date: int, now: int)
    requires Trim(name) != [] && date > now
    ensures Edited(g, Some(name), targetAnswer, Some(At(date)), now).name == Trim(name)
    ensures Edited(g, Some(name), targetAnswer, Some(At(date)), now).targetDate == At(date)
  {
  }

  /** Editing keeps a goal good, so its progress can be computed. */
  lemma EditedIsGood(g: Goal, nameAnswer: Option<string>, targetAnswer: NumberAnswer,
                     dateAnswer: Option<DateField>, now: int)
    requires GoodGoal(g)
    ensures GoodGoal(Edited(g, nameAnswer, targetAnswer, dateAnswer, now))
  {
  }

  /** As written, the edit stores a target of 0 for the answers "0" and "0x10",
      a negative target for a negative answer and NaN for a blank answer: none
      is a target addNewGoal would accept. */
  lemma AsWrittenAcceptsBadTargets()
    ensures EditTargetAsWritten(100.0, Number(0.0)) == Some(0.0)
    ensures EditTargetAsWritten(100.0, Number(-5.0)) == Some(-5.0)
    ensures EditTargetAsWritten(100.0, BlankText) == None
    ensures EditTargetAsWritten(100.0, RadixText) == Some(0.0)
    ensures EditTarget(100.0, Number(0.0)) == 100.0 && EditTarget(100.0, BlankText) == 100.0
    ensures EditTarget(100.0, RadixText) == 100.0
  {
  }

  /** The two rules agree on every answer addNewGoal's check would accept. */
  lemma EditTargetAgrees(target: real, answer: NumberAnswer)
    requires !(answer.Number? && answer.value <= 0.0) && !answer.BlankText? && !answer.RadixText?
    ensures EditTargetAsWritten(target, answer) == Some(EditTarget(target, answer))
  {
  }

  class GoalBook {
    var goals: seq<Goal>

    ghost predicate Valid()
      reads this
    {
      forall i :: 0 <= i < |goals| ==> GoodGoal(goals[i])
    }

    /** Loading: the stored goals, or none. */
    constructor (stored: Option<seq<Goal>>)
      ensures goals == if stored.Some? then stored.value else []
    {
      goals := if stored.Some? then stored.value else [];
    }

    /** addNewGoal. `target` and `initial` are the parsed fields (None for
        NaN), `date` the date field; `now`, `id` and `createdAt` are the
        clock readings the source takes. */
    method AddNewGoal(nameInput: string, target: Option<real>, date: DateField, initial: Option<real>,
                      now: int, id: int, createdAt: int) returns (outcome: GoalOutcome)
      modifies this`goals
      ensures outcome == ShortName <==> |Trim(nameInput)| < 3
      ensures outcome == InvalidTarget <==> |Trim(nameInput)| >= 3 && (target.None? || target.value <= 0.0)
      ensures outcome == InvalidDate <==>
        |Trim(nameInput)| >= 3 && target.Some? && target.value > 0.0 && (date.Blank? || (date.At? && date.time < now))
      ensures outcome == NegativeInitial <==>
        |Trim(nameInput)| >= 3 && target.Some? && target.value > 0.0 && !(date.Blank? || (date.At? && date.time < now))
        && OrZero(initial) < 0.0
      ensures outcome != GoalAdded ==> goals == old(goals)
      ensures outcome == GoalAdded ==>
        goals == old(goals) + [Goal(id, Trim(nameInput), target.value, date, OrZero(initial), createdAt)]
      ensures old(Valid()) ==> Valid()
    {
      var name := Trim(nameInput);
      if |name| < 3 {
        return ShortName;
      }
      if target.None? || target.value <= 0.0 {
        return InvalidTarget;
      }
      if date.Blank? || (date.At? && date.time < now) {
        return InvalidDate;
      }
      var amount := OrZero(initial);
      if amount < 0.0 {
        return NegativeInitial;
      }
      goals := goals + [Goal(id, name, target.value, date, amount, createdAt)];
      outcome := GoalAdded;
    }

    /** contributeToGoal. `answer` is the parsed prompt answer (None for a
        cancelled prompt or NaN); `txId` and `today` are the clock readings. */
    method ContributeToGoal(id: int, answer: Option<real>, budget: BudgetApp.Budget, txId: int, today: int)
      returns (outcome: ContributionOutcome)
      modifies this`goals, budget`transactions
      ensures outcome == UnknownGoal <==> FindGoal(old(goals), id).None?
      ensures outcome == InvalidContribution <==>
        FindGoal(old(goals), id).Some? && (answer.None? || answer.value <= 0.0)
      ensures outcome == InsufficientFunds <==>
        FindGoal(old(goals), id).Some? && answer.Some? && answer.value > 0.0
        && answer.value > Balance(old(budget.transactions))
      ensures outcome != Contributed ==> goals == old(goals) && budget.transactions == old(budget.transactions)
      ensures outcome == Contributed ==>
        var i := FindGoal(old(goals), id).value;
        var g := old(goals)[i];
        && goals == old(goals)[i := g.(currentAmount := g.currentAmount + answer.value)]
        && budget.transactions == old(budget.transactions)
             + [Transaction(txId, "Contribution to " + g.name, -answer.value, "Savings", today)]
        && Balance(budget.transactions) == Balance(old(budget.transactions)) - answer.value
        && Balance(budget.transactions) >= 0.0
      ensures old(Valid()) ==> Valid()
    {
      var found := FindGoal(goals, id);
      if found.None? {
        return UnknownGoal;
      }
      if answer.None? || answer.value <= 0.0 {
        return InvalidContribution;
      }
      var amount := answer.value;
      if amount > Balance(budget.transactions) {
        return InsufficientFunds;
      }
      var i := found.value;
      var g := goals[i];
      var t := Transaction(txId, "Contribution to " + g.name, -amount, "Savings", today);
      BalanceAppend(budget.transactions, t);
      budget.transactions := budget.transactions + [t];
      goals := goals[i := g.(currentAmount := g.currentAmount + amount)];
      outcome := Contributed;
    }

    /** editGoal. The answers are those of the three prompts in turn; `now`
        is the clock reading the date is compared with. */
    method EditGoal(id: int, nameAnswer: Option<string>, targetAnswer: NumberAnswer,
                    dateAnswer: Option<DateField>, now: int) returns (found: bool)
      modifies this`goals
      ensures found <==> FindGoal(old(goals), id).Some?
      ensures !found ==> goals == old(goals)
      ensures found ==>
        var i := FindGoal(old(goals), id).value;
        goals == old(goals)[i := Edited(old(goals)[i], nameAnswer, targetAnswer, dateAnswer, now)]
      ensures old(Valid()) ==> Valid()
    {
      var r := FindGoal(goals, id);
      if r.None? {
        return false;
      }
      var i := r.value;
      if Valid() {
        EditedIsGood(goals[i], nameAnswer, targetAnswer, dateAnswer, now);
      }
      goals := goals[i := Edited(goals[i], nameAnswer, targetAnswer, dateAnswer, now)];
      found := true;
    }
  }
}
