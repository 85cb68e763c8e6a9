/**
 * The monthly budgets: every budget is stored under the first day of its
 * month, and a month's budgets are the ones stored under that key.
 */
module Budgets {
  import opened Wrappers
  import opened Seqs
  import opened Domain
  import opened ExpenseActions

  /**
   * `format(startOfMonth(month), 'yyyy-MM-dd')` for a local date written
   * `yyyy-MM-dd…`: the year and month kept, the day set to 01.
   */
  function MonthKey(date: string): (r: string)
    requires |date| >= 8
    ensures |r| == 10 && r[..8] == date[..8]
  {
    date[..8] + "01"
  }

  /** Two dates select the same budgets exactly when they share the year and month. */
  lemma MonthKeyIff(a: string, b: string)
    requires |a| >= 8 && |b| >= 8
    ensures MonthKey(a) == MonthKey(b) <==> a[..8] == b[..8]
    ensures MonthKey(MonthKey(a)) == MonthKey(a)
  {
    if MonthKey(a) == MonthKey(b) {
      assert MonthKey(a)[..8] == MonthKey(b)[..8];
    }
  }

  function BudgetAmount(b: Budget): real {
    b.amount
  }

  /** `getBudgetsForMonth`. */
  function BudgetsForMonth(budgets: seq<Budget>, month: string): seq<Budget>
    requires |month| >= 8
  {
    Filter(budgets, (b: Budget) => b.month == MonthKey(month))
  }

  /** `getTotalBudget`. */
  function TotalBudget(budgets: seq<Budget>, month: string): real
    requires |month| >= 8
  {
    SumOf(BudgetsForMonth(budgets, month), BudgetAmount)
  }

  /**
   * A month's budgets are, in their stored order, exactly the ones stored
   * under its key; any date of the month selects the same ones; with none
   * the total is 0.
   */
  lemma BudgetsForMonthSpec(budgets: seq<Budget>, month: string)
    requires |month| >= 8
    ensures IsSubsequence(BudgetsForMonth(budgets, month), budgets)
    ensures forall b :: b in BudgetsForMonth(budgets, month) <==> b in budgets && b.month == MonthKey(month)
    ensures BudgetsForMonth(budgets, month) == [] ==> TotalBudget(budgets, month) == 0.0
  {
    FilterIsSubsequence(budgets, (b: Budget) => b.month == MonthKey(month));
  }

  /** Any two dates of one month see the same budgets and the same total. */
  lemma SameMonthSameBudgets(budgets: seq<Budget>, a: string, b: string)
    requires |a| >= 8 && |b| >= 8 && a[..8] == b[..8]
    ensures BudgetsForMonth(budgets, a) == BudgetsForMonth(budgets, b)
    ensures TotalBudget(budgets, a) == TotalBudget(budgets, b)
  {
    MonthKeyIff(a, b);
  }

  /**
   * The record `setBudget` shows before the backend answers: nothing
   * without a household; otherwise a fresh id, the category, the user's
   * household, the month's key and the amount.
   */
  function NewBudget(user: Option<Profile>, categoryId: string, month: string, amount: real, freshId: string, now: string)
    : (r: Option<Budget>)
    requires |month| >= 8
    ensures r.Some? <==> HasHousehold(user)
  {
    if !HasHousehold(user) then None
    else Some(Budget(freshId, categoryId, user.value.householdId.value, MonthKey(month), amount, now))
  }

  /** A budget set for a date is selected by every date of that month, with its category and amount. */
  lemma NewBudgetSelected(user: Option<Profile>, categoryId: string, month: string, amount: real,
                          freshId: string, now: string, other: string)
    requires |month| >= 8 && |other| >= 8 && month[..8] == other[..8] && HasHousehold(user)
    ensures var b := NewBudget(user, categoryId, month, amount, freshId, now).value;
      && BudgetsForMonth([b], other) == [b]
      && b.categoryId == categoryId && b.amount == amount && Some(b.householdId) == user.value.householdId
  {
    var b := NewBudget(user, categoryId, month, amount, freshId, now).value;
    MonthKeyIff(month, other);
    FilterAllPass([b], (x: Budget) => x.month == MonthKey(other));
  }

  /**
   * `copyBudgets`: one `setBudget` per budget of the source month, in
   * order, with its category and amount, for the target month. `freshId(i)`
   * is the id of the `i`-th record made.
   */
  method CopyBudgets(budgets: seq<Budget>, user: Option<Profile>, fromMonth: string, toMonth: string,
                     freshId: nat -> string, now: string)
    returns (created: seq<Budget>)
    requires |fromMonth| >= 8 && |toMonth| >= 8
    ensures var source := BudgetsForMonth(budgets, fromMonth);
      && (!HasHousehold(user) ==> created == [])
      && (HasHousehold(user) ==>
            |created| == |source| &&
            forall i :: 0 <= i < |source| ==>
              created[i] == NewBudget(user, source[i].categoryId, toMonth, source[i].amount, freshId(i), now).value)
  {
    var source := BudgetsForMonth(budgets, fromMonth);
    created := [];
    for i := 0 to |source|
      invariant !HasHousehold(user) ==> created == []
      invariant HasHousehold(user) ==> |created| == i
      invariant HasHousehold(user) ==> forall k :: 0 <= k < i ==>
        created[k] == NewBudget(user, source[k].categoryId, toMonth, source[k].amount, freshId(k), now).value
    {
      var b := NewBudget(user, source[i].categoryId, toMonth, source[i].amount, freshId(i), now);
      if b.Some? {
        created := created + [b.value];
      }
    }
  }

  /**
   * What a copy makes all lands in the target month, category by category
   * as in the source month, and adds up to the source month's total.
   */
  lemma CopiedBudgetsMatch(budgets: seq<Budget>, user: Option<Profile>, fromMonth: string, toMonth: string,
                           freshId: nat -> string, now: string, created: seq<Budget>)
    requires |fromMonth| >= 8 && |toMonth| >= 8 && HasHousehold(user)
    requires var source := BudgetsForMonth(budgets, fromMonth);
      |created| == |source| &&
      forall i :: 0 <= i < |source| ==>
        created[i] == NewBudget(user, source[i].categoryId, toMonth, source[i].amount, freshId(i), now).value
    ensures BudgetsForMonth(created, toMonth) == created
    ensures forall i :: 0 <= i < |created| ==> created[i].categoryId == BudgetsForMonth(budgets, fromMonth)[i].categoryId
    ensures TotalBudget(created, toMonth) == TotalBudget(budgets, fromMonth)
  {
    var source := BudgetsForMonth(budgets, fromMonth);
    FilterAllPass(created, (x: Budget) => x.month == MonthKey(toMonth));
    SumOfPointwise(created, source, BudgetAmount, BudgetAmount);
  }
}
