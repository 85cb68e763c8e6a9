/**
 * The expense list page: the selected month's expenses narrowed by an
 * optional category and an optional payer, with their total and count.
 */
module ExpensesPage {
  import opened Wrappers
  import opened Seqs
  import opened Text
  import opened Domain
  import opened CatTotals

  /**
   * The list's filter: dated inside the month, and matching the category
   * and the payer filters, each of which an empty selection switches off.
   */
  predicate Shown(e: Expense, start: string, end: string, filterCategory: string, filterPaidBy: string) {
    && !(LexLess(e.date, start) || LexLess(end, e.date))
    && !(filterCategory != "" && e.categoryId != filterCategory)
    && !(filterPaidBy != "" && e.paidBy != filterPaidBy)
  }

  /** `filteredExpenses`. */
  function FilteredExpenses(expenses: seq<Expense>, start: string, end: string, filterCategory: string, filterPaidBy: string)
    : seq<Expense>
  {
    Filter(expenses, (e: Expense) => Shown(e, start, end, filterCategory, filterPaidBy))
  }

  /** `totalFiltered`, the total shown above the list; the count shown is `|FilteredExpenses(..)|`. */
  function TotalFiltered(expenses: seq<Expense>, start: string, end: string, filterCategory: string, filterPaidBy: string)
    : real
  {
    TotalAmount(FilteredExpenses(expenses, start, end, filterCategory, filterPaidBy))
  }

  /** The filters that remain once the month is fixed. */
  predicate Selected(e: Expense, filterCategory: string, filterPaidBy: string) {
    (filterCategory == "" || e.categoryId == filterCategory) && (filterPaidBy == "" || e.paidBy == filterPaidBy)
  }

  /**
   * The list keeps, in their order, exactly the expenses dated inside the
   * month whose category and payer match the non-empty filters.
   */
  lemma FilteredSpec(expenses: seq<Expense>, start: string, end: string, filterCategory: string, filterPaidBy: string)
    ensures IsSubsequence(FilteredExpenses(expenses, start, end, filterCategory, filterPaidBy), expenses)
    ensures forall e :: e in FilteredExpenses(expenses, start, end, filterCategory, filterPaidBy) <==>
      e in expenses && DateInRange(e.date, start, end) && Selected(e, filterCategory, filterPaidBy)
  {
    FilterIsSubsequence(expenses, (e: Expense) => Shown(e, start, end, filterCategory, filterPaidBy));
  }

  /** The list is the month's expenses filtered by the category and payer selection. */
  lemma FilteredIsMonthSelection(expenses: seq<Expense>, start: string, end: string, filterCategory: string, filterPaidBy: string)
    ensures FilteredExpenses(expenses, start, end, filterCategory, filterPaidBy) ==
      Filter(InDateRange(expenses, start, end), (e: Expense) => Selected(e, filterCategory, filterPaidBy))
  {
    FilterConj(expenses, (e: Expense) => DateInRange(e.date, start, end),
      (e: Expense) => Selected(e, filterCategory, filterPaidBy),
      (e: Expense) => Shown(e, start, end, filterCategory, filterPaidBy));
  }

  /** With both filters empty the page lists the month, like the dashboard. */
  lemma NoFiltersIsMonth(expenses: seq<Expense>, start: string, end: string)
    ensures FilteredExpenses(expenses, start, end, "", "") == InDateRange(expenses, start, end)
  {
    FilterSame(expenses, (e: Expense) => Shown(e, start, end, "", ""), (e: Expense) => DateInRange(e.date, start, end));
  }

  /** Filtering by a category alone totals that category's spend in the month. */
  lemma CategoryFilterTotal(expenses: seq<Expense>, start: string, end: string, category: string)
    requires category != ""
    ensures TotalFiltered(expenses, start, end, category, "") == CategorySpend(InDateRange(expenses, start, end), category)
  {
    var month := InDateRange(expenses, start, end);
    FilteredIsMonthSelection(expenses, start, end, category, "");
    FilterSame(month, (e: Expense) => Selected(e, category, ""), (e: Expense) => e.categoryId == category);
  }

  /** Filtering by a payer alone totals what that payer paid in the month, like the dashboard's per-member totals. */
  lemma PayerFilterTotal(expenses: seq<Expense>, start: string, end: string, payer: string)
    requires payer != ""
    ensures TotalFiltered(expenses, start, end, "", payer) == TotalAmount(PaidByFilter(InDateRange(expenses, start, end), Some(payer)))
  {
    var month := InDateRange(expenses, start, end);
    FilteredIsMonthSelection(expenses, start, end, "", payer);
    FilterSame(month, (e: Expense) => Selected(e, "", payer), (e: Expense) => Some(payer) == Some(e.paidBy));
  }

  /** With positive amounts the shown total lies between zero and the month's total. */
  lemma TotalFilteredBounds(expenses: seq<Expense>, start: string, end: string, filterCategory: string, filterPaidBy: string)
    requires AllPositive(expenses)
    ensures 0.0 <= TotalFiltered(expenses, start, end, filterCategory, filterPaidBy) <= TotalAmount(InDateRange(expenses, start, end))
  {
    var month := InDateRange(expenses, start, end);
    FilteredIsMonthSelection(expenses, start, end, filterCategory, filterPaidBy);
    assert AllPositive(month) by {
      forall i | 0 <= i < |month| ensures month[i].amount > 0.0 {
        var j :| 0 <= j < |expenses| && expenses[j] == month[i];
      }
    }
    FilteredTotalBounds(month, (e: Expense) => Selected(e, filterCategory, filterPaidBy));
  }
}
