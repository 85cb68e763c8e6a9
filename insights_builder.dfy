/**
 * The insight builder as the component runs it: a results list pushed to
 * rule by rule, the category totals filled in place, a search that stops
 * at the first rising category, and a loop over the budgets.
 */
module InsightsBuilder {
  import opened Wrappers
  import opened Seqs
  import opened Numbers
  import opened Sorting
  import opened Domain
  import opened CatTotals
  import opened Insights

  /** The builder yields exactly the rule table's insights. */
  method BuildInsights(
    expenses: seq<Expense>, categories: seq<Category>, user: Option<Profile>, partner: Option<Profile>,
    budgets: Option<seq<Budget>>, ctx: MonthContext, weekday: string -> int)
    returns (results: seq<Insight>)
    requires ValidContext(ctx) && AllPositive(expenses)
    ensures results == Analyze(expenses, categories, user, partner, budgets, ctx, weekday)
  {
    var current := InDateRange(expenses, ctx.start, ctx.end);
    var prev := InDateRange(expenses, ctx.prevStart, ctx.prevEnd);
    if |current| == 0 {
      return [Insight(Info, NoData)];
    }
    MonthTotalPositive(expenses, ctx.start, ctx.end);
    results := BuildMonth(current, prev, categories, user, partner, budgets, ctx, weekday);
  }

  /** The pushes for a month with spending, in rule order. */
  method BuildMonth(
    current: seq<Expense>, prev: seq<Expense>, categories: seq<Category>, user: Option<Profile>, partner: Option<Profile>,
    budgets: Option<seq<Budget>>, ctx: MonthContext, weekday: string -> int)
    returns (results: seq<Insight>)
    requires ValidContext(ctx) && TotalAmount(current) > 0.0
    ensures results == MonthInsights(current, prev, categories, user, partner, budgets, ctx, weekday)
  {
    var totalCurrent := TotalAmount(current);
    var totalPrev := TotalAmount(prev);
    results := [];
    results := PushMonthComparison(results, totalCurrent, totalPrev);
    var catTotals := AccumulateTotals(current, prev, categories);
    var sorted := SortDesc(catTotals, CurrentKey);
    results := PushTop(results, sorted, totalCurrent);
    results := PushRising(results, sorted);
    var myPaid := TotalAmount(PaidByFilter(current, IdOf(user)));
    var partnerPaid := TotalAmount(PaidByFilter(current, IdOf(partner)));
    results := PushImbalance(results, myPaid, partnerPaid, partner);
    results := PushPacingAndProjection(results, current, totalCurrent, categories, budgets, ctx);
    results := PushHabits(results, current, totalCurrent, weekday);
    assert [] + MonthComparison(totalCurrent, totalPrev) == MonthComparison(totalCurrent, totalPrev);
    MonthInsightsUnfold(current, prev, categories, user, partner, budgets, ctx, weekday);
  }

  lemma MonthInsightsUnfold(
    current: seq<Expense>, prev: seq<Expense>, categories: seq<Category>, user: Option<Profile>, partner: Option<Profile>,
    budgets: Option<seq<Budget>>, ctx: MonthContext, weekday: string -> int)
    requires ValidContext(ctx) && TotalAmount(current) > 0.0
    ensures var totalCurrent := TotalAmount(current);
      var sorted := Sorted(current, prev, categories);
      MonthInsights(current, prev, categories, user, partner, budgets, ctx, weekday) ==
        MonthComparison(totalCurrent, TotalAmount(prev))
        + TopSection(sorted, totalCurrent)
        + RisingSection(sorted)
        + ImbalanceSection(TotalAmount(PaidByFilter(current, IdOf(user))), TotalAmount(PaidByFilter(current, IdOf(partner))), partner)
        + BudgetSection(current, totalCurrent, categories, budgets, ctx)
        + WeekendSection(current, totalCurrent, weekday)
        + VolumeSection(current)
  {
  }

  /** The month-over-month push; proved equal to `Insights.MonthComparison`. */
  method PushMonthComparison(results: seq<Insight>, totalCurrent: real, totalPrev: real) returns (r: seq<Insight>)
    ensures r == results + MonthComparison(totalCurrent, totalPrev)
  {
    r := results;
    if totalPrev > 0.0 {
      var pctChange := Round((totalCurrent - totalPrev) / totalPrev * 100.0);
      if pctChange > 20 {
        r := r + [Insight(Warning, MonthUp(pctChange))];
      } else if pctChange < -10 {
        r := r + [Insight(Success, MonthDown(pctChange))];
      } else {
        r := r + [Insight(Info, MonthSteady(pctChange))];
      }
    }
  }

  /** The top-category push; proved equal to `Insights.TopSection`. */
  method PushTop(results: seq<Insight>, sorted: seq<CatTotal>, totalCurrent: real) returns (r: seq<Insight>)
    requires totalCurrent != 0.0
    ensures r == results + TopSection(sorted, totalCurrent)
  {
    r := results;
    if |sorted| > 0 && sorted[0].cat.Some? {
      var pct := Round(sorted[0].current / totalCurrent * 100.0);
      r := r + [Insight(if pct > 40 then Warning else Info, TopCategory(sorted[0].cat.value, pct))];
    }
  }

  /** The rising-category search: push the first rising entry and stop; proved equal to `Insights.RisingSection`. */
  method PushRising(results: seq<Insight>, sorted: seq<CatTotal>) returns (r: seq<Insight>)
    ensures r == results + RisingSection(sorted)
  {
    r := results;
    var i := 0;
    while i < |sorted|
      invariant 0 <= i <= |sorted| && r == results
      invariant forall j :: 0 <= j < i ==> !IsRising(sorted[j])
    {
      var item := sorted[i];
      if item.prev > 0.0 && item.current > item.prev * 1.5 && item.cat.Some? {
        r := r + [Insight(Warning, RisingCategory(item.cat.value, Round((item.current - item.prev) / item.prev * 100.0)))];
        break;
      }
      i := i + 1;
    }
  }

  /** The payment-imbalance push; proved equal to `Insights.ImbalanceSection`. */
  method PushImbalance(results: seq<Insight>, myPaid: real, partnerPaid: real, partner: Option<Profile>)
    returns (r: seq<Insight>)
    ensures r == results + ImbalanceSection(myPaid, partnerPaid, partner)
  {
    r := results;
    if myPaid > 0.0 && partnerPaid > 0.0 {
      var ratio := Round(myPaid / (myPaid + partnerPaid) * 100.0);
      if ratio > 70 || ratio < 30 {
        r := r + [Insight(Tip, Imbalance(ratio, if ratio > 70 then "Tú" else PartnerName(partner)))];
      }
    }
  }

  /** Pacing, projection and the overage loop, or the plain projection; proved equal to `Insights.BudgetSection`. */
  method PushPacingAndProjection(
    results: seq<Insight>, current: seq<Expense>, totalCurrent: real, categories: seq<Category>,
    budgets: Option<seq<Budget>>, ctx: MonthContext)
    returns (r: seq<Insight>)
    requires ValidContext(ctx)
    ensures r == results + BudgetSection(current, totalCurrent, categories, budgets, ctx)
  {
    r := results;
    var avgPerDay := totalCurrent / ctx.endDay as real;
    var projected := avgPerDay * ctx.daysInMonth as real;
    var totalBudget := if budgets.Some? && |budgets.value| > 0 then SumOf(budgets.value, BudgetAmount) else 0.0;
    assert totalBudget == TotalBudget(budgets);
    assert projected == Projected(totalCurrent, ctx);
    if totalBudget > 0.0 && ctx.isCurrentMonth && ctx.today < 25 {
      r := PushBudgetBlock(r, current, totalCurrent, projected, totalBudget, categories, budgets.value, ctx);
    } else if ctx.isCurrentMonth && ctx.today < 25 && totalBudget == 0.0 {
      r := r + [Insight(Info, Projection(projected, avgPerDay))];
    }
  }

  /** The budget branch: `Insights.Pacing`, then `Insights.ProjectionVsBudget`, then `Insights.Overages`. */
  method PushBudgetBlock(
    results: seq<Insight>, current: seq<Expense>, totalCurrent: real, projected: real, totalBudget: real,
    categories: seq<Category>, budgets: seq<Budget>, ctx: MonthContext)
    returns (r: seq<Insight>)
    requires totalBudget > 0.0 && ValidContext(ctx) && ctx.today < 25
    ensures r == results + ([Pacing(totalCurrent, totalBudget, ctx), ProjectionVsBudget(projected, totalBudget, ctx)]
                            + Overages(current, categories, budgets))
  {
    var pacing := Pacing(totalCurrent, totalBudget, ctx);
    var projection := ProjectionVsBudget(projected, totalBudget, ctx);
    r := PushPacing(results, totalCurrent, totalBudget, ctx);
    r := PushProjection(r, projected, totalBudget, ctx);
    r := PushOverages(r, current, categories, budgets);
    assert results + [pacing] + [projection] + Overages(current, categories, budgets) ==
      results + ([pacing, projection] + Overages(current, categories, budgets));
  }

  /** The pacing push; proved equal to `Insights.Pacing`. */
  method PushPacing(results: seq<Insight>, totalCurrent: real, totalBudget: real, ctx: MonthContext)
    returns (r: seq<Insight>)
    requires totalBudget > 0.0 && ValidContext(ctx)
    ensures r == results + [Pacing(totalCurrent, totalBudget, ctx)]
  {
    var pctUsed := Round(totalCurrent / totalBudget * 100.0);
    var expectedPct := Round(ctx.today as real / ctx.daysInMonth as real * 100.0);
    if pctUsed > 100 {
      r := results + [Insight(Warning, BudgetExceeded(pctUsed))];
    } else if pctUsed > expectedPct + 10 {
      r := results + [Insight(Warning, HighPace(pctUsed, expectedPct))];
    } else {
      r := results + [Insight(Success, OnPace(pctUsed, expectedPct))];
    }
  }

  /** The projection push; proved equal to `Insights.ProjectionVsBudget`. */
  method PushProjection(results: seq<Insight>, projected: real, totalBudget: real, ctx: MonthContext)
    returns (r: seq<Insight>)
    requires ValidContext(ctx) && ctx.today < 25
    ensures r == results + [ProjectionVsBudget(projected, totalBudget, ctx)]
  {
    if projected > totalBudget {
      var dailyReduction := Ceil((projected - totalBudget) / (ctx.daysInMonth - ctx.today) as real);
      r := results + [Insight(Warning, ProjectionOver(projected, dailyReduction))];
    } else {
      r := results + [Insight(Success, ProjectionWithin(projected, totalBudget - projected))];
    }
  }

  /** `for (const budget of budgets)`: one warning per overspent budget whose category resolves; proved equal to `Insights.Overages`. */
  method PushOverages(results: seq<Insight>, current: seq<Expense>, categories: seq<Category>, budgets: seq<Budget>)
    returns (r: seq<Insight>)
    ensures r == results + Overages(current, categories, budgets)
  {
    r := results;
    for k := 0 to |budgets|
      invariant r == results + Overages(current, categories, budgets[..k])
    {
      OveragesStep(current, categories, budgets, k);
      var budget := budgets[k];
      var cat := FindCategory(categories, budget.categoryId);
      var actual := CategorySpend(current, budget.categoryId);
      if actual > budget.amount && cat.Some? {
        var warning := Insight(Warning, CategoryOverBudget(cat.value,
          if budget.amount == 0.0 then None else Some(Percent(actual - budget.amount, budget.amount))));
        assert Overspent(current, categories, budget);
        assert warning == OverageInsight(current, categories, budget);
        assert [warning] == OverageTail(current, categories, budget);
        AppendAssoc(results, Overages(current, categories, budgets[..k]), [warning]);
        r := r + [warning];
      }
    }
    assert budgets[..|budgets|] == budgets;
  }

  /** The weekend share and the number of transactions; proved equal to `Insights.WeekendSection` and `Insights.VolumeSection`. */
  method PushHabits(results: seq<Insight>, current: seq<Expense>, totalCurrent: real, weekday: string -> int)
    returns (r: seq<Insight>)
    requires totalCurrent != 0.0
    ensures r == results + WeekendSection(current, totalCurrent, weekday) + VolumeSection(current)
  {
    r := results;
    var weekendTotal := WeekendTotal(current, weekday);
    var weekendPct := Round(weekendTotal / totalCurrent * 100.0);
    if weekendPct > 50 {
      r := r + [Insight(Tip, Weekend(weekendPct))];
    }
    assert r == results + WeekendSection(current, totalCurrent, weekday);
    if |current| > 50 {
      r := r + [Insight(Tip, Volume(|current|))];
    }
  }
}
