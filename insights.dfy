/**
 * The monthly analysis: an ordered table of rules that turns a month's
 * expenses, the previous month's, the budgets and the day of the month
 * into a list of tagged insights.
 */
module Insights {
  import opened Wrappers
  import opened Seqs
  import opened Numbers
  import opened Text
  import opened Sorting
  import opened Domain
  import opened CatTotals

  datatype Severity = Warning | Success | Info | Tip

  /** What an insight is about, with the figures its title shows. */
  datatype Topic =
    | NoData
    | MonthUp(pct: int)
    | MonthDown(pct: int)
    | MonthSteady(pct: int)
    | TopCategory(cat: Category, pct: int)
    | RisingCategory(cat: Category, pct: int)
    | Imbalance(ratio: int, heavierPayer: string)
    | BudgetExceeded(pctUsed: int)
    | HighPace(pctUsed: int, expectedPct: int)
    | OnPace(pctUsed: int, expectedPct: int)
    | ProjectionOver(projected: real, dailyReduction: int)
    | ProjectionWithin(projected: real, margin: real)
    | CategoryOverBudget(cat: Category, overPct: Option<int>)
    | Projection(projected: real, avgPerDay: real)
    | Weekend(pct: int)
    | Volume(count: nat)

  datatype Insight = Insight(severity: Severity, topic: Topic)

  /**
   * The dates the analysis reads: the month bounds as ISO strings, the
   * day number of the month's last day as the browser parses it, the
   * number of days in the month, whether it is the running month, and
   * today's day number.
   */
  datatype MonthContext = MonthContext(
    start: string,
    end: string,
    prevStart: string,
    prevEnd: string,
    endDay: int,
    daysInMonth: int,
    isCurrentMonth: bool,
    today: int)

  predicate ValidContext(c: MonthContext) {
    1 <= c.endDay <= 31 && 28 <= c.daysInMonth <= 31 && 1 <= c.today <= 31 &&
    (c.isCurrentMonth ==> c.today <= c.daysInMonth)
  }

  /** `Math.round((part / whole) * 100)`. */
  function Percent(part: real, whole: real): int
    requires whole != 0.0
  {
    Round(part / whole * 100.0)
  }

  // ----------------------------------------------------------- section order

  /** The section each kind of insight belongs to, in the order the rules run. */
  function Rank(t: Topic): nat {
    match t
    case NoData => 0
    case MonthUp(_) => 1
    case MonthDown(_) => 1
    case MonthSteady(_) => 1
    case TopCategory(_, _) => 2
    case RisingCategory(_, _) => 3
    case Imbalance(_, _) => 4
    case BudgetExceeded(_) => 5
    case HighPace(_, _) => 5
    case OnPace(_, _) => 5
    case ProjectionOver(_, _) => 6
    case ProjectionWithin(_, _) => 6
    case Projection(_, _) => 6
    case CategoryOverBudget(_, _) => 7
    case Weekend(_) => 8
    case Volume(_) => 9
  }

  predicate RanksIn(s: seq<Insight>, lo: nat, hi: nat) {
    forall i :: 0 <= i < |s| ==> lo <= Rank(s[i].topic) <= hi
  }

  /** Sections never interleave, and only the per-budget overages repeat. */
  predicate WellOrdered(s: seq<Insight>) {
    forall i, j :: 0 <= i < j < |s| ==>
      Rank(s[i].topic) <= Rank(s[j].topic) && (Rank(s[i].topic) == Rank(s[j].topic) ==> Rank(s[i].topic) == 7)
  }

  lemma JoinOrdered(a: seq<Insight>, b: seq<Insight>, lo: nat, mid: nat, hi: nat)
    requires lo <= mid + 1 && mid <= hi
    requires WellOrdered(a) && RanksIn(a, lo, mid) && WellOrdered(b) && RanksIn(b, mid + 1, hi)
    ensures WellOrdered(a + b) && RanksIn(a + b, lo, hi)
  {
    forall i, j | 0 <= i < j < |a + b|
      ensures Rank((a + b)[i].topic) <= Rank((a + b)[j].topic)
      ensures Rank((a + b)[i].topic) == Rank((a + b)[j].topic) ==> Rank((a + b)[i].topic) == 7
    {
      if j < |a| {
        assert (a + b)[i] == a[i] && (a + b)[j] == a[j];
      } else if i < |a| {
        assert (a + b)[i] == a[i] && (a + b)[j] == b[j - |a|];
      } else {
        assert (a + b)[i] == b[i - |a|] && (a + b)[j] == b[j - |a|];
      }
    }
    forall i | 0 <= i < |a + b| ensures lo <= Rank((a + b)[i].topic) <= hi {
      if i < |a| {
        assert (a + b)[i] == a[i];
      } else {
        assert (a + b)[i] == b[i - |a|];
      }
    }
  }

  // ------------------------------------------------------ 1. month over month

  /** Emitted only when there was spending last month; the rounded change picks the kind. */
  function MonthComparison(totalCurrent: real, totalPrev: real): (r: seq<Insight>)
    ensures totalPrev <= 0.0 ==> r == []
    ensures totalPrev > 0.0 ==> (|r| == 1 &&
      var pct := Percent(totalCurrent - totalPrev, totalPrev);
      && (r[0] == Insight(Warning, MonthUp(pct)) <==> pct > 20)
      && (r[0] == Insight(Success, MonthDown(pct)) <==> pct < -10)
      && (r[0] == Insight(Info, MonthSteady(pct)) <==> -10 <= pct <= 20))
    ensures RanksIn(r, 1, 1)
  {
    if totalPrev > 0.0 then
      var pct := Percent(totalCurrent - totalPrev, totalPrev);
      if pct > 20 then [Insight(Warning, MonthUp(pct))]
      else if pct < -10 then [Insight(Success, MonthDown(pct))]
      else [Insight(Info, MonthSteady(pct))]
    else []
  }

  // ------------------------------------------------------- 2. category totals

  function CurrentKey(c: CatTotal): real {
    c.current
  }

  /** `catTotals` sorted by current spending, largest first, ties in insertion order. */
  function Sorted(current: seq<Expense>, prev: seq<Expense>, categories: seq<Category>): seq<CatTotal> {
    SortDesc(CategoryTotals(current, prev, categories), CurrentKey)
  }

  /** The first sorted entry, when its category resolves; a warning above a 40 percent share. */
  function TopSection(sorted: seq<CatTotal>, totalCurrent: real): (r: seq<Insight>)
    requires totalCurrent != 0.0
    ensures |r| <= 1 && RanksIn(r, 2, 2)
    ensures |r| == 1 <==> |sorted| > 0 && sorted[0].cat.Some?
    ensures |r| == 1 ==> r[0].topic.TopCategory? && (r[0].severity == Warning <==> r[0].topic.pct > 40) &&
                         (r[0].severity == Warning || r[0].severity == Info)
  {
    if |sorted| > 0 && sorted[0].cat.Some? then
      var pct := Percent(sorted[0].current, totalCurrent);
      [Insight(if pct > 40 then Warning else Info, TopCategory(sorted[0].cat.value, pct))]
    else []
  }

  /**
   * The top category shown is one with the largest spending this month,
   * and its percentage is that spending's rounded share of the month total.
   */
  lemma TopCategoryIsLargest(current: seq<Expense>, prev: seq<Expense>, categories: seq<Category>, totalCurrent: real)
    requires totalCurrent != 0.0
    ensures var r := TopSection(Sorted(current, prev, categories), totalCurrent);
      |r| == 1 ==>
        && (forall key :: key in CategoryIdsOf(current) ==>
              CategorySpend(current, key) <= CategorySpend(current, r[0].topic.cat.id))
        && r[0].topic.pct == Percent(CategorySpend(current, r[0].topic.cat.id), totalCurrent)
        && Some(r[0].topic.cat) == FindCategory(categories, r[0].topic.cat.id)
  {
    var totals := CategoryTotals(current, prev, categories);
    var sorted := Sorted(current, prev, categories);
    var r := TopSection(sorted, totalCurrent);
    CategoryTotalsSpec(current, prev, categories);
    if |r| == 1 {
      var top := sorted[0];
      assert top in multiset(totals);
      var t :| 0 <= t < |totals| && totals[t] == top;
      assert top.cat == FindCategory(categories, top.categoryId);
      assert r[0].topic.cat.id == top.categoryId;
      SortDescFirstIsMax(totals, CurrentKey);
      forall key | key in CategoryIdsOf(current)
        ensures CategorySpend(current, key) <= CategorySpend(current, top.categoryId)
      {
        assert key in Keys(totals);
        var j :| 0 <= j < |totals| && Keys(totals)[j] == key;
        assert totals[j] in totals;
      }
    }
  }

  predicate IsRising(c: CatTotal) {
    c.prev > 0.0 && c.current > c.prev * 1.5 && c.cat.Some?
  }

  /** The position of the first rising entry, if any. */
  function FirstRising(sorted: seq<CatTotal>): (r: Option<nat>)
    ensures r.Some? ==> r.value < |sorted| && IsRising(sorted[r.value]) &&
                        forall j :: 0 <= j < r.value ==> !IsRising(sorted[j])
    ensures r.None? ==> forall j :: 0 <= j < |sorted| ==> !IsRising(sorted[j])
  {
    if sorted == [] then None
    else if IsRising(sorted[0]) then Some(0)
    else match FirstRising(sorted[1..])
      case Some(k) => Some(k + 1)
      case None => None
  }

  /** At most one warning: the first entry in sorted order that grew by more than half and resolves. */
  function RisingSection(sorted: seq<CatTotal>): (r: seq<Insight>)
    ensures |r| <= 1 && RanksIn(r, 3, 3)
    ensures |r| == 1 <==> exists j :: 0 <= j < |sorted| && IsRising(sorted[j])
    ensures |r| == 1 ==> var k := FirstRising(sorted).value;
      r[0] == Insight(Warning, RisingCategory(sorted[k].cat.value, Percent(sorted[k].current - sorted[k].prev, sorted[k].prev)))
  {
    match FirstRising(sorted)
    case None => []
    case Some(k) =>
      var c := sorted[k];
      [Insight(Warning, RisingCategory(c.cat.value, Percent(c.current - c.prev, c.prev)))]
  }

  // ---------------------------------------------------------- 3. who paid

  /** `partner?.name || 'Tu pareja'`. */
  function PartnerName(partner: Option<Profile>): string {
    if partner.Some? && partner.value.name != "" then partner.value.name else "Tu pareja"
  }

  /** A tip when both paid something and one paid more than 70 percent (by the rounded ratio). */
  function ImbalanceSection(myPaid: real, partnerPaid: real, partner: Option<Profile>): (r: seq<Insight>)
    ensures |r| <= 1 && RanksIn(r, 4, 4)
    ensures |r| == 1 <==>
              myPaid > 0.0 && partnerPaid > 0.0 &&
              var ratio := Percent(myPaid, myPaid + partnerPaid); ratio > 70 || ratio < 30
    ensures |r| == 1 ==>
              var ratio := Percent(myPaid, myPaid + partnerPaid);
              && 0 <= ratio <= 100
              && r[0] == Insight(Tip, Imbalance(ratio, if ratio > 70 then "Tú" else PartnerName(partner)))
  {
    if myPaid > 0.0 && partnerPaid > 0.0 then
      var ratio := Percent(myPaid, myPaid + partnerPaid);
      assert 0.0 < myPaid / (myPaid + partnerPaid) < 1.0;
      if ratio > 70 || ratio < 30 then
        [Insight(Tip, Imbalance(ratio, if ratio > 70 then "Tú" else PartnerName(partner)))]
      else []
    else []
  }

  // ------------------------------------------------ 4. pacing and projection

  function BudgetAmount(b: Budget): real {
    b.amount
  }

  /** `budgets && budgets.length > 0 ? sum : 0`. */
  function TotalBudget(budgets: Option<seq<Budget>>): (r: real)
    ensures budgets.None? ==> r == 0.0
  {
    if budgets.Some? && |budgets.value| > 0 then SumOf(budgets.value, BudgetAmount) else 0.0
  }

  /** `totalCurrent / new Date(end).getDate()`. */
  function AvgPerDay(totalCurrent: real, ctx: MonthContext): real
    requires ValidContext(ctx)
  {
    totalCurrent / ctx.endDay as real
  }

  /** `avgPerDay * daysInMonth`, as written: the average is over the month's last day, not today. */
  function Projected(totalCurrent: real, ctx: MonthContext): real
    requires ValidContext(ctx)
  {
    AvgPerDay(totalCurrent, ctx) * ctx.daysInMonth as real
  }

  /** Exactly one pacing insight: exceeded, ahead of the calendar by more than 10 points, or on pace. */
  function Pacing(totalCurrent: real, totalBudget: real, ctx: MonthContext): (r: Insight)
    requires totalBudget > 0.0 && ValidContext(ctx)
    ensures Rank(r.topic) == 5
    ensures var used := Percent(totalCurrent, totalBudget);
      var expected := Percent(ctx.today as real, ctx.daysInMonth as real);
      && (r == Insight(Warning, BudgetExceeded(used)) <==> used > 100)
      && (r == Insight(Warning, HighPace(used, expected)) <==> used <= 100 && used > expected + 10)
      && (r == Insight(Success, OnPace(used, expected)) <==> used <= 100 && used <= expected + 10)
  {
    var used := Percent(totalCurrent, totalBudget);
    var expected := Percent(ctx.today as real, ctx.daysInMonth as real);
    if used > 100 then Insight(Warning, BudgetExceeded(used))
    else if used > expected + 10 then Insight(Warning, HighPace(used, expected))
    else Insight(Success, OnPace(used, expected))
  }

  /**
   * Exactly one projection insight. Over budget, the suggested daily cut
   * (rounded up) spread over the remaining days covers the overshoot, and
   * one unit less would not.
   */
  function ProjectionVsBudget(projected: real, totalBudget: real, ctx: MonthContext): (r: Insight)
    requires ValidContext(ctx) && ctx.today < ctx.daysInMonth
    ensures Rank(r.topic) == 6 && r.topic.projected == projected
    ensures r.severity == Warning <==> projected > totalBudget
    ensures r.severity != Warning ==> r == Insight(Success, ProjectionWithin(projected, totalBudget - projected))
    ensures r.severity == Warning ==> (r.topic.ProjectionOver? &&
              var remaining := (ctx.daysInMonth - ctx.today) as real;
              && r.topic.dailyReduction as real * remaining >= projected - totalBudget
              && (r.topic.dailyReduction - 1) as real * remaining < projected - totalBudget)
  {
    if projected > totalBudget then
      var remaining := (ctx.daysInMonth - ctx.today) as real;
      var cut := Ceil((projected - totalBudget) / remaining);
      CeilCovers(projected - totalBudget, remaining);
      Insight(Warning, ProjectionOver(projected, cut))
    else Insight(Success, ProjectionWithin(projected, totalBudget - projected))
  }

  /** A share rounded up, times the number of parts, covers the whole; one less does not. */
  lemma CeilCovers(d: real, parts: real)
    requires parts > 0.0
    ensures Ceil(d / parts) as real * parts >= d
    ensures (Ceil(d / parts) - 1) as real * parts < d
  {
    var q := d / parts;
    var cut := Ceil(q);
    assert q * parts == d;
    MulMonotone(q, cut as real, parts);
    var below := cut as real - 1.0;
    assert below < q;
    MulMonotone(below, q, parts);
    assert below * parts < q * parts;
    assert below * parts < d;
    assert (cut - 1) as real == below;
    assert (cut - 1) as real * parts < d;
  }

  lemma MulMonotone(a: real, b: real, c: real)
    requires c > 0.0
    ensures a <= b ==> a * c <= b * c
    ensures a < b ==> a * c < b * c
  {
  }

  /** With today before the 25th the divisor of the daily cut is at least 4 days. */
  lemma DailyReductionDivisor(ctx: MonthContext)
    requires ValidContext(ctx) && ctx.today < 25
    ensures ctx.daysInMonth - ctx.today >= 4
  {
  }

  /** A budget whose category this month spent more than it and whose category resolves. */
  predicate Overspent(current: seq<Expense>, categories: seq<Category>, b: Budget) {
    CategorySpend(current, b.categoryId) > b.amount && FindCategory(categories, b.categoryId).Some?
  }

  /** The overage warning; a zero budget gives JavaScript's `Infinity` percent, modelled as no number. */
  function OverageInsight(current: seq<Expense>, categories: seq<Category>, b: Budget): Insight
    requires Overspent(current, categories, b)
  {
    var actual := CategorySpend(current, b.categoryId);
    Insight(Warning, CategoryOverBudget(FindCategory(categories, b.categoryId).value,
      if b.amount == 0.0 then None else Some(Percent(actual - b.amount, b.amount))))
  }

  /** What one budget adds to the overages. */
  function OverageTail(current: seq<Expense>, categories: seq<Category>, b: Budget): (r: seq<Insight>)
    ensures |r| <= 1 && RanksIn(r, 7, 7)
    ensures r != [] <==> Overspent(current, categories, b)
  {
    if Overspent(current, categories, b) then [OverageInsight(current, categories, b)] else []
  }

  /** The loop over all budgets. */
  function Overages(current: seq<Expense>, categories: seq<Category>, budgets: seq<Budget>): seq<Insight>
    decreases |budgets|
  {
    if budgets == [] then []
    else
      var b := budgets[|budgets| - 1];
      Overages(current, categories, budgets[..|budgets| - 1]) + OverageTail(current, categories, b)
  }

  /** The loop's step: one more budget adds its own warning, if any, at the end. */
  lemma OveragesStep(current: seq<Expense>, categories: seq<Category>, budgets: seq<Budget>, k: nat)
    requires k < |budgets|
    ensures Overages(current, categories, budgets[..k + 1]) ==
              Overages(current, categories, budgets[..k]) + OverageTail(current, categories, budgets[k])
  {
    assert budgets[..k + 1][..k] == budgets[..k];
  }

  /** The overages all belong to one section. */
  lemma OveragesRanked(current: seq<Expense>, categories: seq<Category>, budgets: seq<Budget>)
    ensures RanksIn(Overages(current, categories, budgets), 7, 7) && WellOrdered(Overages(current, categories, budgets))
  {
    var r := Overages(current, categories, budgets);
    OveragesRanks(current, categories, budgets);
    forall i, j | 0 <= i < j < |r|
      ensures Rank(r[i].topic) <= Rank(r[j].topic) && (Rank(r[i].topic) == Rank(r[j].topic) ==> Rank(r[i].topic) == 7)
    {
      assert Rank(r[i].topic) == 7 && Rank(r[j].topic) == 7;
    }
  }

  lemma {:induction false} OveragesRanks(current: seq<Expense>, categories: seq<Category>, budgets: seq<Budget>)
    ensures RanksIn(Overages(current, categories, budgets), 7, 7)
    decreases |budgets|
  {
    if budgets != [] {
      var init := budgets[..|budgets| - 1];
      OveragesRanks(current, categories, init);
      var b := budgets[|budgets| - 1];
      var tail := OverageTail(current, categories, b);
      JoinOrdered2(Overages(current, categories, init), tail, 7, 7);
    }
  }

  /** One warning per overspent, resolving budget, in budget order. */
  lemma {:induction false} OveragesSpec(current: seq<Expense>, categories: seq<Category>, budgets: seq<Budget>)
    ensures var over := Filter(budgets, (b: Budget) => Overspent(current, categories, b));
      && |Overages(current, categories, budgets)| == |over|
      && forall i :: 0 <= i < |over| ==> Overages(current, categories, budgets)[i] == OverageInsight(current, categories, over[i])
    decreases |budgets|
  {
    if budgets != [] {
      OveragesSpec(current, categories, budgets[..|budgets| - 1]);
    }
  }

  predicate InBudgetBranch(budgets: Option<seq<Budget>>, ctx: MonthContext) {
    TotalBudget(budgets) > 0.0 && ctx.isCurrentMonth && ctx.today < 25
  }

  /**
   * In the running month before the 25th, with a positive budget total:
   * pacing, then projection, then the overages. With no budget (total
   * exactly 0) under the same dates: a single projection. Otherwise nothing.
   */
  function BudgetSection(
    current: seq<Expense>, totalCurrent: real, categories: seq<Category>, budgets: Option<seq<Budget>>, ctx: MonthContext)
    : (r: seq<Insight>)
    requires ValidContext(ctx)
    ensures InBudgetBranch(budgets, ctx) ==>
              budgets.Some? && |r| >= 2 &&
              r[0] == Pacing(totalCurrent, TotalBudget(budgets), ctx) &&
              r[1] == ProjectionVsBudget(Projected(totalCurrent, ctx), TotalBudget(budgets), ctx) &&
              r[2..] == Overages(current, categories, budgets.value) &&
              r == [r[0], r[1]] + Overages(current, categories, budgets.value)
    ensures !InBudgetBranch(budgets, ctx) && ctx.isCurrentMonth && ctx.today < 25 && TotalBudget(budgets) == 0.0 ==>
              r == [Insight(Info, Projection(Projected(totalCurrent, ctx), AvgPerDay(totalCurrent, ctx)))]
    ensures !(ctx.isCurrentMonth && ctx.today < 25 && TotalBudget(budgets) >= 0.0) ==> r == []
  {
    var projected := Projected(totalCurrent, ctx);
    var totalBudget := TotalBudget(budgets);
    if totalBudget > 0.0 && ctx.isCurrentMonth && ctx.today < 25 then
      var head := [Pacing(totalCurrent, totalBudget, ctx), ProjectionVsBudget(projected, totalBudget, ctx)];
      var rest := Overages(current, categories, budgets.value);
      assert (head + rest)[2..] == rest;
      head + rest
    else if ctx.isCurrentMonth && ctx.today < 25 && totalBudget == 0.0 then
      [Insight(Info, Projection(projected, AvgPerDay(totalCurrent, ctx)))]
    else []
  }

  /** The budget section keeps its own order: pacing, projection, overages. */
  lemma BudgetSectionRanked(
    current: seq<Expense>, totalCurrent: real, categories: seq<Category>, budgets: Option<seq<Budget>>, ctx: MonthContext)
    requires ValidContext(ctx)
    ensures var r := BudgetSection(current, totalCurrent, categories, budgets, ctx);
      WellOrdered(r) && RanksIn(r, 5, 7)
  {
    var r := BudgetSection(current, totalCurrent, categories, budgets, ctx);
    if InBudgetBranch(budgets, ctx) {
      var head := r[..2];
      var rest := Overages(current, categories, budgets.value);
      assert r == head + rest;
      OveragesRanked(current, categories, budgets.value);
      JoinOrdered(head, rest, 5, 6, 7);
    }
  }

  // ------------------------------------------------------ 5. weekends, volume

  /** `weekday` is `getDay()` of the expense date at noon: 0 is Sunday, 6 Saturday. */
  predicate IsWeekend(weekday: string -> int, e: Expense) {
    weekday(e.date) == 0 || weekday(e.date) == 6
  }

  function WeekendTotal(current: seq<Expense>, weekday: string -> int): real {
    TotalAmount(Filter(current, (e: Expense) => IsWeekend(weekday, e)))
  }

  /** A tip exactly when the rounded weekend share exceeds half. */
  function WeekendSection(current: seq<Expense>, totalCurrent: real, weekday: string -> int): (r: seq<Insight>)
    requires totalCurrent != 0.0
    ensures RanksIn(r, 8, 8)
    ensures var pct := Percent(WeekendTotal(current, weekday), totalCurrent);
      (pct > 50 ==> r == [Insight(Tip, Weekend(pct))]) && (pct <= 50 ==> r == [])
  {
    var pct := Percent(WeekendTotal(current, weekday), totalCurrent);
    if pct > 50 then [Insight(Tip, Weekend(pct))] else []
  }

  /** A tip exactly when there are more than 50 expenses this month. */
  function VolumeSection(current: seq<Expense>): (r: seq<Insight>)
    ensures RanksIn(r, 9, 9)
    ensures |current| > 50 ==> r == [Insight(Tip, Volume(|current|))]
    ensures |current| <= 50 ==> r == []
  {
    if |current| > 50 then [Insight(Tip, Volume(|current|))] else []
  }

  // ---------------------------------------------------------- the whole table

  lemma MonthTotalPositive(expenses: seq<Expense>, start: string, end: string)
    requires AllPositive(expenses) && |InDateRange(expenses, start, end)| > 0
    ensures AllPositive(InDateRange(expenses, start, end))
    ensures TotalAmount(InDateRange(expenses, start, end)) > 0.0
  {
    var current := InDateRange(expenses, start, end);
    forall i | 0 <= i < |current| ensures current[i].amount > 0.0 {
      var j :| 0 <= j < |expenses| && expenses[j] == current[i];
    }
    TotalOfPositive(current);
  }

  /** The rules for a month with spending, section by section. */
  function MonthInsights(
    current: seq<Expense>, prev: seq<Expense>, categories: seq<Category>, user: Option<Profile>, partner: Option<Profile>,
    budgets: Option<seq<Budget>>, ctx: MonthContext, weekday: string -> int): seq<Insight>
    requires ValidContext(ctx) && TotalAmount(current) > 0.0
  {
    var totalCurrent := TotalAmount(current);
    var sorted := Sorted(current, prev, categories);
    MonthComparison(totalCurrent, TotalAmount(prev))
    + TopSection(sorted, totalCurrent)
    + RisingSection(sorted)
    + ImbalanceSection(TotalAmount(PaidByFilter(current, IdOf(user))), TotalAmount(PaidByFilter(current, IdOf(partner))), partner)
    + BudgetSection(current, totalCurrent, categories, budgets, ctx)
    + WeekendSection(current, totalCurrent, weekday)
    + VolumeSection(current)
  }

  /** The insights for the month: a "no data" note for an empty month, the rules otherwise. */
  function Analyze(
    expenses: seq<Expense>, categories: seq<Category>, user: Option<Profile>, partner: Option<Profile>,
    budgets: Option<seq<Budget>>, ctx: MonthContext, weekday: string -> int): seq<Insight>
    requires ValidContext(ctx) && AllPositive(expenses)
  {
    var current := InDateRange(expenses, ctx.start, ctx.end);
    if |current| == 0 then [Insight(Info, NoData)]
    else
      MonthTotalPositive(expenses, ctx.start, ctx.end);
      MonthInsights(current, InDateRange(expenses, ctx.prevStart, ctx.prevEnd), categories, user, partner, budgets, ctx, weekday)
  }

  /**
   * The sections appear in the fixed order comparison, top category,
   * rising category, imbalance, pacing, projection, overages, weekend,
   * volume; each at most once, except one overage per budget.
   */
  lemma MonthInsightsWellOrdered(
    current: seq<Expense>, prev: seq<Expense>, categories: seq<Category>, user: Option<Profile>, partner: Option<Profile>,
    budgets: Option<seq<Budget>>, ctx: MonthContext, weekday: string -> int)
    requires ValidContext(ctx) && TotalAmount(current) > 0.0
    ensures var r := MonthInsights(current, prev, categories, user, partner, budgets, ctx, weekday);
      WellOrdered(r) && RanksIn(r, 1, 9)
  {
    var totalCurrent := TotalAmount(current);
    var sorted := Sorted(current, prev, categories);
    var s1 := MonthComparison(totalCurrent, TotalAmount(prev));
    var s2 := TopSection(sorted, totalCurrent);
    var s3 := RisingSection(sorted);
    var s4 := ImbalanceSection(TotalAmount(PaidByFilter(current, IdOf(user))), TotalAmount(PaidByFilter(current, IdOf(partner))), partner);
    var s5 := BudgetSection(current, totalCurrent, categories, budgets, ctx);
    var s6 := WeekendSection(current, totalCurrent, weekday);
    var s7 := VolumeSection(current);
    BudgetSectionRanked(current, totalCurrent, categories, budgets, ctx);
    OrderedSections(s1, s2, s3, s4, s5, s6, s7);
  }

  /** Seven sections of increasing rank make a well-ordered list. */
  lemma OrderedSections(
    s1: seq<Insight>, s2: seq<Insight>, s3: seq<Insight>, s4: seq<Insight>, s5: seq<Insight>, s6: seq<Insight>, s7: seq<Insight>)
    requires RanksIn(s1, 1, 1) && |s1| <= 1 && RanksIn(s2, 2, 2) && |s2| <= 1 && RanksIn(s3, 3, 3) && |s3| <= 1
    requires RanksIn(s4, 4, 4) && |s4| <= 1 && RanksIn(s5, 5, 7) && WellOrdered(s5)
    requires RanksIn(s6, 8, 8) && |s6| <= 1 && RanksIn(s7, 9, 9) && |s7| <= 1
    ensures WellOrdered(s1 + s2 + s3 + s4 + s5 + s6 + s7) && RanksIn(s1 + s2 + s3 + s4 + s5 + s6 + s7, 1, 9)
  {
    JoinOrdered(s1, s2, 1, 1, 2);
    JoinOrdered(s1 + s2, s3, 1, 2, 3);
    JoinOrdered(s1 + s2 + s3, s4, 1, 3, 4);
    JoinOrdered(s1 + s2 + s3 + s4, s5, 1, 4, 7);
    JoinOrdered(s1 + s2 + s3 + s4 + s5, s6, 1, 7, 8);
    JoinOrdered(s1 + s2 + s3 + s4 + s5 + s6, s7, 1, 8, 9);
  }

  /** Every month's analysis keeps the section order. */
  lemma AnalyzeWellOrdered(
    expenses: seq<Expense>, categories: seq<Category>, user: Option<Profile>, partner: Option<Profile>,
    budgets: Option<seq<Budget>>, ctx: MonthContext, weekday: string -> int)
    requires ValidContext(ctx) && AllPositive(expenses)
    ensures WellOrdered(Analyze(expenses, categories, user, partner, budgets, ctx, weekday))
  {
    var current := InDateRange(expenses, ctx.start, ctx.end);
    if |current| > 0 {
      MonthTotalPositive(expenses, ctx.start, ctx.end);
      MonthInsightsWellOrdered(current, InDateRange(expenses, ctx.prevStart, ctx.prevEnd), categories, user, partner, budgets, ctx, weekday);
    }
  }

  /** The month has no expenses exactly when the analysis is the single "no data" note; otherwise that note never appears. */
  lemma AnalyzeNoData(
    expenses: seq<Expense>, categories: seq<Category>, user: Option<Profile>, partner: Option<Profile>,
    budgets: Option<seq<Budget>>, ctx: MonthContext, weekday: string -> int)
    requires ValidContext(ctx) && AllPositive(expenses)
    ensures var r := Analyze(expenses, categories, user, partner, budgets, ctx, weekday);
      && (|InDateRange(expenses, ctx.start, ctx.end)| == 0 <==> r == [Insight(Info, NoData)])
      && (|InDateRange(expenses, ctx.start, ctx.end)| > 0 ==> forall i :: 0 <= i < |r| ==> r[i].topic != NoData)
  {
    var current := InDateRange(expenses, ctx.start, ctx.end);
    if |current| > 0 {
      MonthTotalPositive(expenses, ctx.start, ctx.end);
      var prev := InDateRange(expenses, ctx.prevStart, ctx.prevEnd);
      var r := MonthInsights(current, prev, categories, user, partner, budgets, ctx, weekday);
      assert Analyze(expenses, categories, user, partner, budgets, ctx, weekday) == r;
      MonthInsightsWellOrdered(current, prev, categories, user, partner, budgets, ctx, weekday);
      NoDataNotRanked(r);
    }
  }

  lemma NoDataNotRanked(r: seq<Insight>)
    requires RanksIn(r, 1, 9)
    ensures r != [Insight(Info, NoData)]
    ensures forall i :: 0 <= i < |r| ==> r[i].topic != NoData
  {
    if |r| > 0 {
      assert Rank(r[0].topic) >= 1;
    }
  }

  /**
   * Called without budgets (as the reports page does), the analysis never
   * speaks of pacing, of the projection against a budget, or of overages.
   */
  lemma NoBudgetsNoBudgetInsights(
    expenses: seq<Expense>, categories: seq<Category>, user: Option<Profile>, partner: Option<Profile>,
    ctx: MonthContext, weekday: string -> int)
    requires ValidContext(ctx) && AllPositive(expenses)
    ensures var r := Analyze(expenses, categories, user, partner, None, ctx, weekday);
      forall i :: 0 <= i < |r| ==>
        Rank(r[i].topic) != 5 && Rank(r[i].topic) != 7 && !r[i].topic.ProjectionOver? && !r[i].topic.ProjectionWithin?
  {
    var current := InDateRange(expenses, ctx.start, ctx.end);
    if |current| > 0 {
      MonthTotalPositive(expenses, ctx.start, ctx.end);
      NoBudgetsMonth(current, InDateRange(expenses, ctx.prevStart, ctx.prevEnd), categories, user, partner, ctx, weekday);
    }
  }

  lemma NoBudgetsMonth(
    current: seq<Expense>, prev: seq<Expense>, categories: seq<Category>, user: Option<Profile>, partner: Option<Profile>,
    ctx: MonthContext, weekday: string -> int)
    requires ValidContext(ctx) && TotalAmount(current) > 0.0
    ensures var r := MonthInsights(current, prev, categories, user, partner, None, ctx, weekday);
      forall i :: 0 <= i < |r| ==>
        Rank(r[i].topic) != 5 && Rank(r[i].topic) != 7 && !r[i].topic.ProjectionOver? && !r[i].topic.ProjectionWithin?
  {
    var totalCurrent := TotalAmount(current);
    var sorted := Sorted(current, prev, categories);
    var s1 := MonthComparison(totalCurrent, TotalAmount(prev));
    var s2 := TopSection(sorted, totalCurrent);
    var s3 := RisingSection(sorted);
    var s4 := ImbalanceSection(TotalAmount(PaidByFilter(current, IdOf(user))), TotalAmount(PaidByFilter(current, IdOf(partner))), partner);
    var s5 := BudgetSection(current, totalCurrent, categories, None, ctx);
    var s6 := WeekendSection(current, totalCurrent, weekday);
    var s7 := VolumeSection(current);
    NoBudgetsSection(current, totalCurrent, categories, ctx);
    OnlyPlainProjection(s1, s2, s3, s4, s5, s6, s7);
  }

  /** Without budgets the budget section holds at most the plain projection. */
  lemma NoBudgetsSection(current: seq<Expense>, totalCurrent: real, categories: seq<Category>, ctx: MonthContext)
    requires ValidContext(ctx)
    ensures var s := BudgetSection(current, totalCurrent, categories, None, ctx);
      forall i :: 0 <= i < |s| ==> s[i].topic.Projection?
  {
  }

  /** When the budget section holds at most the plain projection, no budget-related insight appears in the whole list. */
  lemma OnlyPlainProjection(
    s1: seq<Insight>, s2: seq<Insight>, s3: seq<Insight>, s4: seq<Insight>, s5: seq<Insight>, s6: seq<Insight>, s7: seq<Insight>)
    requires RanksIn(s1, 1, 1) && RanksIn(s2, 2, 2) && RanksIn(s3, 3, 3) && RanksIn(s4, 4, 4)
    requires forall i :: 0 <= i < |s5| ==> s5[i].topic.Projection?
    requires RanksIn(s6, 8, 8) && RanksIn(s7, 9, 9)
    ensures var r := s1 + s2 + s3 + s4 + s5 + s6 + s7;
      forall i :: 0 <= i < |r| ==>
        Rank(r[i].topic) != 5 && Rank(r[i].topic) != 7 && !r[i].topic.ProjectionOver? && !r[i].topic.ProjectionWithin?
  {
    var a := s1 + s2 + s3 + s4;
    var c := s6 + s7;
    var r := s1 + s2 + s3 + s4 + s5 + s6 + s7;
    assert r == a + s5 + c;
    assert RanksIn(a, 1, 4) by {
      JoinOrdered2(s1, s2, 1, 2);
      JoinOrdered2(s1 + s2, s3, 1, 3);
      JoinOrdered2(s1 + s2 + s3, s4, 1, 4);
    }
    assert RanksIn(c, 8, 9) by {
      JoinOrdered2(s6, s7, 8, 9);
    }
    forall i | 0 <= i < |r|
      ensures Rank(r[i].topic) != 5 && Rank(r[i].topic) != 7 && !r[i].topic.ProjectionOver? && !r[i].topic.ProjectionWithin?
    {
      if i < |a| {
        assert r[i] == a[i];
      } else if i < |a| + |s5| {
        assert r[i] == s5[i - |a|];
      } else {
        assert r[i] == c[i - |a| - |s5|];
      }
    }
  }

  lemma JoinOrdered2(a: seq<Insight>, b: seq<Insight>, lo: nat, hi: nat)
    requires lo <= hi && RanksIn(a, lo, hi) && RanksIn(b, lo, hi)
    ensures RanksIn(a + b, lo, hi)
  {
    forall i | 0 <= i < |a + b| ensures lo <= Rank((a + b)[i].topic) <= hi {
      if i < |a| {
        assert (a + b)[i] == a[i];
      } else {
        assert (a + b)[i] == b[i - |a|];
      }
    }
  }

  // ------------------------------------------------------------------ titles

  /** The insight titles; `money` is the currency formatter. */
  function Title(t: Topic, money: real -> string): string {
    match t
    case NoData => "Sin datos este mes"
    case MonthUp(p) => "Gastos +" + IntText(p) + "% vs mes anterior"
    case MonthDown(p) => "Gastos " + IntText(p) + "% vs mes anterior"
    case MonthSteady(_) => "Gastos estables"
    case TopCategory(c, p) => c.name + ": " + IntText(p) + "% del total"
    case RisingCategory(c, p) => c.name + " subió " + IntText(p) + "%"
    case Imbalance(r, _) => "Desbalance en pagos: " + IntText(r) + "/" + IntText(100 - r)
    case BudgetExceeded(p) => "Presupuesto excedido: " + IntText(p) + "%"
    case HighPace(p, _) => "Ritmo alto: " + IntText(p) + "% del presupuesto"
    case OnPace(p, _) => "Buen ritmo: " + IntText(p) + "% del presupuesto"
    case ProjectionOver(v, _) => "Proyección: " + money(v)
    case ProjectionWithin(v, _) => "Proyección: " + money(v)
    case Projection(v, _) => "Proyección: " + money(v)
    case CategoryOverBudget(c, p) => c.name + ": excedido " + (if p.Some? then IntText(p.value) else "Infinity") + "%"
    case Weekend(p) => IntText(p) + "% del gasto es los fines de semana"
    case Volume(n) => IntText(n) + " transacciones este mes"
  }

  // ------------------------------------------------- the projection as meant

  /** As written, when the browser reads the last day correctly the projection is just the month's total so far. */
  lemma ProjectionIsMonthTotal(totalCurrent: real, ctx: MonthContext)
    requires ValidContext(ctx) && ctx.endDay == ctx.daysInMonth
    ensures Projected(totalCurrent, ctx) == totalCurrent
  {
  }

  /** Day 10 of a 30-day month with 300 spent: the code projects 300, a daily-rate projection gives 900. */
  lemma ProjectionCounterexample()
    ensures var ctx := MonthContext("2024-06-01", "2024-06-30", "2024-05-01", "2024-05-31", 30, 30, true, 10);
      ValidContext(ctx) && Projected(300.0, ctx) == 300.0 && IntendedProjection(300.0, ctx) == 900.0
  {
  }

  /** The evidently intended projection: today's average daily spending times the days in the month. */
  function IntendedProjection(totalCurrent: real, ctx: MonthContext): real
    requires ValidContext(ctx)
  {
    totalCurrent / ctx.today as real * ctx.daysInMonth as real
  }

  /**
   * The intended projection is the spending so far plus the same daily
   * rate over the remaining days, so it exceeds the spending so far
   * whenever days remain and something was spent.
   */
  lemma IntendedProjectionExtrapolates(totalCurrent: real, ctx: MonthContext)
    requires ValidContext(ctx) && ctx.isCurrentMonth
    ensures IntendedProjection(totalCurrent, ctx) ==
              totalCurrent + totalCurrent / ctx.today as real * (ctx.daysInMonth - ctx.today) as real
    ensures totalCurrent > 0.0 && ctx.today < ctx.daysInMonth ==> IntendedProjection(totalCurrent, ctx) > totalCurrent
  {
    var rate := totalCurrent / ctx.today as real;
    assert rate * ctx.today as real == totalCurrent;
    if totalCurrent > 0.0 && ctx.today < ctx.daysInMonth {
      assert rate > 0.0;
      assert rate * (ctx.daysInMonth - ctx.today) as real > 0.0;
    }
  }
}
