/**
 * The spending-by-category chart shared by the dashboard and the reports
 * page: the month's expenses grouped by category name (unknown or unnamed
 * categories together as "Otros"), each group decorated with the colour
 * and icon of the category of that name, largest group first.
 */
module Breakdown {
  import opened Wrappers
  import opened Seqs
  import opened Sorting
  import opened Domain
  import opened Records

  const OtherName: string := "Otros"
  const DefaultColor: string := "#6b7280"
  const DefaultIcon: string := "📦"

  /** `cat?.name || 'Otros'` for the category the expense's id resolves to. */
  function GroupName(categories: seq<Category>, e: Expense): string {
    var cat := FindCategory(categories, e.categoryId);
    if cat.Some? && cat.value.name != "" then cat.value.name else OtherName
  }

  /**
   * A group is named after the category the expense belongs to, and an
   * expense whose category is unknown goes to "Otros".
   */
  lemma GroupNameSpec(categories: seq<Category>, e: Expense)
    ensures GroupName(categories, e) != ""
    ensures GroupName(categories, e) == OtherName ||
            exists c :: c in categories && c.id == e.categoryId && c.name == GroupName(categories, e)
    ensures (forall c :: c in categories ==> c.id != e.categoryId) ==> GroupName(categories, e) == OtherName
  {
  }

  function GroupNames(expenses: seq<Expense>, categories: seq<Category>): (r: seq<string>)
    ensures |r| == |expenses| && forall i :: 0 <= i < |expenses| ==> r[i] == GroupName(categories, expenses[i])
  {
    seq(|expenses|, i requires 0 <= i < |expenses| => GroupName(categories, expenses[i]))
  }

  /** What the list spends in the group called `name`. */
  function GroupSpend(expenses: seq<Expense>, categories: seq<Category>, name: string): real {
    TotalAmount(Filter(expenses, (e: Expense) => GroupName(categories, e) == name))
  }

  /** One pass of the loop: `map.set(name, (map.get(name) || 0) + e.amount)`. */
  function AddToGroup(groups: seq<(string, real)>, categories: seq<Category>, e: Expense): seq<(string, real)> {
    var name := GroupName(categories, e);
    Put(groups, name, Get(groups, name).GetOr(0.0) + e.amount)
  }

  /** The `Map` after the loop over the list. */
  function GroupTotals(expenses: seq<Expense>, categories: seq<Category>): seq<(string, real)>
    decreases |expenses|
  {
    if expenses == [] then []
    else AddToGroup(GroupTotals(expenses[..|expenses| - 1], categories), categories, expenses[|expenses| - 1])
  }

  function EntryValue(entry: (string, real)): real {
    entry.1
  }

  datatype Slice = Slice(name: string, value: real, color: string, icon: string)

  function SliceValue(s: Slice): real {
    s.value
  }

  function SliceName(s: Slice): string {
    s.name
  }

  /** A group with the colour and icon of the category named like it, or the grey box. */
  function ToSlice(categories: seq<Category>, entry: (string, real)): (r: Slice)
    ensures r.name == entry.0 && r.value == entry.1
  {
    var cat := FindCategoryByName(categories, entry.0);
    Slice(entry.0, entry.1,
          if cat.Some? && cat.value.color != "" then cat.value.color else DefaultColor,
          if cat.Some? && cat.value.icon != "" then cat.value.icon else DefaultIcon)
  }

  /** A slice takes its colour and icon from a category of its name, or the defaults. */
  lemma ToSliceLooks(categories: seq<Category>, entry: (string, real))
    ensures var r := ToSlice(categories, entry);
      && (r.color == DefaultColor || exists c :: c in categories && c.name == entry.0 && c.color == r.color)
      && (r.icon == DefaultIcon || exists c :: c in categories && c.name == entry.0 && c.icon == r.icon)
      && ((forall c :: c in categories ==> c.name != entry.0) ==> r.color == DefaultColor && r.icon == DefaultIcon)
  {
  }

  function ToSlices(categories: seq<Category>, groups: seq<(string, real)>): (r: seq<Slice>)
    ensures |r| == |groups| && forall i :: 0 <= i < |groups| ==> r[i] == ToSlice(categories, groups[i])
  {
    seq(|groups|, i requires 0 <= i < |groups| => ToSlice(categories, groups[i]))
  }

  /** `chartData` / `categoryData`: the groups, decorated, by non-increasing value. */
  function CategoryBreakdown(expenses: seq<Expense>, categories: seq<Category>): seq<Slice> {
    SortDesc(ToSlices(categories, GroupTotals(expenses, categories)), SliceValue)
  }

  /** The last expense adds its amount to its own group's spending only. */
  lemma GroupSpendLast(expenses: seq<Expense>, categories: seq<Category>, name: string)
    requires expenses != []
    ensures var x := expenses[|expenses| - 1];
      GroupSpend(expenses, categories, name) ==
        GroupSpend(expenses[..|expenses| - 1], categories, name) + (if GroupName(categories, x) == name then x.amount else 0.0)
  {
    var p := (e: Expense) => GroupName(categories, e) == name;
    var f := Filter(expenses[..|expenses| - 1], p);
    var x := expenses[|expenses| - 1];
    if p(x) {
      assert (f + [x])[..|f|] == f;
    }
  }

  /** The names of a list are those of all but its last expense, and the last one's. */
  lemma GroupNamesLast(expenses: seq<Expense>, categories: seq<Category>)
    requires expenses != []
    ensures forall n :: n in GroupNames(expenses, categories) <==>
              n in GroupNames(expenses[..|expenses| - 1], categories) || n == GroupName(categories, expenses[|expenses| - 1])
  {
    assert GroupNames(expenses, categories) ==
           GroupNames(expenses[..|expenses| - 1], categories) + [GroupName(categories, expenses[|expenses| - 1])];
  }

  /** One pass adds the amount to the sum of all group values. */
  lemma AddToGroupSum(groups: seq<(string, real)>, categories: seq<Category>, e: Expense)
    ensures SumOf(AddToGroup(groups, categories, e), EntryValue) == SumOf(groups, EntryValue) + e.amount
  {
    var name := GroupName(categories, e);
    var k := KeyIndex(KeysOf(groups), name);
    if k < |groups| {
      SumOfUpdate(groups, k, (name, groups[k].1 + e.amount), EntryValue);
    } else {
      var r := groups + [(name, e.amount)];
      assert r[..|groups|] == groups;
    }
  }

  /** The loop leaves exactly one entry per group name that occurs in the list. */
  lemma {:induction false} GroupTotalsKeys(expenses: seq<Expense>, categories: seq<Category>)
    ensures UniqueKeys(GroupTotals(expenses, categories))
    ensures forall name :: name in KeysOf(GroupTotals(expenses, categories)) <==> name in GroupNames(expenses, categories)
    decreases |expenses|
  {
    if expenses != [] {
      var init := expenses[..|expenses| - 1];
      var x := expenses[|expenses| - 1];
      GroupTotalsKeys(init, categories);
      var g0 := GroupTotals(init, categories);
      var name := GroupName(categories, x);
      PutSpec(g0, name, Get(g0, name).GetOr(0.0) + x.amount);
      GroupNamesLast(expenses, categories);
    }
  }

  /** Every group's entry holds what that group spends (a missing entry reads as 0, as `|| 0` does). */
  lemma {:induction false} GroupTotalsValue(expenses: seq<Expense>, categories: seq<Category>, n: string)
    ensures Get(GroupTotals(expenses, categories), n).GetOr(0.0) == GroupSpend(expenses, categories, n)
    decreases |expenses|
  {
    if expenses != [] {
      var init := expenses[..|expenses| - 1];
      var x := expenses[|expenses| - 1];
      var g0 := GroupTotals(init, categories);
      GroupTotalsValue(init, categories, n);
      GroupSpendLast(expenses, categories, n);
      GroupTotalsKeys(init, categories);
      AddToGroupValue(g0, categories, x, n);
    }
  }

  /** One pass adds the amount to the expense's own group and leaves every other group's value alone. */
  lemma AddToGroupValue(groups: seq<(string, real)>, categories: seq<Category>, e: Expense, n: string)
    requires UniqueKeys(groups)
    ensures Get(AddToGroup(groups, categories, e), n).GetOr(0.0) ==
              Get(groups, n).GetOr(0.0) + (if GroupName(categories, e) == n then e.amount else 0.0)
  {
    var name := GroupName(categories, e);
    var v := Get(groups, name).GetOr(0.0) + e.amount;
    assert AddToGroup(groups, categories, e) == Put(groups, name, v);
    PutSpec(groups, name, v);
  }

  /** The entries' values add up to the list's total. */
  lemma {:induction false} GroupTotalsSum(expenses: seq<Expense>, categories: seq<Category>)
    ensures SumOf(GroupTotals(expenses, categories), EntryValue) == TotalAmount(expenses)
    decreases |expenses|
  {
    if expenses != [] {
      var init := expenses[..|expenses| - 1];
      GroupTotalsSum(init, categories);
      AddToGroupSum(GroupTotals(init, categories), categories, expenses[|expenses| - 1]);
    }
  }

  /**
   * The chart is sorted by non-increasing value, no two slices share a
   * name, and the slices add up to the month's total.
   */
  lemma CategoryBreakdownShape(expenses: seq<Expense>, categories: seq<Category>)
    ensures var r := CategoryBreakdown(expenses, categories);
      && SortedDesc(r, SliceValue)
      && TagsUnique(r, SliceName)
      && SumOf(r, SliceValue) == TotalAmount(expenses)
  {
    var g := GroupTotals(expenses, categories);
    var s := ToSlices(categories, g);
    GroupTotalsKeys(expenses, categories);
    GroupTotalsSum(expenses, categories);
    assert TagsUnique(s, SliceName);
    SortDescTagsUnique(s, SliceValue, SliceName);
    SumOfPointwise(s, g, SliceValue, EntryValue);
    SumOfPermutation(SortDesc(s, SliceValue), s, SliceValue);
  }

  /** Each slice is a group that occurs in the month and holds exactly that group's spending. */
  lemma CategoryBreakdownValues(expenses: seq<Expense>, categories: seq<Category>)
    ensures var r := CategoryBreakdown(expenses, categories);
      forall i :: 0 <= i < |r| ==>
        r[i].name in GroupNames(expenses, categories) && r[i].value == GroupSpend(expenses, categories, r[i].name)
  {
    var g := GroupTotals(expenses, categories);
    var s := ToSlices(categories, g);
    var r := CategoryBreakdown(expenses, categories);
    GroupTotalsKeys(expenses, categories);
    forall i | 0 <= i < |r|
      ensures r[i].name in GroupNames(expenses, categories) && r[i].value == GroupSpend(expenses, categories, r[i].name)
    {
      assert r[i] in multiset(s);
      var j :| 0 <= j < |s| && s[j] == r[i];
      assert KeysOf(g)[j] == r[i].name;
      GetEntry(g, j);
      GroupTotalsValue(expenses, categories, r[i].name);
    }
  }

  /** Every group that occurs in the month has its slice. */
  lemma CategoryBreakdownCovers(expenses: seq<Expense>, categories: seq<Category>)
    ensures var r := CategoryBreakdown(expenses, categories);
      forall name :: name in GroupNames(expenses, categories) ==> exists i :: 0 <= i < |r| && r[i].name == name
  {
    var g := GroupTotals(expenses, categories);
    var s := ToSlices(categories, g);
    var r := CategoryBreakdown(expenses, categories);
    GroupTotalsKeys(expenses, categories);
    forall name | name in GroupNames(expenses, categories) ensures exists i :: 0 <= i < |r| && r[i].name == name {
      var j :| 0 <= j < |g| && KeysOf(g)[j] == name;
      assert s[j] in multiset(r);
      var i :| 0 <= i < |r| && r[i] == s[j];
    }
  }

  /** The `for … of` loop filling the `Map`, then the decoration and the sort. */
  method ChartData(monthExpenses: seq<Expense>, categories: seq<Category>) returns (data: seq<Slice>)
    ensures data == CategoryBreakdown(monthExpenses, categories)
  {
    var groups: seq<(string, real)> := [];
    for i := 0 to |monthExpenses|
      invariant groups == GroupTotals(monthExpenses[..i], categories)
    {
      assert monthExpenses[..i + 1][..i] == monthExpenses[..i];
      var e := monthExpenses[i];
      groups := AddToGroup(groups, categories, e);
    }
    assert monthExpenses[..|monthExpenses|] == monthExpenses;
    data := SortDesc(ToSlices(categories, groups), SliceValue);
  }
}
