/**
 * The per-category totals of the monthly analysis: one entry per category
 * id, in order of first appearance, with the current and the previous
 * month's spending and the category record found when the entry was made.
 */
module CatTotals {
  import opened Wrappers
  import opened Seqs
  import opened Domain
  import opened Records

  datatype CatTotal = CatTotal(categoryId: string, current: real, prev: real, cat: Option<Category>)

  function Keys(totals: seq<CatTotal>): (r: seq<string>)
    ensures |r| == |totals| && forall i :: 0 <= i < |totals| ==> r[i] == totals[i].categoryId
  {
    seq(|totals|, i requires 0 <= i < |totals| => totals[i].categoryId)
  }

  function CategoryIdsOf(expenses: seq<Expense>): (r: seq<string>)
    ensures |r| == |expenses| && forall i :: 0 <= i < |expenses| ==> r[i] == expenses[i].categoryId
  {
    seq(|expenses|, i requires 0 <= i < |expenses| => expenses[i].categoryId)
  }

  predicate UniqueIds(totals: seq<CatTotal>) {
    forall i, j :: 0 <= i < j < |totals| ==> totals[i].categoryId != totals[j].categoryId
  }

  /** Every entry carries the category its id resolves to. */
  predicate CatsResolved(totals: seq<CatTotal>, categories: seq<Category>) {
    forall i :: 0 <= i < |totals| ==> totals[i].cat == FindCategory(categories, totals[i].categoryId)
  }

  /** `catTotals.get(key)?.current ?? 0`. */
  function CurrentOf(totals: seq<CatTotal>, key: string): real {
    var k := KeyIndex(Keys(totals), key);
    if k < |totals| then totals[k].current else 0.0
  }

  function PrevOf(totals: seq<CatTotal>, key: string): real {
    var k := KeyIndex(Keys(totals), key);
    if k < |totals| then totals[k].prev else 0.0
  }

  /** What a list spends in one category: `filter` by category id, then `reduce`. */
  function CategorySpend(expenses: seq<Expense>, key: string): real {
    TotalAmount(Filter(expenses, (e: Expense) => e.categoryId == key))
  }

  lemma CategorySpendSnoc(expenses: seq<Expense>, x: Expense, key: string)
    ensures CategorySpend(expenses + [x], key) ==
              CategorySpend(expenses, key) + (if x.categoryId == key then x.amount else 0.0)
  {
    var p := (e: Expense) => e.categoryId == key;
    assert (expenses + [x])[..|expenses|] == expenses;
    var f := Filter(expenses, p);
    if p(x) {
      assert (f + [x])[..|f|] == f;
    }
  }

  /**
   * One step of either loop: the entry for the expense's category is
   * created if missing (with no spending yet) and its current or previous
   * total grows by the amount.
   */
  function Bump(totals: seq<CatTotal>, e: Expense, categories: seq<Category>, inCurrent: bool): seq<CatTotal> {
    var k := KeyIndex(Keys(totals), e.categoryId);
    var existing := if k < |totals| then totals[k] else CatTotal(e.categoryId, 0.0, 0.0, FindCategory(categories, e.categoryId));
    var updated := if inCurrent then existing.(current := existing.current + e.amount)
                   else existing.(prev := existing.prev + e.amount);
    if k < |totals| then totals[k := updated] else totals + [updated]
  }

  /** One loop over a list of expenses. */
  function Accumulate(totals: seq<CatTotal>, expenses: seq<Expense>, categories: seq<Category>, inCurrent: bool): seq<CatTotal>
    decreases |expenses|
  {
    if expenses == [] then totals
    else Bump(Accumulate(totals, expenses[..|expenses| - 1], categories, inCurrent), expenses[|expenses| - 1], categories, inCurrent)
  }

  /** Both loops: the current month first, then the previous one. */
  function CategoryTotals(current: seq<Expense>, prev: seq<Expense>, categories: seq<Category>): seq<CatTotal> {
    Accumulate(Accumulate([], current, categories, true), prev, categories, false)
  }

  /** A step keeps the ids unique, adds the expense's id, and records the category it resolves to. */
  lemma BumpKeys(totals: seq<CatTotal>, e: Expense, categories: seq<Category>, inCurrent: bool)
    requires UniqueIds(totals)
    ensures var r := Bump(totals, e, categories, inCurrent);
      && UniqueIds(r)
      && (CatsResolved(totals, categories) ==> CatsResolved(r, categories))
      && (forall key :: key in Keys(r) <==> key in Keys(totals) || key == e.categoryId)
  {
    var r := Bump(totals, e, categories, inCurrent);
    var k := KeyIndex(Keys(totals), e.categoryId);
    if k < |totals| {
      assert Keys(r) == Keys(totals);
    } else {
      assert Keys(r) == Keys(totals) + [e.categoryId];
    }
  }

  /** A step adds the amount to the expense's category, in the month it belongs to, and to nothing else. */
  lemma BumpValues(totals: seq<CatTotal>, e: Expense, categories: seq<Category>, inCurrent: bool)
    requires UniqueIds(totals)
    ensures var r := Bump(totals, e, categories, inCurrent);
      && (forall key :: CurrentOf(r, key) == CurrentOf(totals, key) + (if inCurrent && key == e.categoryId then e.amount else 0.0))
      && (forall key :: PrevOf(r, key) == PrevOf(totals, key) + (if !inCurrent && key == e.categoryId then e.amount else 0.0))
  {
    var r := Bump(totals, e, categories, inCurrent);
    var k := KeyIndex(Keys(totals), e.categoryId);
    if k < |totals| {
      assert Keys(r) == Keys(totals);
      forall key ensures CurrentOf(r, key) == CurrentOf(totals, key) + (if inCurrent && key == e.categoryId then e.amount else 0.0)
        && PrevOf(r, key) == PrevOf(totals, key) + (if !inCurrent && key == e.categoryId then e.amount else 0.0)
      {
        var j := KeyIndex(Keys(totals), key);
        if j < |totals| && key != e.categoryId {
          assert j != k;
        }
      }
    } else {
      assert Keys(r) == Keys(totals) + [e.categoryId];
      forall key ensures CurrentOf(r, key) == CurrentOf(totals, key) + (if inCurrent && key == e.categoryId then e.amount else 0.0)
        && PrevOf(r, key) == PrevOf(totals, key) + (if !inCurrent && key == e.categoryId then e.amount else 0.0)
      {
        KeyIndexAppend(Keys(totals), e.categoryId, key);
        if key !in Keys(totals) {
          assert KeyIndex(Keys(totals), key) == |totals|;
        }
      }
    }
  }

  /** A loop keeps the ids unique and adds the ids of its expenses, each with the category it resolves to. */
  lemma {:induction false} AccumulateKeys(totals: seq<CatTotal>, expenses: seq<Expense>, categories: seq<Category>, inCurrent: bool)
    requires UniqueIds(totals)
    ensures var r := Accumulate(totals, expenses, categories, inCurrent);
      && UniqueIds(r)
      && (CatsResolved(totals, categories) ==> CatsResolved(r, categories))
      && (forall key :: key in Keys(r) <==> key in Keys(totals) || key in CategoryIdsOf(expenses))
    decreases |expenses|
  {
    if expenses != [] {
      var init := expenses[..|expenses| - 1];
      var x := expenses[|expenses| - 1];
      AccumulateKeys(totals, init, categories, inCurrent);
      BumpKeys(Accumulate(totals, init, categories, inCurrent), x, categories, inCurrent);
      assert CategoryIdsOf(expenses) == CategoryIdsOf(init) + [x.categoryId];
    }
  }

  /**
   * The ids of `ids` appended to `seen` in order of first appearance, each
   * once: what a `Map` keyed by id shows when iterated.
   */
  function FirstSeen(seen: seq<string>, ids: seq<string>): (r: seq<string>)
    ensures |r| >= |seen| && r[..|seen|] == seen
    ensures forall key :: key in r <==> key in seen || key in ids
    decreases |ids|
  {
    if ids == [] then seen
    else
      var s := FirstSeen(seen, ids[..|ids| - 1]);
      var x := ids[|ids| - 1];
      assert ids == ids[..|ids| - 1] + [x];
      if x in s then s else s + [x]
  }

  /** A step appends the expense's id when it is new and keeps the keys otherwise. */
  lemma BumpOrder(totals: seq<CatTotal>, e: Expense, categories: seq<Category>, inCurrent: bool)
    ensures Keys(Bump(totals, e, categories, inCurrent)) ==
              if e.categoryId in Keys(totals) then Keys(totals) else Keys(totals) + [e.categoryId]
  {
    var k := KeyIndex(Keys(totals), e.categoryId);
    if k < |totals| {
      assert Keys(Bump(totals, e, categories, inCurrent)) == Keys(totals);
    } else {
      assert Keys(Bump(totals, e, categories, inCurrent)) == Keys(totals) + [e.categoryId];
    }
  }

  /**
   * The entries stand in order of first appearance: the ids already
   * present, then each new id of the loop's list where it first occurs.
   */
  lemma {:induction false} AccumulateOrder(totals: seq<CatTotal>, expenses: seq<Expense>, categories: seq<Category>, inCurrent: bool)
    ensures Keys(Accumulate(totals, expenses, categories, inCurrent)) == FirstSeen(Keys(totals), CategoryIdsOf(expenses))
    decreases |expenses|
  {
    if expenses != [] {
      var init := expenses[..|expenses| - 1];
      var x := expenses[|expenses| - 1];
      var ids := CategoryIdsOf(expenses);
      AccumulateOrder(totals, init, categories, inCurrent);
      BumpOrder(Accumulate(totals, init, categories, inCurrent), x, categories, inCurrent);
      assert ids[..|ids| - 1] == CategoryIdsOf(init);
      assert ids[|ids| - 1] == x.categoryId;
    }
  }

  /** A loop adds each category's spending in its list to that category's figure for its month. */
  lemma {:induction false} AccumulateValues(totals: seq<CatTotal>, expenses: seq<Expense>, categories: seq<Category>, inCurrent: bool)
    requires UniqueIds(totals)
    ensures var r := Accumulate(totals, expenses, categories, inCurrent);
      && (forall key :: CurrentOf(r, key) == CurrentOf(totals, key) + (if inCurrent then CategorySpend(expenses, key) else 0.0))
      && (forall key :: PrevOf(r, key) == PrevOf(totals, key) + (if inCurrent then 0.0 else CategorySpend(expenses, key)))
    decreases |expenses|
  {
    if expenses != [] {
      var init := expenses[..|expenses| - 1];
      var x := expenses[|expenses| - 1];
      AccumulateValues(totals, init, categories, inCurrent);
      AccumulateKeys(totals, init, categories, inCurrent);
      BumpValues(Accumulate(totals, init, categories, inCurrent), x, categories, inCurrent);
      assert expenses == init + [x];
      forall key ensures CategorySpend(expenses, key) == CategorySpend(init, key) + (if x.categoryId == key then x.amount else 0.0) {
        CategorySpendSnoc(init, x, key);
      }
    }
  }

  /** An entry's totals are what `CurrentOf` and `PrevOf` report for its id, when ids are unique. */
  lemma EntryLookup(totals: seq<CatTotal>, i: nat)
    requires UniqueIds(totals) && i < |totals|
    ensures CurrentOf(totals, totals[i].categoryId) == totals[i].current
    ensures PrevOf(totals, totals[i].categoryId) == totals[i].prev
  {
    var k := KeyIndex(Keys(totals), totals[i].categoryId);
    assert k <= i;
  }

  /**
   * The totals hold one entry per category id seen in either month, and
   * each entry's figures are that category's spending in the current and
   * in the previous month, with the category record it resolves to.
   */
  lemma CategoryTotalsSpec(current: seq<Expense>, prev: seq<Expense>, categories: seq<Category>)
    ensures var r := CategoryTotals(current, prev, categories);
      && UniqueIds(r)
      && CatsResolved(r, categories)
      && (forall key :: key in Keys(r) <==> key in CategoryIdsOf(current) || key in CategoryIdsOf(prev))
      && (forall i :: 0 <= i < |r| ==>
            r[i].current == CategorySpend(current, r[i].categoryId) && r[i].prev == CategorySpend(prev, r[i].categoryId))
  {
    AccumulateKeys([], current, categories, true);
    AccumulateValues([], current, categories, true);
    var mid := Accumulate([], current, categories, true);
    AccumulateKeys(mid, prev, categories, false);
    AccumulateValues(mid, prev, categories, false);
    var r := CategoryTotals(current, prev, categories);
    forall i | 0 <= i < |r|
      ensures r[i].current == CategorySpend(current, r[i].categoryId) && r[i].prev == CategorySpend(prev, r[i].categoryId)
    {
      EntryLookup(r, i);
    }
  }

  /** A loop's step: one more expense is one more `Bump`. */
  lemma AccumulateStep(totals: seq<CatTotal>, expenses: seq<Expense>, i: nat, categories: seq<Category>, inCurrent: bool)
    requires i < |expenses|
    ensures Accumulate(totals, expenses[..i + 1], categories, inCurrent) ==
              Bump(Accumulate(totals, expenses[..i], categories, inCurrent), expenses[i], categories, inCurrent)
  {
    assert expenses[..i + 1][..i] == expenses[..i];
  }

  /** One `for … of` loop filling `catTotals`, one `Bump` per expense. */
  method AccumulateLoop(start: seq<CatTotal>, expenses: seq<Expense>, categories: seq<Category>, inCurrent: bool)
    returns (totals: seq<CatTotal>)
    ensures totals == Accumulate(start, expenses, categories, inCurrent)
  {
    totals := start;
    for i := 0 to |expenses|
      invariant totals == Accumulate(start, expenses[..i], categories, inCurrent)
    {
      AccumulateStep(start, expenses, i, categories, inCurrent);
      totals := Bump(totals, expenses[i], categories, inCurrent);
    }
    assert expenses[..|expenses|] == expenses;
  }

  /** The two loops, the current month first. */
  method AccumulateTotals(current: seq<Expense>, prev: seq<Expense>, categories: seq<Category>)
    returns (totals: seq<CatTotal>)
    ensures totals == CategoryTotals(current, prev, categories)
  {
    totals := AccumulateLoop([], current, categories, true);
    totals := AccumulateLoop(totals, prev, categories, false);
  }

  /**
   * The entries' order: the current month's ids by first appearance, then
   * the previous month's ids not seen yet, by first appearance.
   */
  lemma CategoryTotalsOrder(current: seq<Expense>, prev: seq<Expense>, categories: seq<Category>)
    ensures Keys(CategoryTotals(current, prev, categories)) ==
              FirstSeen(FirstSeen([], CategoryIdsOf(current)), CategoryIdsOf(prev))
  {
    AccumulateOrder([], current, categories, true);
    AccumulateOrder(Accumulate([], current, categories, true), prev, categories, false);
  }
}
