/**
 * The records of a two-member household: profiles, categories, expenses,
 * settlements and budgets, and the list views every screen derives from them.
 */
module Domain {
  import opened Wrappers
  import opened Seqs
  import opened Text

  /** The four ways an expense can be divided. */
  datatype SplitType = Half | SoloMine | SoloPartner | Custom

  /** The text stored in an expense's `split_type` column. */
  function SplitTypeName(t: SplitType): string {
    match t
    case Half => "50/50"
    case SoloMine => "solo_yo"
    case SoloPartner => "solo_pareja"
    case Custom => "custom"
  }

  /** Reads a stored `split_type`; texts outside the four names are unknown. */
  function ParseSplitType(s: string): (r: Option<SplitType>)
    ensures r.Some? ==> SplitTypeName(r.value) == s
    ensures r.None? ==> forall t: SplitType :: SplitTypeName(t) != s
  {
    if s == "50/50" then Some(Half)
    else if s == "solo_yo" then Some(SoloMine)
    else if s == "solo_pareja" then Some(SoloPartner)
    else if s == "custom" then Some(Custom)
    else None
  }

  datatype Profile = Profile(
    id: string,
    name: string,
    email: Option<string>,
    partnerId: Option<string>,
    householdId: Option<string>,
    inviteCode: Option<string>,
    createdAt: string)

  datatype Category = Category(
    id: string,
    name: string,
    icon: string,
    color: string,
    householdId: string,
    createdAt: string)

  /**
   * A shared expense. `splitType` keeps the stored text, which the ledger
   * reads with ParseSplitType; `createdAt` is set by the backend and is
   * absent on a record built on the client.
   */
  datatype Expense = Expense(
    id: string,
    amount: real,
    description: Option<string>,
    categoryId: string,
    paidBy: string,
    splitType: string,
    splitPercentage: real,
    date: string,
    createdBy: string,
    householdId: string,
    receiptUrl: Option<string>,
    createdAt: Option<string>)

  datatype Settlement = Settlement(
    id: string,
    amount: real,
    paidBy: string,
    paidTo: string,
    date: string,
    householdId: string,
    createdAt: Option<string>)

  /** A per-category ceiling for the month whose first day is `month`. */
  datatype Budget = Budget(
    id: string,
    categoryId: string,
    householdId: string,
    month: string,
    amount: real,
    createdAt: string)

  /** JavaScript truthiness of an optional string: present and not empty. */
  predicate Truthy(s: Option<string>) {
    s.Some? && s.value != ""
  }

  /** `categories.find((c) => c.id === id)`: the first category with the id. */
  function FindCategory(categories: seq<Category>, id: string): (r: Option<Category>)
    ensures r.Some? ==> r.value in categories && r.value.id == id
    ensures r.Some? ==> exists k :: 0 <= k < |categories| && categories[k] == r.value &&
                               (forall j :: 0 <= j < k ==> categories[j].id != id)
    ensures r.None? ==> forall c :: c in categories ==> c.id != id
  {
    if categories == [] then None
    else if categories[0].id == id then Some(categories[0])
    else FindCategory(categories[1..], id)
  }

  /** `categories.find((c) => c.name === name)`: the first category with the name. */
  function FindCategoryByName(categories: seq<Category>, name: string): (r: Option<Category>)
    ensures r.Some? ==> r.value in categories && r.value.name == name
    ensures r.Some? ==> exists k :: 0 <= k < |categories| && categories[k] == r.value &&
                               (forall j :: 0 <= j < k ==> categories[j].name != name)
    ensures r.None? ==> forall c :: c in categories ==> c.name != name
  {
    if categories == [] then None
    else if categories[0].name == name then Some(categories[0])
    else FindCategoryByName(categories[1..], name)
  }

  /** `start <= date && date <= end` on ISO date strings. */
  predicate DateInRange(date: string, start: string, end: string) {
    LexLe(start, date) && LexLe(date, end)
  }

  /** `expenses.filter((e) => e.date >= start && e.date <= end)`. */
  function InDateRange(expenses: seq<Expense>, start: string, end: string): seq<Expense> {
    Filter(expenses, (e: Expense) => DateInRange(e.date, start, end))
  }

  /** `user?.id`. */
  function IdOf(p: Option<Profile>): Option<string> {
    if p.Some? then Some(p.value.id) else None
  }

  /** `expenses.filter((e) => e.paid_by === id)`; with no id (`undefined`) nothing matches. */
  function PaidByFilter(expenses: seq<Expense>, id: Option<string>): seq<Expense> {
    Filter(expenses, (e: Expense) => id == Some(e.paidBy))
  }

  function AmountOf(e: Expense): real {
    e.amount
  }

  /** `expenses.reduce((sum, e) => sum + e.amount, 0)`. */
  function TotalAmount(expenses: seq<Expense>): real {
    SumOf(expenses, AmountOf)
  }

  predicate AllPositive(expenses: seq<Expense>) {
    forall i :: 0 <= i < |expenses| ==> expenses[i].amount > 0.0
  }

  /** With positive amounts, what a filter keeps costs between nothing and the whole list. */
  lemma {:induction false} FilteredTotalBounds(expenses: seq<Expense>, p: Expense -> bool)
    requires AllPositive(expenses)
    ensures 0.0 <= TotalAmount(Filter(expenses, p)) <= TotalAmount(expenses)
    decreases |expenses|
  {
    if expenses != [] {
      var init := expenses[..|expenses| - 1];
      var x := expenses[|expenses| - 1];
      FilteredTotalBounds(init, p);
      var f := Filter(init, p);
      assert (f + [x])[..|f|] == f;
      assert x.amount > 0.0;
    }
  }

  /** A month filter keeps exactly the expenses dated inside the bounds, in their order. */
  lemma InDateRangeSpec(expenses: seq<Expense>, start: string, end: string)
    ensures IsSubsequence(InDateRange(expenses, start, end), expenses)
    ensures forall e :: e in InDateRange(expenses, start, end) <==> e in expenses && DateInRange(e.date, start, end)
  {
    FilterIsSubsequence(expenses, (e: Expense) => DateInRange(e.date, start, end));
  }

  /** Two month filters whose bounds do not overlap share no expense. */
  lemma DisjointMonths(expenses: seq<Expense>, prevStart: string, prevEnd: string, start: string, end: string)
    requires LexLess(prevEnd, start)
    ensures forall e :: e in InDateRange(expenses, prevStart, prevEnd) ==> e !in InDateRange(expenses, start, end)
  {
    forall e | e in InDateRange(expenses, prevStart, prevEnd)
      ensures !DateInRange(e.date, start, end)
    {
      InDateRangeSpec(expenses, prevStart, prevEnd);
      if LexLe(e.date, prevEnd) {
        LexLessLe2(e.date, prevEnd, start);
      }
    }
  }

  /** `a <= b` and `b < c` give `a < c`. */
  lemma LexLessLe2(a: string, b: string, c: string)
    requires LexLe(a, b) && LexLess(b, c)
    ensures LexLess(a, c)
  {
    if a != b {
      LexLessTotal(a, b);
      LexLessTransitive(a, b, c);
    }
  }

  /** Positive amounts add up to a positive total. */
  lemma {:induction false} TotalOfPositive(expenses: seq<Expense>)
    requires AllPositive(expenses) && expenses != []
    ensures TotalAmount(expenses) > 0.0
    decreases |expenses|
  {
    var init := expenses[..|expenses| - 1];
    assert TotalAmount(expenses) == TotalAmount(init) + expenses[|expenses| - 1].amount;
    assert AllPositive(init);
    if init != [] {
      TotalOfPositive(init);
    }
  }

  /** Every amount in a list of positive amounts is at most their total. */
  lemma {:induction false} TotalBoundsEach(expenses: seq<Expense>, k: nat)
    requires AllPositive(expenses) && k < |expenses|
    ensures expenses[k].amount <= TotalAmount(expenses)
    decreases |expenses|
  {
    var init := expenses[..|expenses| - 1];
    assert TotalAmount(expenses) == TotalAmount(init) + expenses[|expenses| - 1].amount;
    assert AllPositive(init);
    if k < |init| {
      TotalBoundsEach(init, k);
    } else if init != [] {
      TotalOfPositive(init);
    }
  }
}
