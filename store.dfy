/**
 * The application store: the signed-in profile, the partner, and the
 * household's categories, expenses and settlements, with the display
 * settings; all of them persisted under one storage key.
 */
module Store {
  import opened Wrappers
  import opened Seqs
  import opened Domain

  /**
   * A `Partial<Expense>`: `None` leaves a field alone. The nullable fields
   * take an `Option<Option<…>>`, so a patch can also clear them.
   */
  datatype ExpensePatch = ExpensePatch(
    id: Option<string>,
    amount: Option<real>,
    description: Option<Option<string>>,
    categoryId: Option<string>,
    paidBy: Option<string>,
    splitType: Option<string>,
    splitPercentage: Option<real>,
    date: Option<string>,
    createdBy: Option<string>,
    householdId: Option<string>,
    receiptUrl: Option<Option<string>>,
    createdAt: Option<Option<string>>)

  const NoChange := ExpensePatch(None, None, None, None, None, None, None, None, None, None, None, None)

  /** `{ ...e, ...data }`. */
  function ApplyPatch(e: Expense, p: ExpensePatch): Expense {
    Expense(
      p.id.GetOr(e.id), p.amount.GetOr(e.amount), p.description.GetOr(e.description),
      p.categoryId.GetOr(e.categoryId), p.paidBy.GetOr(e.paidBy), p.splitType.GetOr(e.splitType),
      p.splitPercentage.GetOr(e.splitPercentage), p.date.GetOr(e.date), p.createdBy.GetOr(e.createdBy),
      p.householdId.GetOr(e.householdId), p.receiptUrl.GetOr(e.receiptUrl), p.createdAt.GetOr(e.createdAt))
  }

  function Ids(expenses: seq<Expense>): (r: seq<string>)
    ensures |r| == |expenses| && forall i :: 0 <= i < |expenses| ==> r[i] == expenses[i].id
  {
    seq(|expenses|, i requires 0 <= i < |expenses| => expenses[i].id)
  }

  /** `expenses.map((e) => e.id === id ? { ...e, ...data } : e)`. */
  function UpdateById(expenses: seq<Expense>, id: string, p: ExpensePatch): (r: seq<Expense>)
    ensures |r| == |expenses|
    ensures forall i :: 0 <= i < |expenses| ==>
              r[i] == (if expenses[i].id == id then ApplyPatch(expenses[i], p) else expenses[i])
  {
    if expenses == [] then []
    else [if expenses[0].id == id then ApplyPatch(expenses[0], p) else expenses[0]] + UpdateById(expenses[1..], id, p)
  }

  /** Updating an id that no expense carries changes nothing; neither does an empty patch. */
  lemma UpdateAbsentOrEmpty(expenses: seq<Expense>, id: string, p: ExpensePatch)
    ensures id !in Ids(expenses) ==> UpdateById(expenses, id, p) == expenses
    ensures UpdateById(expenses, id, NoChange) == expenses
  {
    var r := UpdateById(expenses, id, p);
    if id !in Ids(expenses) {
      assert forall i :: 0 <= i < |expenses| ==> r[i] == expenses[i] by {
        forall i | 0 <= i < |expenses| ensures r[i] == expenses[i] {
          assert Ids(expenses)[i] == expenses[i].id;
        }
      }
    }
  }

  /** A patch that leaves the id alone keeps the list's ids, in order. */
  lemma UpdateKeepsIds(expenses: seq<Expense>, id: string, p: ExpensePatch)
    requires p.id.None?
    ensures Ids(UpdateById(expenses, id, p)) == Ids(expenses)
  {
  }

  /** Applying the same patch twice is the same as applying it once. */
  lemma UpdateIdempotent(expenses: seq<Expense>, id: string, p: ExpensePatch)
    requires p.id.None? || p.id == Some(id)
    ensures UpdateById(UpdateById(expenses, id, p), id, p) == UpdateById(expenses, id, p)
  {
  }

  /** `expenses.filter((e) => e.id !== id)`. */
  function RemoveById(expenses: seq<Expense>, id: string): (r: seq<Expense>)
    ensures forall i :: 0 <= i < |r| ==> r[i].id != id && r[i] in expenses
    ensures forall i :: 0 <= i < |expenses| && expenses[i].id != id ==> expenses[i] in r
  {
    Filter(expenses, (e: Expense) => e.id != id)
  }

  /** The survivors keep their order, and removing an id nobody has changes nothing. */
  lemma RemoveByIdSpec(expenses: seq<Expense>, id: string)
    ensures IsSubsequence(RemoveById(expenses, id), expenses)
    ensures id !in Ids(expenses) ==> RemoveById(expenses, id) == expenses
  {
    FilterIsSubsequence(expenses, (e: Expense) => e.id != id);
    if id !in Ids(expenses) {
      forall i | 0 <= i < |expenses| ensures expenses[i].id != id {
        assert Ids(expenses)[i] == expenses[i].id;
      }
      FilterAllPass(expenses, (e: Expense) => e.id != id);
    }
  }

  /** Removing a just-prepended expense whose id was fresh gives back the old list: the optimistic rollback. */
  lemma RemoveAfterPrepend(e: Expense, expenses: seq<Expense>)
    requires e.id !in Ids(expenses)
    ensures RemoveById([e] + expenses, e.id) == expenses
  {
    FilterCons(e, expenses, (x: Expense) => x.id != e.id);
    RemoveByIdSpec(expenses, e.id);
  }

  /** What `partialize` writes to storage: every data field of the store. */
  datatype PersistedState = PersistedState(
    currency: string,
    darkMode: bool,
    user: Option<Profile>,
    partner: Option<Profile>,
    categories: seq<Category>,
    expenses: seq<Expense>,
    settlements: seq<Settlement>)

  const StorageKey := "gastos-pareja-storage"

  const DefaultState := PersistedState("COP", false, None, None, [], [], [])

  class AppStore {
    var user: Option<Profile>
    var partner: Option<Profile>
    var categories: seq<Category>
    var expenses: seq<Expense>
    var settlements: seq<Settlement>
    var currency: string
    var darkMode: bool

    /** `partialize`. */
    function Partialize(): PersistedState
      reads this
    {
      PersistedState(currency, darkMode, user, partner, categories, expenses, settlements)
    }

    /** The initial state: nobody signed in, no data, pesos, light mode. */
    constructor()
      ensures Partialize() == DefaultState
    {
      user := None;
      partner := None;
      categories := [];
      expenses := [];
      settlements := [];
      currency := "COP";
      darkMode := false;
    }

    /** Loading a persisted snapshot restores every persisted field. */
    method Rehydrate(saved: PersistedState)
      modifies this
      ensures Partialize() == saved
    {
      user := saved.user;
      partner := saved.partner;
      categories := saved.categories;
      expenses := saved.expenses;
      settlements := saved.settlements;
      currency := saved.currency;
      darkMode := saved.darkMode;
    }

    method SetUser(u: Option<Profile>)
      modifies this
      ensures Partialize() == old(Partialize()).(user := u)
    {
      user := u;
    }

    method SetPartner(p: Option<Profile>)
      modifies this
      ensures Partialize() == old(Partialize()).(partner := p)
    {
      partner := p;
    }

    method SetCategories(cs: seq<Category>)
      modifies this
      ensures Partialize() == old(Partialize()).(categories := cs)
    {
      categories := cs;
    }

    method SetExpenses(es: seq<Expense>)
      modifies this
      ensures Partialize() == old(Partialize()).(expenses := es)
    {
      expenses := es;
    }

    /** The new expense goes first. */
    method AddExpense(e: Expense)
      modifies this
      ensures Partialize() == old(Partialize()).(expenses := [e] + old(expenses))
    {
      expenses := [e] + expenses;
    }

    method UpdateExpense(id: string, p: ExpensePatch)
      modifies this
      ensures Partialize() == old(Partialize()).(expenses := UpdateById(old(expenses), id, p))
    {
      expenses := UpdateById(expenses, id, p);
    }

    method RemoveExpense(id: string)
      modifies this
      ensures Partialize() == old(Partialize()).(expenses := RemoveById(old(expenses), id))
    {
      expenses := RemoveById(expenses, id);
    }

    method SetSettlements(ss: seq<Settlement>)
      modifies this
      ensures Partialize() == old(Partialize()).(settlements := ss)
    {
      settlements := ss;
    }

    /** The new settlement goes first. */
    method AddSettlement(s: Settlement)
      modifies this
      ensures Partialize() == old(Partialize()).(settlements := [s] + old(settlements))
    {
      settlements := [s] + settlements;
    }

    method SetCurrency(c: string)
      modifies this
      ensures Partialize() == old(Partialize()).(currency := c)
    {
      currency := c;
    }

    method ToggleDarkMode()
      modifies this
      ensures Partialize() == old(Partialize()).(darkMode := !old(darkMode))
    {
      darkMode := !darkMode;
    }
  }
}
