/**
 * The expense actions: optimistic create, edit and delete against the
 * store, with the backend's answer and the refetch passed in.
 */
module ExpenseActions {
  import opened Wrappers
  import opened Domain
  import opened Store
  import opened OfflineQueue

  /** What the form passes to createExpense. */
  datatype NewExpense = NewExpense(
    amount: real,
    description: Option<string>,
    categoryId: string,
    paidBy: string,
    splitType: SplitType,
    splitPercentage: Option<real>,
    date: string,
    receiptUrl: Option<string>)

  /**
   * How a backend call ended: it answered without error, it answered with
   * an error, or the call itself threw.
   */
  datatype RemoteOutcome = Succeeded | Failed | Threw

  /** `user?.household_id` is truthy. */
  predicate HasHousehold(user: Option<Profile>) {
    user.Some? && Truthy(user.value.householdId)
  }

  /** The record createExpense builds before sending it. */
  function BuildExpense(data: NewExpense, id: string, user: Profile): Expense
    requires Truthy(user.householdId)
  {
    Expense(
      id, data.amount,
      if Truthy(data.description) then data.description else None,
      data.categoryId, data.paidBy, SplitTypeName(data.splitType),
      data.splitPercentage.GetOr(50.0), data.date, user.id, user.householdId.value,
      if Truthy(data.receiptUrl) then data.receiptUrl else None,
      None)
  }

  /**
   * The built record carries the new id, the creator and household of the
   * signed-in user, the chosen split (read back as the same split type),
   * 50 percent when no percentage was given, and no empty description or
   * receipt.
   */
  lemma BuildExpenseSpec(data: NewExpense, id: string, user: Profile)
    requires Truthy(user.householdId)
    ensures var e := BuildExpense(data, id, user);
      && e.id == id && e.createdBy == user.id && Some(e.householdId) == user.householdId
      && e.amount == data.amount && e.paidBy == data.paidBy && e.date == data.date
      && ParseSplitType(e.splitType) == Some(data.splitType)
      && (data.splitPercentage.None? ==> e.splitPercentage == 50.0)
      && (data.splitPercentage.Some? ==> e.splitPercentage == data.splitPercentage.value)
      && (e.description.Some? ==> e.description.value != "")
      && (e.receiptUrl.Some? ==> e.receiptUrl.value != "")
      && e.createdAt.None?
  {
  }

  /** The expense list after the insert: kept on success or on a throw, taken out again on an error answer. */
  function AfterInsert(expenses: seq<Expense>, e: Expense, insert: RemoteOutcome): seq<Expense> {
    if insert == Failed then RemoveById([e] + expenses, e.id) else [e] + expenses
  }

  /** loadExpenses: with a household and a successful fetch the list is replaced; otherwise it stays. */
  function AfterReload(expenses: seq<Expense>, user: Option<Profile>, fetched: Option<seq<Expense>>): seq<Expense> {
    if HasHousehold(user) && fetched.Some? then fetched.value else expenses
  }

  /** A failed insert under a fresh id leaves the list as it was before the optimistic add. */
  lemma FailedInsertRollsBack(expenses: seq<Expense>, e: Expense)
    requires e.id !in Ids(expenses)
    ensures AfterInsert(expenses, e, Failed) == expenses
    ensures AfterInsert(expenses, e, Succeeded) == [e] + expenses
  {
    RemoveAfterPrepend(e, expenses);
  }

  /**
   * `createExpense`. Without a household nothing happens. Otherwise the
   * built record is shown first; an error answer removes it and queues it
   * for a later insert; then the list is refetched.
   */
  method CreateExpense(
    store: AppStore, queue: QueueStore, data: NewExpense, freshId: string,
    insert: RemoteOutcome, queueId: string, now: int, fetched: Option<seq<Expense>>)
    requires insert == Failed && HasHousehold(store.user) ==>
      RoundTrips(queue.codec, Enqueued(queue.Queue(),
        QueuedAction(queueId, "expenses", Insert, BuildExpense(data, freshId, store.user.value), now)))
    modifies store, queue
    ensures !HasHousehold(old(store.user)) ==>
              store.Partialize() == old(store.Partialize()) && queue.storage == old(queue.storage)
    ensures HasHousehold(old(store.user)) ==>
              var e := BuildExpense(data, freshId, old(store.user).value);
              && store.Partialize() ==
                   old(store.Partialize()).(expenses := AfterReload(AfterInsert(old(store.expenses), e, insert), old(store.user), fetched))
              && queue.Queue() ==
                   (if insert == Failed then Enqueued(old(queue.Queue()), QueuedAction(queueId, "expenses", Insert, e, now))
                    else old(queue.Queue()))
  {
    if !HasHousehold(store.user) {
      return;
    }
    var user := store.user.value;
    var e := BuildExpense(data, freshId, user);
    store.AddExpense(e);
    if insert == Failed {
      store.RemoveExpense(e.id);
      queue.AddToQueue("expenses", Insert, e, queueId, now);
    }
    if fetched.Some? {
      store.SetExpenses(fetched.value);
    }
  }

  /** `editExpense`: the patch is applied at once; if the backend does not confirm it, the list is refetched. */
  method EditExpense(store: AppStore, id: string, patch: ExpensePatch, update: RemoteOutcome, fetched: Option<seq<Expense>>)
    modifies store
    ensures store.Partialize() == old(store.Partialize()).(expenses :=
              var patched := UpdateById(old(store.expenses), id, patch);
              if update == Succeeded then patched else AfterReload(patched, old(store.user), fetched))
  {
    store.UpdateExpense(id, patch);
    if update != Succeeded && HasHousehold(store.user) && fetched.Some? {
      store.SetExpenses(fetched.value);
    }
  }

  /** `deleteExpense`: the expense leaves the list at once; if the backend does not confirm it, the list is refetched. */
  method DeleteExpense(store: AppStore, id: string, delete: RemoteOutcome, fetched: Option<seq<Expense>>)
    modifies store
    ensures store.Partialize() == old(store.Partialize()).(expenses :=
              var kept := RemoveById(old(store.expenses), id);
              if delete == Succeeded then kept else AfterReload(kept, old(store.user), fetched))
  {
    store.RemoveExpense(id);
    if delete != Succeeded && HasHousehold(store.user) && fetched.Some? {
      store.SetExpenses(fetched.value);
    }
  }
}
