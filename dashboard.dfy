/**
 * The home screen: the balance between the two members, the month's
 * totals by payer, and the "settle up" dialog that records a settlement
 * between them.
 */
module Dashboard {
  import opened Wrappers
  import opened Seqs
  import opened Text
  import opened Numbers
  import opened Domain
  import opened Ledger
  import opened Store
  import opened ExpenseActions

  /** `user?.id || ''`: whose balance the screen shows. */
  function ViewerId(user: Option<Profile>): string {
    if user.Some? then user.value.id else ""
  }

  /** `calculateBalance(expenses, settlements, user?.id || '')`. */
  function ShownBalance(expenses: seq<Expense>, settlements: seq<Settlement>, user: Option<Profile>): real {
    OwedTotal(expenses, ViewerId(user)) + SettlementTotal(settlements, ViewerId(user))
  }

  /** `myTotal` / `partnerTotal`: what one member paid among the month's expenses. */
  function PayerTotal(monthExpenses: seq<Expense>, who: Option<Profile>): real {
    TotalAmount(PaidByFilter(monthExpenses, IdOf(who)))
  }

  /**
   * When every expense of the month was paid by one of the two members,
   * their two totals add up to the month's total.
   */
  lemma {:induction false} PayerTotalsSplitMonth(monthExpenses: seq<Expense>, user: Profile, partner: Profile)
    requires user.id != partner.id
    requires forall e :: e in monthExpenses ==> e.paidBy == user.id || e.paidBy == partner.id
    ensures PayerTotal(monthExpenses, Some(user)) + PayerTotal(monthExpenses, Some(partner)) == TotalAmount(monthExpenses)
    decreases |monthExpenses|
  {
    if monthExpenses != [] {
      var init := monthExpenses[..|monthExpenses| - 1];
      var x := monthExpenses[|monthExpenses| - 1];
      assert forall e :: e in init ==> e in monthExpenses;
      PayerTotalsSplitMonth(init, user, partner);
      var mine := PaidByFilter(init, Some(user.id));
      var theirs := PaidByFilter(init, Some(partner.id));
      SumOfAppend(mine, [x], AmountOf);
      SumOfAppend(theirs, [x], AmountOf);
    }
  }

  // ------------------------------------------------------------ settling up

  /** The parties and amount `handleSettle` passes to `createSettlement`. */
  datatype SettleRequest = SettleRequest(amount: real, paidBy: string, paidTo: string)

  /**
   * `handleSettle` up to the call: nothing when the typed amount is 0 or
   * not a number or nobody is signed in; otherwise the partner pays when
   * the balance is positive (the partner owes), the user pays when it is
   * not, and without a partner the user settles with themself.
   */
  function SettleParties(amountText: string, user: Option<Profile>, partner: Option<Profile>, balance: real)
    : (r: Option<SettleRequest>)
    ensures r.None? <==> ParseFloat(amountText) == None || ParseFloat(amountText) == Some(0.0) || user.None?
    ensures r.Some? ==> r.value.amount == ParseFloat(amountText).value
    ensures r.Some? && partner.Some? && balance > 0.0 ==>
              r.value.paidBy == partner.value.id && r.value.paidTo == user.value.id
    ensures r.Some? && partner.Some? && balance <= 0.0 ==>
              r.value.paidBy == user.value.id && r.value.paidTo == partner.value.id
    ensures r.Some? && partner.None? ==> r.value.paidBy == user.value.id && r.value.paidTo == user.value.id
  {
    var amount := ParseFloat(amountText);
    if amount.None? || amount.value == 0.0 || user.None? then None
    else if partner.Some? then
      if balance > 0.0 then Some(SettleRequest(amount.value, partner.value.id, user.value.id))
      else Some(SettleRequest(amount.value, user.value.id, partner.value.id))
    else Some(SettleRequest(amount.value, user.value.id, user.value.id))
  }

  /** The user is always one of the parties, and with a partner of another id the two parties differ. */
  lemma SettlePartiesInvolveUser(amountText: string, user: Option<Profile>, partner: Option<Profile>, balance: real)
    requires SettleParties(amountText, user, partner, balance).Some?
    ensures var r := SettleParties(amountText, user, partner, balance).value;
      && (r.paidBy == user.value.id || r.paidTo == user.value.id)
      && (partner.Some? && partner.value.id != user.value.id ==> r.paidBy != r.paidTo)
  {
  }

  /** The "Saldar cuentas" button is shown only while somebody owes something. */
  predicate ShowSettleButton(balance: real) {
    balance != 0.0
  }

  /**
   * The confirm button is disabled for an empty text, a number ≤ 0 or a
   * save in progress; a text that is not a number compares false with 0 in
   * JavaScript, so it does not disable the button.
   */
  predicate ConfirmDisabled(amountText: string, settling: bool) {
    amountText == "" || (ParseFloat(amountText).Some? && ParseFloat(amountText).value <= 0.0) || settling
  }

  /** "Saldar todo": `Math.abs(balance).toString()`. */
  function SettleAllText(balance: real): string {
    ShowNumber(Abs(balance))
  }

  /**
   * Through an enabled confirm button a signed-in user with a numeric
   * amount always gets a request, and its amount is positive.
   */
  lemma ConfirmedRequestPositive(amountText: string, user: Option<Profile>, partner: Option<Profile>, balance: real)
    requires !ConfirmDisabled(amountText, false) && ParseFloat(amountText).Some? && user.Some?
    ensures SettleParties(amountText, user, partner, balance).Some?
    ensures SettleParties(amountText, user, partner, balance).value.amount > 0.0
  {
  }

  /**
   * For a balance in whole units "Saldar todo" fills in a text that reads
   * back as its absolute value and enables the confirm button.
   */
  lemma SettleAllTextReadsBack(balance: int)
    requires balance != 0
    ensures ParseFloat(SettleAllText(balance as real)) == Some(Abs(balance as real))
    ensures !ConfirmDisabled(SettleAllText(balance as real), false)
  {
    var a: int := if balance < 0 then -balance else balance;
    assert Abs(balance as real) == a as real;
    ShowNumberParses(a);
    ShowWholeNumber(a);
  }

  /** The record `createSettlement` builds: a fresh id, today's date and the user's household. */
  function NewSettlement(req: SettleRequest, id: string, today: string, householdId: string): Settlement {
    Settlement(id, req.amount, req.paidBy, req.paidTo, today, householdId, None)
  }

  /**
   * As written: settling the whole balance under the shown balance's rule
   * doubles it instead of clearing it, whichever member owes.
   */
  lemma SettleAllDoublesBalance(
    expenses: seq<Expense>, settlements: seq<Settlement>, user: Profile, partner: Profile,
    amountText: string, id: string, today: string, householdId: string)
    requires user.id != partner.id
    requires ShownBalance(expenses, settlements, Some(user)) != 0.0
    requires ParseFloat(amountText) == Some(Abs(ShownBalance(expenses, settlements, Some(user))))
    ensures var b := ShownBalance(expenses, settlements, Some(user));
      var req := SettleParties(amountText, Some(user), Some(partner), b);
      && req.Some?
      && ShownBalance(expenses, [NewSettlement(req.value, id, today, householdId)] + settlements, Some(user)) == 2.0 * b
  {
    var b := ShownBalance(expenses, settlements, Some(user));
    var req := SettleParties(amountText, Some(user), Some(partner), b);
    PrependSettlement(NewSettlement(req.value, id, today, householdId), settlements, user.id);
  }

  /** The smallest case: one even split of 100 paid by the user, balance 50, and 100 after settling 50. */
  lemma SettleAllCounterexample()
    ensures var user := Profile("u", "Ana", None, None, Some("h"), None, "");
      var partner := Profile("p", "Luis", None, None, Some("h"), None, "");
      var e := Expense("e", 100.0, None, "c", "u", "50/50", 50.0, "2024-05-01", "u", "h", None, None);
      var req := SettleParties("50", Some(user), Some(partner), 50.0);
      && ShownBalance([e], [], Some(user)) == 50.0
      && req == Some(SettleRequest(50.0, "p", "u"))
      && ShownBalance([e], [NewSettlement(req.value, "s", "2024-05-02", "h")], Some(user)) == 100.0
  {
    var e := Expense("e", 100.0, None, "c", "u", "50/50", 50.0, "2024-05-01", "u", "h", None, None);
    assert OwedTotal([e], "u") == CalculateOwed(e, "u");
    assert LeadingDigits("50") == "50";
    assert DigitsValue("50") == 50;
    var s := Settlement("s", 50.0, "p", "u", "2024-05-02", "h", None);
    PrependSettlement(s, [], "u");
    assert [s] + [] == [s];
  }

  /**
   * With the intended settlement rule, settling the whole balance clears it
   * for the signed-in member, whichever of the two owes.
   */
  lemma SettleAllClearsCorrectedBalance(
    expenses: seq<Expense>, settlements: seq<Settlement>, user: Profile, partner: Profile,
    amountText: string, id: string, today: string, householdId: string)
    requires user.id != partner.id
    requires CorrectedBalance(expenses, settlements, user.id) != 0.0
    requires ParseFloat(amountText) == Some(Abs(CorrectedBalance(expenses, settlements, user.id)))
    ensures var b := CorrectedBalance(expenses, settlements, user.id);
      var req := SettleParties(amountText, Some(user), Some(partner), b);
      && req.Some?
      && CorrectedBalance(expenses, [NewSettlement(req.value, id, today, householdId)] + settlements, user.id) == 0.0
  {
    var b := CorrectedBalance(expenses, settlements, user.id);
    var req := SettleParties(amountText, Some(user), Some(partner), b);
    CorrectedSettlementMoves(expenses, settlements, NewSettlement(req.value, id, today, householdId), user.id);
  }

  /** The settle dialog's state: open or not, the typed amount, the last error, a save in progress. */
  class SettleDialog {
    var open: bool
    var amountText: string
    var error: string
    var settling: bool

    constructor()
      ensures !open && amountText == "" && error == "" && !settling
    {
      open := false;
      amountText := "";
      error := "";
      settling := false;
    }

    /** "Saldar cuentas". */
    method Open()
      modifies this
      ensures open && amountText == old(amountText) && error == old(error) && settling == old(settling)
    {
      open := true;
    }

    /** "Saldar todo" fills in the absolute balance. */
    method FillAll(balance: real)
      modifies this
      ensures amountText == SettleAllText(balance)
      ensures open == old(open) && error == old(error) && settling == old(settling)
    {
      amountText := SettleAllText(balance);
    }

    /** Typing in the amount field. */
    method Type(text: string)
      modifies this
      ensures amountText == text
      ensures open == old(open) && error == old(error) && settling == old(settling)
    {
      amountText := text;
    }

    /** "Cancelar" closes the dialog and forgets the amount and the error. */
    method Cancel()
      modifies this
      ensures !open && amountText == "" && error == "" && settling == old(settling)
    {
      open := false;
      amountText := "";
      error := "";
    }

    /** A tap on the overlay closes the dialog but keeps the amount and the error. */
    method Dismiss()
      modifies this
      ensures !open && amountText == old(amountText) && error == old(error) && settling == old(settling)
    {
      open := false;
    }

    /**
     * `handleSettle` with `createSettlement`: when the guard refuses nothing
     * changes. Otherwise, with a household, the settlement is prepended to
     * the store and, when the insert answers with an error, the list is
     * replaced by a successful refetch. A thrown error leaves the dialog
     * open with its message (or "Error al saldar"); otherwise the dialog
     * closes and the amount is cleared.
     */
    method Settle(store: AppStore, id: string, today: string, insert: RemoteOutcome,
                  fetched: Option<seq<Settlement>>, thrownMessage: string)
      modifies this, store
      ensures var req := SettleParties(old(amountText), old(store.user), old(store.partner),
                                       ShownBalance(old(store.expenses), old(store.settlements), old(store.user)));
        && (req.None? ==>
              open == old(open) && amountText == old(amountText) && error == old(error) && settling == old(settling)
              && store.Partialize() == old(store.Partialize()))
        && (req.Some? && !Truthy(old(store.user).value.householdId) ==>
              !open && amountText == "" && error == "" && !settling
              && store.Partialize() == old(store.Partialize()))
        && (req.Some? && Truthy(old(store.user).value.householdId) ==>
              var s := NewSettlement(req.value, id, today, old(store.user).value.householdId.value);
              && store.Partialize() == old(store.Partialize()).(settlements :=
                   if insert == Failed && fetched.Some? then fetched.value else [s] + old(store.settlements))
              && !settling
              && (insert == Threw ==>
                    open == old(open) && amountText == old(amountText)
                    && error == (if thrownMessage != "" then thrownMessage else "Error al saldar"))
              && (insert != Threw ==> !open && amountText == "" && error == ""))
    {
      var user := store.user;
      var balance := ShownBalance(store.expenses, store.settlements, user);
      var req := SettleParties(amountText, user, store.partner, balance);
      if req.None? {
        return;
      }
      error := "";
      settling := true;
      if Truthy(user.value.householdId) {
        var s := NewSettlement(req.value, id, today, user.value.householdId.value);
        store.AddSettlement(s);
        if insert == Failed && fetched.Some? {
          store.SetSettlements(fetched.value);
        }
      }
      if Truthy(user.value.householdId) && insert == Threw {
        error := if thrownMessage != "" then thrownMessage else "Error al saldar";
      } else {
        open := false;
        amountText := "";
      }
      settling := false;
    }
  }
}
