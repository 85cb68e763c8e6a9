/**
 * The new-expense sheet: an amount typed on an on-screen keypad, then the
 * details (category, payer, split, description), then the request handed
 * to createExpense.
 */
module ExpenseModal {
  import opened Wrappers
  import opened Text
  import opened Domain
  import opened ExpenseActions

  // ------------------------------------------------------------ the keypad

  /** `handleNumpad` on the amount text. */
  function Numpad(amount: string, key: string): string {
    if key == "del" then (if amount == "" then "" else amount[..|amount| - 1])
    else if key == "." && '.' in amount then amount
    else if key == "000" then amount + "000"
    else amount + key
  }

  /** The twelve buttons the keypad shows. */
  const KeypadKeys: set<string> := {"1", "2", "3", "4", "5", "6", "7", "8", "9", "000", "0", "del"}

  /** `'del'` takes off exactly the last character, and leaves an empty amount empty. */
  lemma DeleteLast(amount: string)
    ensures amount == "" ==> Numpad(amount, "del") == ""
    ensures amount != "" ==> Numpad(amount, "del") + [amount[|amount| - 1]] == amount
  {
  }

  /** Deleting right after a one-character key that was accepted restores the amount. */
  lemma DeleteUndoesKey(amount: string, c: char)
    requires !(c == '.' && '.' in amount)
    ensures Numpad(Numpad(amount, [c]), "del") == amount
  {
    assert [c] != "del" && [c] != "000";
    assert (amount + [c])[..|amount|] == amount;
  }

  /** The keypad's keys keep the amount a string of digits. */
  lemma KeypadKeepsDigits(amount: string, key: string)
    requires AllDigits(amount) && key in KeypadKeys
    ensures AllDigits(Numpad(amount, key))
  {
  }

  /** `'.'` is refused once the amount has a point, so no key that brings no other point makes a second one. */
  lemma AtMostOneDot(amount: string, key: string)
    requires multiset(amount)['.'] <= 1
    requires key == "." || '.' !in key
    ensures multiset(Numpad(amount, key))['.'] <= 1
  {
    if key == "del" && amount != "" {
      assert amount == amount[..|amount| - 1] + [amount[|amount| - 1]];
    } else if key == "." && '.' !in amount {
      assert multiset(amount)['.'] == 0;
      assert multiset(amount + key) == multiset(amount) + multiset(key);
    } else if key != "del" && key != "." {
      assert multiset(key)['.'] == 0;
      if key == "000" {
        assert '.' !in "000";
        assert multiset(amount + "000") == multiset(amount) + multiset("000");
      } else {
        assert multiset(amount + key) == multiset(amount) + multiset(key);
      }
    }
  }

  /** `parseFloat(amount) || 0` for the amount text. */
  function AmountValue(amount: string): real {
    NumberOrZero(amount)
  }

  /** A digits-only amount is worth the number its digits denote, and nothing when empty. */
  lemma AmountValueOfDigits(amount: string)
    requires AllDigits(amount)
    ensures AmountValue(amount) == DigitsValue(amount) as real
  {
    ParseDigits(amount);
  }

  /** A digit key shifts the amount one place left and adds the digit; `'000'` multiplies it by a thousand. */
  lemma DigitKeyValue(amount: string, key: string)
    requires AllDigits(amount) && key in KeypadKeys && key != "del"
    ensures key == "000" ==> AmountValue(Numpad(amount, key)) == 1000.0 * AmountValue(amount)
    ensures key != "000" ==> AmountValue(Numpad(amount, key)) == 10.0 * AmountValue(amount) + DigitValue(key[0]) as real
  {
    var r := Numpad(amount, key);
    AmountValueOfDigits(amount);
    AmountValueOfDigits(r);
    if key == "000" {
      assert r[..|r| - 1] == amount + "00";
      assert (amount + "00")[..|amount| + 1] == amount + "0";
      assert (amount + "0")[..|amount|] == amount;
      assert DigitsValue(amount + "0") == DigitsValue(amount) * 10;
      assert DigitsValue(amount + "00") == DigitsValue(amount) * 100;
      assert DigitsValue(r) == DigitsValue(amount) * 1000;
    } else {
      assert r[..|r| - 1] == amount;
    }
  }

  // ------------------------------------------------------------- the sheet

  datatype Step = AmountStep | DetailsStep

  /** The slider's two labels: the user's percentage and the partner's. */
  function SliderLabels(p: int): (r: (int, int))
    ensures r.0 == p && r.0 + r.1 == 100
    ensures 0 <= p <= 100 ==> 0 <= r.1 <= 100
  {
    (p, 100 - p)
  }

  class ExpenseForm {
    var step: Step
    var amount: string
    var categoryId: string
    var paidBy: string
    var splitType: SplitType
    var splitPercentage: int
    var description: string
    var hasReceipt: bool
    var saving: bool
    var saved: bool

    /** The keypad only writes digits and the slider only reaches 0 to 100. */
    predicate Valid()
      reads this
    {
      AllDigits(amount) && 0 <= splitPercentage <= 100
    }

    /** The sheet opens on the amount, empty, paid by the signed-in user, split in halves. */
    constructor(user: Option<Profile>)
      ensures Valid()
      ensures step == AmountStep && amount == "" && categoryId == "" && description == ""
      ensures paidBy == (if user.Some? then user.value.id else "")
      ensures splitType == Half && splitPercentage == 50 && !hasReceipt && !saving && !saved
    {
      step := AmountStep;
      amount := "";
      categoryId := "";
      paidBy := if user.Some? then user.value.id else "";
      splitType := Half;
      splitPercentage := 50;
      description := "";
      hasReceipt := false;
      saving := false;
      saved := false;
    }

    /** `numericAmount`. */
    function NumericAmount(): real
      reads this
    {
      AmountValue(amount)
    }

    /** `handleNumpad`: the amount is edited by one key and nothing else changes. */
    method PressKey(key: string)
      modifies this
      ensures amount == Numpad(old(amount), key)
      ensures old(Valid()) && key in KeypadKeys ==> Valid()
      ensures step == old(step) && categoryId == old(categoryId) && paidBy == old(paidBy)
      ensures splitType == old(splitType) && splitPercentage == old(splitPercentage)
      ensures description == old(description) && hasReceipt == old(hasReceipt)
      ensures saving == old(saving) && saved == old(saved)
    {
      if key == "del" {
        amount := if amount == "" then "" else amount[..|amount| - 1];
      } else if key == "." && '.' in amount {
        return;
      } else if key == "000" {
        amount := amount + "000";
      } else {
        amount := amount + key;
      }
      if old(Valid()) && key in KeypadKeys {
        KeypadKeepsDigits(old(amount), key);
      }
    }

    /** `handleNext`: on to the details only with a positive amount. */
    method Next()
      modifies this
      ensures step == (if old(NumericAmount()) > 0.0 then DetailsStep else old(step))
      ensures amount == old(amount) && categoryId == old(categoryId) && paidBy == old(paidBy)
      ensures splitType == old(splitType) && splitPercentage == old(splitPercentage)
      ensures description == old(description) && hasReceipt == old(hasReceipt)
      ensures saving == old(saving) && saved == old(saved)
    {
      if NumericAmount() <= 0.0 {
        return;
      }
      step := DetailsStep;
    }

    /** The back arrow of the details step. */
    method Back()
      modifies `step
      ensures step == AmountStep
    {
      step := AmountStep;
    }

    method SelectCategory(id: string)
      modifies `categoryId
      ensures categoryId == id
    {
      categoryId := id;
    }

    method SelectPayer(id: string)
      modifies `paidBy
      ensures paidBy == id
    {
      paidBy := id;
    }

    method SelectSplit(t: SplitType)
      modifies `splitType
      ensures splitType == t
    {
      splitType := t;
    }

    /** The range input, from 0 to 100. */
    method SlidePercentage(p: int)
      requires 0 <= p <= 100
      modifies `splitPercentage
      ensures splitPercentage == p
    {
      splitPercentage := p;
    }

    method TypeDescription(d: string)
      modifies `description
      ensures description == d
    {
      description := d;
    }

    /** `handleReceiptSelect`: a file is attached (its preview is display only). */
    method AttachReceipt()
      modifies `hasReceipt
      ensures hasReceipt
    {
      hasReceipt := true;
    }

    /** The preview's remove button: the file and its preview are dropped. */
    method RemoveReceipt()
      modifies `hasReceipt
      ensures !hasReceipt
    {
      hasReceipt := false;
    }

    /** The guard of `handleSave`. */
    predicate SaveRefused()
      reads this
    {
      NumericAmount() <= 0.0 || categoryId == "" || saving
    }

    /**
     * The object handed to createExpense: no description when it is empty,
     * the slider's percentage for a custom split and 50 otherwise, today's
     * date, and the address `uploadReceipt` returned when a file is
     * attached and the upload gave one.
     */
    function Request(today: string, receiptUrl: Option<string>): NewExpense
      reads this
    {
      NewExpense(
        NumericAmount(),
        if description != "" then Some(description) else None,
        categoryId, paidBy, splitType,
        Some(if splitType == Custom then splitPercentage as real else 50.0),
        today,
        if hasReceipt && Truthy(receiptUrl) then receiptUrl else None)
    }

    /**
     * `handleSave`. A refused save changes nothing and sends nothing.
     * Otherwise the request goes out; `receiptUrl` is what `uploadReceipt`
     * returned for an attached file (`null` when the upload failed, since
     * it catches its own errors), and is not read without one. When
     * createExpense completes the sheet is marked saved (and stays busy
     * until it closes), and when it throws the sheet is usable again.
     */
    method Save(today: string, receiptUrl: Option<string>, threw: bool) returns (request: Option<NewExpense>)
      modifies this
      ensures old(SaveRefused()) ==> request.None? && saving == old(saving) && saved == old(saved)
      ensures !old(SaveRefused()) ==> request == Some(old(Request(today, receiptUrl)))
      ensures !old(SaveRefused()) ==> saving == !threw && saved == (old(saved) || !threw)
      ensures step == old(step) && amount == old(amount) && categoryId == old(categoryId) && paidBy == old(paidBy)
      ensures splitType == old(splitType) && splitPercentage == old(splitPercentage) && description == old(description)
      ensures hasReceipt == old(hasReceipt)
    {
      if NumericAmount() <= 0.0 || categoryId == "" || saving {
        return None;
      }
      saving := true;
      request := Some(Request(today, receiptUrl));
      if threw {
        saving := false;
      } else {
        saved := true;
      }
    }
  }

  /**
   * What a save sends, once built into an expense: a positive amount, the
   * chosen category, payer and split, the slider's percentage exactly for
   * a custom split and 50 for the others, and a description only when one
   * was typed.
   */
  lemma SavedExpenseSpec(f: ExpenseForm, today: string, receiptUrl: Option<string>, id: string, user: Profile)
    requires !f.SaveRefused() && Truthy(user.householdId)
    ensures var e := BuildExpense(f.Request(today, receiptUrl), id, user);
      && e.amount > 0.0 && e.categoryId == f.categoryId && e.paidBy == f.paidBy && e.date == today
      && ParseSplitType(e.splitType) == Some(f.splitType)
      && e.splitPercentage == (if f.splitType == Custom then f.splitPercentage as real else 50.0)
      && (e.description.Some? <==> f.description != "")
      && (e.description.Some? ==> e.description.value == f.description)
  {
    BuildExpenseSpec(f.Request(today, receiptUrl), id, user);
  }

  /**
   * A request carries a receipt exactly when a file is attached and its
   * upload returned a non-empty address, and then that address; a failed
   * upload (`null`) still sends the expense, without a receipt.
   */
  lemma RequestReceipt(f: ExpenseForm, today: string, receiptUrl: Option<string>)
    ensures f.Request(today, receiptUrl).receiptUrl.Some? <==> f.hasReceipt && Truthy(receiptUrl)
    ensures f.Request(today, receiptUrl).receiptUrl.Some? ==> f.Request(today, receiptUrl).receiptUrl == receiptUrl
    ensures receiptUrl.None? ==> f.Request(today, receiptUrl).receiptUrl.None?
  {
  }
}
