/**
 * The ledger helpers: what one expense means for a member's balance, the
 * balance over all expenses and settlements, and the class-name joiner.
 */
module Ledger {
  import opened Wrappers
  import opened Seqs
  import opened Text
  import opened Domain

  /**
   * The part of the amount a split designates as "mine": everything for
   * `solo_yo`, nothing for `solo_pareja`, half for `50/50`, and
   * `split_percentage` percent for `custom`. Every member reads "mine" as
   * themselves, so the payer keeps this part and the other member is
   * charged it.
   */
  function MineShare(t: SplitType, e: Expense): real {
    match t
    case Half => e.amount / 2.0
    case SoloMine => e.amount
    case SoloPartner => 0.0
    case Custom => e.amount * e.splitPercentage / 100.0
  }

  /**
   * `calculateOwed`: positive when the other member owes the viewer.
   * The payer is owed the amount less the designated share; anyone else
   * owes that share; an unknown split type counts for nothing.
   */
  function CalculateOwed(e: Expense, viewer: string): (r: real)
    ensures ParseSplitType(e.splitType).None? ==> r == 0.0
    ensures ParseSplitType(e.splitType).Some? && e.paidBy == viewer ==>
              r == e.amount - MineShare(ParseSplitType(e.splitType).value, e)
    ensures ParseSplitType(e.splitType).Some? && e.paidBy != viewer ==>
              r == -MineShare(ParseSplitType(e.splitType).value, e)
  {
    var isMine := e.paidBy == viewer;
    match ParseSplitType(e.splitType)
    case Some(Half) => if isMine then e.amount / 2.0 else -(e.amount / 2.0)
    case Some(SoloMine) => if isMine then 0.0 else -e.amount
    case Some(SoloPartner) => if isMine then e.amount else 0.0
    case Some(Custom) =>
      var myShare := e.amount * e.splitPercentage / 100.0;
      var partnerShare := e.amount - myShare;
      if isMine then partnerShare else -myShare
    case None => 0.0
  }

  /** The four rows of the split table, for the payer and for the other member. */
  lemma SplitTable(e: Expense, other: string)
    requires other != e.paidBy
    ensures e.splitType == "50/50" ==>
              CalculateOwed(e, e.paidBy) == e.amount / 2.0 && CalculateOwed(e, other) == -(e.amount / 2.0)
    ensures e.splitType == "solo_yo" ==>
              CalculateOwed(e, e.paidBy) == 0.0 && CalculateOwed(e, other) == -e.amount
    ensures e.splitType == "solo_pareja" ==>
              CalculateOwed(e, e.paidBy) == e.amount && CalculateOwed(e, other) == 0.0
    ensures e.splitType == "custom" ==>
              CalculateOwed(e, e.paidBy) == e.amount - e.amount * e.splitPercentage / 100.0 &&
              CalculateOwed(e, other) == -(e.amount * e.splitPercentage / 100.0)
    ensures ParseSplitType(e.splitType).None? ==>
              CalculateOwed(e, e.paidBy) == 0.0 && CalculateOwed(e, other) == 0.0
  {
  }

  /** With a percentage between 0 and 100, the payer of a custom split is owed between nothing and the amount. */
  lemma CustomPayerBounds(e: Expense)
    requires e.splitType == "custom" && 0.0 <= e.splitPercentage <= 100.0 && e.amount >= 0.0
    ensures 0.0 <= CalculateOwed(e, e.paidBy) <= e.amount
  {
    PercentWithin(e.amount, e.splitPercentage);
  }

  /** `p` percent of a non-negative amount, for `p` between 0 and 100, lies between 0 and the amount. */
  lemma PercentWithin(a: real, p: real)
    requires 0.0 <= p <= 100.0 && a >= 0.0
    ensures 0.0 <= a * p / 100.0 <= a
  {
    assert 0.0 <= a * p <= a * 100.0;
  }

  /** The payer's view and the other member's view cancel exactly when the designated share is half the amount. */
  lemma ViewsCancelIff(e: Expense, other: string)
    requires other != e.paidBy
    ensures CalculateOwed(e, e.paidBy) + CalculateOwed(e, other) == 0.0 <==>
              (ParseSplitType(e.splitType).None? || MineShare(ParseSplitType(e.splitType).value, e) == e.amount / 2.0)
  {
  }

  /**
   * For a positive amount the two views cancel only for `50/50`, for
   * `custom` at 50 percent, and for an unknown split type (both zero).
   */
  lemma ViewsCancelOnlyForEvenSplits(e: Expense, other: string)
    requires other != e.paidBy && e.amount > 0.0
    ensures CalculateOwed(e, e.paidBy) + CalculateOwed(e, other) == 0.0 <==>
              (e.splitType == "50/50" || (e.splitType == "custom" && e.splitPercentage == 50.0) ||
               ParseSplitType(e.splitType).None?)
  {
    if e.splitType == "custom" {
      CustomViewsCancel(e, other);
    } else {
      ViewsCancelIff(e, other);
    }
  }

  lemma CustomViewsCancel(e: Expense, other: string)
    requires other != e.paidBy && e.amount > 0.0 && e.splitType == "custom"
    ensures CalculateOwed(e, e.paidBy) + CalculateOwed(e, other) == 0.0 <==> e.splitPercentage == 50.0
  {
    var share := e.amount * e.splitPercentage / 100.0;
    assert CalculateOwed(e, e.paidBy) + CalculateOwed(e, other) == e.amount - share - share;
    HalfPercentage(e.amount, e.splitPercentage);
  }

  /** For a positive amount, taking `p` percent of it away twice leaves nothing exactly when `p` is 50. */
  lemma HalfPercentage(a: real, p: real)
    requires a > 0.0
    ensures a - a * p / 100.0 - a * p / 100.0 == 0.0 <==> p == 50.0
  {
    assert a * p / 100.0 - a / 2.0 == a * (p - 50.0) / 100.0;
    if p != 50.0 {
      assert a * (p - 50.0) != 0.0;
    }
  }

  /** The expense part of calculateBalance. */
  function OwedTotal(expenses: seq<Expense>, viewer: string): real {
    SumOf(expenses, (e: Expense) => CalculateOwed(e, viewer))
  }

  /** How calculateBalance adjusts by one settlement: the viewer's own payment subtracts, any other adds. */
  function SettlementEffect(s: Settlement, viewer: string): real {
    if s.paidBy == viewer then -s.amount else s.amount
  }

  function SettlementTotal(settlements: seq<Settlement>, viewer: string): real {
    SumOf(settlements, (s: Settlement) => SettlementEffect(s, viewer))
  }

  /** `calculateBalance`: the owed amounts of all expenses, then every settlement's adjustment. */
  method CalculateBalance(expenses: seq<Expense>, settlements: seq<Settlement>, viewer: string)
    returns (balance: real)
    ensures balance == OwedTotal(expenses, viewer) + SettlementTotal(settlements, viewer)
  {
    balance := 0.0;
    for i := 0 to |expenses|
      invariant balance == OwedTotal(expenses[..i], viewer)
    {
      assert expenses[..i + 1][..i] == expenses[..i];
      balance := balance + CalculateOwed(expenses[i], viewer);
    }
    assert expenses[..|expenses|] == expenses;
    ghost var owed := balance;
    for j := 0 to |settlements|
      invariant balance == owed + SettlementTotal(settlements[..j], viewer)
    {
      assert settlements[..j + 1][..j] == settlements[..j];
      if settlements[j].paidBy == viewer {
        balance := balance - settlements[j].amount;
      } else {
        balance := balance + settlements[j].amount;
      }
    }
    assert settlements[..|settlements|] == settlements;
  }

  /** The balance depends on which expenses and settlements there are, not on their order. */
  lemma BalanceOrderIndependent(
    es1: seq<Expense>, es2: seq<Expense>, ss1: seq<Settlement>, ss2: seq<Settlement>, viewer: string)
    requires multiset(es1) == multiset(es2) && multiset(ss1) == multiset(ss2)
    ensures OwedTotal(es1, viewer) + SettlementTotal(ss1, viewer) ==
            OwedTotal(es2, viewer) + SettlementTotal(ss2, viewer)
  {
    SumOfPermutation(es1, es2, (e: Expense) => CalculateOwed(e, viewer));
    SumOfPermutation(ss1, ss2, (s: Settlement) => SettlementEffect(s, viewer));
  }

  /**
   * Prepending a settlement (as addSettlement does) lowers the viewer's
   * balance by its amount when the viewer paid it, a self-settlement
   * included, and raises it by its amount otherwise, whoever received it.
   */
  lemma PrependSettlement(s: Settlement, settlements: seq<Settlement>, viewer: string)
    ensures s.paidBy == viewer ==>
              SettlementTotal([s] + settlements, viewer) == SettlementTotal(settlements, viewer) - s.amount
    ensures s.paidBy != viewer ==>
              SettlementTotal([s] + settlements, viewer) == SettlementTotal(settlements, viewer) + s.amount
  {
    SumOfCons(s, settlements, (x: Settlement) => SettlementEffect(x, viewer));
  }

  /** Prepending an expense (as addExpense does) adds its owed amount to the viewer's balance. */
  lemma PrependExpense(e: Expense, expenses: seq<Expense>, viewer: string)
    ensures OwedTotal([e] + expenses, viewer) == CalculateOwed(e, viewer) + OwedTotal(expenses, viewer)
  {
    SumOfCons(e, expenses, (x: Expense) => CalculateOwed(x, viewer));
  }

  // ------------------------------------------------ the intended settlement rule

  /**
   * The settlement rule the Dashboard's "settle" flow needs: paying raises
   * the payer's balance, receiving lowers the receiver's, and a settlement
   * that does not involve the viewer (or pays oneself) changes nothing.
   */
  function CorrectedSettlementEffect(s: Settlement, viewer: string): real {
    (if s.paidBy == viewer then s.amount else 0.0) - (if s.paidTo == viewer then s.amount else 0.0)
  }

  function CorrectedBalance(expenses: seq<Expense>, settlements: seq<Settlement>, viewer: string): real {
    OwedTotal(expenses, viewer) + SumOf(settlements, (s: Settlement) => CorrectedSettlementEffect(s, viewer))
  }

  /**
   * Under the intended rule a settlement moves the payer's balance up and
   * the receiver's down by its amount, leaves third parties alone, and a
   * self-settlement is a no-op.
   */
  lemma CorrectedSettlementMoves(expenses: seq<Expense>, settlements: seq<Settlement>, s: Settlement, viewer: string)
    ensures s.paidBy == viewer && s.paidTo != viewer ==>
              CorrectedBalance(expenses, [s] + settlements, viewer) == CorrectedBalance(expenses, settlements, viewer) + s.amount
    ensures s.paidTo == viewer && s.paidBy != viewer ==>
              CorrectedBalance(expenses, [s] + settlements, viewer) == CorrectedBalance(expenses, settlements, viewer) - s.amount
    ensures (s.paidBy == s.paidTo || (s.paidBy != viewer && s.paidTo != viewer)) ==>
              CorrectedBalance(expenses, [s] + settlements, viewer) == CorrectedBalance(expenses, settlements, viewer)
  {
    SumOfCons(s, settlements, (x: Settlement) => CorrectedSettlementEffect(x, viewer));
  }

  // ---------------------------------------------------------------------- cn

  /** An argument of `cn`: a class name, a boolean from a `cond && 'x'` guard, or nothing. */
  datatype ClassValue = Str(s: string) | Bool(b: bool) | Undefined | Null

  predicate IsTruthy(v: ClassValue) {
    (v.Str? && v.s != "") || (v.Bool? && v.b)
  }

  /** How `join` prints an argument. */
  function ClassText(v: ClassValue): string {
    match v
    case Str(s) => s
    case Bool(b) => if b then "true" else "false"
    case Undefined => ""
    case Null => ""
  }

  function Texts(vs: seq<ClassValue>): (r: seq<string>)
    ensures |r| == |vs| && forall i :: 0 <= i < |vs| ==> r[i] == ClassText(vs[i])
  {
    seq(|vs|, i requires 0 <= i < |vs| => ClassText(vs[i]))
  }

  /** `cn(...classes)`: `classes.filter(Boolean).join(' ')`. */
  function Cn(classes: seq<ClassValue>): string {
    Join(Texts(Filter(classes, IsTruthy)), " ")
  }

  /**
   * When no argument holds a space, splitting the result at spaces gives
   * back exactly the truthy arguments, in order; with none, the result is empty.
   */
  lemma CnWords(classes: seq<ClassValue>)
    requires forall i :: 0 <= i < |classes| ==> ' ' !in ClassText(classes[i])
    ensures Filter(classes, IsTruthy) == [] ==> Cn(classes) == ""
    ensures Filter(classes, IsTruthy) != [] ==> Split(Cn(classes), ' ') == Texts(Filter(classes, IsTruthy))
  {
    var kept := Filter(classes, IsTruthy);
    var ws := Texts(kept);
    forall i | 0 <= i < |ws| ensures ' ' !in ws[i] {
      assert kept[i] in classes;
    }
    if kept != [] {
      SplitJoin(ws, ' ');
    }
  }
}
