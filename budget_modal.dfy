/**
 * The budget sheet: one amount field per category, pre-filled from the
 * month's budgets, optionally overlaid with the previous month's, and
 * saved as one budget per category with a positive amount.
 */
module BudgetModal {
  import opened Wrappers
  import opened Seqs
  import opened Text
  import opened Domain
  import opened Records

  /** The field values, by category id, in the order the keys were first written. */
  type Amounts = seq<(string, string)>

  function CategoryIds(categories: seq<Category>): (r: seq<string>)
    ensures |r| == |categories| && forall i :: 0 <= i < |categories| ==> r[i] == categories[i].id
  {
    seq(|categories|, i requires 0 <= i < |categories| => categories[i].id)
  }

  /** `monthBudgets.find((b) => b.category_id === id)`: the first budget for the category. */
  function FindBudget(budgets: seq<Budget>, categoryId: string): (r: Option<Budget>)
    ensures r.Some? ==> r.value in budgets && r.value.categoryId == categoryId
    ensures r.Some? ==> exists k :: 0 <= k < |budgets| && budgets[k] == r.value &&
                               (forall j :: 0 <= j < k ==> budgets[j].categoryId != categoryId)
    ensures r.None? ==> forall b :: b in budgets ==> b.categoryId != categoryId
  {
    if budgets == [] then None
    else if budgets[0].categoryId == categoryId then Some(budgets[0])
    else FindBudget(budgets[1..], categoryId)
  }

  /** A category's starting field: its budget's amount as text, or empty. */
  function InitialValue(monthBudgets: seq<Budget>, categoryId: string): string {
    var existing := FindBudget(monthBudgets, categoryId);
    if existing.Some? then ShowNumber(existing.value.amount) else ""
  }

  /** `parseFloat(v) || 0` of one field. */
  function FieldValue(kv: (string, string)): real {
    NumberOrZero(kv.1)
  }

  /** `total`: the sum over all fields, in key order. */
  function Total(amounts: Amounts): real {
    SumOf(amounts, FieldValue)
  }

  /** `parseFloat(amounts[cat.id] || '0')`: `None` stands for `NaN`. */
  function SaveValue(amounts: Amounts, categoryId: string): Option<real> {
    var v := Get(amounts, categoryId);
    ParseFloat(if v.Some? && v.value != "" then v.value else "0")
  }

  /** Each category's id with what `handleSave` parses for it. */
  function SaveCandidates(categories: seq<Category>, amounts: Amounts): (r: seq<(string, Option<real>)>)
    ensures |r| == |categories|
    ensures forall i :: 0 <= i < |categories| ==> r[i] == (categories[i].id, SaveValue(amounts, categories[i].id))
  {
    seq(|categories|, i requires 0 <= i < |categories| => (categories[i].id, SaveValue(amounts, categories[i].id)))
  }

  /** The candidates whose value parsed to a positive number, in order. */
  function PositiveOnly(candidates: seq<(string, Option<real>)>): seq<(string, real)>
    decreases |candidates|
  {
    if candidates == [] then []
    else
      var rest := PositiveOnly(candidates[..|candidates| - 1]);
      var (id, v) := candidates[|candidates| - 1];
      if v.Some? && v.value > 0.0 then rest + [(id, v.value)] else rest
  }

  /** The `setBudget` calls of `handleSave`, as (category id, amount), in category order. */
  function SaveRequests(categories: seq<Category>, amounts: Amounts): seq<(string, real)> {
    PositiveOnly(SaveCandidates(categories, amounts))
  }

  /** What `handleCopyPrevious` writes: each previous budget's amount, as text, under its category. */
  function PrevWrites(prev: seq<Budget>): (r: Amounts)
    ensures |r| == |prev|
    ensures forall i :: 0 <= i < |prev| ==> r[i] == (prev[i].categoryId, ShowNumber(prev[i].amount))
  {
    seq(|prev|, i requires 0 <= i < |prev| => (prev[i].categoryId, ShowNumber(prev[i].amount)))
  }

  /** Writing entries one after the other, the later ones over the earlier. */
  function Overlay(amounts: Amounts, writes: Amounts): Amounts
    decreases |writes|
  {
    if writes == [] then amounts
    else
      var w := writes[|writes| - 1];
      Put(Overlay(amounts, writes[..|writes| - 1]), w.0, w.1)
  }

  // --------------------------------------------------------------- lemmas

  /** A positive candidate is kept with its value, and nothing else is. */
  lemma {:induction false} PositiveOnlySpec(candidates: seq<(string, Option<real>)>, id: string, v: real)
    ensures (id, v) in PositiveOnly(candidates) <==> (id, Some(v)) in candidates && v > 0.0
    decreases |candidates|
  {
    if candidates != [] {
      var init := candidates[..|candidates| - 1];
      var last := candidates[|candidates| - 1];
      PositiveOnlySpec(init, id, v);
      assert candidates == init + [last];
      var rest := PositiveOnly(init);
      assert PositiveOnly(candidates) == rest + (if last.1.Some? && last.1.value > 0.0 then [(last.0, last.1.value)] else []);
      assert (id, Some(v)) in candidates <==> (id, Some(v)) in init || (id, Some(v)) == last;
    }
  }

  /** What is kept keeps the candidates' order. */
  lemma {:induction false} PositiveOnlyOrdered(candidates: seq<(string, Option<real>)>)
    ensures IsSubsequence(KeysOf(PositiveOnly(candidates)), KeysOf(candidates))
    decreases |candidates|
  {
    if candidates != [] {
      var init := candidates[..|candidates| - 1];
      var r := PositiveOnly(candidates);
      var ri := PositiveOnly(init);
      PositiveOnlyOrdered(init);
      var ks := KeysOf(candidates);
      assert ks[..|ks| - 1] == KeysOf(init);
      var (id, v) := candidates[|candidates| - 1];
      if v.Some? && v.value > 0.0 {
        assert KeysOf(r)[..|r| - 1] == KeysOf(ri);
      } else {
        SubsequenceExtend(KeysOf(r), ks);
      }
    }
  }

  /**
   * A save sends exactly one amount per category whose field parses to a
   * positive number, and that number; nothing for any other id; and the
   * calls follow the category order.
   */
  lemma SaveRequestsSpec(categories: seq<Category>, amounts: Amounts, id: string, v: real)
    ensures (id, v) in SaveRequests(categories, amounts) <==>
      id in CategoryIds(categories) && SaveValue(amounts, id) == Some(v) && v > 0.0
    ensures IsSubsequence(KeysOf(SaveRequests(categories, amounts)), CategoryIds(categories))
  {
    var cands := SaveCandidates(categories, amounts);
    PositiveOnlySpec(cands, id, v);
    PositiveOnlyOrdered(cands);
    assert KeysOf(cands) == CategoryIds(categories);
    if (id, Some(v)) in cands {
      var j :| 0 <= j < |cands| && cands[j] == (id, Some(v));
      assert CategoryIds(categories)[j] == id;
    }
    if id in CategoryIds(categories) && SaveValue(amounts, id) == Some(v) {
      var j :| 0 <= j < |categories| && CategoryIds(categories)[j] == id;
      assert cands[j] == (id, Some(v));
    }
  }

  /** The calls made for the first `i` candidates are the first calls made for all of them. */
  lemma {:induction false} PositiveOnlyPrefix(candidates: seq<(string, Option<real>)>, i: nat)
    requires i <= |candidates|
    ensures |PositiveOnly(candidates[..i])| <= |PositiveOnly(candidates)|
    ensures PositiveOnly(candidates[..i]) == PositiveOnly(candidates)[..|PositiveOnly(candidates[..i])|]
    decreases |candidates|
  {
    if i == |candidates| {
      assert candidates[..i] == candidates;
    } else {
      var init := candidates[..|candidates| - 1];
      assert init[..i] == candidates[..i];
      PositiveOnlyPrefix(init, i);
    }
  }

  /** Sanitising a field keeps only digits, and sanitising what is shown changes nothing. */
  lemma SanitiseSpec(amounts: Amounts, categoryId: string, text: string)
    requires UniqueKeys(amounts)
    ensures AllDigits(KeepDigits(text))
    ensures Get(Put(amounts, categoryId, KeepDigits(text)), categoryId) == Some(KeepDigits(text))
    ensures Put(Put(amounts, categoryId, KeepDigits(text)), categoryId, KeepDigits(KeepDigits(text))) ==
              Put(amounts, categoryId, KeepDigits(text))
  {
    PutSpec(amounts, categoryId, KeepDigits(text));
    KeepDigitsIdempotent(text);
    var m := Put(amounts, categoryId, KeepDigits(text));
    var k := KeyIndex(KeysOf(m), categoryId);
    assert k < |m|;
    assert m[k := (categoryId, KeepDigits(text))] == m;
  }

  /** Writing one field changes the total by the difference between the new and the old value. */
  lemma TotalAfterPut(amounts: Amounts, categoryId: string, v: string)
    requires UniqueKeys(amounts)
    ensures Total(Put(amounts, categoryId, v)) ==
      Total(amounts) - NumberOrZero(Get(amounts, categoryId).GetOr("")) + NumberOrZero(v)
  {
    var k := KeyIndex(KeysOf(amounts), categoryId);
    if k < |amounts| {
      SumOfUpdate(amounts, k, (categoryId, v), FieldValue);
    } else {
      SumOfAppend(amounts, [(categoryId, v)], FieldValue);
      assert NumberOrZero("") == 0.0;
    }
  }

  /** An overlay keeps the keys unique and leaves every key it does not write as it was. */
  lemma {:induction false} OverlayKeeps(amounts: Amounts, writes: Amounts, key: string)
    requires UniqueKeys(amounts)
    ensures UniqueKeys(Overlay(amounts, writes))
    ensures key !in KeysOf(writes) ==> Get(Overlay(amounts, writes), key) == Get(amounts, key)
    decreases |writes|
  {
    if writes != [] {
      var init := writes[..|writes| - 1];
      var w := writes[|writes| - 1];
      OverlayKeeps(amounts, init, key);
      PutSpec(Overlay(amounts, init), w.0, w.1);
      if key !in KeysOf(writes) {
        assert forall k :: k in KeysOf(init) ==> k in KeysOf(writes) by {
          forall k | k in KeysOf(init) ensures k in KeysOf(writes) {
            var j :| 0 <= j < |init| && KeysOf(init)[j] == k;
            assert KeysOf(writes)[j] == k;
          }
        }
        assert KeysOf(writes)[|writes| - 1] == w.0;
      }
    }
  }

  /** After an overlay a written key holds its last write. */
  lemma {:induction false} OverlayWrites(amounts: Amounts, writes: Amounts, i: nat)
    requires UniqueKeys(amounts) && i < |writes|
    requires forall j :: i < j < |writes| ==> writes[j].0 != writes[i].0
    ensures Get(Overlay(amounts, writes), writes[i].0) == Some(writes[i].1)
    decreases |writes|
  {
    var init := writes[..|writes| - 1];
    var w := writes[|writes| - 1];
    OverlayKeeps(amounts, init, w.0);
    PutSpec(Overlay(amounts, init), w.0, w.1);
    if i < |writes| - 1 {
      OverlayWrites(amounts, init, i);
    }
  }

  /**
   * Copying the previous month overwrites only the categories it has
   * budgets for, each with the amount of its last budget in the list, and
   * keeps one field per key.
   */
  lemma CopyPreviousSpec(amounts: Amounts, prev: seq<Budget>, key: string, i: nat)
    requires UniqueKeys(amounts)
    ensures UniqueKeys(Overlay(amounts, PrevWrites(prev)))
    ensures (forall j :: 0 <= j < |prev| ==> prev[j].categoryId != key) ==>
      Get(Overlay(amounts, PrevWrites(prev)), key) == Get(amounts, key)
    ensures i < |prev| && (forall j :: i < j < |prev| ==> prev[j].categoryId != prev[i].categoryId) ==>
      Get(Overlay(amounts, PrevWrites(prev)), prev[i].categoryId) == Some(ShowNumber(prev[i].amount))
  {
    var writes := PrevWrites(prev);
    if forall j :: 0 <= j < |prev| ==> prev[j].categoryId != key {
      assert key !in KeysOf(writes);
    }
    OverlayKeeps(amounts, writes, key);
    if i < |prev| && (forall j :: i < j < |prev| ==> prev[j].categoryId != prev[i].categoryId) {
      OverlayWrites(amounts, writes, i);
    }
  }

  /** The writes of the filling effect: each category's id with its starting field. */
  function InitialWrites(categories: seq<Category>, monthBudgets: seq<Budget>): (r: Amounts)
    ensures |r| == |categories|
    ensures forall i :: 0 <= i < |categories| ==> r[i] == (categories[i].id, InitialValue(monthBudgets, categories[i].id))
  {
    seq(|categories|, i requires 0 <= i < |categories| => (categories[i].id, InitialValue(monthBudgets, categories[i].id)))
  }

  /** The keys after an overlay are the old keys and the written ones. */
  lemma {:induction false} OverlayKeys(amounts: Amounts, writes: Amounts, key: string)
    ensures key in KeysOf(Overlay(amounts, writes)) <==> key in KeysOf(amounts) || key in KeysOf(writes)
    decreases |writes|
  {
    if writes != [] {
      var init := writes[..|writes| - 1];
      OverlayKeys(amounts, init, key);
      assert writes == init + [writes[|writes| - 1]];
      assert KeysOf(writes) == KeysOf(init) + [writes[|writes| - 1].0];
    }
  }

  /** A key that every write gives the same value ends up with that value. */
  lemma {:induction false} OverlayAgreeing(amounts: Amounts, writes: Amounts, i: nat)
    requires UniqueKeys(amounts) && i < |writes|
    requires forall j :: 0 <= j < |writes| && writes[j].0 == writes[i].0 ==> writes[j].1 == writes[i].1
    ensures Get(Overlay(amounts, writes), writes[i].0) == Some(writes[i].1)
    decreases |writes|
  {
    var init := writes[..|writes| - 1];
    var w := writes[|writes| - 1];
    OverlayKeeps(amounts, init, w.0);
    PutSpec(Overlay(amounts, init), w.0, w.1);
    if w.0 != writes[i].0 {
      OverlayAgreeing(amounts, init, i);
    }
  }

  /** The filled fields: exactly one per category id, each holding the category's starting value. */
  lemma InitialFieldsSpec(categories: seq<Category>, monthBudgets: seq<Budget>)
    ensures UniqueKeys(Overlay([], InitialWrites(categories, monthBudgets)))
    ensures forall k :: k in KeysOf(Overlay([], InitialWrites(categories, monthBudgets))) <==> k in CategoryIds(categories)
    ensures forall i :: 0 <= i < |categories| ==>
      Get(Overlay([], InitialWrites(categories, monthBudgets)), categories[i].id) == Some(InitialValue(monthBudgets, categories[i].id))
  {
    var writes := InitialWrites(categories, monthBudgets);
    OverlayKeeps([], writes, "");
    forall k ensures k in KeysOf(Overlay([], writes)) <==> k in CategoryIds(categories) {
      OverlayKeys([], writes, k);
      assert KeysOf(writes) == CategoryIds(categories);
    }
    forall i | 0 <= i < |categories|
      ensures Get(Overlay([], writes), categories[i].id) == Some(InitialValue(monthBudgets, categories[i].id))
    {
      OverlayAgreeing([], writes, i);
    }
  }

  /** A total of zero-valued fields is zero, so a non-zero total has a non-zero field. */
  lemma {:induction false} NonZeroTotalField(amounts: Amounts) returns (k: nat)
    requires Total(amounts) != 0.0
    ensures k < |amounts| && FieldValue(amounts[k]) != 0.0
    decreases |amounts|
  {
    var init := amounts[..|amounts| - 1];
    if FieldValue(amounts[|amounts| - 1]) != 0.0 {
      k := |amounts| - 1;
    } else {
      k := NonZeroTotalField(init);
    }
  }

  /**
   * When the fields are the categories' own and hold digits only, an
   * enabled Save button (`total !== 0`) always sends at least one budget.
   */
  lemma EnabledSaveSends(categories: seq<Category>, amounts: Amounts)
    requires UniqueKeys(amounts)
    requires forall i :: 0 <= i < |amounts| ==> amounts[i].0 in CategoryIds(categories) && AllDigits(amounts[i].1)
    requires Total(amounts) != 0.0
    ensures SaveRequests(categories, amounts) != []
  {
    var k := NonZeroTotalField(amounts);
    var (id, text) := amounts[k];
    GetEntry(amounts, k);
    ParseDigits(text);
    assert text != "";
    assert SaveValue(amounts, id) == Some(DigitsValue(text) as real);
    SaveRequestsSpec(categories, amounts, id, DigitsValue(text) as real);
    assert (id, DigitsValue(text) as real) in SaveRequests(categories, amounts);
  }

  /**
   * The loop of `handleSave` over the candidates: one call per positive
   * value, until the call at position `throwsAt` throws.
   */
  method SendCalls(cands: seq<(string, Option<real>)>, throwsAt: Option<nat>) returns (calls: seq<(string, real)>, threw: bool)
    ensures var all := PositiveOnly(cands);
      threw == (throwsAt.Some? && throwsAt.value < |all|) &&
      calls == if threw then all[..throwsAt.value + 1] else all
  {
    calls := [];
    threw := false;
    for i := 0 to |cands|
      invariant calls == PositiveOnly(cands[..i])
      invariant throwsAt.None? || |calls| <= throwsAt.value
    {
      assert cands[..i + 1][..i] == cands[..i];
      var (id, val) := cands[i];
      if val.Some? && val.value > 0.0 {
        var throws := throwsAt.Some? && throwsAt.value == |calls|;
        calls := calls + [(id, val.value)];
        if throws {
          PositiveOnlyPrefix(cands, i + 1);
          threw := true;
          return;
        }
      }
    }
    assert cands[..|cands|] == cands;
  }

  // ---------------------------------------------------------------- sheet

  class BudgetSheet {
    var amounts: Amounts
    var saving: bool

    /** Each category has one field. */
    predicate Valid()
      reads this
    {
      UniqueKeys(amounts)
    }

    /** The sheet starts with no fields until it is filled in. */
    constructor()
      ensures Valid() && amounts == [] && !saving
    {
      amounts := [];
      saving := false;
    }

    /**
     * The effect that fills the fields: one per category, holding the
     * month's budget for it, or empty.
     */
    method Fill(categories: seq<Category>, monthBudgets: seq<Budget>)
      modifies this
      ensures amounts == Overlay([], InitialWrites(categories, monthBudgets)) && saving == old(saving)
      ensures Valid()
      ensures forall k :: k in KeysOf(amounts) <==> k in CategoryIds(categories)
      ensures forall i :: 0 <= i < |categories| ==>
        Get(amounts, categories[i].id) == Some(InitialValue(monthBudgets, categories[i].id))
    {
      var writes := InitialWrites(categories, monthBudgets);
      var initial: Amounts := [];
      for i := 0 to |categories|
        invariant initial == Overlay([], writes[..i])
        invariant saving == old(saving)
      {
        assert writes[..i + 1][..i] == writes[..i];
        var id := categories[i].id;
        initial := Put(initial, id, InitialValue(monthBudgets, id));
      }
      assert writes[..|categories|] == writes;
      amounts := initial;
      InitialFieldsSpec(categories, monthBudgets);
    }

    /** `total`. */
    function TotalShown(): real
      reads this
    {
      Total(amounts)
    }

    /** Typing in a field stores its digits only. */
    method Type(categoryId: string, text: string)
      modifies this
      ensures amounts == Put(old(amounts), categoryId, KeepDigits(text)) && saving == old(saving)
      ensures old(Valid()) ==> Valid()
    {
      if Valid() {
        PutSpec(amounts, categoryId, KeepDigits(text));
      }
      amounts := Put(amounts, categoryId, KeepDigits(text));
    }

    /** `handleCopyPrevious`: nothing without previous budgets, the overlay otherwise. */
    method CopyPrevious(prev: seq<Budget>)
      modifies this
      ensures amounts == Overlay(old(amounts), PrevWrites(prev)) && saving == old(saving)
      ensures old(Valid()) ==> Valid()
    {
      if |prev| == 0 {
        return;
      }
      var copied := amounts;
      for i := 0 to |prev|
        invariant copied == Overlay(old(amounts), PrevWrites(prev)[..i])
        invariant amounts == old(amounts) && saving == old(saving)
      {
        assert PrevWrites(prev)[..i + 1][..i] == PrevWrites(prev)[..i];
        copied := Put(copied, prev[i].categoryId, ShowNumber(prev[i].amount));
      }
      assert PrevWrites(prev)[..|prev|] == PrevWrites(prev);
      amounts := copied;
      if old(Valid()) {
        OverlayKeeps(old(amounts), PrevWrites(prev), "");
      }
    }

    /** The button's `disabled`. */
    predicate SaveDisabled()
      reads this
    {
      saving || TotalShown() == 0.0
    }

    /**
     * `handleSave`: the `setBudget` calls, one per category with a positive
     * amount, in category order. `throwsAt` is the position, among those
     * calls, of the first one that throws, if any: the loop ends with that
     * call and the sheet becomes usable again; otherwise every call is made
     * and the sheet closes.
     */
    method Save(categories: seq<Category>, throwsAt: Option<nat>) returns (calls: seq<(string, real)>)
      modifies this
      ensures amounts == old(amounts)
      ensures var all := SaveRequests(categories, old(amounts));
        if throwsAt.Some? && throwsAt.value < |all| then calls == all[..throwsAt.value + 1] && !saving
        else calls == all && saving
    {
      saving := true;
      var threw;
      calls, threw := SendCalls(SaveCandidates(categories, amounts), throwsAt);
      if threw {
        saving := false;
      }
    }
  }
}
