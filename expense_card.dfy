/**
 * One row of the expense list: swiped left it uncovers the delete button,
 * and its subtitle shows the split and who paid.
 */
module ExpenseCard {
  import opened Wrappers
  import opened Text
  import opened Numbers
  import opened Domain
  import opened Ledger

  // -------------------------------------------------------------- the swipe

  /** How far the card slides to uncover the delete button. */
  const OpenOffset: real := -120.0
  /** Released past this offset the card stays open. */
  const SnapOffset: real := -60.0

  /** `handleTouchEnd`'s snap: fully open past the threshold, closed otherwise. */
  function Snap(x: real): (r: real)
    ensures r == OpenOffset || r == 0.0
    ensures r == OpenOffset <==> x < SnapOffset
  {
    if x < SnapOffset then OpenOffset else 0.0
  }

  /** A snapped card is at rest: releasing it again does not move it. */
  lemma SnapSettles(x: real)
    ensures Snap(Snap(x)) == Snap(x)
  {
  }

  /** A drag released right away leaves the card open exactly when the finger went more than 60 left. */
  lemma DragThenRelease(startX: real, x: real)
    ensures Snap(Clamp(x - startX, OpenOffset, 0.0)) == (if x - startX < SnapOffset then OpenOffset else 0.0)
  {
  }

  /** The swipe state: the card's offset, where the touch began, and whether a touch is active. */
  class SwipeCard {
    var swipeX: real
    var startX: real
    var isSwiping: bool

    /** The card never slides right of its place, nor further left than the button. */
    predicate Valid()
      reads this
    {
      OpenOffset <= swipeX <= 0.0
    }

    constructor()
      ensures Valid() && swipeX == 0.0 && startX == 0.0 && !isSwiping
    {
      swipeX := 0.0;
      startX := 0.0;
      isSwiping := false;
    }

    /** `handleTouchStart`. */
    method TouchStart(x: real)
      modifies this
      ensures startX == x && isSwiping && swipeX == old(swipeX)
    {
      startX := x;
      isSwiping := true;
    }

    /** `handleTouchMove`: ignored without an active touch, otherwise the offset follows the finger within bounds. */
    method TouchMove(x: real)
      modifies this
      ensures old(isSwiping) ==> swipeX == Clamp(x - old(startX), OpenOffset, 0.0)
      ensures !old(isSwiping) ==> swipeX == old(swipeX)
      ensures startX == old(startX) && isSwiping == old(isSwiping)
      ensures old(Valid()) ==> Valid()
    {
      if !isSwiping {
        return;
      }
      var diff := x - startX;
      swipeX := Clamp(diff, OpenOffset, 0.0);
    }

    /** `handleTouchEnd`: the touch ends and the card snaps open or closed. */
    method TouchEnd()
      modifies this
      ensures !isSwiping && swipeX == Snap(old(swipeX)) && startX == old(startX)
      ensures Valid()
    {
      isSwiping := false;
      if swipeX < SnapOffset {
        swipeX := OpenOffset;
      } else {
        swipeX := 0.0;
      }
    }
  }

  // ------------------------------------------------------------ the labels

  /** `getSplitLabel`: fixed labels for the three fixed splits, the two percentages for a custom one. */
  function SplitLabel(e: Expense): string {
    if e.splitType == "50/50" then "50/50"
    else if e.splitType == "solo_yo" then "Solo mío"
    else if e.splitType == "solo_pareja" then "Solo pareja"
    else if e.splitType == "custom" then ShowNumber(e.splitPercentage) + "/" + ShowNumber(100.0 - e.splitPercentage)
    else e.splitType
  }

  /** An unrecognised split type is shown as stored; the recognised ones never show their stored name except `50/50`. */
  lemma SplitLabelOfType(e: Expense)
    ensures ParseSplitType(e.splitType).None? ==> SplitLabel(e) == e.splitType
    ensures e.splitType == "solo_yo" || e.splitType == "solo_pareja" ==> SplitLabel(e) != e.splitType
    ensures e.splitType == "50/50" ==> SplitLabel(e) == "50/50"
  {
  }

  /**
   * A custom split with a whole percentage reads back: the label splits at
   * its slash into the two shares, which parse to the percentage and to
   * the rest of a hundred.
   */
  lemma CustomLabelReadsBack(e: Expense, p: int)
    requires e.splitType == "custom" && e.splitPercentage == p as real
    ensures var parts := Split(SplitLabel(e), '/');
      && |parts| == 2
      && ParseFloat(parts[0]) == Some(p as real)
      && ParseFloat(parts[1]) == Some(100.0 - p as real)
  {
    CustomLabelText(e, p);
    SharesReadBack(p);
  }

  lemma CustomLabelText(e: Expense, p: int)
    requires e.splitType == "custom" && e.splitPercentage == p as real
    ensures SplitLabel(e) == ShowNumber(p as real) + "/" + ShowNumber((100 - p) as real)
  {
    assert 100.0 - e.splitPercentage == (100 - p) as real;
  }

  /** Two whole shares printed around a slash split and parse back to the shares. */
  lemma SharesReadBack(p: int)
    ensures var parts := Split(ShowNumber(p as real) + "/" + ShowNumber((100 - p) as real), '/');
      && |parts| == 2
      && ParseFloat(parts[0]) == Some(p as real)
      && ParseFloat(parts[1]) == Some(100.0 - p as real)
  {
    var mine := ShowNumber(p as real);
    var theirs := ShowNumber((100 - p) as real);
    NoSlash(p as real);
    NoSlash((100 - p) as real);
    SplitPair(mine, theirs);
    ShowNumberParses(p);
    ShowNumberParses(100 - p);
  }

  /** A printed number holds no slash. */
  lemma NoSlash(x: real)
    ensures '/' !in ShowNumber(x)
  {
    ShowNumberChars(x);
    assert !NumberChar('/');
  }

  /** Two texts without a slash, joined by one, split back into the two. */
  lemma SplitPair(a: string, b: string)
    requires '/' !in a && '/' !in b
    ensures Split(a + "/" + b, '/') == [a, b]
  {
    SplitFirst(a, b, '/');
    assert Split(b, '/') == [b];
  }

  /** `expense.description || category?.name || 'Gasto'`. */
  function CardTitle(e: Expense, category: Option<Category>): (r: string)
    ensures r != ""
    ensures Truthy(e.description) ==> r == e.description.value
  {
    if Truthy(e.description) then e.description.value
    else if category.Some? && category.value.name != "" then category.value.name
    else "Gasto"
  }

  /** `expense.paid_by === user?.id`: the badge of the user's own expenses. */
  function PayerBadge(e: Expense, user: Option<Profile>): string {
    if IdOf(user) == Some(e.paidBy) then "Yo pagué" else "Pagó pareja"
  }

  /**
   * The badge tells the sign of the expense on the user's balance: an
   * expense the user paid never lowers it, and one the other member paid
   * never raises it (amounts not negative, percentages from 0 to 100).
   */
  lemma PayerBadgeSign(e: Expense, user: Profile)
    requires e.amount >= 0.0 && 0.0 <= e.splitPercentage <= 100.0
    ensures PayerBadge(e, Some(user)) == "Yo pagué" <==> e.paidBy == user.id
    ensures PayerBadge(e, Some(user)) == "Yo pagué" ==> CalculateOwed(e, user.id) >= 0.0
    ensures PayerBadge(e, Some(user)) == "Pagó pareja" ==> CalculateOwed(e, user.id) <= 0.0
  {
    if e.splitType == "custom" {
      PercentWithin(e.amount, e.splitPercentage);
    }
  }
}
