/**
 * The geometry of swipe-to-reveal: which way the content moves, where the
 * actions sit, how a drag moves the content and where it settles when the
 * drag ends. Offsets are reals; float rounding and the animation itself are
 * not modelled.
 */
module SwipeToReveal {

  datatype SwipeDirection = Left | Right

  datatype LayoutDirection = Ltr | Rtl

  datatype Alignment = CenterStart | CenterEnd

  /** The sign of the offset that reveals the actions. */
  function DirectionMultiplier(swipe: SwipeDirection, layout: LayoutDirection): (m: int)
    ensures m == 1 || m == -1
    ensures m == -1 <==> (swipe == Left) == (layout == Ltr)
  {
    match swipe
    case Left => if layout == Ltr then -1 else 1
    case Right => if layout == Ltr then 1 else -1
  }

  function ActionsAlignment(swipe: SwipeDirection, layout: LayoutDirection): (a: Alignment)
    ensures a == CenterEnd <==> (swipe == Left) == (layout == Ltr)
  {
    match swipe
    case Left => if layout == Ltr then CenterEnd else CenterStart
    case Right => if layout == Ltr then CenterStart else CenterEnd
  }

  /** The actions sit at the end exactly when revealing moves the content backwards. */
  lemma AlignmentFollowsMultiplier(swipe: SwipeDirection, layout: LayoutDirection)
    ensures ActionsAlignment(swipe, layout) == CenterEnd <==> DirectionMultiplier(swipe, layout) == -1
  {
  }

  /** Mirroring a swipe mirrors the multiplier, in either layout. */
  lemma OppositeSwipesOppose(layout: LayoutDirection)
    ensures DirectionMultiplier(Left, layout) == -DirectionMultiplier(Right, layout)
    ensures DirectionMultiplier(Left, Ltr) == DirectionMultiplier(Right, Rtl)
  {
  }

  /** A drag measured in the reading direction. */
  function NormalizeDragAmount(dragAmount: real, layout: LayoutDirection): (x: real)
    ensures layout == Ltr ==> x == dragAmount
    ensures layout == Rtl ==> x == -dragAmount
  {
    dragAmount * (if layout == Ltr then 1.0 else -1.0)
  }

  lemma NormalizeIsInvolution(dragAmount: real, layout: LayoutDirection)
    ensures NormalizeDragAmount(NormalizeDragAmount(dragAmount, layout), layout) == dragAmount
  {
  }

  /** `coerceIn`, which rejects an empty range. */
  function CoerceIn(v: real, lo: real, hi: real): (r: real)
    requires lo <= hi
    ensures lo <= r <= hi
    ensures lo <= v <= hi ==> r == v
    ensures v < lo ==> r == lo
    ensures v > hi ==> r == hi
  {
    if v < lo then lo else if v > hi then hi else v
  }

  /** The coerceIn bounds of each branch of `calculateNewOffset`. */
  function OffsetBounds(swipe: SwipeDirection, layout: LayoutDirection, actionsSize: real, multiplier: int): (real, real) {
    match swipe
    case Left => if layout == Ltr then (actionsSize * multiplier as real, 0.0) else (0.0, actionsSize)
    case Right => if layout == Ltr then (0.0, actionsSize) else (actionsSize * multiplier as real, 0.0)
  }

  /** The offset after a drag: twice the drag added, kept within the branch's bounds. */
  function CalculateNewOffset(offset: real, dragAmountX: real, swipe: SwipeDirection, layout: LayoutDirection,
                              actionsSize: real, multiplier: int): (r: real)
    requires OffsetBounds(swipe, layout, actionsSize, multiplier).0 <= OffsetBounds(swipe, layout, actionsSize, multiplier).1
    ensures var b := OffsetBounds(swipe, layout, actionsSize, multiplier); b.0 <= r <= b.1
  {
    var b := OffsetBounds(swipe, layout, actionsSize, multiplier);
    CoerceIn(offset + dragAmountX * 2.0, b.0, b.1)
  }

  /** Between 0 and `revealed` inclusive, whichever way round they are. */
  predicate Between(x: real, revealed: real) {
    if revealed <= 0.0 then revealed <= x <= 0.0 else 0.0 <= x <= revealed
  }

  /**
   * With the item's own multiplier and a non-negative actions width, the
   * offset stays between rest (0) and fully revealed, is the unclamped value
   * whenever that is already in range, and a settled offset stays put when
   * the drag is zero.
   */
  lemma NewOffsetStaysInRange(offset: real, dragAmountX: real, swipe: SwipeDirection, layout: LayoutDirection, actionsSize: real)
    requires actionsSize >= 0.0
    ensures var m := DirectionMultiplier(swipe, layout);
      var b := OffsetBounds(swipe, layout, actionsSize, m);
      var full := actionsSize * m as real;
      && b.0 <= b.1
      && Between(CalculateNewOffset(offset, dragAmountX, swipe, layout, actionsSize, m), full)
      && (Between(offset + dragAmountX * 2.0, full) ==>
            CalculateNewOffset(offset, dragAmountX, swipe, layout, actionsSize, m) == offset + dragAmountX * 2.0)
      && (Between(offset, full) ==> CalculateNewOffset(offset, 0.0, swipe, layout, actionsSize, m) == offset)
  {
  }

  /** Where the content settles when a drag ends, and whether the item reports itself revealed. */
  datatype Settle = Settle(target: real, revealed: bool)

  function OnDragEnd(offset: real, actionsSize: real, multiplier: int): (s: Settle)
    ensures s.revealed <==> (if offset < 0.0 then -offset else offset) >= actionsSize / 2.0
    ensures s.target == (if s.revealed then actionsSize * multiplier as real else 0.0)
  {
    var revealed := (if offset < 0.0 then -offset else offset) >= actionsSize / 2.0;
    Settle(if revealed then actionsSize * multiplier as real else 0.0, revealed)
  }

  /** Where an externally set `revealed` moves the content. */
  function RevealTarget(revealed: bool, actionsSize: real, multiplier: int): (target: real)
    ensures revealed ==> target == actionsSize * multiplier as real
    ensures !revealed ==> target == 0.0
  {
    if revealed then actionsSize * multiplier as real else 0.0
  }

  /**
   * Settling after a drag and then applying the reported state from outside
   * targets the same offset, so the two paths agree.
   */
  lemma DragEndAgreesWithReveal(offset: real, actionsSize: real, multiplier: int)
    ensures var s := OnDragEnd(offset, actionsSize, multiplier);
      RevealTarget(s.revealed, actionsSize, multiplier) == s.target
  {
  }

  /** A drag that ends past half the actions' width reveals them; the settled target is in range. */
  lemma SettledTargetInRange(offset: real, swipe: SwipeDirection, layout: LayoutDirection, actionsSize: real)
    requires actionsSize >= 0.0
    ensures var m := DirectionMultiplier(swipe, layout);
      Between(OnDragEnd(offset, actionsSize, m).target, actionsSize * m as real)
  {
  }
}
