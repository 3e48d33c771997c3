/**
 * Landing resolution (the bottom-crossing branch of animate in script.js):
 * the slot band is |multipliers| slots of 50 units, centred in the grid; a
 * ball that lands over slot i pays wager * multipliers[i], one that lands
 * outside the band pays nothing.
 */
module Landing {
  import opened Layout
  import opened Walls

  datatype Outcome = NoScore | Scored(slot: nat, multiplier: real, payout: real)

  /** What an outcome adds to the wallet. */
  function Payout(o: Outcome): real {
    if o.Scored? then o.payout else 0.0
  }

  /** Left edge of the slot band for a grid of the given width. */
  function StartSlotX(gridWidth: real, slotCount: nat): real {
    (gridWidth - (slotCount as real) * SlotWidth) / 2.0
  }

  /** floor((x - startSlotX) / 50), which may fall outside the band. */
  function SlotIndex(x: real, startSlotX: real): int {
    ((x - startSlotX) / SlotWidth).Floor
  }

  /** The outcome of a ball landing at x. */
  function Resolve(multipliers: seq<real>, gridWidth: real, x: real, wager: real): Outcome {
    var i := SlotIndex(x, StartSlotX(gridWidth, |multipliers|));
    if 0 <= i < |multipliers| then Scored(i, multipliers[i], wager * multipliers[i]) else NoScore
  }

  /** x lies over slot i: [startSlotX + 50 i, startSlotX + 50 (i + 1)). */
  predicate OverSlot(gridWidth: real, slotCount: nat, x: real, i: int) {
    var s := StartSlotX(gridWidth, slotCount);
    s + (i as real) * SlotWidth <= x < s + ((i + 1) as real) * SlotWidth
  }

  /** The slot band is centred on the grid's midpoint. */
  lemma SlotBandCentred(gridWidth: real, slotCount: nat)
    ensures StartSlotX(gridWidth, slotCount) + (slotCount as real) * SlotWidth / 2.0 == gridWidth / 2.0
    ensures StartSlotX(gridWidth, slotCount) + (slotCount as real) * SlotWidth == gridWidth - StartSlotX(gridWidth, slotCount)
  {
  }

  /** The floor-based index is the slot whose interval contains x. */
  lemma SlotIndexIsSlotOver(gridWidth: real, slotCount: nat, x: real, i: int)
    ensures SlotIndex(x, StartSlotX(gridWidth, slotCount)) == i <==> OverSlot(gridWidth, slotCount, x, i)
  {
  }

  /** A landing scores in slot i, with multiplier multipliers[i] and payout
      wager * multipliers[i], exactly when x lies over slot i of the band. */
  lemma ResolveScored(multipliers: seq<real>, gridWidth: real, x: real, wager: real, i: int)
    requires 0 <= i < |multipliers|
    ensures (Resolve(multipliers, gridWidth, x, wager) == Scored(i, multipliers[i], wager * multipliers[i]) <==>
             OverSlot(gridWidth, |multipliers|, x, i))
  {
  }

  /** A landing pays nothing exactly when x is left of the band or at or
      beyond its right end. */
  lemma ResolveNoScore(multipliers: seq<real>, gridWidth: real, x: real, wager: real)
    ensures var s := StartSlotX(gridWidth, |multipliers|);
      (Resolve(multipliers, gridWidth, x, wager) == NoScore <==>
       x < s || s + (|multipliers| as real) * SlotWidth <= x)
  {
  }

  /** The worked case of three slots [5, 2, 0.3] in a 150-wide grid: a ball
      at x = 75 lands in slot 1 and a wager of 10 pays 20. */
  lemma ThreeSlotExample()
    ensures Resolve([5.0, 2.0, 0.3], 150.0, 75.0, 10.0) == Scored(1, 2.0, 20.0)
    ensures Resolve([5.0, 2.0, 0.3], 150.0, -0.5, 10.0) == NoScore
    ensures Resolve([5.0, 2.0, 0.3], 150.0, 150.0, 10.0) == NoScore
  {
  }

  /** A ball held between the wall bounds LeftBound and RightBound
      of a board with at least 5 rows always lands over a slot. */
  lemma WallBandWithinSlots(multipliers: seq<real>, gridWidth: real, x: real, wager: real)
    requires |multipliers| >= 5
    requires LeftBound(LeftBorderX(gridWidth / 2.0, |multipliers|)) <= x
    requires x <= RightBound(RightBorderX(gridWidth / 2.0, |multipliers|))
    ensures Resolve(multipliers, gridWidth, x, wager).Scored?
  {
  }

  /** With 4 rows the wall band and the slot band coincide, but the slot band
      is open at its right end, so a ball resting against the right wall
      misses it; with 3 rows the slot band is narrower and a ball resting
      against the left wall misses it. */
  lemma SmallBoardsMissAtWalls(wager: real)
    ensures var w := 400.0;
      LeftBound(LeftBorderX(w / 2.0, 4)) == StartSlotX(w, 4) &&
      RightBound(RightBorderX(w / 2.0, 4)) == StartSlotX(w, 4) + 4.0 * SlotWidth &&
      Resolve([5.0, 3.0, 2.0, 5.0], w, RightBound(RightBorderX(w / 2.0, 4)), wager) == NoScore &&
      Resolve([5.0, 3.0, 5.0], w, LeftBound(LeftBorderX(w / 2.0, 3)), wager) == NoScore
  {
  }
}
