/**
 * The wall step of animate in script.js: after moving, a ball beyond a wall
 * is put back on it and its horizontal velocity turned inward and damped.
 */
module Walls {
  import opened Layout

  /** Fraction of speed kept by a bounce. */
  const Bounce: real := 0.7

  function Abs(r: real): real {
    if r < 0.0 then -r else r
  }

  /** Innermost x a ball centre may take, given the left border's offset. */
  function LeftBound(leftBorderOffset: real): real {
    leftBorderOffset + BorderRadius
  }

  /** Outermost x a ball centre may take, given the right border's offset. */
  function RightBound(rightBorderOffset: real): real {
    rightBorderOffset - BorderRadius
  }

  /** Clamp x into [leftBound, rightBound]: first against the left wall,
      then against the right one. */
  method ClampToWalls(x: real, dx: real, leftBound: real, rightBound: real) returns (newX: real, newDx: real)
    ensures leftBound <= rightBound ==> leftBound <= newX <= rightBound
    ensures leftBound <= x <= rightBound ==> newX == x && newDx == dx
    ensures x < leftBound <= rightBound ==> newX == leftBound && newDx == Bounce * Abs(dx) && newDx >= 0.0
    ensures leftBound <= x && rightBound < x ==> newX == rightBound && newDx == -Bounce * Abs(dx) && newDx <= 0.0
    ensures x < leftBound && rightBound < leftBound ==>
      newX == rightBound && newDx == -Bounce * Bounce * Abs(dx)
    ensures Abs(newDx) <= Abs(dx)
    ensures newX != x ==> Abs(newDx) < Abs(dx) || dx == 0.0
  {
    newX, newDx := x, dx;
    if newX < leftBound {
      newX := leftBound;
      newDx := Abs(newDx) * Bounce;
    }
    if newX > rightBound {
      newX := rightBound;
      newDx := -Abs(newDx) * Bounce;
    }
  }

  /** The walls of a board built for any row count are never inverted, and
      the band between them spans exactly the widest peg row. */
  lemma BuiltWallsOrdered(startX: real, rows: nat)
    ensures LeftBound(LeftBorderX(startX, rows)) <= RightBound(RightBorderX(startX, rows))
    ensures rows >= 1 ==> LeftBound(LeftBorderX(startX, rows)) == RowX(startX, rows - 1)
    ensures rows >= 1 ==> RightBound(RightBorderX(startX, rows)) == RowX(startX, rows - 1) + ((PegsInRow(rows - 1) - 1) as real) * PegSpacing
  {
  }
}
