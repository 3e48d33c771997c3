/**
 * The shared `game` object of script.js and the handlers that update it:
 * building the board, changing the row count, the bet input, adding money,
 * paying for a drop and crediting a landing.
 */
module Plinko {
  import opened Wrappers
  import opened Multipliers
  import opened Layout
  import opened Landing

  const BallRadius: real := 7.5
  const RandomFactor: real := 0.3

  /** A ball in flight: position and velocity. */
  datatype Ball = Ball(x: real, y: real, dx: real, dy: real)

  class Game {
    var money: real
    var pricePerBall: real
    var rows: nat
    var pegs: seq<Peg>
    var multipliers: seq<real>
    var leftBorderX: real
    var rightBorderX: real

    /** The board matches the row count for a grid of the given width. */
    ghost predicate Built(gridWidth: real)
      reads this
    {
      multipliers == Generate(rows) &&
      pegs == PegLayout(gridWidth / 2.0, rows) &&
      leftBorderX == LeftBorderX(gridWidth / 2.0, rows) &&
      rightBorderX == RightBorderX(gridWidth / 2.0, rows)
    }

    /** The initial game object, with the board built once at load time. */
    constructor (gridWidth: real)
      ensures money == 150.0 && pricePerBall == 10.0 && rows == 12
      ensures Built(gridWidth)
    {
      money, pricePerBall, rows := 150.0, 10.0, 12;
      pegs, multipliers := [], [];
      leftBorderX, rightBorderX := 0.0, 0.0;
      new;
      CreateGrid(gridWidth);
    }

    /** Rebuild the board: regenerate the multipliers, place the borders
        from the widest row and push the pegs row by row. */
    method CreateGrid(gridWidth: real)
      modifies this
      ensures Built(gridWidth)
      ensures money == old(money) && pricePerBall == old(pricePerBall) && rows == old(rows)
    {
      pegs := [];
      multipliers := Generate(rows);
      var startX := gridWidth / 2.0;
      var lastRowPegs := rows + 2;
      var pegGridWidth := PegSpacing * ((lastRowPegs - 1) as real);
      leftBorderX := startX - pegGridWidth / 2.0 - BorderRadius;
      rightBorderX := startX + pegGridWidth / 2.0 + BorderRadius;
      var row := 0;
      while row < rows
        invariant 0 <= row <= rows
        invariant pegs == PegLayout(startX, row)
        invariant money == old(money) && pricePerBall == old(pricePerBall) && rows == old(rows)
        invariant multipliers == Generate(rows)
        invariant leftBorderX == LeftBorderX(startX, rows) && rightBorderX == RightBorderX(startX, rows)
      {
        var pegsInRow := row + 3;
        var rowX := startX - (PegSpacing * ((pegsInRow - 1) as real)) / 2.0;
        var col := 0;
        while col < pegsInRow
          invariant 0 <= col <= pegsInRow
          invariant pegs == PegLayout(startX, row) + RowPegs(startX, row)[..col]
          invariant money == old(money) && pricePerBall == old(pricePerBall) && rows == old(rows)
          invariant multipliers == Generate(rows)
          invariant leftBorderX == LeftBorderX(startX, rows) && rightBorderX == RightBorderX(startX, rows)
        {
          RowPegsAt(startX, row, col);
          pegs := pegs + [Peg(rowX + (col as real) * PegSpacing, StartY + (row as real) * PegSpacing)];
          assert RowPegs(startX, row)[..col + 1] == RowPegs(startX, row)[..col] + [RowPegs(startX, row)[col]];
          col := col + 1;
        }
        assert RowPegs(startX, row)[..col] == RowPegs(startX, row);
        row := row + 1;
      }
    }

    /** The row-count dropdown: store the new count and rebuild. */
    method ChangeRows(newRows: nat, gridWidth: real)
      modifies this
      ensures rows == newRows && Built(gridWidth)
      ensures money == old(money) && pricePerBall == old(pricePerBall)
    {
      rows := newRows;
      CreateGrid(gridWidth);
    }

    /** The bet input: a parsed value (None when it is not a number) is
        taken as the new price only when it is positive. */
    method UpdateBet(parsed: Option<real>)
      modifies this`pricePerBall
      ensures parsed.Some? && parsed.value > 0.0 ==> pricePerBall == parsed.value
      ensures !(parsed.Some? && parsed.value > 0.0) ==> pricePerBall == old(pricePerBall)
      ensures old(pricePerBall) > 0.0 ==> pricePerBall > 0.0
    {
      if parsed.Some? && parsed.value > 0.0 {
        pricePerBall := parsed.value;
      }
    }

    /** The add-money button. */
    method AddMoney()
      modifies this`money
      ensures money == old(money) + 100.0
    {
      money := money + 100.0;
    }

    /** Start a drop: refused (nothing changes) when the balance is below
        the price; otherwise the price is taken and a ball is released near
        the centre with a small sideways velocity. u1 and u2 are the two
        random draws, each in [0, 1). */
    method DropBall(gridWidth: real, u1: real, u2: real) returns (ball: Option<Ball>)
      requires 0.0 <= u1 < 1.0 && 0.0 <= u2 < 1.0
      modifies this`money
      ensures ball.None? <==> old(money) < pricePerBall
      ensures ball.None? ==> money == old(money)
      ensures ball.Some? ==> money == old(money) - pricePerBall && money >= 0.0
      ensures ball.Some? ==>
        ball.value == Ball(gridWidth / 2.0 + (u1 - 0.5) * 40.0, 0.0, (u2 - 0.5) * RandomFactor, 0.0)
      ensures ball.Some? ==>
        gridWidth / 2.0 - 20.0 <= ball.value.x < gridWidth / 2.0 + 20.0 &&
        ball.value.y == 0.0 && ball.value.dy == 0.0 &&
        -RandomFactor / 2.0 <= ball.value.dx < RandomFactor / 2.0
    {
      if money < pricePerBall {
        return None;
      }
      money := money - pricePerBall;
      var x := gridWidth / 2.0 + (u1 - 0.5) * 40.0;
      var dx := (u2 - 0.5) * RandomFactor;
      ball := Some(Ball(x, 0.0, dx, 0.0));
    }

    /** The landing test at the end of a step: a ball below the bottom edge
        has landed, and over a slot it credits pricePerBall (as read at
        landing time) times that slot's multiplier. */
    method Land(x: real, y: real, gridWidth: real, gridHeight: real) returns (landed: bool, outcome: Outcome)
      modifies this`money
      ensures landed <==> y > gridHeight - BallRadius
      ensures outcome == if landed then Resolve(multipliers, gridWidth, x, pricePerBall) else NoScore
      ensures money == old(money) + Payout(outcome)
      ensures multipliers == Generate(rows) && pricePerBall >= 0.0 ==> money >= old(money)
    {
      landed := y > gridHeight - BallRadius;
      outcome := NoScore;
      if landed {
        var totalWidth := (|multipliers| as real) * SlotWidth;
        var startSlotX := (gridWidth - totalWidth) / 2.0;
        var slotIndex := ((x - startSlotX) / SlotWidth).Floor;
        assert slotIndex == SlotIndex(x, StartSlotX(gridWidth, |multipliers|));
        if 0 <= slotIndex < |multipliers| {
          var multiplier := multipliers[slotIndex];
          var payout := pricePerBall * multiplier;
          money := money + payout;
          outcome := Scored(slotIndex, multiplier, payout);
          if multipliers == Generate(rows) && pricePerBall >= 0.0 {
            assert payout >= 0.0 by {
              MultiplierBounds(rows, slotIndex);
              NonNegativeProduct(pricePerBall, multiplier);
            }
          }
        }
      }
    }
  }

  lemma NonNegativeProduct(a: real, b: real)
    requires a >= 0.0 && b >= 0.0
    ensures a * b >= 0.0
  {
  }

  /** Rebuilding a built board with the same width reproduces it exactly:
      the peg list is reset before it is refilled. */
  method RebuildIsIdempotent(g: Game, gridWidth: real)
    requires g.Built(gridWidth)
    modifies g
    ensures g.pegs == old(g.pegs) && g.multipliers == old(g.multipliers)
    ensures g.leftBorderX == old(g.leftBorderX) && g.rightBorderX == old(g.rightBorderX)
    ensures g.money == old(g.money) && g.pricePerBall == old(g.pricePerBall) && g.rows == old(g.rows)
  {
    g.CreateGrid(gridWidth);
  }

  /** One paid ball with a bet edit while it is in flight: the wallet loses
      the price at drop time and gains the price at landing time times the
      multiplier of the slot it lands in. */
  method PlayBall(g: Game, gridWidth: real, gridHeight: real, u1: real, u2: real,
                  betEdit: Option<real>, landX: real, landY: real)
      returns (ball: Option<Ball>, outcome: Outcome)
    requires 0.0 <= u1 < 1.0 && 0.0 <= u2 < 1.0
    modifies g
    ensures ball.None? ==> g.money == old(g.money) && outcome == NoScore
    ensures ball.Some? ==>
      g.money == old(g.money) - old(g.pricePerBall) + Payout(outcome) &&
      outcome == (if landY > gridHeight - BallRadius
                  then Resolve(g.multipliers, gridWidth, landX, g.pricePerBall) else NoScore)
  {
    outcome := NoScore;
    ball := g.DropBall(gridWidth, u1, u2);
    if ball.Some? {
      g.UpdateBet(betEdit);
      var landed;
      landed, outcome := g.Land(landX, landY, gridWidth, gridHeight);
    }
  }
}
