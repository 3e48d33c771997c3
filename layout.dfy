/**
 * Board geometry built by create_plinko_grid in script.js: the triangle of
 * pegs, the two border positions and the constants shared with the slot band.
 * `startX` is the horizontal centre of the grid (half its width).
 */
module Layout {

  /** A peg's centre in grid coordinates. */
  datatype Peg = Peg(x: real, y: real)

  const PegSpacing: real := 40.0
  const StartY: real := 50.0
  const BorderRadius: real := 7.5
  const SlotWidth: real := 50.0

  /** Row `row` (0-based) holds row + 3 pegs. */
  function PegsInRow(row: nat): nat {
    row + 3
  }

  /** x of the leftmost peg of a row: the row is centred on startX. */
  function RowX(startX: real, row: nat): real {
    startX - (PegSpacing * ((PegsInRow(row) - 1) as real)) / 2.0
  }

  /** y of every peg of a row. */
  function RowY(row: nat): real {
    StartY + (row as real) * PegSpacing
  }

  /** The pegs of one row, left to right. */
  function RowPegs(startX: real, row: nat): seq<Peg> {
    seq(PegsInRow(row), col requires 0 <= col < PegsInRow(row) =>
      Peg(RowX(startX, row) + (col as real) * PegSpacing, RowY(row)))
  }

  /** The pegs of the first `rows` rows in the order the construction loop
      pushes them: row by row, left to right within a row. */
  function PegLayout(startX: real, rows: nat): seq<Peg> {
    if rows == 0 then [] else PegLayout(startX, rows - 1) + RowPegs(startX, rows - 1)
  }

  /** Column col of a row is 40 col to the right of the row's first peg. */
  lemma RowPegsAt(startX: real, row: nat, col: nat)
    requires col < PegsInRow(row)
    ensures |RowPegs(startX, row)| == PegsInRow(row)
    ensures RowPegs(startX, row)[col]
         == Peg(RowX(startX, row) + (col as real) * PegSpacing, StartY + (row as real) * PegSpacing)
  {
    assert RowPegs(startX, row)[col].x == RowX(startX, row) + (col as real) * PegSpacing;
    assert RowPegs(startX, row)[col].y == RowY(row);
  }

  /** Number of pegs in the rows before `row`: 3 + 4 + ... + (row + 2). */
  function RowStart(row: nat): nat {
    row * (row + 5) / 2
  }

  /** Half the width of the widest row (the last one, of rows + 2 pegs). */
  function HalfGridWidth(rows: nat): real {
    PegSpacing * ((rows + 2 - 1) as real) / 2.0
  }

  function LeftBorderX(startX: real, rows: nat): real {
    startX - HalfGridWidth(rows) - BorderRadius
  }

  function RightBorderX(startX: real, rows: nat): real {
    startX + HalfGridWidth(rows) + BorderRadius
  }

  lemma RowStartStep(row: nat)
    ensures RowStart(row + 1) == RowStart(row) + PegsInRow(row)
  {
  }

  /** The layout holds rows * (rows + 5) / 2 pegs. */
  lemma {:induction false} PegLayoutSize(startX: real, rows: nat)
    ensures |PegLayout(startX, rows)| == RowStart(rows)
  {
    if rows > 0 {
      PegLayoutSize(startX, rows - 1);
      RowStartStep(rows - 1);
    }
  }

  /** Closed form of the row-major layout: the peg in column `col` of row
      `row` sits at index RowStart(row) + col, at x = RowX + 40 col and
      y = 50 + 40 row. */
  lemma {:induction false} PegLayoutAt(startX: real, rows: nat, row: nat, col: nat)
    requires row < rows && col < PegsInRow(row)
    ensures RowStart(row) + col < |PegLayout(startX, rows)|
    ensures PegLayout(startX, rows)[RowStart(row) + col]
         == Peg(RowX(startX, row) + (col as real) * PegSpacing, StartY + (row as real) * PegSpacing)
  {
    var k := RowStart(row) + col;
    if row == rows - 1 {
      PegLayoutSize(startX, rows - 1);
      assert PegLayout(startX, rows)[k] == RowPegs(startX, row)[col];
      assert RowPegs(startX, row)[col] == Peg(RowX(startX, row) + (col as real) * PegSpacing, RowY(row));
    } else {
      PegLayoutAt(startX, rows - 1, row, col);
      assert PegLayout(startX, rows)[k] == PegLayout(startX, rows - 1)[k];
    }
  }

  /** Every row is symmetric about startX: column col and column
      row + 2 - col are mirror images at the same height. */
  lemma RowSymmetric(startX: real, row: nat, col: nat)
    requires col < PegsInRow(row)
    ensures var pegs := RowPegs(startX, row);
      pegs[col].x - startX == startX - pegs[PegsInRow(row) - 1 - col].x &&
      pegs[col].y == pegs[PegsInRow(row) - 1 - col].y
  {
    var mirror := PegsInRow(row) - 1 - col;
    assert (mirror as real) == (row as real) + 2.0 - (col as real);
    assert ((PegsInRow(row) - 1) as real) == (row as real) + 2.0;
    assert RowPegs(startX, row)[col].x == RowX(startX, row) + (col as real) * PegSpacing;
    assert RowPegs(startX, row)[mirror].x == RowX(startX, row) + (mirror as real) * PegSpacing;
  }

  /** Every peg lies strictly between the two borders, and no further out
      than a border radius inside them. */
  lemma {:induction false} PegsInsideBorders(startX: real, rows: nat)
    ensures forall p :: p in PegLayout(startX, rows) ==>
      LeftBorderX(startX, rows) < p.x < RightBorderX(startX, rows) &&
      LeftBorderX(startX, rows) + BorderRadius <= p.x <= RightBorderX(startX, rows) - BorderRadius
  {
    if rows > 0 {
      PegsInsideBorders(startX, rows - 1);
      forall p | p in RowPegs(startX, rows - 1)
        ensures LeftBorderX(startX, rows) + BorderRadius <= p.x <= RightBorderX(startX, rows) - BorderRadius
      {
        var col :| 0 <= col < PegsInRow(rows - 1) && RowPegs(startX, rows - 1)[col] == p;
        assert (col as real) <= (rows as real) + 1.0;
        assert ((PegsInRow(rows - 1) - 1) as real) == (rows as real) + 1.0;
        assert p.x == RowX(startX, rows - 1) + (col as real) * PegSpacing;
      }
    }
  }
}
