/**
 * The slot multiplier table (generate_multipliers in script.js).
 * One multiplier per slot, left to right; the two edge slots get a fixed
 * edge value and every other slot repeats a fixed 30-entry pattern.
 */
module Multipliers {

  /** Multiplier of the leftmost and rightmost slot. */
  const EdgeValue: real := 5.0

  /** The fixed pattern that interior slot i reads at position i % 30. */
  const Pattern: seq<real> :=
    [3.0, 3.0, 2.0, 1.0, 0.3, 0.2, 0.2, 0.3, 1.0, 2.0,
     3.0, 1.0, 0.3, 0.4, 0.2, 0.2, 0.4, 1.0, 2.0, 3.0,
     2.0, 1.0, 0.4, 0.2, 0.2, 0.2, 0.4, 1.0, 2.0, 3.0]

  /** Slot i is one of the two edge positions [0, rows - 1]. */
  predicate IsEdge(rows: nat, i: int) {
    i == 0 || i == rows - 1
  }

  /** The table for a board of `rows` rows: one entry per slot. */
  function Generate(rows: nat): (m: seq<real>)
    ensures |m| == rows
  {
    seq(rows, i requires 0 <= i < rows =>
      if IsEdge(rows, i) then EdgeValue else Pattern[i % |Pattern|])
  }

  /** The table has one entry per row: both edges hold the edge value and
      every interior slot holds its pattern entry. */
  lemma GenerateShape(rows: nat)
    requires rows >= 1
    ensures |Generate(rows)| == rows
    ensures Generate(rows)[0] == EdgeValue && Generate(rows)[rows - 1] == EdgeValue
    ensures forall i :: 0 < i < rows - 1 ==> Generate(rows)[i] == Pattern[i % 30]
  {
  }

  /** Every multiplier is either the edge value or one of the pattern's
      entries. */
  lemma MultipliersFromTable(rows: nat, i: int)
    requires 0 <= i < rows
    ensures Generate(rows)[i] == EdgeValue || Generate(rows)[i] in Pattern
  {
  }

  /** Every multiplier is strictly positive and at most the edge value. */
  lemma MultiplierBounds(rows: nat, i: int)
    requires 0 <= i < rows
    ensures 0.0 < Generate(rows)[i] <= EdgeValue
  {
  }

  /** The edge slots hold the table's largest multiplier. */
  lemma EdgesAreHighest(rows: nat, i: int)
    requires 0 <= i < rows
    ensures Generate(rows)[i] <= Generate(rows)[0]
    ensures Generate(rows)[i] <= Generate(rows)[rows - 1]
  {
  }

  /** Interior slots 30 apart carry the same multiplier. */
  lemma InteriorPeriodic(rows: nat, i: int)
    requires 0 < i && i + 30 < rows - 1
    ensures Generate(rows)[i] == Generate(rows)[i + 30]
  {
  }

  /** Adding a row keeps every slot but the old right edge: the new table
      agrees with the old one on all slots before index rows - 1. */
  lemma GenerateGrowth(rows: nat)
    requires rows >= 1
    ensures Generate(rows + 1)[..rows - 1] == Generate(rows)[..rows - 1]
  {
  }

  /** The table of the initial 12-row board, which is a palindrome. */
  lemma DefaultTable()
    ensures Generate(12) == [5.0, 3.0, 2.0, 1.0, 0.3, 0.2, 0.2, 0.3, 1.0, 2.0, 3.0, 5.0]
    ensures forall i :: 0 <= i < 12 ==> Generate(12)[i] == Generate(12)[11 - i]
  {
  }
}
