# Plinko game logic in Dafny

This project models the discrete game logic of a single-file browser Plinko
game (`script.js`). A ball drops through a triangle of pegs and lands in one
of `rows` slots. Each slot multiplies the bet. The model covers five parts:

- **Multiplier table** (`multipliers.dfy`, module `Multipliers`). The two
  edge slots get 5. Every other slot `i` gets entry `i % 30` of a fixed
  30-entry pattern.
- **Board layout** (`layout.dfy`, module `Layout`). Peg row `r` has `r + 3`
  pegs, 40 apart, centred on the grid midpoint, at height `50 + 40 r`. The
  borders sit a border radius (7.5) outside the widest row.
- **Landing** (`landing.dfy`, module `Landing`). The slot band is `rows` slots
  of width 50, centred in the grid. A ball landing at `x` falls in slot
  `floor((x - startSlotX) / 50)`. It pays `bet * multiplier` only when that
  index is a real slot.
- **Wall clamp** (`walls.dfy`, module `Walls`). A ball past a wall is put back
  on the wall. Its horizontal velocity is turned inward and scaled by the
  bounce factor 0.7.
- **Game state** (`game.dfy`, module `Plinko`). Class `Game` holds the game
  object's fields: money, bet (`pricePerBall`), row count, pegs, multipliers
  and border positions. Its methods are the board rebuild, the row-count
  change, the bet input, the add-money button, the start of a drop and the
  landing credit.

All quantities are exact `real`s. Values the browser supplies are
parameters: the grid's width and height, the walls' bounds and the two
random draws of a drop.

The payout is computed from the bet as it stands when the ball lands, not
from the amount taken at the drop. The model keeps this behaviour, and
`Plinko.PlayBall` states the resulting net change when the bet is edited
while a ball is in flight.

Where the code differs from a plain description of the game, the model
follows the code:
- The row count is never checked. With 0 rows the board has no pegs and no
  slots, and every landing pays nothing.
- A drop is refused only when money is below the bet. It does not check
  that the bet is positive.
- With three rows or fewer the slot band is narrower than the wall band, so
  a ball resting against the left wall lands left of every slot. With four
  rows the two bands are equally wide and start at the same x, but the slot
  band is open at its right end, so a ball resting against the right wall
  falls just past the last slot (`SmallBoardsMissAtWalls`). From five rows
  up, every ball held between the walls scores (`WallBandWithinSlots`).
- These two lemmas and `Walls.BuiltWallsOrdered` assume the wall bounds
  (script.js:174-175) equal the border positions moved inward by the border
  radius. The browser reads the borders back through `offsetLeft`, which is a
  whole number, so a real bound can differ by up to 0.5; in the four-row
  case that rounding decides whether the ball at the right wall scores.

## Model

| member | source | states |
|---|---|---|
| Multipliers.Generate | script.js:58-82 | the table has exactly one entry per row |
| Multipliers.GenerateShape | script.js:75-81 | length is rows; indices 0 and rows-1 hold 5; every interior index i holds pattern[i % 30] |
| Multipliers.MultipliersFromTable | script.js:65-81 | every multiplier is the edge value 5 or an entry of the pattern |
| Multipliers.MultiplierBounds | script.js:65-81 | every multiplier is strictly positive and at most 5 |
| Multipliers.EdgesAreHighest | script.js:65-81 | no slot's multiplier exceeds either edge slot's |
| Multipliers.InteriorPeriodic | script.js:79-80 | interior slots 30 apart carry the same multiplier |
| Multipliers.GenerateGrowth | script.js:75-81 | a table for one more row agrees with the old one on every slot before the old right edge |
| Multipliers.DefaultTable | script.js:58-81 | the table for the initial 12 rows, which reads the same both ways |
| Layout.PegLayoutSize | script.js:102-113 | the construction pushes rows*(rows+5)/2 pegs |
| Layout.PegLayoutAt | script.js:102-113 | row-major order: the peg of (row, col) is at index rows-before + col, at x = row_x + 40 col, y = 50 + 40 row |
| Layout.RowSymmetric | script.js:103-104 | each row is symmetric about the grid midpoint: columns col and last-col mirror at the same height |
| Layout.PegsInsideBorders | script.js:94-113 | every peg lies strictly between the borders and at least a border radius inside each |
| Landing.SlotBandCentred | script.js:115-117 | the slot band [start_slot_x, start_slot_x + 50 rows) is centred on the grid midpoint |
| Landing.SlotIndexIsSlotOver | script.js:186-189 | the floor-based index equals i exactly when x lies in [start + 50 i, start + 50 (i+1)) |
| Landing.ResolveScored | script.js:186-192 | a landing scores slot i with multiplier m[i] and payout bet * m[i] exactly when x lies over slot i |
| Landing.ResolveNoScore | script.js:189-190 | a landing pays nothing exactly when x is left of the band or at or past its right end |
| Landing.ThreeSlotExample | script.js:186-192 | with slots [5, 2, 0.3] a bet of 10 landing in slot 1 pays 20; both sides outside the band pay nothing |
| Landing.WallBandWithinSlots | script.js:174-190 | with at least 5 rows any x between the wall bounds lands over a slot |
| Landing.SmallBoardsMissAtWalls | script.js:174-190 | with 4 rows the wall and slot bands coincide but the right wall bound is past the open right end of the band; with 3 rows the left wall is left of the band |
| Walls.ClampToWalls | script.js:174-183 | with ordered bounds x ends in [left, right]; a left hit leaves dx >= 0, a right hit dx <= 0, each scaled by 0.7; inside the band nothing changes; the inverted-bounds case applies both clamps; speed never grows |
| Walls.BuiltWallsOrdered | script.js:94-97 | a built board's wall bounds (borders moved inward by 7.5) are ordered and coincide with the widest row's outer pegs |
| Plinko.Game.constructor | script.js:1-11 | the initial game: money 150, bet 10, 12 rows, board built |
| Plinko.Game.CreateGrid | script.js:84-126 | resets and refills the pegs in row-major order, regenerates the multipliers, places the borders; money, bet and rows unchanged |
| Plinko.Game.ChangeRows | script.js:225-228 | stores the new row count and leaves the board built for it |
| Plinko.Game.UpdateBet | script.js:51-56 | the bet changes only to a parsed value > 0, otherwise stays; a positive bet stays positive |
| Plinko.Game.AddMoney | script.js:230-233 | money grows by 100 |
| Plinko.Game.DropBall | script.js:134-147 | refused with no change when money < bet; otherwise money drops by exactly the bet and stays >= 0, and the ball is released at x = width/2 + (u1 - 0.5) 40, y = 0, dx = (u2 - 0.5) 0.3, dy = 0, hence within 20 of the centre with |dx| <= 0.15 |
| Plinko.Game.Land | script.js:185-206 | a ball below height - 7.5 has landed; money grows by the resolved payout, which uses the bet at landing time; with the generated table and a non-negative bet money never falls |
| Plinko.RebuildIsIdempotent | script.js:84-113 | rebuilding a built board with the same width leaves pegs, borders and multipliers unchanged |
| Plinko.PlayBall | script.js:134-192 | a paid drop followed by a bet edit and a landing: money changes by minus the old bet plus the payout at the new bet |

## Left out

- Motion integration and peg bounce (script.js:155-172): floating-point
  powers, square roots, trigonometry and unseeded random jitter. The scan
  there does not stop at the first peg in range; any in-range peg other than
  the last one hit bounces the ball again in the same step.
- The peg cooldown timer, the animation-frame loop and the auto-drop
  interval (script.js:170, 211, 214, 272-297): event-loop timing.
- The half and double bet buttons (script.js:235-246): they depend on
  string parsing and decimal rounding. The double button can set a bet of 0
  or below, so a positive bet is not an invariant of the whole program.
- All DOM work: creating and styling pegs, slots, balls and borders, slot
  colours, notifications, the money display and the auto/manual button
  styling. Grid width and height, border offsets and wall bounds are
  parameters instead of `offsetWidth`/`offsetLeft`/`offsetHeight` reads.
- The `total_dropped`, `auto_drop` and `drop_in_progress` fields: no logic in
  the core reads them.
- Plinko.Game.UpdateBet: `parseFloat` is not modelled. Its result is given as
  an `Option`, with `None` standing for NaN.
- Plinko.Game.ChangeRows: `parseInt` is not modelled, and the row count is a
  `nat`, which excludes negative counts. In the browser a negative count
  gives an empty multiplier table (the array length is converted to 0), no
  pegs and no slots, with the borders placed from rows + 2.
- Plinko.Game.Land: payouts and balances are exact reals. The browser's
  double rounding of 0.2, 0.3 and 0.4 multipliers is not modelled.
