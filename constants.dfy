// Grid size, transfer speed and the compass direction table shared by every
// generation of the simulation (js/constants.js).
module Constants {

  /** Side length of the square grid. */
  const GRID_SIZE: int := 10

  /** Energy a component may push per tick, before the battery throttle. */
  const ENERGY_TRANSFER_SPEED: real := 2.5

  /** Unit grid steps indexed by absolute direction: 0 up, 1 right, 2 down, 3 left. */
  const DIRS: seq<(int, int)> := [(0, -1), (1, 0), (0, 1), (-1, 0)]

  predicate IsDir(d: int) { 0 <= d < 4 }

  predicate InBounds(x: int, y: int) { 0 <= x < GRID_SIZE && 0 <= y < GRID_SIZE }

  /** Column reached by one step from x in direction d. */
  function StepX(x: int, d: int): int
    requires IsDir(d)
  {
    x + DIRS[d].0
  }

  /** Row reached by one step from y in direction d. */
  function StepY(y: int, d: int): int
    requires IsDir(d)
  {
    y + DIRS[d].1
  }

  /** The absolute direction opposite to d, as computed by the source. */
  function Opposite(d: int): (r: int)
    requires IsDir(d)
    ensures IsDir(r) && r != d
  {
    (d + 2) % 4
  }

  /** Every entry of the table is a unit step along one axis, in the documented compass order. */
  lemma DirsAreUnitSteps(d: int)
    requires IsDir(d)
    ensures (if DIRS[d].0 < 0 then -DIRS[d].0 else DIRS[d].0)
          + (if DIRS[d].1 < 0 then -DIRS[d].1 else DIRS[d].1) == 1
    ensures d == 0 <==> DIRS[d] == (0, -1)
    ensures d == 1 <==> DIRS[d] == (1, 0)
    ensures d == 2 <==> DIRS[d] == (0, 1)
    ensures d == 3 <==> DIRS[d] == (-1, 0)
  {
  }

  /** The opposite direction undoes the step, which is what makes the input-side check meaningful. */
  lemma OppositeUndoesStep(d: int, x: int, y: int)
    requires IsDir(d)
    ensures DIRS[Opposite(d)] == (-DIRS[d].0, -DIRS[d].1)
    ensures StepX(StepX(x, d), Opposite(d)) == x && StepY(StepY(y, d), Opposite(d)) == y
    ensures Opposite(Opposite(d)) == d
  {
  }

  /** A step always changes the cell, and two distinct directions never reach the same cell. */
  lemma StepsAreDistinct(d1: int, d2: int, x: int, y: int)
    requires IsDir(d1) && IsDir(d2)
    ensures (StepX(x, d1), StepY(y, d1)) != (x, y)
    ensures (StepX(x, d1), StepY(y, d1)) == (StepX(x, d2), StepY(y, d2)) <==> d1 == d2
  {
  }

  /** Two cells that share an edge. */
  predicate Adjacent(x: int, y: int, tx: int, ty: int)
  {
    (x == tx && (ty == y - 1 || ty == y + 1)) || (y == ty && (tx == x - 1 || tx == x + 1))
  }

  /** A step in any direction reaches an adjacent cell, and every adjacent cell is reached by one. */
  lemma StepIsAdjacent(x: int, y: int, tx: int, ty: int)
    ensures forall d :: IsDir(d) ==> Adjacent(x, y, StepX(x, d), StepY(y, d))
    ensures Adjacent(x, y, tx, ty) ==> exists d :: IsDir(d) && tx == StepX(x, d) && ty == StepY(y, d)
  {
    if Adjacent(x, y, tx, ty) {
      var d := if ty == y - 1 then 0 else if tx == x + 1 then 1 else if ty == y + 1 then 2 else 3;
      assert IsDir(d) && tx == StepX(x, d) && ty == StepY(y, d);
    }
  }
}
