// Pass 1 in closed form: the flows it records and the accumulator it fills
// are fixed by the start-of-tick grid alone. The flow list is the row-major
// concatenation of each source's flows, and the accumulator is the sum of
// each pushing source's shares. These are the facts the engine's
// `activeConnections` and the test scenarios are stated with.
module Trace {
  import opened Constants
  import opened Components
  import opened Grid
  import opened Solver
  import opened EnergyLaws

  /** The flows of every source above row y and of the first x sources of row y, in visiting order. */
  function FlowsUpto(r: Rules, g: GridCells, amb: Matrix<real>, y: nat, x: nat): seq<Flow>
    requires Square(g) && Square(amb)
    requires (y < GRID_SIZE && x <= GRID_SIZE) || (y == GRID_SIZE && x == 0)
    decreases y, x
  {
    if x == 0 then
      if y == 0 then [] else FlowsUpto(r, g, amb, y - 1, GRID_SIZE)
    else
      FlowsUpto(r, g, amb, y, x - 1) + FlowsOut(r, g, amb, x - 1, y)
  }

  /** The accumulator after the same sources have each added their share at each of their targets. */
  function ChangesUpto(r: Rules, g: GridCells, amb: Matrix<real>, y: nat, x: nat): (m: Matrix<real>)
    requires Square(g) && Square(amb)
    requires (y < GRID_SIZE && x <= GRID_SIZE) || (y == GRID_SIZE && x == 0)
    ensures Square(m)
    decreases y, x
  {
    if x == 0 then
      if y == 0 then Fill(0.0) else ChangesUpto(r, g, amb, y - 1, GRID_SIZE)
    else
      var m := ChangesUpto(r, g, amb, y, x - 1);
      if Pushes(r, g, amb, x - 1, y) then AddEach(m, OwnTargets(r, g, amb, x - 1, y), Share(r, g, amb, x - 1, y)) else m
  }

  /** While pass 1 runs the grid keeps its structure, and the next cell still holds its start-of-tick occupant. */
  lemma Pass1Structure(r: Rules, g: GridCells, amb: Matrix<real>, s0: Stats, y: nat, x: nat)
    requires ValidGrid(g) && AmbientOk(amb) && y < GRID_SIZE && x < GRID_SIZE
    ensures var st := Pass1Upto(r, amb, Pass1Start(g, s0), y, x);
      SameStructure(g, st.grid) && st.grid[y][x] == g[y][x]
  {
    Pass1Cells(r, g, amb, s0, y, x);
    forall j, i | 0 <= j < GRID_SIZE && 0 <= i < GRID_SIZE
      ensures SameShape(g[j][i], AfterPass1(r, g, amb, i, j))
    {
      AfterPass1Shape(r, g, amb, i, j);
    }
  }

  /** Partial pass 1 has recorded exactly FlowsUpto and accumulated exactly ChangesUpto. */
  lemma {:induction false} Pass1Trace(r: Rules, g: GridCells, amb: Matrix<real>, s0: Stats, y: nat, x: nat)
    requires ValidGrid(g) && AmbientOk(amb)
    requires (y < GRID_SIZE && x <= GRID_SIZE) || (y == GRID_SIZE && x == 0)
    ensures var st := Pass1Upto(r, amb, Pass1Start(g, s0), y, x);
      st.flows == FlowsUpto(r, g, amb, y, x) && st.changes == ChangesUpto(r, g, amb, y, x)
    decreases y, x
  {
    if x == 0 {
      if y > 0 {
        Pass1Trace(r, g, amb, s0, y - 1, GRID_SIZE);
      }
    } else {
      Pass1Trace(r, g, amb, s0, y, x - 1);
      Pass1Structure(r, g, amb, s0, y, x - 1);
      VisitCellTransfer(r, g, amb, Pass1Upto(r, amb, Pass1Start(g, s0), y, x - 1), x - 1, y);
    }
  }

  /** The whole of pass 1 in closed form. */
  lemma Pass1Closed(r: Rules, g: GridCells, amb: Matrix<real>, s0: Stats)
    requires ValidGrid(g) && AmbientOk(amb)
    ensures Pass1(r, g, amb, s0).flows == FlowsUpto(r, g, amb, GRID_SIZE, 0)
    ensures Pass1(r, g, amb, s0).changes == ChangesUpto(r, g, amb, GRID_SIZE, 0)
  {
    Pass1Trace(r, g, amb, s0, GRID_SIZE, 0);
  }

  /** No source other than (x0, y0) pushes. */
  predicate OnlySource(r: Rules, g: GridCells, amb: Matrix<real>, x0: int, y0: int)
    requires Square(g) && Square(amb)
  {
    forall j, i :: 0 <= j < GRID_SIZE && 0 <= i < GRID_SIZE && (i != x0 || j != y0) ==> !Pushes(r, g, amb, i, j)
  }

  /** When at most one source pushes, the flows are that source's alone. */
  lemma {:induction false} LoneFlows(r: Rules, g: GridCells, amb: Matrix<real>, x0: int, y0: int, y: nat, x: nat)
    requires Square(g) && Square(amb) && InBounds(x0, y0) && OnlySource(r, g, amb, x0, y0)
    requires (y < GRID_SIZE && x <= GRID_SIZE) || (y == GRID_SIZE && x == 0)
    ensures FlowsUpto(r, g, amb, y, x) == if Before(x0, y0, x, y) then FlowsOut(r, g, amb, x0, y0) else []
    decreases y, x
  {
    if x == 0 {
      if y > 0 {
        LoneFlows(r, g, amb, x0, y0, y - 1, GRID_SIZE);
      }
    } else {
      LoneFlows(r, g, amb, x0, y0, y, x - 1);
      var prev := FlowsUpto(r, g, amb, y, x - 1);
      var own := FlowsOut(r, g, amb, x - 1, y);
      if x - 1 != x0 || y != y0 {
        assert !Pushes(r, g, amb, x - 1, y);
        assert own == [];
        assert prev + own == prev;
      } else {
        assert prev == [];
        assert prev + own == own;
      }
    }
  }

  /** When at most one source pushes, the accumulator holds that source's shares alone. */
  lemma {:induction false} LoneChanges(r: Rules, g: GridCells, amb: Matrix<real>, x0: int, y0: int, y: nat, x: nat)
    requires Square(g) && Square(amb) && InBounds(x0, y0) && OnlySource(r, g, amb, x0, y0)
    requires (y < GRID_SIZE && x <= GRID_SIZE) || (y == GRID_SIZE && x == 0)
    ensures ChangesUpto(r, g, amb, y, x) ==
      if Before(x0, y0, x, y) && Pushes(r, g, amb, x0, y0)
      then AddEach(Fill(0.0), OwnTargets(r, g, amb, x0, y0), Share(r, g, amb, x0, y0))
      else Fill(0.0)
    decreases y, x
  {
    if x == 0 {
      if y > 0 {
        LoneChanges(r, g, amb, x0, y0, y - 1, GRID_SIZE);
      }
    } else {
      LoneChanges(r, g, amb, x0, y0, y, x - 1);
      if x - 1 != x0 || y != y0 {
        assert !Pushes(r, g, amb, x - 1, y);
      }
    }
  }
}
