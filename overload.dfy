// What pass 2 of the solver guarantees: each cell receives exactly the energy
// accumulated for it in pass 1, a component left above its capacity plus 50
// is destroyed with one explosion event, and nothing else happens. Together
// with pass 1 this gives the tick-level energy balance.
module OverloadLaws {
  import opened Constants
  import opened Components
  import opened Grid
  import opened Solver
  import opened EnergyLaws

  /** The occupant of (x, y) would hold more than its capacity plus 50 once its pending change lands. */
  predicate Overloaded(g: GridCells, changes: Matrix<real>, x: int, y: int)
    requires Square(g) && Square(changes) && InBounds(x, y)
  {
    g[y][x].Some? && g[y][x].value.energy + changes[y][x] > Limit(g[y][x].value)
  }

  /** The occupant of (x, y) at the end of pass 2. */
  function AfterPass2(g: GridCells, changes: Matrix<real>, x: int, y: int): Cell
    requires Square(g) && Square(changes) && InBounds(x, y)
  {
    match g[y][x]
    case None => None
    case Some(c) => if Overloaded(g, changes, x, y) then None else Some(c.(energy := c.energy + changes[y][x]))
  }

  /** No event occurs twice. */
  predicate Distinct(es: seq<Event>)
  {
    forall p, q :: 0 <= p < q < |es| ==> es[p] != es[q]
  }

  /** Partial pass 2: every visited cell holds AfterPass2 and the others are untouched. */
  lemma {:induction false} Pass2Grid(g: GridCells, changes: Matrix<real>, y: nat, x: nat)
    requires Square(g) && Square(changes)
    requires (y < GRID_SIZE && x <= GRID_SIZE) || (y == GRID_SIZE && x == 0)
    ensures var st := Pass2Upto(changes, Pass2State(g, []), y, x);
      forall j, i :: 0 <= j < GRID_SIZE && 0 <= i < GRID_SIZE ==>
        st.grid[j][i] == if Before(i, j, x, y) then AfterPass2(g, changes, i, j) else g[j][i]
    decreases y, x
  {
    if x == 0 {
      if y > 0 {
        Pass2Grid(g, changes, y - 1, GRID_SIZE);
      }
    } else {
      Pass2Grid(g, changes, y, x - 1);
    }
  }

  /**
   * Partial pass 2: the events are explosions, one for each visited overloaded cell and for nothing
   * else, none repeated.
   */
  lemma {:induction false} Pass2Events(g: GridCells, changes: Matrix<real>, y: nat, x: nat)
    requires Square(g) && Square(changes)
    requires (y < GRID_SIZE && x <= GRID_SIZE) || (y == GRID_SIZE && x == 0)
    ensures var st := Pass2Upto(changes, Pass2State(g, []), y, x);
      && (forall e :: e in st.events ==>
            e.Exploded? && InBounds(e.x, e.y) && Before(e.x, e.y, x, y) && Overloaded(g, changes, e.x, e.y))
      && (forall j, i :: 0 <= j < GRID_SIZE && 0 <= i < GRID_SIZE && Before(i, j, x, y) && Overloaded(g, changes, i, j) ==>
            Exploded(i, j) in st.events)
      && Distinct(st.events)
    decreases y, x
  {
    if x == 0 {
      if y > 0 {
        Pass2Events(g, changes, y - 1, GRID_SIZE);
      }
    } else {
      Pass2Events(g, changes, y, x - 1);
      Pass2Grid(g, changes, y, x - 1);
      var st := Pass2Upto(changes, Pass2State(g, []), y, x - 1);
      assert st.grid[y][x - 1] == g[y][x - 1];
      assert Exploded(x - 1, y) !in st.events;
    }
  }

  /**
   * Pass 2 as a whole: every cell ends holding AfterPass2; an explosion is reported for a cell if and
   * only if it was overloaded, each once, and nothing else is reported; the grid stays valid when the
   * pending changes are non-negative, and every survivor is within its capacity plus 50.
   */
  lemma Pass2Outcome(g: GridCells, changes: Matrix<real>)
    requires Square(g) && Square(changes)
    ensures var st := Pass2(g, changes);
      && (forall j, i :: 0 <= j < GRID_SIZE && 0 <= i < GRID_SIZE ==> st.grid[j][i] == AfterPass2(g, changes, i, j))
      && (forall j, i :: 0 <= j < GRID_SIZE && 0 <= i < GRID_SIZE ==> (Exploded(i, j) in st.events <==> Overloaded(g, changes, i, j)))
      && (forall e :: e in st.events ==> e.Exploded? && InBounds(e.x, e.y))
      && Distinct(st.events)
      && (forall j, i :: 0 <= j < GRID_SIZE && 0 <= i < GRID_SIZE && st.grid[j][i].Some? ==>
            st.grid[j][i].value.energy <= Limit(st.grid[j][i].value))
      && (ValidGrid(g) && NonNegative(changes) ==> ValidGrid(st.grid))
  {
    Pass2Grid(g, changes, GRID_SIZE, 0);
    Pass2Events(g, changes, GRID_SIZE, 0);
  }

  /**
   * Energy balance of pass 2: the grid gains at most the energy pending, and exactly that much when
   * no component overloads (pending changes sit only on occupied cells).
   */
  lemma Pass2Conserves(g: GridCells, changes: Matrix<real>)
    requires ValidGrid(g) && Square(changes) && NonNegative(changes) && Landed(g, changes)
    ensures TotalEnergy(Pass2(g, changes).grid) <= TotalEnergy(g) + Total(changes)
    ensures (forall j, i :: 0 <= j < GRID_SIZE && 0 <= i < GRID_SIZE ==> !Overloaded(g, changes, i, j))
        ==> TotalEnergy(Pass2(g, changes).grid) == TotalEnergy(g) + Total(changes)
  {
    var h := Pass2(g, changes).grid;
    Pass2Outcome(g, changes);
    var a, c := Energies(g), Energies(h);
    TotalPointwise(a, changes, c);
  }

  /**
   * One tick of the solver: after both passes the grid holds the start-of-tick energy plus what was
   * generated minus what was vented, less whatever overloaded components took with them; without
   * an overload the balance is exact.
   */
  lemma TickConserves(r: Rules, g: GridCells, amb: Matrix<real>, s0: Stats)
    requires ValidGrid(g) && AmbientOk(amb) && r.threshold >= 0.0
    ensures var st1 := Pass1(r, g, amb, s0);
      var h := Pass2(st1.grid, st1.changes).grid;
      && ValidGrid(h)
      && TotalEnergy(h) <= TotalEnergy(g) + (st1.stats.gen - s0.gen) - (st1.stats.vent - s0.vent)
      && ((forall j, i :: 0 <= j < GRID_SIZE && 0 <= i < GRID_SIZE ==> !Overloaded(st1.grid, st1.changes, i, j))
          ==> TotalEnergy(h) == TotalEnergy(g) + (st1.stats.gen - s0.gen) - (st1.stats.vent - s0.vent))
  {
    var st1 := Pass1(r, g, amb, s0);
    Pass1Conserves(r, g, amb, s0);
    forall j, i | 0 <= j < GRID_SIZE && 0 <= i < GRID_SIZE
      ensures st1.grid[j][i].None? ==> st1.changes[j][i] == 0.0
    {
      AfterPass1Shape(r, g, amb, i, j);
    }
    Pass2Outcome(st1.grid, st1.changes);
    Pass2Conserves(st1.grid, st1.changes);
  }

  /** What one physics tick leaves behind: the grid, the statistics, the flows recorded and the explosions. */
  datatype Outcome = Outcome(grid: GridCells, stats: Stats, flows: seq<Flow>, events: seq<Event>)

  /** `updatePhysics`: pass 1 then pass 2. */
  function PhysicsTick(r: Rules, g: GridCells, amb: Matrix<real>, s0: Stats): Outcome
    requires Square(g) && Square(amb)
  {
    var st1 := Pass1(r, g, amb, s0);
    var st2 := Pass2(st1.grid, st1.changes);
    Outcome(st2.grid, st1.stats, st1.flows, st2.events)
  }

  /**
   * What one physics tick guarantees: the grid stays valid, the statistics only grow (`use` is
   * untouched), the grid never holds more than it started with plus what was generated minus what
   * was vented, every flow is well formed, and the only events are explosions, one per cell at most.
   */
  lemma PhysicsTickLaws(r: Rules, g: GridCells, amb: Matrix<real>, s0: Stats)
    requires ValidGrid(g) && AmbientOk(amb) && r.threshold >= 0.0
    ensures var t := PhysicsTick(r, g, amb, s0);
      && ValidGrid(t.grid)
      && t.stats.gen >= s0.gen && t.stats.vent >= s0.vent && t.stats.use == s0.use
      && TotalEnergy(t.grid) <= TotalEnergy(g) + (t.stats.gen - s0.gen) - (t.stats.vent - s0.vent)
      && (forall i :: 0 <= i < |t.flows| ==> FlowOk(t.flows[i]))
      && (forall e :: e in t.events ==> e.Exploded? && InBounds(e.x, e.y))
      && Distinct(t.events)
  {
    TickConserves(r, g, amb, s0);
    Pass1Conserves(r, g, amb, s0);
    var st1 := Pass1(r, g, amb, s0);
    Pass2Outcome(st1.grid, st1.changes);
  }
}
