// The wire scenarios of tests/simulation_test.js, stated on the model: two
// components in the top-left corner, the source at (0, 1) and the target
// at (0, 0), one `update()`.
//
// With the input table exactly as js/components.js declares it (no kind
// has `inputs`), canConnect never holds, so no energy ever moves and no
// connection is ever listed: the scenarios the tests expect to connect do
// not. With an input table that gives wires the inputs {1, 2, 3} and
// extractors none, which is what the tests assume, every scenario comes out
// as the tests expect.
module EngineScenarios {
  import opened Constants
  import opened Components
  import opened Grid
  import opened Connect
  import opened Solver
  import opened EnergyLaws
  import opened OverloadLaws
  import opened Particles
  import opened ParticleLaws
  import opened Trace
  import opened Engine

  /** `createComponent(type, rot, energy)` of the tests. */
  function Fresh(k: Kind, rot: int, e: real): Component
  {
    Component(k, rot, e, MaxEnergy(k), 0)
  }

  /** An otherwise empty grid with the source at (0, 1) and the target at (0, 0). */
  function TwoCells(src: Component, tgt: Component): (g: GridCells)
    ensures Square(g) && g[1][0] == Some(src) && g[0][0] == Some(tgt)
    ensures forall j, i :: 0 <= j < GRID_SIZE && 0 <= i < GRID_SIZE && !(i == 0 && j <= 1) ==> g[j][i] == None
  {
    Set(Set(Fill(None), 0, 1, Some(src)), 0, 0, Some(tgt))
  }

  /** The input table as js/components.js declares it: no kind lists any input port. */
  function DeclaredInputs(): InputTable
  {
    _ => {}
  }

  /** An input table that agrees with what the tests assume: wires take input on ports 1, 2, 3 and extractors on none. */
  predicate TestedInputs(inputs: InputTable)
  {
    inputs(Wire) == {1, 2, 3} && inputs(Extractor) == {}
  }

  // ---------------------------------------------------------------------
  // Cells that do not push

  /** With no accepting neighbour on any port, a source finds no target. */
  lemma {:induction false} NoTargets(r: Rules, g: GridCells, c: Component, x: int, y: int, ports: seq<int>)
    requires Square(g)
    requires forall o :: o in ports ==> var d := (c.rotation + o) % 4;
      !(InBounds(StepX(x, d), StepY(y, d)) && Accepts(r, c, g[StepY(y, d)][StepX(x, d)], d))
    ensures TargetsOf(r, g, c, x, y, ports) == []
  {
    if ports != [] {
      var n := |ports| - 1;
      assert ports[n] in ports;
      assert forall o :: o in ports[..n] ==> o in ports;
      NoTargets(r, g, c, x, y, ports[..n]);
    }
  }

  /** Under the declared table no component ever pushes. */
  lemma DeclaredNeverPushes(g: GridCells, amb: Matrix<real>, x: int, y: int)
    requires Square(g) && Square(amb) && InBounds(x, y)
    ensures !Pushes(EngineRules(DeclaredInputs()), g, amb, x, y)
  {
    if g[y][x].Some? {
      var c2 := Prepare(g[y][x].value, amb[y][x]).0;
      NoTargets(EngineRules(DeclaredInputs()), g, c2, x, y, Outputs(c2.kind));
    }
  }

  /** A single-output component in the corner facing up or left points off the grid and never pushes. */
  lemma CornerSilent(r: Rules, g: GridCells, amb: Matrix<real>)
    requires Square(g) && Square(amb) && r.ports == KindOutputs
    requires g[0][0].Some? && Outputs(g[0][0].value.kind) == [0] && g[0][0].value.rotation in {0, 3}
    ensures !Pushes(r, g, amb, 0, 0)
  {
    var c2 := Prepare(g[0][0].value, amb[0][0]).0;
    assert c2.kind == g[0][0].value.kind && c2.rotation == g[0][0].value.rotation;
    NoTargets(r, g, c2, 0, 0, [0]);
  }

  /** In a two-cell grid whose corner stays silent, only the source at (0, 1) can push. */
  lemma TwoCellsLone(r: Rules, src: Component, tgt: Component, amb: Matrix<real>)
    requires Square(amb) && r.ports == KindOutputs
    requires Outputs(tgt.kind) == [0] && tgt.rotation in {0, 3}
    ensures OnlySource(r, TwoCells(src, tgt), amb, 0, 1)
  {
    CornerSilent(r, TwoCells(src, tgt), amb);
  }

  // ---------------------------------------------------------------------
  // One tick with a single source

  /** The accumulator a single pushing source leaves. */
  function LoneChangesOf(r: Rules, g: GridCells, amb: Matrix<real>, x0: int, y0: int): (m: Matrix<real>)
    requires Square(g) && Square(amb) && InBounds(x0, y0)
    ensures Square(m)
  {
    if Pushes(r, g, amb, x0, y0) then AddEach(Fill(0.0), OwnTargets(r, g, amb, x0, y0), Share(r, g, amb, x0, y0)) else Fill(0.0)
  }

  /** Pass 1 with a single source: each cell as AfterPass1 leaves it, and that source's shares pending. */
  lemma LonePass1(r: Rules, g: GridCells, amb: Matrix<real>, s0: Stats, x0: int, y0: int)
    requires ValidGrid(g) && AmbientOk(amb)
    requires InBounds(x0, y0) && OnlySource(r, g, amb, x0, y0)
    ensures var st := Pass1(r, g, amb, s0);
      && st.flows == FlowsOut(r, g, amb, x0, y0)
      && st.changes == LoneChangesOf(r, g, amb, x0, y0)
      && (forall j, i :: 0 <= j < GRID_SIZE && 0 <= i < GRID_SIZE ==> st.grid[j][i] == AfterPass1(r, g, amb, i, j))
  {
    Pass1Closed(r, g, amb, s0);
    LoneFlows(r, g, amb, x0, y0, GRID_SIZE, 0);
    LoneChanges(r, g, amb, x0, y0, GRID_SIZE, 0);
    Pass1Cells(r, g, amb, s0, GRID_SIZE, 0);
  }

  /** Pass 2 at one cell: the pending amount lands, unless the occupant then exceeds its capacity plus 50. */
  function Settle(a: Cell, add: real): Cell
  {
    match a
    case None => None
    case Some(c) => if c.energy + add > Limit(c) then None else Some(c.(energy := c.energy + add))
  }

  /** Pass 2 settles every cell independently. */
  lemma Pass2Settles(g: GridCells, changes: Matrix<real>)
    requires Square(g) && Square(changes)
    ensures Square(Pass2(g, changes).grid)
    ensures forall j, i :: 0 <= j < GRID_SIZE && 0 <= i < GRID_SIZE ==> Pass2(g, changes).grid[j][i] == Settle(g[j][i], changes[j][i])
  {
    Pass2Outcome(g, changes);
    forall j, i | 0 <= j < GRID_SIZE && 0 <= i < GRID_SIZE
      ensures Pass2(g, changes).grid[j][i] == Settle(g[j][i], changes[j][i])
    {
      assert Pass2(g, changes).grid[j][i] == AfterPass2(g, changes, i, j);
    }
  }

  /** A physics tick in which only (x0, y0) pushes: every cell ends as pass 1 leaves it, settled with that source's share. */
  lemma LoneTickGrid(r: Rules, g: GridCells, amb: Matrix<real>, s0: Stats, x0: int, y0: int)
    requires ValidGrid(g) && AmbientOk(amb)
    requires InBounds(x0, y0) && OnlySource(r, g, amb, x0, y0)
    ensures var t := PhysicsTick(r, g, amb, s0);
      && t.flows == FlowsOut(r, g, amb, x0, y0)
      && Square(t.grid)
      && (forall j, i :: 0 <= j < GRID_SIZE && 0 <= i < GRID_SIZE ==>
            t.grid[j][i] == Settle(AfterPass1(r, g, amb, i, j), LoneChangesOf(r, g, amb, x0, y0)[j][i]))
  {
    LonePass1(r, g, amb, s0, x0, y0);
    var st1 := Pass1(r, g, amb, s0);
    Pass2Settles(st1.grid, st1.changes);
  }

  /** A physics tick in which only (x0, y0) pushes reports only cells that its share overloads. */
  lemma LoneTickEvents(r: Rules, g: GridCells, amb: Matrix<real>, s0: Stats, x0: int, y0: int)
    requires ValidGrid(g) && AmbientOk(amb)
    requires InBounds(x0, y0) && OnlySource(r, g, amb, x0, y0)
    ensures forall e :: e in PhysicsTick(r, g, amb, s0).events ==>
      && e.Exploded? && InBounds(e.x, e.y)
      && Settle(AfterPass1(r, g, amb, e.x, e.y), LoneChangesOf(r, g, amb, x0, y0)[e.y][e.x]) == None
      && AfterPass1(r, g, amb, e.x, e.y).Some?
  {
    LonePass1(r, g, amb, s0, x0, y0);
    var st1 := Pass1(r, g, amb, s0);
    var m := LoneChangesOf(r, g, amb, x0, y0);
    Pass2Outcome(st1.grid, st1.changes);
    forall e | e in PhysicsTick(r, g, amb, s0).events
      ensures e.Exploded? && InBounds(e.x, e.y)
      ensures Settle(AfterPass1(r, g, amb, e.x, e.y), m[e.y][e.x]) == None
      ensures AfterPass1(r, g, amb, e.x, e.y).Some?
    {
      assert e in Pass2(st1.grid, st1.changes).events;
      assert Overloaded(st1.grid, st1.changes, e.x, e.y);
      assert st1.grid[e.y][e.x] == AfterPass1(r, g, amb, e.x, e.y);
    }
  }

  /** No maker anywhere on the grid. */
  predicate NoMakers(g: GridCells)
    requires Square(g)
  {
    forall j, i :: 0 <= j < GRID_SIZE && 0 <= i < GRID_SIZE && g[j][i].Some? ==> g[j][i].value.kind != Maker
  }

  /** The spawn loop does nothing on a grid without makers. */
  lemma {:induction false} SpawnIdle(pr: ParticleRules, w: World, y: nat, x: nat)
    requires Square(w.grid) && NoMakers(w.grid)
    requires (y < GRID_SIZE && x <= GRID_SIZE) || (y == GRID_SIZE && x == 0)
    ensures SpawnUpto(pr, w, y, x) == w
    decreases y, x
  {
    if x == 0 {
      if y > 0 {
        SpawnIdle(pr, w, y - 1, GRID_SIZE);
      }
    } else {
      SpawnIdle(pr, w, y, x - 1);
    }
  }

  /** With no maker left after the solver and no particle in flight, `update()` is the solver tick alone. */
  lemma EngineTickIdle(inputs: InputTable, g: GridCells, amb: Matrix<real>, s0: Stats)
    requires ValidGrid(g) && AmbientOk(amb) && NoMakers(PhysicsTick(EngineRules(inputs), g, amb, s0).grid)
    ensures var t := PhysicsTick(EngineRules(inputs), g, amb, s0);
      var s := EngineTick(inputs, g, amb, [], s0);
      s.grid == t.grid && s.particles == [] && s.flows == t.flows && s.events == t.events
  {
    PhysicsTickLaws(EngineRules(inputs), g, amb, s0);
    var t := PhysicsTick(EngineRules(inputs), g, amb, s0);
    var w0 := World(t.grid, [], t.stats, []);
    SpawnIdle(ENGINE_PARTICLES, w0, GRID_SIZE, 0);
    assert t.events + [] == t.events;
  }

  // ---------------------------------------------------------------------
  // The scenarios under the declared table (as written)

  /** Under the declared table no tick ever records a flow or moves energy between cells. */
  lemma DeclaredNoFlow(g: GridCells, amb: Matrix<real>, s0: Stats)
    requires ValidGrid(g) && AmbientOk(amb)
    ensures PhysicsTick(EngineRules(DeclaredInputs()), g, amb, s0).flows == []
    ensures Structural(DeclaredInputs(), g) == []
  {
    var r := EngineRules(DeclaredInputs());
    forall j, i | 0 <= j < GRID_SIZE && 0 <= i < GRID_SIZE
      ensures !Pushes(r, g, amb, i, j)
    {
      DeclaredNeverPushes(g, amb, i, j);
    }
    LoneTickGrid(r, g, amb, s0, 0, 0);
    StructuralSound(DeclaredInputs(), g, GRID_SIZE, 0);
    var s := Structural(DeclaredInputs(), g);
    FirstIn(s);
  }

  /** With a wire source and a silent corner, no cell ever holds a maker after the tick. */
  lemma TwoCellsNoMakers(r: Rules, src: Component, tgt: Component, amb: Matrix<real>, s0: Stats)
    requires ComponentOk(src) && ComponentOk(tgt) && src.kind != Maker && tgt.kind != Maker
    requires AmbientOk(amb) && r.ports == KindOutputs
    requires Outputs(tgt.kind) == [0] && tgt.rotation in {0, 3}
    ensures ValidGrid(TwoCells(src, tgt))
    ensures NoMakers(PhysicsTick(r, TwoCells(src, tgt), amb, s0).grid)
  {
    var g := TwoCells(src, tgt);
    TwoCellsLone(r, src, tgt, amb);
    LoneTickGrid(r, g, amb, s0, 0, 1);
    var t := PhysicsTick(r, g, amb, s0);
    var m := LoneChangesOf(r, g, amb, 0, 1);
    forall j, i | 0 <= j < GRID_SIZE && 0 <= i < GRID_SIZE && t.grid[j][i].Some?
      ensures t.grid[j][i].value.kind != Maker
    {
      var a := AfterPass1(r, g, amb, i, j);
      assert t.grid[j][i] == Settle(a, m[j][i]);
      AfterPass1Shape(r, g, amb, i, j);
      assert a.value.kind == g[j][i].value.kind;
    }
  }

  /**
   * "Wire Connection - Straight" under the declared table: after `update()` the source still holds 50,
   * the target still holds 0 and no connection is active, where the test expects energy to move along
   * one connection; "Structural Connections" finds none, where the test expects one.
   */
  lemma DeclaredStraightWire(amb: Matrix<real>, s0: Stats)
    requires AmbientOk(amb)
    ensures var s := EngineTick(DeclaredInputs(), TwoCells(Fresh(Wire, 0, 50.0), Fresh(Wire, 0, 0.0)), amb, [], s0);
      Square(s.grid) && s.grid[1][0] == Some(Fresh(Wire, 0, 50.0)) && s.grid[0][0] == Some(Fresh(Wire, 0, 0.0)) && s.flows == []
    ensures Structural(DeclaredInputs(), TwoCells(Fresh(Wire, 0, 0.0), Fresh(Wire, 0, 0.0))) == []
  {
    var g := TwoCells(Fresh(Wire, 0, 50.0), Fresh(Wire, 0, 0.0));
    DeclaredNoFlow(TwoCells(Fresh(Wire, 0, 0.0), Fresh(Wire, 0, 0.0)), amb, s0);
    DeclaredNeverPushes(g, amb, 0, 1);
    QuietTwoCells(EngineRules(DeclaredInputs()), Fresh(Wire, 0, 50.0), Fresh(Wire, 0, 0.0), amb, s0);
    TwoCellsNoMakers(EngineRules(DeclaredInputs()), Fresh(Wire, 0, 50.0), Fresh(Wire, 0, 0.0), amb, s0);
    EngineTickIdle(DeclaredInputs(), g, amb, s0);
  }

  // ---------------------------------------------------------------------
  // A source that does not push

  /** When neither cell pushes, a wire source keeps its energy, a wire target too, and nothing flows. */
  lemma QuietTwoCells(r: Rules, src: Component, tgt: Component, amb: Matrix<real>, s0: Stats)
    requires ComponentOk(src) && ComponentOk(tgt) && src.kind == Wire && src.energy <= Limit(src)
    requires AmbientOk(amb) && r.ports == KindOutputs
    requires Outputs(tgt.kind) == [0] && tgt.rotation in {0, 3}
    requires !Pushes(r, TwoCells(src, tgt), amb, 0, 1)
    ensures var t := PhysicsTick(r, TwoCells(src, tgt), amb, s0);
      && Square(t.grid) && t.grid[1][0] == Some(src) && t.flows == []
      && (tgt.kind == Wire && tgt.energy <= Limit(tgt) ==> t.grid[0][0] == Some(tgt))
  {
    var g := TwoCells(src, tgt);
    TwoCellsLone(r, src, tgt, amb);
    CornerSilent(r, g, amb);
    LoneTickGrid(r, g, amb, s0, 0, 1);
    var m := LoneChangesOf(r, g, amb, 0, 1);
    assert m == Fill(0.0);
    assert Prepare(src, amb[1][0]).0 == src;
    assert AfterPass1(r, g, amb, 0, 1) == Some(src.(energy := src.energy - 0.0));
    assert src.(energy := src.energy - 0.0 + 0.0) == src;
    assert Settle(AfterPass1(r, g, amb, 0, 1), m[1][0]) == Some(src);
    if tgt.kind == Wire && tgt.energy <= Limit(tgt) {
      assert Prepare(tgt, amb[0][0]).0 == tgt;
      assert AfterPass1(r, g, amb, 0, 0) == Some(tgt.(energy := tgt.energy - 0.0));
      assert tgt.(energy := tgt.energy - 0.0 + 0.0) == tgt;
      assert Settle(AfterPass1(r, g, amb, 0, 0), m[0][0]) == Some(tgt);
    }
  }

  /** "Wire Connection - Broken Rotation": a source facing right has no neighbour there, so nothing moves, whatever the input table. */
  lemma BrokenRotation(inputs: InputTable, amb: Matrix<real>, s0: Stats)
    requires AmbientOk(amb)
    ensures var s := EngineTick(inputs, TwoCells(Fresh(Wire, 1, 50.0), Fresh(Wire, 0, 0.0)), amb, [], s0);
      Square(s.grid) && s.grid[1][0] == Some(Fresh(Wire, 1, 50.0)) && s.grid[0][0] == Some(Fresh(Wire, 0, 0.0)) && s.flows == []
  {
    var r := EngineRules(inputs);
    var src, tgt := Fresh(Wire, 1, 50.0), Fresh(Wire, 0, 0.0);
    var g := TwoCells(src, tgt);
    NoTargets(r, g, src, 0, 1, [0]);
    assert !Pushes(r, g, amb, 0, 1);
    QuietTwoCells(r, src, tgt, amb, s0);
    TwoCellsNoMakers(r, src, tgt, amb, s0);
    EngineTickIdle(inputs, g, amb, s0);
  }

  /** "Wire Connection - Input Rejection": an extractor takes no input, so the wire keeps its 50 and no connection is active. */
  lemma InputRejection(inputs: InputTable, amb: Matrix<real>, s0: Stats)
    requires AmbientOk(amb) && TestedInputs(inputs)
    ensures var s := EngineTick(inputs, TwoCells(Fresh(Wire, 0, 50.0), Fresh(Extractor, 0, 0.0)), amb, [], s0);
      Square(s.grid) && s.grid[1][0] == Some(Fresh(Wire, 0, 50.0)) && s.flows == []
  {
    var r := EngineRules(inputs);
    var src, tgt := Fresh(Wire, 0, 50.0), Fresh(Extractor, 0, 0.0);
    var g := TwoCells(src, tgt);
    assert RelativePort(2, 0) == 2;
    NoTargets(r, g, src, 0, 1, [0]);
    assert !Pushes(r, g, amb, 0, 1);
    QuietTwoCells(r, src, tgt, amb, s0);
    TwoCellsNoMakers(r, src, tgt, amb, s0);
    EngineTickIdle(inputs, g, amb, s0);
  }

  // ---------------------------------------------------------------------
  // A source that pushes: the tested table

  /** The 50-energy upward wire at (0, 1) sends 2.5 to a wire at (0, 0) facing up or left. */
  lemma WireSourcePushes(inputs: InputTable, rot: int, amb: Matrix<real>)
    requires TestedInputs(inputs) && rot in {0, 3} && Square(amb)
    ensures var g := TwoCells(Fresh(Wire, 0, 50.0), Fresh(Wire, rot, 0.0));
      && Pushes(EngineRules(inputs), g, amb, 0, 1)
      && OwnTargets(EngineRules(inputs), g, amb, 0, 1) == [Target(0, 0, 0)]
      && Share(EngineRules(inputs), g, amb, 0, 1) == 2.5
      && Outflow(EngineRules(inputs), g, amb, 0, 1) == 2.5
  {
    var r := EngineRules(inputs);
    var src := Fresh(Wire, 0, 50.0);
    var g := TwoCells(src, Fresh(Wire, rot, 0.0));
    assert RelativePort(2, rot) in {2, 3};
    assert CanConnect(inputs, Some(src), g[0][0], 0);
    assert TargetsOf(r, g, src, 0, 1, []) == [];
    assert TargetsOf(r, g, src, 0, 1, [0]) == [Target(0, 0, 0)];
    assert Available(r, src) == 2.5;
  }

  /** The solver tick of the straight and side-input scenarios: 2.5 moves along the one connection. */
  lemma WireTickPhysics(inputs: InputTable, rot: int, amb: Matrix<real>, s0: Stats)
    requires TestedInputs(inputs) && rot in {0, 3} && AmbientOk(amb)
    ensures var t := PhysicsTick(EngineRules(inputs), TwoCells(Fresh(Wire, 0, 50.0), Fresh(Wire, rot, 0.0)), amb, s0);
      && Square(t.grid)
      && t.grid[1][0] == Some(Fresh(Wire, 0, 47.5)) && t.grid[0][0] == Some(Fresh(Wire, rot, 2.5))
      && t.flows == [Flow(0, 1, 0, 0, 2.5)]
  {
    var r := EngineRules(inputs);
    var src, tgt := Fresh(Wire, 0, 50.0), Fresh(Wire, rot, 0.0);
    var g := TwoCells(src, tgt);
    TwoCellsLone(r, src, tgt, amb);
    WireTickCells(inputs, rot, amb);
    LoneTickGrid(r, g, amb, s0, 0, 1);
    var fs := FlowsFor(0, 1, [Target(0, 0, 0)], 2.5);
    assert fs == [Flow(0, 1, 0, 0, 2.5)];
  }

  /** Pass 1 of the straight and side-input scenarios, and the share pending for each of the two cells. */
  lemma WireTickCells(inputs: InputTable, rot: int, amb: Matrix<real>)
    requires TestedInputs(inputs) && rot in {0, 3} && AmbientOk(amb)
    ensures var r := EngineRules(inputs);
      var g := TwoCells(Fresh(Wire, 0, 50.0), Fresh(Wire, rot, 0.0));
      var m := LoneChangesOf(r, g, amb, 0, 1);
      && Settle(AfterPass1(r, g, amb, 0, 1), m[1][0]) == Some(Fresh(Wire, 0, 47.5))
      && Settle(AfterPass1(r, g, amb, 0, 0), m[0][0]) == Some(Fresh(Wire, rot, 2.5))
      && FlowsOut(r, g, amb, 0, 1) == FlowsFor(0, 1, [Target(0, 0, 0)], 2.5)
  {
    var r := EngineRules(inputs);
    var src, tgt := Fresh(Wire, 0, 50.0), Fresh(Wire, rot, 0.0);
    var g := TwoCells(src, tgt);
    CornerSilent(r, g, amb);
    WireSourcePushes(inputs, rot, amb);
    WireChanges(inputs, rot, amb);
    assert Prepare(src, amb[1][0]).0 == src;
    assert AfterPass1(r, g, amb, 0, 1) == Some(src.(energy := 50.0 - 2.5));
    assert Prepare(tgt, amb[0][0]).0 == tgt;
    assert AfterPass1(r, g, amb, 0, 0) == Some(tgt.(energy := 0.0 - 0.0));
  }

  /** The accumulator of the straight and side-input scenarios: 2.5 pending at (0, 0), nothing at (0, 1). */
  lemma WireChanges(inputs: InputTable, rot: int, amb: Matrix<real>)
    requires TestedInputs(inputs) && rot in {0, 3} && Square(amb)
    ensures var m := LoneChangesOf(EngineRules(inputs), TwoCells(Fresh(Wire, 0, 50.0), Fresh(Wire, rot, 0.0)), amb, 0, 1);
      m[0][0] == 2.5 && m[1][0] == 0.0
  {
    WireSourcePushes(inputs, rot, amb);
    var ts := [Target(0, 0, 0)];
    assert ts[..0] == [];
    assert AddEach(Fill(0.0), ts, 2.5) == Set(Fill(0.0), 0, 0, Fill(0.0)[0][0] + 2.5);
  }

  /** A list that is not empty holds its first element. */
  lemma FirstIn<T>(s: seq<T>)
    ensures s == [] || s[0] in s
  {
  }

  /** A physics tick with one pushing source reports nothing when every occupied cell survives its settling. */
  lemma LoneTickNoEvents(r: Rules, g: GridCells, amb: Matrix<real>, s0: Stats, x0: int, y0: int)
    requires ValidGrid(g) && AmbientOk(amb)
    requires InBounds(x0, y0) && OnlySource(r, g, amb, x0, y0)
    requires forall j, i :: 0 <= j < GRID_SIZE && 0 <= i < GRID_SIZE && g[j][i].Some? ==>
      Settle(AfterPass1(r, g, amb, i, j), LoneChangesOf(r, g, amb, x0, y0)[j][i]).Some?
    ensures PhysicsTick(r, g, amb, s0).events == []
  {
    LoneTickEvents(r, g, amb, s0, x0, y0);
    FirstIn(PhysicsTick(r, g, amb, s0).events);
  }

  /** The solver tick of the straight and side-input scenarios destroys nothing. */
  lemma WireTickCalm(inputs: InputTable, rot: int, amb: Matrix<real>, s0: Stats)
    requires TestedInputs(inputs) && rot in {0, 3} && AmbientOk(amb)
    ensures PhysicsTick(EngineRules(inputs), TwoCells(Fresh(Wire, 0, 50.0), Fresh(Wire, rot, 0.0)), amb, s0).events == []
  {
    var r := EngineRules(inputs);
    var src, tgt := Fresh(Wire, 0, 50.0), Fresh(Wire, rot, 0.0);
    var g := TwoCells(src, tgt);
    TwoCellsLone(r, src, tgt, amb);
    WireTickCells(inputs, rot, amb);
    var m := LoneChangesOf(r, g, amb, 0, 1);
    forall j, i | 0 <= j < GRID_SIZE && 0 <= i < GRID_SIZE && g[j][i].Some?
      ensures Settle(AfterPass1(r, g, amb, i, j), m[j][i]).Some?
    {
      assert i == 0 && j <= 1;
    }
    LoneTickNoEvents(r, g, amb, s0, 0, 1);
  }

  /**
   * "Wire Connection - Straight" with the tested table: after `update()` the source holds 47.5, the
   * target 2.5, and the one active connection runs from (0, 1) to (0, 0) carrying 2.5.
   */
  lemma StraightWire(inputs: InputTable, amb: Matrix<real>, s0: Stats)
    requires AmbientOk(amb) && TestedInputs(inputs)
    ensures var s := EngineTick(inputs, TwoCells(Fresh(Wire, 0, 50.0), Fresh(Wire, 0, 0.0)), amb, [], s0);
      && Square(s.grid) && s.grid[1][0] == Some(Fresh(Wire, 0, 47.5)) && s.grid[0][0] == Some(Fresh(Wire, 0, 2.5))
      && s.flows == [Flow(0, 1, 0, 0, 2.5)] && s.events == []
  {
    var g := TwoCells(Fresh(Wire, 0, 50.0), Fresh(Wire, 0, 0.0));
    WireTickPhysics(inputs, 0, amb, s0);
    WireTickCalm(inputs, 0, amb, s0);
    TwoCellsNoMakers(EngineRules(inputs), Fresh(Wire, 0, 50.0), Fresh(Wire, 0, 0.0), amb, s0);
    EngineTickIdle(inputs, g, amb, s0);
  }

  /** "Wire Connection - Side Input": a target facing left takes the source's energy on its port 3. */
  lemma SideInput(inputs: InputTable, amb: Matrix<real>, s0: Stats)
    requires AmbientOk(amb) && TestedInputs(inputs)
    ensures var s := EngineTick(inputs, TwoCells(Fresh(Wire, 0, 50.0), Fresh(Wire, 3, 0.0)), amb, [], s0);
      && Square(s.grid) && s.grid[1][0] == Some(Fresh(Wire, 0, 47.5)) && s.grid[0][0] == Some(Fresh(Wire, 3, 2.5))
      && s.flows == [Flow(0, 1, 0, 0, 2.5)] && s.events == []
  {
    var g := TwoCells(Fresh(Wire, 0, 50.0), Fresh(Wire, 3, 0.0));
    assert RelativePort(Opposite(0), 3) == 3;
    WireTickPhysics(inputs, 3, amb, s0);
    WireTickCalm(inputs, 3, amb, s0);
    TwoCellsNoMakers(EngineRules(inputs), Fresh(Wire, 0, 50.0), Fresh(Wire, 3, 0.0), amb, s0);
    EngineTickIdle(inputs, g, amb, s0);
  }

  // ---------------------------------------------------------------------
  // Structural connections

  /** When every list but the one at (x0, y0) is empty, the join is that list once reached. */
  lemma {:induction false} JoinLone<T>(m: Matrix<seq<T>>, x0: int, y0: int, y: nat, x: nat)
    requires Square(m) && InBounds(x0, y0)
    requires forall j, i :: 0 <= j < GRID_SIZE && 0 <= i < GRID_SIZE && (i != x0 || j != y0) ==> m[j][i] == []
    requires (y < GRID_SIZE && x <= GRID_SIZE) || (y == GRID_SIZE && x == 0)
    ensures JoinUpto(m, y, x) == if Before(x0, y0, x, y) then m[y0][x0] else []
    decreases y, x
  {
    if x == 0 {
      if y > 0 {
        JoinLone(m, x0, y0, y - 1, GRID_SIZE);
      }
    } else {
      JoinLone(m, x0, y0, y, x - 1);
      var prev := JoinUpto(m, y, x - 1);
      if x - 1 != x0 || y != y0 {
        assert prev + m[y][x - 1] == prev;
      } else {
        assert prev + m[y][x - 1] == m[y][x - 1];
      }
    }
  }

  /** When every cell but (x0, y0) lists no connection, the structural list is that cell's. */
  lemma LoneConns(inputs: InputTable, g: GridCells, x0: int, y0: int)
    requires Square(g) && InBounds(x0, y0)
    requires forall j, i :: 0 <= j < GRID_SIZE && 0 <= i < GRID_SIZE && (i != x0 || j != y0) ==> ConnsAt(inputs, g, i, j) == []
    ensures Structural(inputs, g) == ConnsAt(inputs, g, x0, y0)
  {
    StructuralIsJoin(inputs, g, ConnsMatrix(inputs, g), GRID_SIZE, 0);
    JoinLone(ConnsMatrix(inputs, g), x0, y0, GRID_SIZE, 0);
  }

  /** "Structural Connections" with the tested table: two upward wires give exactly one connection, (0, 1) to (0, 0) upwards. */
  lemma StructuralPair(inputs: InputTable)
    requires TestedInputs(inputs)
    ensures Structural(inputs, TwoCells(Fresh(Wire, 0, 0.0), Fresh(Wire, 0, 0.0))) == [Connection(0, 1, 0, 0, 0)]
  {
    var r := EngineRules(inputs);
    var w := Fresh(Wire, 0, 0.0);
    var g := TwoCells(w, w);
    NoTargets(r, g, w, 0, 0, [0]);
    assert ConnsAt(inputs, g, 0, 0) == [];
    assert CanConnect(inputs, Some(w), g[0][0], 0);
    assert TargetsOf(r, g, w, 0, 1, []) == [];
    assert TargetsOf(r, g, w, 0, 1, [0]) == [Target(0, 0, 0)];
    assert ConnsAt(inputs, g, 0, 1) == [Connection(0, 1, 0, 0, 0)];
    LoneConns(inputs, g, 0, 1);
  }
}
