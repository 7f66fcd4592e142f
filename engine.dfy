// The game engine of js/engine.js: a grid of components over an ambient
// map, the particles in flight and the running statistics, advanced one
// tick at a time by `update` (the energy solver, then the particles).
//
// The engine's solver pushes through each kind's output ports and only into
// neighbours that `canConnect` accepts; the input side of that check reads a
// per-kind input table, which is a parameter of the engine here.
module Engine {
  import opened Constants
  import opened Components
  import opened Grid
  import opened Connect
  import opened Solver
  import opened EnergyLaws
  import opened OverloadLaws
  import opened Particles
  import opened ParticleLaws
  import opened Trace
  import opened Ticks

  /** Solver rules of this generation: the kind's outputs, `canConnect`, half-speed batteries, more than 0.1 to move. */
  function EngineRules(inputs: InputTable): Rules
  {
    Rules(KindOutputs, PortMatch(inputs), BatteryHalfSpeed, 0.1)
  }

  /** Makers spend 25 with a cooldown of 15, rails boost for 25, particles die on these five kinds. */
  const ENGINE_PARTICLES: ParticleRules := ParticleRules(25.0, 15, 25.0, {Wall, Maker, Extractor, Battery, Prism})

  /** A structural connection `{x, y, tx, ty, dir}`. */
  datatype Connection = Connection(x: int, y: int, tx: int, ty: int, dir: int)

  /** The connections from (x, y) to each of the given targets. */
  function ToConns(x: int, y: int, ts: seq<Target>): (cs: seq<Connection>)
    ensures |cs| == |ts|
    ensures forall i :: 0 <= i < |ts| ==> cs[i] == Connection(x, y, ts[i].x, ts[i].y, ts[i].dir)
  {
    seq(|ts|, i requires 0 <= i < |ts| => Connection(x, y, ts[i].x, ts[i].y, ts[i].dir))
  }

  /** The structural connections out of cell (x, y), in port order. */
  function ConnsAt(inputs: InputTable, g: GridCells, x: int, y: int): seq<Connection>
    requires Square(g) && InBounds(x, y)
  {
    match g[y][x]
    case None => []
    case Some(c) => ToConns(x, y, TargetsOf(EngineRules(inputs), g, c, x, y, Outputs(c.kind)))
  }

  /** The structural connections of every cell above row y and of the first x cells of row y. */
  function StructuralUpto(inputs: InputTable, g: GridCells, y: nat, x: nat): seq<Connection>
    requires Square(g)
    requires (y < GRID_SIZE && x <= GRID_SIZE) || (y == GRID_SIZE && x == 0)
    decreases y, x
  {
    if x == 0 then
      if y == 0 then [] else StructuralUpto(inputs, g, y - 1, GRID_SIZE)
    else
      StructuralUpto(inputs, g, y, x - 1) + ConnsAt(inputs, g, x - 1, y)
  }

  /** `getStructuralConnections()` on grid g. */
  function Structural(inputs: InputTable, g: GridCells): seq<Connection>
    requires Square(g)
  {
    StructuralUpto(inputs, g, GRID_SIZE, 0)
  }

  /** The connections of the cells that push energy this tick, in visiting order. */
  function ActiveUpto(inputs: InputTable, g: GridCells, amb: Matrix<real>, y: nat, x: nat): seq<Connection>
    requires Square(g) && Square(amb)
    requires (y < GRID_SIZE && x <= GRID_SIZE) || (y == GRID_SIZE && x == 0)
    decreases y, x
  {
    if x == 0 then
      if y == 0 then [] else ActiveUpto(inputs, g, amb, y - 1, GRID_SIZE)
    else
      ActiveUpto(inputs, g, amb, y, x - 1) +
      (if Pushes(EngineRules(inputs), g, amb, x - 1, y) then ConnsAt(inputs, g, x - 1, y) else [])
  }

  /** Source and target cells of each flow. */
  function FlowEnds(fs: seq<Flow>): (es: seq<(int, int, int, int)>)
    ensures |es| == |fs|
    ensures forall i :: 0 <= i < |fs| ==> es[i] == (fs[i].x, fs[i].y, fs[i].tx, fs[i].ty)
  {
    seq(|fs|, i requires 0 <= i < |fs| => (fs[i].x, fs[i].y, fs[i].tx, fs[i].ty))
  }

  /** Source and target cells of each connection. */
  function ConnEnds(cs: seq<Connection>): (es: seq<(int, int, int, int)>)
    ensures |es| == |cs|
    ensures forall i :: 0 <= i < |cs| ==> es[i] == (cs[i].x, cs[i].y, cs[i].tx, cs[i].ty)
  {
    seq(|cs|, i requires 0 <= i < |cs| => (cs[i].x, cs[i].y, cs[i].tx, cs[i].ty))
  }

  // ---------------------------------------------------------------------
  // Structural connections

  /** Every target a source finds passes the acceptance test of the rules. */
  lemma {:induction false} TargetsAccepted(r: Rules, g: GridCells, c: Component, x: int, y: int, ports: seq<int>)
    requires Square(g)
    ensures forall t :: t in TargetsOf(r, g, c, x, y, ports) ==> Accepts(r, c, g[t.y][t.x], t.dir)
  {
    if ports != [] {
      TargetsAccepted(r, g, c, x, y, ports[..|ports| - 1]);
    }
  }

  /** An accepting in-bounds neighbour reached through one of the ports is among the targets. */
  lemma {:induction false} TargetsComplete(r: Rules, g: GridCells, c: Component, x: int, y: int, ports: seq<int>, o: int)
    requires Square(g) && o in ports
    requires var d := (c.rotation + o) % 4;
      InBounds(StepX(x, d), StepY(y, d)) && Accepts(r, c, g[StepY(y, d)][StepX(x, d)], d)
    ensures var d := (c.rotation + o) % 4;
      Target(StepX(x, d), StepY(y, d), d) in TargetsOf(r, g, c, x, y, ports)
  {
    var n := |ports| - 1;
    if ports[n] != o {
      assert o in ports[..n];
      TargetsComplete(r, g, c, x, y, ports[..n], o);
    }
  }

  /** A connection is sound: it leaves a grid cell one step towards a neighbour that `canConnect` accepts. */
  predicate SoundConnection(inputs: InputTable, g: GridCells, cn: Connection)
    requires Square(g)
  {
    InBounds(cn.x, cn.y) && IsDir(cn.dir) && InBounds(cn.tx, cn.ty) &&
    cn.tx == StepX(cn.x, cn.dir) && cn.ty == StepY(cn.y, cn.dir) &&
    CanConnect(inputs, g[cn.y][cn.x], g[cn.ty][cn.tx], cn.dir)
  }

  /** Every connection out of one cell is sound. */
  lemma ConnsAtSound(inputs: InputTable, g: GridCells, x: int, y: int)
    requires Square(g) && InBounds(x, y)
    ensures forall cn :: cn in ConnsAt(inputs, g, x, y) ==> SoundConnection(inputs, g, cn)
  {
    if g[y][x].Some? {
      var c := g[y][x].value;
      var ts := TargetsOf(EngineRules(inputs), g, c, x, y, Outputs(c.kind));
      TargetsAccepted(EngineRules(inputs), g, c, x, y, Outputs(c.kind));
      forall cn | cn in ConnsAt(inputs, g, x, y)
        ensures SoundConnection(inputs, g, cn)
      {
        var i :| 0 <= i < |ts| && cn == ToConns(x, y, ts)[i];
        assert ts[i] in ts;
      }
    }
  }

  /** A connection listed for some visited cell is sound: it leaves that cell towards an accepting neighbour. */
  lemma {:induction false} StructuralSound(inputs: InputTable, g: GridCells, y: nat, x: nat)
    requires Square(g)
    requires (y < GRID_SIZE && x <= GRID_SIZE) || (y == GRID_SIZE && x == 0)
    ensures forall cn :: cn in StructuralUpto(inputs, g, y, x) ==> SoundConnection(inputs, g, cn)
    decreases y, x
  {
    if x == 0 {
      if y > 0 {
        StructuralSound(inputs, g, y - 1, GRID_SIZE);
      }
    } else {
      StructuralSound(inputs, g, y, x - 1);
      ConnsAtSound(inputs, g, x - 1, y);
    }
  }

  /** The structural connections of every cell, as a matrix of lists. */
  function ConnsMatrix(inputs: InputTable, g: GridCells): (m: Matrix<seq<Connection>>)
    requires Square(g)
    ensures Square(m)
    ensures forall j, i :: 0 <= j < GRID_SIZE && 0 <= i < GRID_SIZE ==> m[j][i] == ConnsAt(inputs, g, i, j)
  {
    seq(GRID_SIZE, j requires 0 <= j < GRID_SIZE => seq(GRID_SIZE, i requires 0 <= i < GRID_SIZE => ConnsAt(inputs, g, i, j)))
  }

  /** The lists of a matrix joined in visiting order up to (x, y). */
  function JoinUpto<T>(m: Matrix<seq<T>>, y: nat, x: nat): seq<T>
    requires Square(m)
    requires (y < GRID_SIZE && x <= GRID_SIZE) || (y == GRID_SIZE && x == 0)
    decreases y, x
  {
    if x == 0 then
      if y == 0 then [] else JoinUpto(m, y - 1, GRID_SIZE)
    else
      JoinUpto(m, y, x - 1) + m[y][x - 1]
  }

  /** The structural list is the join of the per-cell lists. */
  lemma {:induction false} StructuralIsJoin(inputs: InputTable, g: GridCells, m: Matrix<seq<Connection>>, y: nat, x: nat)
    requires Square(g) && Square(m)
    requires forall j, i :: 0 <= j < GRID_SIZE && 0 <= i < GRID_SIZE ==> m[j][i] == ConnsAt(inputs, g, i, j)
    requires (y < GRID_SIZE && x <= GRID_SIZE) || (y == GRID_SIZE && x == 0)
    ensures StructuralUpto(inputs, g, y, x) == JoinUpto(m, y, x)
    decreases y, x
  {
    if x == 0 {
      if y > 0 {
        StructuralIsJoin(inputs, g, m, y - 1, GRID_SIZE);
      }
    } else {
      StructuralIsJoin(inputs, g, m, y, x - 1);
      assert m[y][x - 1] == ConnsAt(inputs, g, x - 1, y);
    }
  }

  /** A prefix of a list stays a prefix once the list is extended. */
  lemma PrefixOfAppend<T>(a: seq<T>, b: seq<T>, e: seq<T>)
    requires a <= b
    ensures a <= b + e
  {
    assert (b + e)[..|b|] == b;
  }

  /** The join up to an earlier position is a prefix of the join up to a later one. */
  lemma {:induction false} JoinPrefix<T>(m: Matrix<seq<T>>, y: nat, x: nat, j: nat, i: nat)
    requires Square(m)
    requires (y < GRID_SIZE && x <= GRID_SIZE) || (y == GRID_SIZE && x == 0)
    requires (j < GRID_SIZE && i <= GRID_SIZE) || (j == GRID_SIZE && i == 0)
    requires j < y || (j == y && i <= x)
    ensures JoinUpto(m, j, i) <= JoinUpto(m, y, x)
    decreases y, x
  {
    if j == y && i == x {
    } else if x == 0 {
      JoinPrefix(m, y - 1, GRID_SIZE, j, i);
    } else {
      JoinPrefix(m, y, x - 1, j, i);
      PrefixOfAppend(JoinUpto(m, j, i), JoinUpto(m, y, x - 1), m[y][x - 1]);
    }
  }

  /** A listed connection of a cell visited before (x, y) is among StructuralUpto(y, x). */
  lemma StructuralHasCell(inputs: InputTable, g: GridCells, y: nat, x: nat, i: int, j: int, cn: Connection)
    requires Square(g) && InBounds(i, j) && Before(i, j, x, y)
    requires (y < GRID_SIZE && x <= GRID_SIZE) || (y == GRID_SIZE && x == 0)
    requires cn in ConnsAt(inputs, g, i, j)
    ensures cn in StructuralUpto(inputs, g, y, x)
  {
    var m := ConnsMatrix(inputs, g);
    StructuralIsJoin(inputs, g, m, y, x);
    JoinPrefix(m, y, x, j, i + 1);
    assert cn in m[j][i];
    assert JoinUpto(m, j, i + 1) == JoinUpto(m, j, i) + m[j][i];
  }

  /** A connection canConnect accepts between two cells on the grid is listed for its source cell. */
  lemma ConnsAtComplete(inputs: InputTable, g: GridCells, x: int, y: int, d: int)
    requires ValidGrid(g) && IsDir(d) && InBounds(x, y) && InBounds(StepX(x, d), StepY(y, d))
    requires CanConnect(inputs, g[y][x], g[StepY(y, d)][StepX(x, d)], d)
    ensures Connection(x, y, StepX(x, d), StepY(y, d), d) in ConnsAt(inputs, g, x, y)
  {
    var tx, ty := StepX(x, d), StepY(y, d);
    var c := g[y][x].value;
    var o := RelativePort(d, c.rotation);
    assert (c.rotation + o) % 4 == d;
    assert Accepts(EngineRules(inputs), c, g[ty][tx], d);
    TargetsComplete(EngineRules(inputs), g, c, x, y, Outputs(c.kind), o);
    var ts := TargetsOf(EngineRules(inputs), g, c, x, y, Outputs(c.kind));
    var k :| 0 <= k < |ts| && ts[k] == Target(tx, ty, d);
    assert ConnsAt(inputs, g, x, y)[k] == Connection(x, y, tx, ty, d);
  }

  /**
   * `getStructuralConnections` lists exactly the edges `canConnect` accepts: a connection from (x, y)
   * to its neighbour in direction d is listed if and only if both cells are on the grid and canConnect
   * holds. The output check of canConnect always passes for a port the source enumerates itself,
   * so only bounds and the input side decide.
   */
  lemma StructuralExact(inputs: InputTable, g: GridCells, x: int, y: int, d: int)
    requires ValidGrid(g) && IsDir(d)
    ensures Connection(x, y, StepX(x, d), StepY(y, d), d) in Structural(inputs, g) <==>
      InBounds(x, y) && InBounds(StepX(x, d), StepY(y, d)) && CanConnect(inputs, g[y][x], g[StepY(y, d)][StepX(x, d)], d)
  {
    var tx, ty := StepX(x, d), StepY(y, d);
    StructuralSound(inputs, g, GRID_SIZE, 0);
    if InBounds(x, y) && InBounds(tx, ty) && CanConnect(inputs, g[y][x], g[ty][tx], d) {
      ConnsAtComplete(inputs, g, x, y, d);
      StructuralHasCell(inputs, g, GRID_SIZE, 0, x, y, Connection(x, y, tx, ty, d));
    }
  }

  /** Makers and walls have no output ports, so no structural connection leaves them. */
  lemma NoConnectionFromSinks(inputs: InputTable, g: GridCells, cn: Connection)
    requires ValidGrid(g) && cn in Structural(inputs, g)
    ensures InBounds(cn.x, cn.y) && g[cn.y][cn.x].Some?
    ensures g[cn.y][cn.x].value.kind != Maker && g[cn.y][cn.x].value.kind != Wall
  {
    StructuralSound(inputs, g, GRID_SIZE, 0);
    PortShapes(g[cn.y][cn.x].value.kind);
  }

  /** The connections of one cell: the targets its output ports find. */
  method CellConnections(inputs: InputTable, g: GridCells, x: int, y: int) returns (cs: seq<Connection>)
    requires Square(g) && InBounds(x, y)
    ensures cs == ConnsAt(inputs, g, x, y)
  {
    cs := [];
    var cell := g[y][x];
    if cell.Some? {
      var c := cell.value;
      var ts := CollectTargets(EngineRules(inputs), g, c, x, y, Outputs(c.kind));
      cs := ToConns(x, y, ts);
    }
  }

  /** The method that lists the connections: nested loops over the cells, each collecting its targets. */
  method StructuralConnections(inputs: InputTable, g: GridCells) returns (conns: seq<Connection>)
    requires Square(g)
    ensures conns == Structural(inputs, g)
  {
    conns := [];
    var y := 0;
    while y < GRID_SIZE
      invariant 0 <= y <= GRID_SIZE
      invariant conns == StructuralUpto(inputs, g, y, 0)
    {
      conns := RowConnections(inputs, g, y, conns);
      y := y + 1;
    }
  }

  /** The inner loop over row y, appending each cell's connections to those of the rows above. */
  method RowConnections(inputs: InputTable, g: GridCells, y: nat, above: seq<Connection>) returns (conns: seq<Connection>)
    requires Square(g) && y < GRID_SIZE && above == StructuralUpto(inputs, g, y, 0)
    ensures conns == StructuralUpto(inputs, g, y + 1, 0)
  {
    conns := above;
    var x := 0;
    while x < GRID_SIZE
      invariant 0 <= x <= GRID_SIZE
      invariant conns == StructuralUpto(inputs, g, y, x)
    {
      var cs := CellConnections(inputs, g, x, y);
      conns := conns + cs;
      x := x + 1;
    }
  }

  // ---------------------------------------------------------------------
  // Active connections

  /** A source's flows go exactly along its structural connections. */
  lemma FlowsOutAlongConns(inputs: InputTable, g: GridCells, amb: Matrix<real>, x: int, y: int)
    requires Square(g) && Square(amb) && InBounds(x, y)
    ensures FlowEnds(FlowsOut(EngineRules(inputs), g, amb, x, y)) ==
      ConnEnds(if Pushes(EngineRules(inputs), g, amb, x, y) then ConnsAt(inputs, g, x, y) else [])
  {
    var r := EngineRules(inputs);
    if Pushes(r, g, amb, x, y) {
      var c := g[y][x].value;
      var c2 := Prepare(c, amb[y][x]).0;
      assert SameStructure(g, g);
      TargetsIgnoreEnergy(r, g, g, c2, c, x, y, Outputs(c.kind));
    }
  }

  /** Ends distribute over concatenation. */
  lemma EndsAppend(fs: seq<Flow>, gs: seq<Flow>, cs: seq<Connection>, ds: seq<Connection>)
    requires FlowEnds(fs) == ConnEnds(cs) && FlowEnds(gs) == ConnEnds(ds)
    ensures FlowEnds(fs + gs) == ConnEnds(cs + ds)
  {
    assert |fs| == |cs|;
    forall i | 0 <= i < |fs + gs|
      ensures FlowEnds(fs + gs)[i] == ConnEnds(cs + ds)[i]
    {
      if i < |fs| {
        assert FlowEnds(fs)[i] == ConnEnds(cs)[i];
      } else {
        assert FlowEnds(gs)[i - |fs|] == ConnEnds(ds)[i - |fs|];
      }
    }
  }

  /** The flows of partial pass 1 run along the active connections, one for one and in order. */
  lemma {:induction false} FlowsAlongActive(inputs: InputTable, g: GridCells, amb: Matrix<real>, y: nat, x: nat)
    requires Square(g) && Square(amb)
    requires (y < GRID_SIZE && x <= GRID_SIZE) || (y == GRID_SIZE && x == 0)
    ensures FlowEnds(FlowsUpto(EngineRules(inputs), g, amb, y, x)) == ConnEnds(ActiveUpto(inputs, g, amb, y, x))
    decreases y, x
  {
    if x == 0 {
      if y > 0 {
        FlowsAlongActive(inputs, g, amb, y - 1, GRID_SIZE);
      }
    } else {
      FlowsAlongActive(inputs, g, amb, y, x - 1);
      FlowsAlongActiveStep(inputs, g, amb, y, x);
    }
  }

  /** The step of FlowsAlongActive: visiting cell (x - 1, y) appends matching ends to both lists. */
  lemma FlowsAlongActiveStep(inputs: InputTable, g: GridCells, amb: Matrix<real>, y: nat, x: nat)
    requires Square(g) && Square(amb) && y < GRID_SIZE && 0 < x <= GRID_SIZE
    requires FlowEnds(FlowsUpto(EngineRules(inputs), g, amb, y, x - 1)) == ConnEnds(ActiveUpto(inputs, g, amb, y, x - 1))
    ensures FlowEnds(FlowsUpto(EngineRules(inputs), g, amb, y, x)) == ConnEnds(ActiveUpto(inputs, g, amb, y, x))
  {
    var r := EngineRules(inputs);
    FlowsOutAlongConns(inputs, g, amb, x - 1, y);
    var fs, gs := FlowsUpto(r, g, amb, y, x - 1), FlowsOut(r, g, amb, x - 1, y);
    var cs := ActiveUpto(inputs, g, amb, y, x - 1);
    var ds := if Pushes(r, g, amb, x - 1, y) then ConnsAt(inputs, g, x - 1, y) else [];
    EndsAppend(fs, gs, cs, ds);
    assert FlowsUpto(r, g, amb, y, x) == fs + gs;
    assert ActiveUpto(inputs, g, amb, y, x) == cs + ds;
  }

  /** Every active connection is a structural one. */
  lemma {:induction false} ActiveAreStructural(inputs: InputTable, g: GridCells, amb: Matrix<real>, y: nat, x: nat)
    requires Square(g) && Square(amb)
    requires (y < GRID_SIZE && x <= GRID_SIZE) || (y == GRID_SIZE && x == 0)
    ensures forall cn :: cn in ActiveUpto(inputs, g, amb, y, x) ==> cn in StructuralUpto(inputs, g, y, x)
    decreases y, x
  {
    if x == 0 {
      if y > 0 {
        ActiveAreStructural(inputs, g, amb, y - 1, GRID_SIZE);
      }
    } else {
      ActiveAreStructural(inputs, g, amb, y, x - 1);
    }
  }

  /**
   * `activeConnections` after a tick: one entry per structural connection of each source that
   * pushes, in visiting order, with the same two cells; every entry is a structural connection of the
   * start-of-tick grid, and it carries that source's share, a positive amount no larger than 2.5.
   */
  lemma ActiveConnections(inputs: InputTable, g: GridCells, amb: Matrix<real>, s0: Stats)
    requires ValidGrid(g) && AmbientOk(amb)
    ensures var fs := PhysicsTick(EngineRules(inputs), g, amb, s0).flows;
      && FlowEnds(fs) == ConnEnds(ActiveUpto(inputs, g, amb, GRID_SIZE, 0))
      && (forall cn :: cn in ActiveUpto(inputs, g, amb, GRID_SIZE, 0) ==> cn in Structural(inputs, g))
      && (forall f :: f in fs ==> FlowOk(f) && f.amount == Share(EngineRules(inputs), g, amb, f.x, f.y))
  {
    var r := EngineRules(inputs);
    PhysicsTickLaws(r, g, amb, s0);
    Pass1Closed(r, g, amb, s0);
    FlowsAlongActive(inputs, g, amb, GRID_SIZE, 0);
    ActiveAreStructural(inputs, g, amb, GRID_SIZE, 0);
    FlowAmounts(r, g, amb, GRID_SIZE, 0);
  }

  /** The flows of one source leave that source and carry its share. */
  lemma FlowsOutShape(r: Rules, g: GridCells, amb: Matrix<real>, x: int, y: int)
    requires Square(g) && Square(amb) && InBounds(x, y)
    ensures forall f :: f in FlowsOut(r, g, amb, x, y) ==> f.x == x && f.y == y && f.amount == Share(r, g, amb, x, y)
  {
  }

  /** Each flow of partial pass 1 carries the share of its source. */
  lemma {:induction false} FlowAmounts(r: Rules, g: GridCells, amb: Matrix<real>, y: nat, x: nat)
    requires Square(g) && Square(amb)
    requires (y < GRID_SIZE && x <= GRID_SIZE) || (y == GRID_SIZE && x == 0)
    ensures forall f :: f in FlowsUpto(r, g, amb, y, x) ==> InBounds(f.x, f.y) && f.amount == Share(r, g, amb, f.x, f.y)
    decreases y, x
  {
    if x == 0 {
      if y > 0 {
        FlowAmounts(r, g, amb, y - 1, GRID_SIZE);
      }
    } else {
      FlowAmounts(r, g, amb, y, x - 1);
      FlowsOutShape(r, g, amb, x - 1, y);
    }
  }

  /** The engine state one `update()` leaves, and the explosions and scores it produced. */
  datatype Snapshot = Snapshot(grid: GridCells, particles: seq<Particle>, stats: Stats, flows: seq<Flow>, events: seq<Event>)

  /** One `update()`: the solver tick, then the particle tick on the grid and statistics it leaves. */
  function EngineTick(inputs: InputTable, g: GridCells, amb: Matrix<real>, ps: seq<Particle>, s0: Stats): Snapshot
    requires ValidGrid(g) && AmbientOk(amb) && AllOk(ps)
  {
    PhysicsTickLaws(EngineRules(inputs), g, amb, s0);
    var t := PhysicsTick(EngineRules(inputs), g, amb, s0);
    var w := ParticleTick(ENGINE_PARTICLES, World(t.grid, ps, t.stats, []));
    Snapshot(w.grid, w.particles, w.stats, t.flows, t.events + w.events)
  }

  /**
   * What one `update()` guarantees: the grid stays valid, every particle stays live, the statistics
   * never decrease, and the tick's events are explosions followed by scores worth at least 10.
   */
  lemma EngineTickLaws(inputs: InputTable, g: GridCells, amb: Matrix<real>, ps: seq<Particle>, s0: Stats)
    requires ValidGrid(g) && AmbientOk(amb) && AllOk(ps)
    ensures var s := EngineTick(inputs, g, amb, ps, s0);
      && ValidGrid(s.grid) && AllOk(s.particles)
      && s.stats.gen >= s0.gen && s.stats.vent >= s0.vent && s.stats.use >= s0.use
      && (forall i :: 0 <= i < |s.events| ==> s.events[i].Exploded? || (s.events[i].Scored? && s.events[i].points >= 10))
  {
    PhysicsTickLaws(EngineRules(inputs), g, amb, s0);
    var t := PhysicsTick(EngineRules(inputs), g, amb, s0);
    var w0 := World(t.grid, ps, t.stats, []);
    ParticleTickLaws(ENGINE_PARTICLES, w0);
    var w := ParticleTick(ENGINE_PARTICLES, w0);
    assert w.events[|w0.events|..] == w.events;
    forall i | 0 <= i < |t.events + w.events|
      ensures (t.events + w.events)[i].Exploded? || ((t.events + w.events)[i].Scored? && (t.events + w.events)[i].points >= 10)
    {
      if i < |t.events| {
        assert t.events[i] in t.events;
      }
    }
  }

  // ---------------------------------------------------------------------
  // The engine

  class GameEngine {
    var grid: GridCells
    var ambientMap: Matrix<real>
    var particles: seq<Particle>
    var currentStats: Stats
    var activeConnections: seq<Flow>
    /** The rotation-relative input ports `canConnect` reads for each kind. */
    const inputs: InputTable

    /** The engine invariant: a valid grid, ambient levels in 0..100, every particle live. */
    predicate Valid()
      reads this
    {
      ValidGrid(grid) && AmbientOk(ambientMap) && AllOk(particles)
    }

    /** An empty grid over a zero ambient map, no particles, zero statistics. */
    constructor(inputs: InputTable)
      ensures Valid() && this.inputs == inputs
      ensures grid == Fill(None) && ambientMap == Fill(0.0) && particles == []
      ensures currentStats == Stats(0.0, 0.0, 0.0) && activeConnections == []
    {
      this.inputs := inputs;
      grid := Fill(None);
      ambientMap := Fill(0.0);
      particles := [];
      currentStats := Stats(0.0, 0.0, 0.0);
      activeConnections := [];
    }

    /**
     * `setupLevel`: empty the grid, drop the particles, zero the statistics and recompute the
     * ambient map from the noise, clamped to 0..100.
     */
    method SetupLevel(noise: Matrix<real>)
      requires Valid() && Square(noise)
      modifies this
      ensures Valid()
      ensures grid == Fill(None) && particles == [] && currentStats == Stats(0.0, 0.0, 0.0)
      ensures forall y, x :: 0 <= y < GRID_SIZE && 0 <= x < GRID_SIZE ==> ambientMap[y][x] == AmbientLevel(noise[y][x])
      ensures activeConnections == old(activeConnections)
    {
      grid := Fill(None);
      particles := [];
      currentStats := Stats(0.0, 0.0, 0.0);
      ambientMap := AmbientFromNoise(noise);
    }

    /** `getStructuralConnections()`. */
    method GetStructuralConnections() returns (conns: seq<Connection>)
      requires Valid()
      ensures conns == Structural(inputs, grid)
    {
      conns := StructuralConnections(inputs, grid);
    }

    /** `updatePhysics()`, reporting its explosions. */
    method UpdatePhysics() returns (events: seq<Event>)
      requires Valid()
      modifies this
      ensures Valid()
      ensures var t := PhysicsTick(EngineRules(inputs), old(grid), old(ambientMap), old(currentStats));
        grid == t.grid && currentStats == t.stats && activeConnections == t.flows && events == t.events
      ensures ambientMap == old(ambientMap) && particles == old(particles)
      ensures currentStats.gen >= old(currentStats.gen) && currentStats.vent >= old(currentStats.vent)
      ensures currentStats.use == old(currentStats.use)
      ensures forall e :: e in events ==> e.Exploded? && InBounds(e.x, e.y)
    {
      var t := SolverTick(EngineRules(inputs), grid, ambientMap, currentStats);
      grid, currentStats, activeConnections, events := t.grid, t.stats, t.flows, t.events;
    }

    /** `updateParticles()` without the effect fade, reporting its scores. */
    method UpdateParticles() returns (events: seq<Event>)
      requires Valid()
      modifies this
      ensures Valid()
      ensures var w := ParticleTick(ENGINE_PARTICLES, World(old(grid), old(particles), old(currentStats), []));
        grid == w.grid && particles == w.particles && currentStats == w.stats && events == w.events
      ensures ambientMap == old(ambientMap) && activeConnections == old(activeConnections)
      ensures currentStats.use >= old(currentStats.use)
      ensures currentStats.gen == old(currentStats.gen) && currentStats.vent == old(currentStats.vent)
      ensures ScoresOnly(events)
    {
      var w := World(grid, particles, currentStats, []);
      ParticleTickLaws(ENGINE_PARTICLES, w);
      w := ParticleStep(ENGINE_PARTICLES, w);
      grid, particles, currentStats, events := w.grid, w.particles, w.stats, w.events;
    }

    /**
     * `update()`: physics, then particles. The new state is EngineTick of the old one; the result
     * carries the statistics and, as in the source, an empty event list. `fired` lists the
     * `onExplode` and `onScore` callbacks the tick fires, in the order it fires them: the
     * explosions of the solver, then the scores of the particle pass.
     */
    method Update() returns (stats: Stats, events: seq<Event>, fired: seq<Event>)
      requires Valid()
      modifies this
      ensures Valid() && stats == currentStats && events == []
      ensures var s := EngineTick(inputs, old(grid), old(ambientMap), old(particles), old(currentStats));
        grid == s.grid && particles == s.particles && currentStats == s.stats && activeConnections == s.flows
        && fired == s.events
      ensures ambientMap == old(ambientMap)
    {
      var exploded := UpdatePhysics();
      var scored := UpdateParticles();
      stats := currentStats;
      events := [];
      fired := exploded + scored;
    }
  }
}
