// The two-pass energy solver shared by the three generations of the game
// (js/engine.js `updatePhysics`, js/app.js `updatePhysics`, and the legacy
// js/systems/physics.js `updatePhysics`). The generations differ only in
// which ports a source pushes through, which neighbours accept energy, how
// the battery throttles, and the minimum amount worth moving; a Rules value
// fixes those, and each generation's module defines its own.
//
// Pass 1 visits the cells row by row. An extractor below capacity produces,
// a vent loses a fifth of its energy, then the cell splits what it may send
// evenly over its accepting neighbours, deducting from itself at once and
// adding to a scratch accumulator. Pass 2 adds the accumulator to every
// cell and destroys any component left above its capacity plus 50.
module Solver {
  import opened Constants
  import opened Components
  import opened Grid
  import opened Connect

  /** Which ports a source pushes through. */
  datatype Ports =
    | KindOutputs   // the kind's `outputs` from the component table
    | ForwardOnly   // the single neighbour `DIRS[rotation]`, whatever the kind

  /** Which neighbours accept energy. */
  datatype Acceptance =
    | PortMatch(inputs: InputTable)  // `canConnect`
    | OccupiedNotWall                // any component except a wall
    | AnyOccupied                    // any component

  /** How a battery's outflow is limited. */
  datatype Throttle =
    | BatteryHalfSpeed    // min(energy, speed / 2) for batteries
    | BatteryHalfAmount   // min(energy, speed), then halved for batteries

  datatype Rules = Rules(ports: Ports, accept: Acceptance, throttle: Throttle, threshold: real)

  /** Running statistics: energy generated, consumed and vented. */
  datatype Stats = Stats(gen: real, use: real, vent: real)

  /** A neighbour chosen to receive energy, with the absolute direction it lies in. */
  datatype Target = Target(x: int, y: int, dir: int)

  /** One recorded transfer: an `activeConnections` entry. */
  datatype Flow = Flow(x: int, y: int, tx: int, ty: int, amount: real)

  /** What the host is told about a tick: explosions and scored particles. */
  datatype Event = Exploded(x: int, y: int) | Scored(x: int, y: int, points: int)

  function Min(a: real, b: real): real
  {
    if a <= b then a else b
  }

  function SourcePorts(r: Rules, k: Kind): seq<int>
  {
    match r.ports
    case KindOutputs => Outputs(k)
    case ForwardOnly => [0]
  }

  /** Whether the occupant t of the neighbour in direction d takes energy from c. */
  function Accepts(r: Rules, c: Component, t: Cell, d: int): bool
  {
    match r.accept
    case PortMatch(inputs) => CanConnect(inputs, Some(c), t, d)
    case OccupiedNotWall => t.Some? && t.value.kind != Wall
    case AnyOccupied => t.Some?
  }

  /** The most a component may send this tick. */
  function Available(r: Rules, c: Component): (a: real)
    ensures c.energy >= 0.0 ==> 0.0 <= a <= c.energy
    ensures a <= ENERGY_TRANSFER_SPEED
  {
    match r.throttle
    case BatteryHalfSpeed =>
      Min(c.energy, if c.kind == Battery then ENERGY_TRANSFER_SPEED * 0.5 else ENERGY_TRANSFER_SPEED)
    case BatteryHalfAmount =>
      var a := Min(c.energy, ENERGY_TRANSFER_SPEED);
      if c.kind == Battery then a * 0.5 else a
  }

  /** Extractor production: `(ambient / 100) * 1.5` while below capacity; the amount made is returned too. */
  function Produce(c: Component, ambient: real): (Component, real)
  {
    if c.kind == Extractor && c.energy < c.maxEnergy then
      var amount := (ambient / 100.0) * 1.5;
      (c.(energy := c.energy + amount), amount)
    else
      (c, 0.0)
  }

  /** Vent loss: a vent keeps 0.8 of its energy; the amount lost is returned too. */
  function Bleed(c: Component): (Component, real)
  {
    if c.kind == Vent then (c.(energy := c.energy * 0.8), c.energy * 0.2) else (c, 0.0)
  }

  /** The accepting in-bounds neighbours reached through the given ports, in port order. */
  function TargetsOf(r: Rules, g: GridCells, c: Component, x: int, y: int, ports: seq<int>): (ts: seq<Target>)
    requires Square(g)
    ensures |ts| <= |ports|
    ensures forall i :: 0 <= i < |ts| ==> IsDir(ts[i].dir) && InBounds(ts[i].x, ts[i].y) && ts[i].x == StepX(x, ts[i].dir) && ts[i].y == StepY(y, ts[i].dir)
  {
    if ports == [] then []
    else
      var prev := TargetsOf(r, g, c, x, y, ports[..|ports| - 1]);
      var d := (c.rotation + ports[|ports| - 1]) % 4;
      var tx, ty := StepX(x, d), StepY(y, d);
      if InBounds(tx, ty) && Accepts(r, c, g[ty][tx], d) then prev + [Target(tx, ty, d)] else prev
  }

  /** Energy left in the source, the accumulator and the flow record during a distribution. */
  datatype Dist = Dist(energy: real, changes: Matrix<real>, flows: seq<Flow>)

  /** The first n steps of handing `a` to each target, each guarded by `energy >= a`. */
  function DistributeUpto(d0: Dist, a: real, x: int, y: int, ts: seq<Target>, n: nat): (d: Dist)
    requires Square(d0.changes) && n <= |ts|
    requires forall t :: t in ts ==> InBounds(t.x, t.y)
    ensures Square(d.changes)
  {
    if n == 0 then d0
    else
      var d := DistributeUpto(d0, a, x, y, ts, n - 1);
      var t := ts[n - 1];
      if d.energy >= a then
        Dist(d.energy - a, Set(d.changes, t.x, t.y, d.changes[t.y][t.x] + a), d.flows + [Flow(x, y, t.x, t.y, a)])
      else
        d
  }

  /** Pass-1 state: the grid, the accumulator, the flows recorded so far and the statistics. */
  datatype Pass1State = Pass1State(grid: GridCells, changes: Matrix<real>, flows: seq<Flow>, stats: Stats)

  predicate Pass1Shape(st: Pass1State)
  {
    Square(st.grid) && Square(st.changes)
  }

  /** Whether a component after production and venting pushes energy this tick. */
  predicate Sends(r: Rules, c: Component, ts: seq<Target>)
  {
    |SourcePorts(r, c.kind)| > 0 && Available(r, c) > r.threshold && |ts| > 0
  }

  /** Production then venting at one component, with the amounts made and lost. */
  function Prepare(c: Component, ambient: real): (Component, real, real)
  {
    var (c1, made) := Produce(c, ambient);
    var (c2, lost) := Bleed(c1);
    (c2, made, lost)
  }

  /** A source's distribution: if it sends, each target in turn is offered an equal share. */
  function Send(r: Rules, c: Component, x: int, y: int, ts: seq<Target>, d0: Dist): (d: Dist)
    requires Square(d0.changes)
    requires forall t :: t in ts ==> InBounds(t.x, t.y)
    ensures Square(d.changes)
  {
    if Sends(r, c, ts) then DistributeUpto(d0, Available(r, c) / (|ts| as real), x, y, ts, |ts|) else d0
  }

  /** Pass 1 at one cell. */
  function VisitCell(r: Rules, amb: Matrix<real>, st: Pass1State, x: int, y: int): (st': Pass1State)
    requires Pass1Shape(st) && Square(amb) && InBounds(x, y)
    ensures Pass1Shape(st')
  {
    match st.grid[y][x]
    case None => st
    case Some(c0) =>
      var (c2, made, lost) := Prepare(c0, amb[y][x]);
      var ts := TargetsOf(r, st.grid, c2, x, y, SourcePorts(r, c2.kind));
      var d := Send(r, c2, x, y, ts, Dist(c2.energy, st.changes, st.flows));
      Pass1State(Set(st.grid, x, y, Some(c2.(energy := d.energy))), d.changes, d.flows,
                 st.stats.(gen := st.stats.gen + made, vent := st.stats.vent + lost))
  }

  /** Pass 1 over every row above y and the first x cells of row y. */
  function Pass1Upto(r: Rules, amb: Matrix<real>, st0: Pass1State, y: nat, x: nat): (st: Pass1State)
    requires Pass1Shape(st0) && Square(amb)
    requires (y < GRID_SIZE && x <= GRID_SIZE) || (y == GRID_SIZE && x == 0)
    ensures Pass1Shape(st)
    decreases y, x
  {
    if x == 0 then
      if y == 0 then st0 else Pass1Upto(r, amb, st0, y - 1, GRID_SIZE)
    else
      VisitCell(r, amb, Pass1Upto(r, amb, st0, y, x - 1), x - 1, y)
  }

  function Pass1Start(g: GridCells, stats: Stats): Pass1State
  {
    Pass1State(g, Fill(0.0), [], stats)
  }

  /** The whole of pass 1, starting from an empty accumulator and no flows. */
  function Pass1(r: Rules, g: GridCells, amb: Matrix<real>, stats: Stats): Pass1State
    requires Square(g) && Square(amb)
  {
    Pass1Upto(r, amb, Pass1Start(g, stats), GRID_SIZE, 0)
  }

  /** Pass-2 state: the grid and the explosion events so far. */
  datatype Pass2State = Pass2State(grid: GridCells, events: seq<Event>)

  /** Overload threshold of a component: its capacity plus 50. */
  function Limit(c: Component): real
  {
    c.maxEnergy + 50.0
  }

  /** `explode(x, y)`: the cell is emptied and one explosion event is emitted. */
  function Explode(st: Pass2State, x: int, y: int): Pass2State
    requires Square(st.grid) && InBounds(x, y)
  {
    Pass2State(Set(st.grid, x, y, None), st.events + [Exploded(x, y)])
  }

  /** Pass 2 at one cell: add the accumulated energy, then explode above the limit. */
  function ApplyCell(st: Pass2State, changes: Matrix<real>, x: int, y: int): (st': Pass2State)
    requires Square(st.grid) && Square(changes) && InBounds(x, y)
    ensures Square(st'.grid)
  {
    match st.grid[y][x]
    case None => st
    case Some(c) =>
      var e := c.energy + changes[y][x];
      if e > Limit(c) then Explode(st, x, y)
      else Pass2State(Set(st.grid, x, y, Some(c.(energy := e))), st.events)
  }

  function Pass2Upto(changes: Matrix<real>, st0: Pass2State, y: nat, x: nat): (st: Pass2State)
    requires Square(st0.grid) && Square(changes)
    requires (y < GRID_SIZE && x <= GRID_SIZE) || (y == GRID_SIZE && x == 0)
    ensures Square(st.grid)
    decreases y, x
  {
    if x == 0 then
      if y == 0 then st0 else Pass2Upto(changes, st0, y - 1, GRID_SIZE)
    else
      ApplyCell(Pass2Upto(changes, st0, y, x - 1), changes, x - 1, y)
  }

  /** The whole of pass 2. */
  function Pass2(g: GridCells, changes: Matrix<real>): Pass2State
    requires Square(g) && Square(changes)
  {
    Pass2Upto(changes, Pass2State(g, []), GRID_SIZE, 0)
  }

  /** The `forEach` over a source's ports that collects its valid targets. */
  method CollectTargets(r: Rules, g: GridCells, c: Component, x: int, y: int, ports: seq<int>)
    returns (ts: seq<Target>)
    requires Square(g)
    ensures ts == TargetsOf(r, g, c, x, y, ports)
  {
    ts := [];
    var i := 0;
    while i < |ports|
      invariant 0 <= i <= |ports|
      invariant ts == TargetsOf(r, g, c, x, y, ports[..i])
    {
      var d := (c.rotation + ports[i]) % 4;
      var tx, ty := StepX(x, d), StepY(y, d);
      if InBounds(tx, ty) && Accepts(r, c, g[ty][tx], d) {
        ts := ts + [Target(tx, ty, d)];
      }
      assert ports[..i + 1][..i] == ports[..i];
      i := i + 1;
    }
    assert ports[..i] == ports;
  }

  /** The `forEach` over the targets that hands each one `amount`. */
  method Distribute(d0: Dist, amount: real, x: int, y: int, ts: seq<Target>) returns (d: Dist)
    requires Square(d0.changes)
    requires forall t :: t in ts ==> InBounds(t.x, t.y)
    ensures d == DistributeUpto(d0, amount, x, y, ts, |ts|)
  {
    d := d0;
    var i := 0;
    while i < |ts|
      invariant 0 <= i <= |ts|
      invariant d == DistributeUpto(d0, amount, x, y, ts, i)
    {
      var t := ts[i];
      if d.energy >= amount {
        d := Dist(d.energy - amount, Set(d.changes, t.x, t.y, d.changes[t.y][t.x] + amount),
                  d.flows + [Flow(x, y, t.x, t.y, amount)]);
      }
      i := i + 1;
    }
  }

  /** Extractor production and vent loss at one component, as the source does them. */
  method PrepareStep(c0: Component, ambient: real) returns (c: Component, made: real, lost: real)
    ensures (c, made, lost) == Prepare(c0, ambient)
  {
    c, made, lost := c0, 0.0, 0.0;
    if c.kind == Extractor && c.energy < c.maxEnergy {
      made := (ambient / 100.0) * 1.5;
      c := c.(energy := c.energy + made);
    }
    if c.kind == Vent {
      lost := c.energy * 0.2;
      c := c.(energy := c.energy * 0.8);
    }
  }

  /** The guarded distribution of one source. */
  method SendStep(r: Rules, c: Component, g: GridCells, x: int, y: int, d0: Dist)
    returns (d: Dist)
    requires Square(g) && Square(d0.changes)
    ensures d == Send(r, c, x, y, TargetsOf(r, g, c, x, y, SourcePorts(r, c.kind)), d0)
  {
    d := d0;
    var ports := SourcePorts(r, c.kind);
    if |ports| > 0 {
      var available := Available(r, c);
      if available > r.threshold {
        var ts := CollectTargets(r, g, c, x, y, ports);
        if |ts| > 0 {
          d := Distribute(d, available / (|ts| as real), x, y, ts);
        }
      }
    }
  }

  /** Pass 1 at one cell, step by step as the source does it. */
  method VisitCellStep(r: Rules, amb: Matrix<real>, st: Pass1State, x: int, y: int) returns (st': Pass1State)
    requires Pass1Shape(st) && Square(amb) && InBounds(x, y)
    ensures st' == VisitCell(r, amb, st, x, y)
  {
    st' := st;
    if st.grid[y][x].None? {
      return;
    }
    var c, made, lost := PrepareStep(st.grid[y][x].value, amb[y][x]);
    var d := SendStep(r, c, st.grid, x, y, Dist(c.energy, st.changes, st.flows));
    st' := Pass1State(Set(st.grid, x, y, Some(c.(energy := d.energy))), d.changes, d.flows,
                      st.stats.(gen := st.stats.gen + made, vent := st.stats.vent + lost));
  }

  /** Pass 1: the nested loops over the grid. */
  method EnergyPass(r: Rules, g: GridCells, amb: Matrix<real>, stats: Stats) returns (st: Pass1State)
    requires Square(g) && Square(amb)
    ensures st == Pass1(r, g, amb, stats)
  {
    st := Pass1Start(g, stats);
    var y := 0;
    while y < GRID_SIZE
      invariant 0 <= y <= GRID_SIZE
      invariant st == Pass1Upto(r, amb, Pass1Start(g, stats), y, 0)
    {
      var x := 0;
      while x < GRID_SIZE
        invariant 0 <= x <= GRID_SIZE
        invariant st == Pass1Upto(r, amb, Pass1Start(g, stats), y, x)
      {
        st := VisitCellStep(r, amb, st, x, y);
        x := x + 1;
      }
      y := y + 1;
    }
  }

  /** Pass 2: the nested loops that apply the accumulator and check for overload. */
  method ApplyPass(g: GridCells, changes: Matrix<real>) returns (st: Pass2State)
    requires Square(g) && Square(changes)
    ensures st == Pass2(g, changes)
  {
    st := Pass2State(g, []);
    var y := 0;
    while y < GRID_SIZE
      invariant 0 <= y <= GRID_SIZE
      invariant st == Pass2Upto(changes, Pass2State(g, []), y, 0)
    {
      var x := 0;
      while x < GRID_SIZE
        invariant 0 <= x <= GRID_SIZE
        invariant st == Pass2Upto(changes, Pass2State(g, []), y, x)
      {
        if st.grid[y][x].Some? {
          var c := st.grid[y][x].value;
          var e := c.energy + changes[y][x];
          if e > Limit(c) {
            st := Explode(st, x, y);
          } else {
            st := Pass2State(Set(st.grid, x, y, Some(c.(energy := e))), st.events);
          }
        }
        x := x + 1;
      }
      y := y + 1;
    }
  }
}
