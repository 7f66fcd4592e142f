// The legacy generation of the game: js/systems/physics.js, whose solver
// pushes each component's energy forward into whatever occupies the cell it
// faces (walls included), with its own maker and rail costs; and
// js/systems/input.js, whose pointer handlers and tool logic are the ones the
// later front end kept, except that the eraser clears a cell unconditionally
// and a placed component takes its capacity from a short switch of its own.
module Legacy {
  import opened Constants
  import opened Components
  import opened Grid
  import opened Solver
  import opened OverloadLaws
  import opened Particles
  import opened ParticleLaws
  import opened Ticks
  import opened Input

  /** Solver rules of this generation: straight ahead only, into any component, battery amount halved, anything above 0 moves. */
  const LEGACY_RULES: Rules := Rules(ForwardOnly, AnyOccupied, BatteryHalfAmount, 0.0)

  /** Makers spend 20 with a cooldown of 60, rails boost for 10, and no kind stops a particle. */
  const LEGACY_PARTICLES: ParticleRules := ParticleRules(20.0, 60, 10.0, {})

  /** The tool of this generation: the eraser, or a component kind to place. */
  datatype LegacyTool = Erase | Put(kind: Kind)

  // ---------------------------------------------------------------------
  // Editing the grid

  /** The capacity `placeComponent` gives a kind: five kinds have their own, every other kind 100. */
  function LegacyCapacity(k: Kind): real
  {
    match k
    case Extractor => 50.0
    case Battery => 300.0
    case Vent => 150.0
    case Maker => 80.0
    case Wire => 60.0
    case _ => 100.0
  }

  /**
   * The legacy capacities agree with the component table except for the prism and the wall, which
   * fall to the default of 100 here (the table gives 80 and 200).
   */
  lemma LegacyCapacityVsTable(k: Kind)
    ensures LegacyCapacity(k) == MaxEnergy(k) <==> k != Prism && k != Wall
    ensures k == Prism ==> LegacyCapacity(k) > MaxEnergy(k)
    ensures k == Wall ==> LegacyCapacity(k) < MaxEnergy(k)
  {
  }

  /** The instance `placeComponent` creates: facing right, empty, the legacy capacity, no cooldown. */
  function LegacyNew(k: Kind): Component
  {
    Component(k, 1, 0.0, LegacyCapacity(k), 0)
  }

  /** The new content of the cell `applyTool` acts on, for a click (a press) or a drag. */
  function LegacyResult(tool: LegacyTool, cell: Cell, isClick: bool): Cell
  {
    match tool
    case Erase => None
    case Put(k) =>
      match cell
      case None => Some(LegacyNew(k))
      case Some(c) =>
        if isClick && c.kind == k then Some(c.(rotation := (c.rotation + 1) % 4))
        else if isClick then Some(LegacyNew(k))
        else cell
  }

  /** The grid after `applyTool(x, y, isClick)`. */
  function LegacyUse(g: GridCells, tool: LegacyTool, x: int, y: int, isClick: bool): GridCells
    requires Square(g) && InBounds(x, y)
  {
    Set(g, x, y, LegacyResult(tool, g[y][x], isClick))
  }

  /**
   * A tool acts on its own cell only and keeps the grid valid. The eraser empties the cell; a drag
   * over a component leaves it alone; placing on an empty cell or clicking another kind puts a new
   * instance; clicking the same kind turns it a quarter and keeps everything else of it.
   */
  lemma LegacyToolLaws(g: GridCells, tool: LegacyTool, x: int, y: int, isClick: bool)
    requires ValidGrid(g) && InBounds(x, y)
    ensures var h := LegacyUse(g, tool, x, y, isClick);
      && ValidGrid(h)
      && (forall j, i :: 0 <= j < GRID_SIZE && 0 <= i < GRID_SIZE && (j != y || i != x) ==> h[j][i] == g[j][i])
      && (tool.Erase? ==> h[y][x] == None)
      && (tool.Put? && g[y][x].Some? && !isClick ==> h == g)
      && (tool.Put? && (g[y][x].None? || (isClick && g[y][x].value.kind != tool.kind)) ==> h[y][x] == Some(LegacyNew(tool.kind)))
      && (tool.Put? && isClick && g[y][x].Some? && g[y][x].value.kind == tool.kind ==>
            h[y][x] == Some(g[y][x].value.(rotation := (g[y][x].value.rotation + 1) % 4)))
  {
    if tool.Put? && g[y][x].Some? && !isClick {
      assert g[y][x := g[y][x]] == g[y];
    }
  }

  // ---------------------------------------------------------------------
  // The solver of this generation

  /**
   * A legacy source has at most one target: the cell it faces, whenever that cell is on the grid
   * and holds any component at all, a wall included.
   */
  lemma ForwardTarget(g: GridCells, c: Component, x: int, y: int)
    requires Square(g) && IsDir(c.rotation)
    ensures var d := c.rotation;
      var tx, ty := StepX(x, d), StepY(y, d);
      TargetsOf(LEGACY_RULES, g, c, x, y, SourcePorts(LEGACY_RULES, c.kind)) ==
        if InBounds(tx, ty) && g[ty][tx].Some? then [Target(tx, ty, d)] else []
  {
    assert [0][..0] == [];
  }

  /**
   * The legacy battery halves the amount after capping it, the later generations halve the cap: the
   * legacy battery never sends more, and sends the same only when empty or holding at least the
   * full transfer speed. Every other kind sends the same under both.
   */
  lemma BatteryThrottles(c: Component, r: Rules)
    requires c.energy >= 0.0 && r.throttle == BatteryHalfSpeed
    ensures Available(LEGACY_RULES, c) <= Available(r, c)
    ensures c.kind == Battery ==>
      (Available(LEGACY_RULES, c) == Available(r, c) <==> c.energy == 0.0 || c.energy >= ENERGY_TRANSFER_SPEED)
    ensures c.kind != Battery ==> Available(LEGACY_RULES, c) == Available(r, c)
  {
  }

  /** What one legacy tick leaves: the grid, the particles, the score, and the explosions and scores. */
  datatype LegacyFrame = LegacyFrame(grid: GridCells, particles: seq<Particle>, score: int, events: seq<Event>)

  /** No statistics are kept in this generation; the shared solver is handed zeros and its totals dropped. */
  const NO_STATS: Stats := Stats(0.0, 0.0, 0.0)

  /** `updatePhysics` of js/systems/physics.js: both solver passes, then spawning and moving particles. */
  function LegacyTick(g: GridCells, amb: Matrix<real>, ps: seq<Particle>, score: int): LegacyFrame
    requires ValidGrid(g) && AmbientOk(amb) && AllOk(ps)
  {
    PhysicsTickLaws(LEGACY_RULES, g, amb, NO_STATS);
    var t := PhysicsTick(LEGACY_RULES, g, amb, NO_STATS);
    var w := ParticleTick(LEGACY_PARTICLES, World(t.grid, ps, NO_STATS, []));
    LegacyFrame(w.grid, w.particles, score + ScoreOf(w.events), t.events + w.events)
  }

  /**
   * One legacy tick keeps the grid valid and every particle live; its events are the explosions of
   * the solver, each inside the grid, followed by the scores, each worth at least 10 points, and
   * the score grows by exactly what those scores carry.
   */
  lemma LegacyTickLaws(g: GridCells, amb: Matrix<real>, ps: seq<Particle>, score: int)
    requires ValidGrid(g) && AmbientOk(amb) && AllOk(ps)
    ensures var f := LegacyTick(g, amb, ps, score);
      var n := |PhysicsTick(LEGACY_RULES, g, amb, NO_STATS).events|;
      && ValidGrid(f.grid) && AllOk(f.particles)
      && n <= |f.events|
      && (forall i :: 0 <= i < n ==> f.events[i].Exploded? && InBounds(f.events[i].x, f.events[i].y))
      && ScoresOnly(f.events[n..])
      && f.score == score + ScoreOf(f.events[n..])
      && f.score >= score + 10 * (|f.events| - n)
  {
    PhysicsTickLaws(LEGACY_RULES, g, amb, NO_STATS);
    var t := PhysicsTick(LEGACY_RULES, g, amb, NO_STATS);
    var w0 := World(t.grid, ps, NO_STATS, []);
    ParticleTickLaws(LEGACY_PARTICLES, w0);
    var w := ParticleTick(LEGACY_PARTICLES, w0);
    assert w.events[|w0.events|..] == w.events;
    assert (t.events + w.events)[|t.events|..] == w.events;
    assert forall i :: 0 <= i < |t.events| ==> (t.events + w.events)[i] in t.events;
    ScoreOfLaws([], w.events);
  }

  /** The loops of js/systems/physics.js `updatePhysics`, in the order it runs them. */
  method LegacyStep(g: GridCells, amb: Matrix<real>, ps: seq<Particle>, score: int) returns (f: LegacyFrame)
    requires ValidGrid(g) && AmbientOk(amb) && AllOk(ps)
    ensures f == LegacyTick(g, amb, ps, score)
    ensures ValidGrid(f.grid) && AllOk(f.particles) && f.score >= score
  {
    LegacyTickLaws(g, amb, ps, score);
    var t := SolverTick(LEGACY_RULES, g, amb, NO_STATS);
    var w := ParticleStep(LEGACY_PARTICLES, World(t.grid, ps, NO_STATS, []));
    f := LegacyFrame(w.grid, w.particles, score + ScoreOf(w.events), t.events + w.events);
  }

  // ---------------------------------------------------------------------
  // The game state of this generation

  class LegacyGame {
    var grid: GridCells
    var ambientMap: Matrix<real>
    var particles: seq<Particle>
    var score: int
    var currentTool: LegacyTool
    var inputState: InputState

    /** A level is loaded: a valid grid over an ambient map in 0..100 and live particles. */
    predicate Ready()
      reads this
    {
      ValidGrid(grid) && AmbientOk(ambientMap) && AllOk(particles)
    }

    /** An empty grid over the given ambient map, no particles, no score, the pointer released. */
    constructor(amb: Matrix<real>, tool: LegacyTool)
      requires AmbientOk(amb)
      ensures Ready() && grid == Fill(None) && ambientMap == amb && particles == [] && score == 0
      ensures currentTool == tool && inputState == IDLE
    {
      grid := Fill(None);
      ambientMap := amb;
      particles := [];
      score := 0;
      currentTool := tool;
      inputState := IDLE;
    }

    /** `placeComponent(x, y)`: a new instance of the current tool's kind at (x, y). */
    method PlaceComponent(x: int, y: int)
      requires ValidGrid(grid) && InBounds(x, y) && currentTool.Put?
      modifies this
      ensures grid == Set(old(grid), x, y, Some(LegacyNew(old(currentTool).kind))) && ValidGrid(grid)
      ensures ambientMap == old(ambientMap) && particles == old(particles) && score == old(score)
      ensures currentTool == old(currentTool) && inputState == old(inputState)
    {
      grid := Set(grid, x, y, Some(LegacyNew(currentTool.kind)));
    }

    /** `applyTool(x, y, isClick)`. */
    method ApplyTool(x: int, y: int, isClick: bool)
      requires ValidGrid(grid) && InBounds(x, y)
      modifies this
      ensures grid == LegacyUse(old(grid), currentTool, x, y, isClick) && ValidGrid(grid)
      ensures ambientMap == old(ambientMap) && particles == old(particles) && score == old(score)
      ensures currentTool == old(currentTool) && inputState == old(inputState)
    {
      LegacyToolLaws(grid, currentTool, x, y, isClick);
      var cell := grid[y][x];
      if currentTool.Erase? {
        grid := Set(grid, x, y, None);
        return;
      }
      if cell.Some? {
        if isClick && cell.value.kind == currentTool.kind {
          grid := Set(grid, x, y, Some(cell.value.(rotation := (cell.value.rotation + 1) % 4)));
        } else if isClick && cell.value.kind != currentTool.kind {
          PlaceComponent(x, y);
        } else {
          assert grid[y][x := grid[y][x]] == grid[y];
        }
      } else {
        PlaceComponent(x, y);
      }
    }

    /** `handleInput`: the offset becomes a cell, the input state follows Route, and the tool is applied when Route says so. */
    method HandleInput(relX: real, relY: real, tile: real, isStart: bool)
      requires tile > 0.0 && ValidGrid(grid)
      modifies this
      ensures var x, y := CellOf(relX, tile), CellOf(relY, tile);
        var r := Route(old(inputState), x, y, isStart);
        && inputState == r.state
        && grid == (if r.apply then LegacyUse(old(grid), currentTool, x, y, isStart) else old(grid))
      ensures ValidGrid(grid)
      ensures ambientMap == old(ambientMap) && particles == old(particles) && score == old(score)
      ensures currentTool == old(currentTool)
    {
      var x := CellOf(relX, tile);
      var y := CellOf(relY, tile);
      if x < 0 || x >= GRID_SIZE || y < 0 || y >= GRID_SIZE {
        return;
      }
      inputState := inputState.(gx := x, gy := y);
      if !isStart && x == inputState.startX && y == inputState.startY {
        return;
      }
      inputState := inputState.(startX := x, startY := y);
      ApplyTool(x, y, isStart);
    }

    /** The `pointerdown` handler: the pointer is held, then the event is handled as a press. */
    method PointerDown(relX: real, relY: real, tile: real)
      requires tile > 0.0 && ValidGrid(grid)
      modifies this
      ensures var x, y := CellOf(relX, tile), CellOf(relY, tile);
        var r := Press(old(inputState), x, y);
        && inputState == r.state
        && grid == (if r.apply then LegacyUse(old(grid), currentTool, x, y, true) else old(grid))
      ensures ValidGrid(grid)
      ensures ambientMap == old(ambientMap) && particles == old(particles) && score == old(score)
      ensures currentTool == old(currentTool)
    {
      inputState := inputState.(isDown := true);
      HandleInput(relX, relY, tile, true);
    }

    /** The `pointermove` handler: ignored unless the pointer is held, otherwise handled as a drag. */
    method PointerMove(relX: real, relY: real, tile: real)
      requires tile > 0.0 && ValidGrid(grid)
      modifies this
      ensures var x, y := CellOf(relX, tile), CellOf(relY, tile);
        var r := Drag(old(inputState), x, y);
        && inputState == r.state
        && grid == (if r.apply then LegacyUse(old(grid), currentTool, x, y, false) else old(grid))
      ensures ValidGrid(grid)
      ensures ambientMap == old(ambientMap) && particles == old(particles) && score == old(score)
      ensures currentTool == old(currentTool)
    {
      if !inputState.isDown {
        return;
      }
      HandleInput(relX, relY, tile, false);
    }

    /** The `pointerup` / `pointercancel` handler. */
    method PointerUp()
      modifies this
      ensures inputState == Release(old(inputState))
      ensures grid == old(grid) && ambientMap == old(ambientMap) && particles == old(particles)
      ensures score == old(score) && currentTool == old(currentTool)
    {
      inputState := inputState.(isDown := false, gx := -1, gy := -1, startX := -1);
    }

    /** The globals `updatePhysics` writes back at the end of a tick. */
    method Commit(f: LegacyFrame)
      modifies this
      ensures grid == f.grid && particles == f.particles && score == f.score
      ensures ambientMap == old(ambientMap) && currentTool == old(currentTool) && inputState == old(inputState)
    {
      grid, particles, score := f.grid, f.particles, f.score;
    }

    /** `updatePhysics` of js/systems/physics.js, reporting its explosions and scores. */
    method UpdatePhysics() returns (events: seq<Event>)
      requires Ready()
      modifies this
      ensures Ready()
      ensures var f := LegacyTick(old(grid), old(ambientMap), old(particles), old(score));
        grid == f.grid && particles == f.particles && score == f.score && events == f.events
      ensures score >= old(score)
      ensures ambientMap == old(ambientMap) && currentTool == old(currentTool) && inputState == old(inputState)
    {
      var f := LegacyStep(grid, ambientMap, particles, score);
      Commit(f);
      events := f.events;
    }
  }
}
