// The browser front end of js/app.js: the player's grid-editing commands
// (`applyTool`, `placeComponent`, `clearMap`, the number-key hotkeys), the
// pointer dispatch of `handleInput`, and this generation's own physics tick,
// whose solver pushes into any occupied neighbour that is not a wall and
// which keeps a 60-tick window of statistics and a running score.
module App {
  import opened Constants
  import opened Components
  import opened Grid
  import opened Solver
  import opened OverloadLaws
  import opened Particles
  import opened ParticleLaws
  import opened Ticks
  import opened Input

  /** Solver rules of this generation: the kind's outputs, any non-wall neighbour, half-speed batteries, more than 0.1 to move. */
  const APP_RULES: Rules := Rules(KindOutputs, OccupiedNotWall, BatteryHalfSpeed, 0.1)

  /** Makers spend 25 with a cooldown of 15, rails boost for 25, particles die on these five kinds. */
  const APP_PARTICLES: ParticleRules := ParticleRules(25.0, 15, 25.0, {Wall, Maker, Extractor, Battery, Prism})

  /** The statistics are shown and restarted every this many physics ticks. */
  const STAT_WINDOW: int := 60

  /** The name of the tool that removes components. */
  const ERASER: string := "eraser"

  /** The tools of the number keys 1 to 9, in key order. */
  const HOTKEY_TOOLS: seq<string> := ["extractor", "wire", "battery", "vent", "maker", "rail", "emitter", "prism", "wall"]

  // ---------------------------------------------------------------------
  // Editing the grid

  /** The instance `placeComponent` creates: facing right, empty, the table's capacity, no cooldown. */
  function NewComponent(k: Kind): Component
  {
    Component(k, 1, 0.0, MaxEnergy(k), 0)
  }

  /** What `placeComponent` leaves in a cell: a new instance of the tool's kind, or the cell as it was for an unknown tool. */
  function Place(tool: string, cell: Cell): Cell
  {
    match Lookup(tool)
    case None => cell
    case Some(k) => Some(NewComponent(k))
  }

  /** The new content of the cell `applyTool` acts on, for a click (a press) or a drag. */
  function ToolResult(tool: string, cell: Cell, isClick: bool): Cell
  {
    if tool == ERASER then None
    else
      match cell
      case None => Place(tool, cell)
      case Some(c) =>
        if isClick && Name(c.kind) == tool then Some(c.(rotation := (c.rotation + 1) % 4))
        else if isClick then Place(tool, cell)
        else cell
  }

  /** The grid after `applyTool(x, y, isClick)`. */
  function UseTool(g: GridCells, tool: string, x: int, y: int, isClick: bool): GridCells
    requires Square(g) && InBounds(x, y)
  {
    Set(g, x, y, ToolResult(tool, g[y][x], isClick))
  }

  /** Writing back a cell's own content changes nothing. */
  lemma SetSame(g: GridCells, x: int, y: int)
    requires Square(g) && InBounds(x, y)
    ensures Set(g, x, y, g[y][x]) == g
  {
    assert g[y][x := g[y][x]] == g[y];
  }

  /**
   * A tool acts on its own cell only and keeps the grid valid. The eraser always leaves the cell
   * empty; a drag over a component leaves it alone; an empty cell is filled by any known tool.
   */
  lemma ToolLaws(g: GridCells, tool: string, x: int, y: int, isClick: bool)
    requires ValidGrid(g) && InBounds(x, y)
    ensures var h := UseTool(g, tool, x, y, isClick);
      && ValidGrid(h)
      && (forall j, i :: 0 <= j < GRID_SIZE && 0 <= i < GRID_SIZE && (j != y || i != x) ==> h[j][i] == g[j][i])
      && (tool == ERASER ==> h[y][x] == None)
      && (tool != ERASER && g[y][x].Some? && !isClick ==> h == g)
      && (g[y][x].None? && Lookup(tool).Some? ==> h[y][x] == Some(NewComponent(Lookup(tool).value)))
  {
    var h := UseTool(g, tool, x, y, isClick);
    if tool != ERASER && g[y][x].Some? && !isClick {
      SetSame(g, x, y);
    }
  }

  /**
   * On a component, a click with a different known tool replaces it by a new instance of the tool's
   * kind, and a click with a tool that names no kind leaves the cell as it was.
   */
  lemma ClickReplaces(c: Component, tool: string)
    requires tool != ERASER && Name(c.kind) != tool
    ensures Lookup(tool).Some? ==> ToolResult(tool, Some(c), true) == Some(NewComponent(Lookup(tool).value))
    ensures Lookup(tool).Some? ==> Lookup(tool).value != c.kind
    ensures Lookup(tool).None? ==> ToolResult(tool, Some(c), true) == Some(c)
  {
    if Lookup(tool).Some? {
      LookupRoundTrip(Lookup(tool).value, tool);
    }
  }

  /** Clicking a component n times with its own tool. */
  function Clicks(c: Component, n: nat): Component
  {
    if n == 0 then c else
      var d := Clicks(c, n - 1);
      match ToolResult(Name(c.kind), Some(d), true)
      case None => d
      case Some(e) => e
  }

  /**
   * A click with the component's own tool turns it a quarter to the right and changes nothing else:
   * the rotation stays a direction, one to three clicks give a different facing, four restore it.
   */
  lemma {:induction false} ClicksRotate(c: Component, n: nat)
    requires IsDir(c.rotation)
    ensures Clicks(c, n) == c.(rotation := (c.rotation + n) % 4)
    ensures IsDir(Clicks(c, n).rotation)
    ensures Clicks(c, n) == c <==> n % 4 == 0
  {
    if n > 0 {
      ClicksRotate(c, n - 1);
      var d := Clicks(c, n - 1);
      assert Name(d.kind) == Name(c.kind) != ERASER;
      assert Clicks(c, n) == d.(rotation := (d.rotation + 1) % 4);
    }
  }

  // ---------------------------------------------------------------------
  // Hotkeys

  /** What a key press does: pick a tool, start or stop the simulation, or nothing. */
  datatype KeyCommand = SelectTool(tool: string) | ToggleRun | NoCommand

  /**
   * `handleKeyDown` for a lower-cased key name: the digits 1 to 9 pick the tools in key order,
   * `x` and `delete` pick the eraser, the space bar starts or stops the simulation.
   */
  function KeyCommandOf(key: string): KeyCommand
  {
    if |key| == 1 && '1' <= key[0] <= '9' then SelectTool(HOTKEY_TOOLS[key[0] as int - '1' as int])
    else if key == "x" || key == "delete" then SelectTool(ERASER)
    else if key == " " then ToggleRun
    else NoCommand
  }

  /** The number key that picks each kind: its position in the component table, counted from 1. */
  function HotkeyOf(k: Kind): string
  {
    match k
    case Extractor => "1"
    case Wire => "2"
    case Battery => "3"
    case Vent => "4"
    case Maker => "5"
    case Rail => "6"
    case Emitter => "7"
    case Prism => "8"
    case Wall => "9"
  }

  /**
   * The nine number keys pick the nine component kinds, key i + 1 the i-th kind of the table, each
   * kind has its key, and every tool a key picks is either the eraser or the name of a kind.
   */
  lemma HotkeysCoverKinds(key: string)
    ensures forall i :: 0 <= i < 9 ==> KeyCommandOf([('1' as int + i) as char]) == SelectTool(Name(KINDS[i]))
    ensures forall k: Kind :: KeyCommandOf(HotkeyOf(k)) == SelectTool(Name(k))
    ensures KeyCommandOf(key).SelectTool? ==> KeyCommandOf(key).tool == ERASER || Lookup(KeyCommandOf(key).tool).Some?
  {
    if KeyCommandOf(key).SelectTool? && KeyCommandOf(key).tool != ERASER {
      var i := key[0] as int - '1' as int;
      assert HOTKEY_TOOLS[i] == Name(KINDS[i]);
      LookupRoundTrip(KINDS[i], HOTKEY_TOOLS[i]);
    }
  }

  // ---------------------------------------------------------------------
  // Clearing

  /** `grid.map(r => r.map(() => null))`: every cell emptied, every row as long as before. */
  function Blank(g: GridCells): (h: GridCells)
    ensures |h| == |g|
    ensures forall j :: 0 <= j < |g| ==> |h[j]| == |g[j]| && forall i :: 0 <= i < |g[j]| ==> h[j][i] == None
  {
    seq(|g|, j requires 0 <= j < |g| => seq(|g[j]|, _ => None))
  }

  /** On a square grid clearing gives the empty grid, which is valid. */
  lemma BlankSquare(g: GridCells)
    requires Square(g)
    ensures Blank(g) == Fill(None) && ValidGrid(Blank(g))
  {
    MatrixEq(Blank(g), Fill(None));
  }

  // ---------------------------------------------------------------------
  // The physics tick

  /** The statistics window after one tick: it runs to STAT_WINDOW, then restarts at zero with zero statistics. */
  function NextTimer(timer: int): int
  {
    if timer + 1 >= STAT_WINDOW then 0 else timer + 1
  }

  function WindowStats(timer: int, s: Stats): Stats
  {
    if timer + 1 >= STAT_WINDOW then Stats(0.0, 0.0, 0.0) else s
  }

  /** The window timer after n ticks from t. */
  function TimerAfter(t: int, n: nat): int
  {
    if n == 0 then t else NextTimer(TimerAfter(t, n - 1))
  }

  /** From a fresh window the timer counts ticks modulo 60: the statistics restart exactly every 60th tick. */
  lemma {:induction false} TimerCounts(n: nat)
    ensures TimerAfter(0, n) == n % STAT_WINDOW
    ensures TimerAfter(0, n) == 0 <==> n % STAT_WINDOW == 0
  {
    if n > 0 {
      TimerCounts(n - 1);
    }
  }

  /** The efficiency `updateStatsUI` shows for a window: use over generation in percent, 100 when nothing was generated but something used. */
  function Efficiency(s: Stats): real
  {
    if s.gen > 0.1 then (s.use / s.gen) * 100.0
    else if s.use > 0.0 then 100.0
    else 0.0
  }

  /** The colour band of the efficiency display. */
  datatype Band = Green | Yellow | Red

  function BandOf(eff: real): Band
  {
    if eff > 80.0 then Green else if eff > 40.0 then Yellow else Red
  }

  /**
   * For a window's non-negative statistics the efficiency is never negative and is zero exactly when
   * nothing was used; with real generation it shows green exactly when use exceeds 80% of it, and
   * with none it shows green as soon as anything was used.
   */
  lemma EfficiencyLaws(s: Stats)
    requires s.gen >= 0.0 && s.use >= 0.0
    ensures Efficiency(s) >= 0.0
    ensures Efficiency(s) == 0.0 <==> s.use == 0.0
    ensures s.gen > 0.1 ==> (BandOf(Efficiency(s)) == Green <==> s.use > 0.8 * s.gen)
    ensures s.gen <= 0.1 ==> (BandOf(Efficiency(s)) == Green <==> s.use > 0.0)
  {
    if s.gen > 0.1 {
      var q := s.use / s.gen;
      assert s.use == q * s.gen;
      assert q >= 0.0;
      if q == 0.0 {
        assert s.use == 0.0;
      }
      assert q * 100.0 > 80.0 <==> q > 0.8;
      if q > 0.8 {
        assert (q - 0.8) * s.gen > 0.0;
      } else {
        assert (0.8 - q) * s.gen >= 0.0;
      }
    }
  }

  /** What one physics tick of the front end leaves, with the explosions and scores it produced. */
  datatype Frame = Frame(grid: GridCells, particles: seq<Particle>, stats: Stats, statTimer: int, score: int, events: seq<Event>)

  /** `updatePhysics`: the solver tick, the statistics window, then the particle tick, whose scores add to the score. */
  function AppTick(g: GridCells, amb: Matrix<real>, ps: seq<Particle>, s0: Stats, timer: int, score: int): Frame
    requires ValidGrid(g) && AmbientOk(amb) && AllOk(ps)
  {
    PhysicsTickLaws(APP_RULES, g, amb, s0);
    var t := PhysicsTick(APP_RULES, g, amb, s0);
    var w := ParticleTick(APP_PARTICLES, World(t.grid, ps, WindowStats(timer, t.stats), []));
    Frame(w.grid, w.particles, w.stats, NextTimer(timer), score + ScoreOf(w.events), t.events + w.events)
  }

  /**
   * One tick keeps the grid valid and every particle live, never lowers the score, and adds at least
   * 10 points per score event. The window timer stays in 0..59; when it wraps the statistics hold
   * only this tick's particle spending, otherwise they only grow.
   */
  lemma AppTickLaws(g: GridCells, amb: Matrix<real>, ps: seq<Particle>, s0: Stats, timer: int, score: int)
    requires ValidGrid(g) && AmbientOk(amb) && AllOk(ps) && 0 <= timer < STAT_WINDOW
    ensures var f := AppTick(g, amb, ps, s0, timer, score);
      && ValidGrid(f.grid) && AllOk(f.particles) && 0 <= f.statTimer < STAT_WINDOW
      && (f.statTimer == 0 <==> timer == STAT_WINDOW - 1)
      && (f.statTimer == 0 ==> f.stats.gen == 0.0 && f.stats.vent == 0.0 && f.stats.use >= 0.0)
      && (f.statTimer != 0 ==> f.stats.gen >= s0.gen && f.stats.vent >= s0.vent && f.stats.use >= s0.use)
      && f.score >= score + 10 * |f.events| - 10 * |PhysicsTick(APP_RULES, g, amb, s0).events|
      && f.score >= score
  {
    PhysicsTickLaws(APP_RULES, g, amb, s0);
    var t := PhysicsTick(APP_RULES, g, amb, s0);
    var w0 := World(t.grid, ps, WindowStats(timer, t.stats), []);
    ParticleTickLaws(APP_PARTICLES, w0);
    var w := ParticleTick(APP_PARTICLES, w0);
    assert w.events[|w0.events|..] == w.events;
    ScoreOfLaws([], w.events);
    assert [] + w.events == w.events;
  }

  /** The statistics window of `updatePhysics`: the timer advances, and on reaching 60 both restart. */
  method WindowStep(timer: int, s: Stats) returns (timer': int, s': Stats)
    ensures timer' == NextTimer(timer) && s' == WindowStats(timer, s)
  {
    timer', s' := timer + 1, s;
    if timer' >= STAT_WINDOW {
      timer' := 0;
      s' := Stats(0.0, 0.0, 0.0);
    }
  }

  /** The loops of `updatePhysics` and `updateParticles`, in the order the front end runs them. */
  method AppStep(g: GridCells, amb: Matrix<real>, ps: seq<Particle>, s0: Stats, timer: int, score: int) returns (f: Frame)
    requires ValidGrid(g) && AmbientOk(amb) && AllOk(ps) && 0 <= timer < STAT_WINDOW
    ensures f == AppTick(g, amb, ps, s0, timer, score)
    ensures ValidGrid(f.grid) && AllOk(f.particles) && 0 <= f.statTimer < STAT_WINDOW && f.score >= score
  {
    AppTickLaws(g, amb, ps, s0, timer, score);
    var t := SolverTick(APP_RULES, g, amb, s0);
    var statTimer, stats := WindowStep(timer, t.stats);
    var w := ParticleStep(APP_PARTICLES, World(t.grid, ps, stats, []));
    f := Frame(w.grid, w.particles, w.stats, statTimer, score + ScoreOf(w.events), t.events + w.events);
  }

  // ---------------------------------------------------------------------
  // The front end's state

  class AppState {
    var grid: GridCells
    var ambientMap: Matrix<real>
    var particles: seq<Particle>
    var currentStats: Stats
    var statTimer: int
    var currentTool: string
    var isRunning: bool
    var score: int
    /** `gameState === 'PLAYING'`. */
    var playing: bool
    var inputState: InputState

    /** A level is loaded: a valid grid over an ambient map in 0..100, live particles, the window timer in 0..59. */
    predicate Ready()
      reads this
    {
      ValidGrid(grid) && AmbientOk(ambientMap) && AllOk(particles) && 0 <= statTimer < STAT_WINDOW
    }

    /** The globals as the page loads: no grid yet, the extractor selected, stopped, in the menu. */
    constructor()
      ensures grid == [] && ambientMap == [] && particles == [] && currentStats == Stats(0.0, 0.0, 0.0)
      ensures statTimer == 0 && currentTool == "extractor" && !isRunning && score == 0 && !playing
      ensures inputState == IDLE
    {
      grid := [];
      ambientMap := [];
      particles := [];
      currentStats := Stats(0.0, 0.0, 0.0);
      statTimer := 0;
      currentTool := "extractor";
      isRunning := false;
      score := 0;
      playing := false;
      inputState := IDLE;
    }

    /**
     * `startGame` for a level without setup: an empty grid over the clamped ambient levels of the
     * noise, no particles, score zero, running, with the extractor selected.
     */
    method StartGame(noise: Matrix<real>)
      requires Square(noise) && 0 <= statTimer < STAT_WINDOW
      modifies this
      ensures Ready() && playing && isRunning
      ensures grid == Fill(None) && particles == [] && score == 0 && currentTool == "extractor"
      ensures forall y, x :: 0 <= y < GRID_SIZE && 0 <= x < GRID_SIZE ==> ambientMap[y][x] == AmbientLevel(noise[y][x])
      ensures currentStats == old(currentStats) && statTimer == old(statTimer) && inputState == old(inputState)
    {
      playing := true;
      particles := [];
      score := 0;
      isRunning := true;
      grid := Fill(None);
      ambientMap := AmbientFromNoise(noise);
      currentTool := "extractor";
    }

    /** `placeComponent(x, y)`: a new instance of the current tool's kind at (x, y), nothing for an unknown tool. */
    method PlaceComponent(x: int, y: int)
      requires ValidGrid(grid) && InBounds(x, y)
      modifies this
      ensures Lookup(currentTool).None? ==> grid == old(grid)
      ensures Lookup(currentTool).Some? ==> grid == Set(old(grid), x, y, Some(NewComponent(Lookup(currentTool).value)))
      ensures grid == Set(old(grid), x, y, Place(currentTool, old(grid)[y][x]))
      ensures ValidGrid(grid)
      ensures ambientMap == old(ambientMap) && particles == old(particles) && currentStats == old(currentStats)
      ensures statTimer == old(statTimer) && currentTool == old(currentTool) && isRunning == old(isRunning)
      ensures score == old(score) && playing == old(playing) && inputState == old(inputState)
    {
      match Lookup(currentTool)
      case None =>
        SetSame(grid, x, y);
      case Some(k) =>
        grid := Set(grid, x, y, Some(NewComponent(k)));
    }

    /** `applyTool(x, y, isClick)`. */
    method ApplyTool(x: int, y: int, isClick: bool)
      requires ValidGrid(grid) && InBounds(x, y)
      modifies this
      ensures grid == UseTool(old(grid), currentTool, x, y, isClick) && ValidGrid(grid)
      ensures ambientMap == old(ambientMap) && particles == old(particles) && currentStats == old(currentStats)
      ensures statTimer == old(statTimer) && currentTool == old(currentTool) && isRunning == old(isRunning)
      ensures score == old(score) && playing == old(playing) && inputState == old(inputState)
    {
      ToolLaws(grid, currentTool, x, y, isClick);
      var cell := grid[y][x];
      if currentTool == ERASER {
        if grid[y][x].Some? {
          grid := Set(grid, x, y, None);
        } else {
          SetSame(grid, x, y);
        }
        return;
      }
      if cell.Some? {
        if isClick && Name(cell.value.kind) == currentTool {
          grid := Set(grid, x, y, Some(cell.value.(rotation := (cell.value.rotation + 1) % 4)));
        } else if isClick && Name(cell.value.kind) != currentTool {
          PlaceComponent(x, y);
        } else {
          SetSame(grid, x, y);
        }
      } else {
        PlaceComponent(x, y);
      }
    }

    /**
     * `handleInput`: the pointer's canvas offset becomes a cell; outside the grid nothing changes;
     * inside, the input state follows Route and the tool is applied when Route says so.
     */
    method HandleInput(relX: real, relY: real, tile: real, isStart: bool)
      requires tile > 0.0 && ValidGrid(grid)
      modifies this
      ensures var x, y := CellOf(relX, tile), CellOf(relY, tile);
        var r := Route(old(inputState), x, y, isStart);
        && inputState == r.state
        && grid == (if r.apply then UseTool(old(grid), currentTool, x, y, isStart) else old(grid))
      ensures ValidGrid(grid)
      ensures ambientMap == old(ambientMap) && particles == old(particles) && currentStats == old(currentStats)
      ensures statTimer == old(statTimer) && currentTool == old(currentTool) && isRunning == old(isRunning)
      ensures score == old(score) && playing == old(playing)
    {
      var x := CellOf(relX, tile);
      var y := CellOf(relY, tile);
      if x < 0 || x >= GRID_SIZE || y < 0 || y >= GRID_SIZE {
        return;
      }
      inputState := inputState.(gx := x, gy := y);
      if !isStart && x == inputState.startX && y == inputState.startY {
        return;
      }
      inputState := inputState.(startX := x, startY := y);
      ApplyTool(x, y, isStart);
    }

    /** `handleKeyDown` for a lower-cased key name. */
    method HandleKey(key: string)
      modifies this
      ensures KeyCommandOf(key).SelectTool? ==> currentTool == KeyCommandOf(key).tool && isRunning == old(isRunning)
      ensures KeyCommandOf(key).ToggleRun? ==> isRunning == !old(isRunning) && currentTool == old(currentTool)
      ensures KeyCommandOf(key).NoCommand? ==> isRunning == old(isRunning) && currentTool == old(currentTool)
      ensures grid == old(grid) && ambientMap == old(ambientMap) && particles == old(particles)
      ensures currentStats == old(currentStats) && statTimer == old(statTimer) && score == old(score)
      ensures playing == old(playing) && inputState == old(inputState)
    {
      match KeyCommandOf(key)
      case SelectTool(t) => SelectTool(t);
      case ToggleRun => ToggleRun();
      case NoCommand =>
    }

    /** `selectTool(t, desc)`: the tool becomes current; nothing else of the game changes. */
    method SelectTool(t: string)
      modifies this
      ensures currentTool == t && isRunning == old(isRunning)
      ensures grid == old(grid) && ambientMap == old(ambientMap) && particles == old(particles)
      ensures currentStats == old(currentStats) && statTimer == old(statTimer) && score == old(score)
      ensures playing == old(playing) && inputState == old(inputState)
    {
      currentTool := t;
    }

    /** `toggleRun`: the simulation is paused if running and resumed if paused. */
    method ToggleRun()
      modifies this
      ensures isRunning == !old(isRunning) && currentTool == old(currentTool)
      ensures grid == old(grid) && ambientMap == old(ambientMap) && particles == old(particles)
      ensures currentStats == old(currentStats) && statTimer == old(statTimer) && score == old(score)
      ensures playing == old(playing) && inputState == old(inputState)
    {
      isRunning := !isRunning;
    }

    /**
     * The `pointerdown` listener: outside a game (as on the menu, where there is no grid yet) nothing
     * happens; otherwise the pointer is held and the event handled as a press.
     */
    method PointerDown(relX: real, relY: real, tile: real)
      requires playing ==> tile > 0.0 && ValidGrid(grid)
      modifies this
      ensures old(playing) ==>
        var x, y := CellOf(relX, tile), CellOf(relY, tile);
        var r := Press(old(inputState), x, y);
        && inputState == r.state && grid == (if r.apply then UseTool(old(grid), currentTool, x, y, true) else old(grid))
        && ValidGrid(grid)
      ensures !old(playing) ==> inputState == old(inputState) && grid == old(grid)
      ensures ambientMap == old(ambientMap) && particles == old(particles) && currentStats == old(currentStats)
      ensures statTimer == old(statTimer) && currentTool == old(currentTool) && isRunning == old(isRunning)
      ensures score == old(score) && playing == old(playing)
    {
      if !playing {
        return;
      }
      inputState := inputState.(isDown := true);
      HandleInput(relX, relY, tile, true);
    }

    /** The `pointermove` listener: ignored outside a game or while the pointer is up, otherwise handled as a drag. */
    method PointerMove(relX: real, relY: real, tile: real)
      requires playing ==> tile > 0.0 && ValidGrid(grid)
      modifies this
      ensures old(playing) ==>
        var x, y := CellOf(relX, tile), CellOf(relY, tile);
        var r := Drag(old(inputState), x, y);
        && inputState == r.state && grid == (if r.apply then UseTool(old(grid), currentTool, x, y, false) else old(grid))
        && ValidGrid(grid)
      ensures !old(playing) ==> inputState == old(inputState) && grid == old(grid)
      ensures ambientMap == old(ambientMap) && particles == old(particles) && currentStats == old(currentStats)
      ensures statTimer == old(statTimer) && currentTool == old(currentTool) && isRunning == old(isRunning)
      ensures score == old(score) && playing == old(playing)
    {
      if !playing || !inputState.isDown {
        return;
      }
      HandleInput(relX, relY, tile, false);
    }

    /** `endInput`, the `pointerup` / `pointercancel` listener. */
    method PointerUp()
      modifies this
      ensures inputState == Release(old(inputState))
      ensures grid == old(grid) && ambientMap == old(ambientMap) && particles == old(particles)
      ensures currentStats == old(currentStats) && statTimer == old(statTimer) && score == old(score)
      ensures currentTool == old(currentTool) && isRunning == old(isRunning) && playing == old(playing)
    {
      inputState := inputState.(isDown := false, gx := -1, gy := -1, startX := -1);
    }

    /** `clearMap`: every cell emptied with the grid's shape kept, no particles, score zero, stopped. */
    method ClearMap()
      modifies this
      ensures grid == Blank(old(grid)) && particles == [] && score == 0 && !isRunning
      ensures ambientMap == old(ambientMap) && currentStats == old(currentStats) && statTimer == old(statTimer)
      ensures currentTool == old(currentTool) && playing == old(playing) && inputState == old(inputState)
      ensures old(Ready()) ==> Ready() && grid == Fill(None)
    {
      if Square(grid) {
        BlankSquare(grid);
      }
      grid := Blank(grid);
      particles := [];
      score := 0;
      isRunning := false;
    }

    /** The globals `updatePhysics` and `updateParticles` write back at the end of a tick. */
    method Commit(f: Frame)
      modifies this
      ensures grid == f.grid && particles == f.particles && currentStats == f.stats
      ensures statTimer == f.statTimer && score == f.score
      ensures ambientMap == old(ambientMap) && currentTool == old(currentTool) && isRunning == old(isRunning)
      ensures playing == old(playing) && inputState == old(inputState)
    {
      grid, particles, currentStats, statTimer, score := f.grid, f.particles, f.stats, f.statTimer, f.score;
    }

    /** `updatePhysics`, which ends with `updateParticles`, reporting its explosions and scores. */
    method UpdatePhysics() returns (events: seq<Event>)
      requires Ready()
      modifies this
      ensures Ready()
      ensures var f := AppTick(old(grid), old(ambientMap), old(particles), old(currentStats), old(statTimer), old(score));
        && grid == f.grid && particles == f.particles && currentStats == f.stats
        && statTimer == f.statTimer && score == f.score && events == f.events
      ensures score >= old(score)
      ensures ambientMap == old(ambientMap) && currentTool == old(currentTool) && isRunning == old(isRunning)
      ensures playing == old(playing) && inputState == old(inputState)
    {
      var f := AppStep(grid, ambientMap, particles, currentStats, statTimer, score);
      Commit(f);
      events := f.events;
    }
  }
}
