// Particles: makers spawn them, and each tick every particle advances along
// its direction until it steps into the next cell, where the occupant decides
// its fate (boost on an aligned rail, score on an aligned emitter, collision,
// or nothing). The three generations of the game (js/engine.js, js/app.js,
// js/systems/physics.js) differ only in the costs and cooldown and in which
// kinds a particle collides with; a ParticleRules value fixes those.
module Particles {
  import opened Constants
  import opened Components
  import opened Grid
  import opened Solver

  /** A particle `{x, y, dir, progress, speed, charged}`. */
  datatype Particle = Particle(x: int, y: int, dir: int, progress: real, speed: real, charged: bool)

  /** Spawn cost and cooldown of a maker, boost cost of a rail, and the kinds a particle dies on. */
  datatype ParticleRules = ParticleRules(spawnCost: real, spawnCooldown: int, boostCost: real, collides: set<Kind>)

  /** Everything the particle update reads and writes. */
  datatype World = World(grid: GridCells, particles: seq<Particle>, stats: Stats, events: seq<Event>)

  /** A live particle: on the grid, heading in a direction, part-way to the next cell, never slower than at spawn, and charged exactly when boosted. */
  predicate ParticleOk(p: Particle)
  {
    InBounds(p.x, p.y) && IsDir(p.dir) && 0.0 <= p.progress < 1.0 && p.speed >= 1.0 && (p.charged <==> p.speed > 1.0)
  }

  predicate AllOk(ps: seq<Particle>)
  {
    forall i :: 0 <= i < |ps| ==> ParticleOk(ps[i])
  }

  predicate AllDirs(ps: seq<Particle>)
  {
    forall i :: 0 <= i < |ps| ==> IsDir(ps[i].dir)
  }

  /** `spawnParticle(x, y, dir)`: a fresh particle at the maker's cell. */
  function Spawned(x: int, y: int, dir: int): Particle
  {
    Particle(x, y, dir, 0.0, 1.0, false)
  }

  /** Points scored by a particle reaching an emitter: `Math.floor(10 * speed)`. */
  function Points(p: Particle): int
  {
    (10.0 * p.speed).Floor
  }

  // ---------------------------------------------------------------------
  // Spawning

  /** One maker's tick: the cooldown drops by one; with enough energy and the cooldown run out it fires. */
  function MakerTick(pr: ParticleRules, c: Component): (Component, bool)
  {
    var c1 := c.(cooldown := c.cooldown - 1);
    if c1.energy >= pr.spawnCost && c1.cooldown <= 0 then
      (c1.(energy := c1.energy - pr.spawnCost, cooldown := pr.spawnCooldown), true)
    else
      (c1, false)
  }

  /** The spawn loop at one cell. */
  function SpawnCell(pr: ParticleRules, w: World, x: int, y: int): (w': World)
    requires Square(w.grid) && InBounds(x, y)
    ensures Square(w'.grid)
  {
    match w.grid[y][x]
    case None => w
    case Some(c) =>
      if c.kind != Maker then w
      else
        var (c1, fired) := MakerTick(pr, c);
        World(Set(w.grid, x, y, Some(c1)),
              if fired then w.particles + [Spawned(x, y, c.rotation)] else w.particles,
              if fired then w.stats.(use := w.stats.use + pr.spawnCost) else w.stats,
              w.events)
  }

  /** The spawn loop over every row above y and the first x cells of row y. */
  function SpawnUpto(pr: ParticleRules, w0: World, y: nat, x: nat): (w: World)
    requires Square(w0.grid)
    requires (y < GRID_SIZE && x <= GRID_SIZE) || (y == GRID_SIZE && x == 0)
    ensures Square(w.grid)
    decreases y, x
  {
    if x == 0 then
      if y == 0 then w0 else SpawnUpto(pr, w0, y - 1, GRID_SIZE)
    else
      SpawnCell(pr, SpawnUpto(pr, w0, y, x - 1), x - 1, y)
  }

  function Spawn(pr: ParticleRules, w: World): World
    requires Square(w.grid)
  {
    SpawnUpto(pr, w, GRID_SIZE, 0)
  }

  // ---------------------------------------------------------------------
  // Moving

  /** `particles.splice(i, 1)`. */
  function Remove(ps: seq<Particle>, i: int): (r: seq<Particle>)
    requires 0 <= i < |ps|
    ensures |r| == |ps| - 1 && r[..i] == ps[..i]
    ensures forall j :: 0 <= j < |r| ==> r[j] == if j < i then ps[j] else ps[j + 1]
  {
    ps[..i] + ps[i + 1..]
  }

  /** The move loop on the particle at index i. */
  function MoveAt(pr: ParticleRules, w: World, i: int): (w': World)
    requires Square(w.grid) && 0 <= i < |w.particles| && AllDirs(w.particles)
    ensures Square(w'.grid) && AllDirs(w'.particles)
    ensures |w'.particles| >= i && w'.particles[..i] == w.particles[..i]
  {
    var p := w.particles[i].(progress := w.particles[i].progress + 0.05 * w.particles[i].speed);
    if p.progress < 1.0 then
      w.(particles := w.particles[i := p])
    else
      var q := p.(progress := 0.0, x := StepX(p.x, p.dir), y := StepY(p.y, p.dir));
      if !InBounds(q.x, q.y) then
        w.(particles := Remove(w.particles, i))
      else
        match w.grid[q.y][q.x]
        case None => w.(particles := Remove(w.particles, i))
        case Some(c) =>
          if c.kind == Rail && q.dir == c.rotation then
            if c.energy >= pr.boostCost then
              World(Set(w.grid, q.x, q.y, Some(c.(energy := c.energy - pr.boostCost))),
                    w.particles[i := q.(speed := q.speed + 0.5, charged := true)],
                    w.stats.(use := w.stats.use + pr.boostCost),
                    w.events)
            else
              w.(particles := w.particles[i := q])
          else if c.kind == Emitter && q.dir == c.rotation then
            w.(particles := Remove(w.particles, i), events := w.events + [Scored(q.x, q.y, Points(q))])
          else if c.kind in pr.collides then
            w.(particles := Remove(w.particles, i))
          else
            w.(particles := w.particles[i := q])
  }

  /** The backwards move loop over indices n-1 down to 0. */
  function MoveDown(pr: ParticleRules, w: World, n: nat): World
    requires Square(w.grid) && n <= |w.particles| && AllDirs(w.particles)
    decreases n
  {
    if n == 0 then w else MoveDown(pr, MoveAt(pr, w, n - 1), n - 1)
  }

  function Move(pr: ParticleRules, w: World): World
    requires Square(w.grid) && AllDirs(w.particles)
  {
    MoveDown(pr, w, |w.particles|)
  }

  // ---------------------------------------------------------------------
  // The loops, as the source writes them

  /** The spawn loop: every maker's cooldown ticks down, and a ready maker with enough energy fires. */
  method SpawnPass(pr: ParticleRules, w0: World) returns (w: World)
    requires Square(w0.grid)
    ensures w == Spawn(pr, w0)
  {
    w := w0;
    var y := 0;
    while y < GRID_SIZE
      invariant 0 <= y <= GRID_SIZE
      invariant w == SpawnUpto(pr, w0, y, 0)
    {
      var x := 0;
      while x < GRID_SIZE
        invariant 0 <= x <= GRID_SIZE
        invariant w == SpawnUpto(pr, w0, y, x)
      {
        if w.grid[y][x].Some? && w.grid[y][x].value.kind == Maker {
          var c := w.grid[y][x].value;
          c := c.(cooldown := c.cooldown - 1);
          if c.energy >= pr.spawnCost && c.cooldown <= 0 {
            c := c.(energy := c.energy - pr.spawnCost, cooldown := pr.spawnCooldown);
            w := w.(stats := w.stats.(use := w.stats.use + pr.spawnCost),
                    particles := w.particles + [Spawned(x, y, c.rotation)]);
          }
          w := w.(grid := Set(w.grid, x, y, Some(c)));
        }
        x := x + 1;
      }
      y := y + 1;
    }
  }

  /** One turn of the move loop on the particle at index i. */
  method MoveOne(pr: ParticleRules, w0: World, i: int) returns (w: World)
    requires Square(w0.grid) && 0 <= i < |w0.particles| && AllDirs(w0.particles)
    ensures w == MoveAt(pr, w0, i)
  {
    w := w0;
    var p := w.particles[i];
    p := p.(progress := p.progress + 0.05 * p.speed);
    if p.progress >= 1.0 {
      p := p.(progress := 0.0, x := StepX(p.x, p.dir), y := StepY(p.y, p.dir));
      if !InBounds(p.x, p.y) {
        w := w.(particles := Remove(w.particles, i));
        return;
      }
      var cell := w.grid[p.y][p.x];
      if cell.Some? {
        var c := cell.value;
        if c.kind == Rail && p.dir == c.rotation {
          if c.energy >= pr.boostCost {
            w := w.(grid := Set(w.grid, p.x, p.y, Some(c.(energy := c.energy - pr.boostCost))),
                    stats := w.stats.(use := w.stats.use + pr.boostCost));
            p := p.(speed := p.speed + 0.5, charged := true);
          }
        } else if c.kind == Emitter && p.dir == c.rotation {
          w := w.(particles := Remove(w.particles, i), events := w.events + [Scored(p.x, p.y, Points(p))]);
          return;
        } else if c.kind in pr.collides {
          w := w.(particles := Remove(w.particles, i));
          return;
        }
      } else {
        w := w.(particles := Remove(w.particles, i));
        return;
      }
    }
    w := w.(particles := w.particles[i := p]);
  }

  /** The move loop: indices from last to first, removing particles in place. */
  method MovePass(pr: ParticleRules, w0: World) returns (w: World)
    requires Square(w0.grid) && AllDirs(w0.particles)
    ensures w == Move(pr, w0)
  {
    w := w0;
    var i := |w0.particles|;
    while i > 0
      invariant 0 <= i <= |w.particles|
      invariant Square(w.grid) && AllDirs(w.particles)
      invariant MoveDown(pr, w, i) == Move(pr, w0)
    {
      i := i - 1;
      w := MoveOne(pr, w, i);
    }
  }
}
