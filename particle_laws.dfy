// What the particle update guarantees, for every generation's rules: live
// particles stay on the grid with progress in [0, 1) and speed at least 1,
// components never go negative, the `use` statistic only grows, the only
// events are scores of at least 10 points, a particle's fate on arrival
// depends on the occupant exactly as listed, and a maker's spawns are at
// least its cooldown apart.
module ParticleLaws {
  import opened Constants
  import opened Components
  import opened Grid
  import opened Solver
  import opened Particles

  /** Costs are non-negative, as in every generation. */
  predicate RulesOk(pr: ParticleRules)
  {
    pr.spawnCost >= 0.0 && pr.boostCost >= 0.0
  }

  /** The grid keeps its layout: same occupied cells, same kinds and rotations. */
  predicate SameLayout(g: GridCells, h: GridCells)
    requires Square(g) && Square(h)
  {
    forall y, x :: 0 <= y < GRID_SIZE && 0 <= x < GRID_SIZE ==>
      g[y][x].Some? == h[y][x].Some? &&
      (g[y][x].Some? ==> g[y][x].value.kind == h[y][x].value.kind && g[y][x].value.rotation == h[y][x].value.rotation)
  }

  /** Every event is a score worth at least 10 points. */
  predicate ScoresOnly(es: seq<Event>)
  {
    forall i :: 0 <= i < |es| ==> es[i].Scored? && es[i].points >= 10
  }

  // ---------------------------------------------------------------------
  // Spawning

  /** The spawn loop at one cell keeps the grid valid, appends at most one fresh particle and only adds to `use`. */
  lemma SpawnCellSound(pr: ParticleRules, w: World, x: int, y: int)
    requires ValidGrid(w.grid) && AllOk(w.particles) && InBounds(x, y) && RulesOk(pr)
    ensures var w' := SpawnCell(pr, w, x, y);
      && ValidGrid(w'.grid) && SameLayout(w.grid, w'.grid) && AllOk(w'.particles)
      && |w'.particles| >= |w.particles| && w'.particles[..|w.particles|] == w.particles
      && w'.stats.use >= w.stats.use && w'.stats.gen == w.stats.gen && w'.stats.vent == w.stats.vent
      && w'.events == w.events
  {
    var w' := SpawnCell(pr, w, x, y);
    assert w'.particles[..|w.particles|] == w.particles;
  }

  /** The whole spawn loop keeps the grid valid, keeps every particle and only appends live fresh ones. */
  lemma {:induction false} SpawnSound(pr: ParticleRules, w0: World, y: nat, x: nat)
    requires ValidGrid(w0.grid) && AllOk(w0.particles) && RulesOk(pr)
    requires (y < GRID_SIZE && x <= GRID_SIZE) || (y == GRID_SIZE && x == 0)
    ensures var w := SpawnUpto(pr, w0, y, x);
      && ValidGrid(w.grid) && SameLayout(w0.grid, w.grid) && AllOk(w.particles)
      && |w.particles| >= |w0.particles| && w.particles[..|w0.particles|] == w0.particles
      && w.stats.use >= w0.stats.use && w.stats.gen == w0.stats.gen && w.stats.vent == w0.stats.vent
      && w.events == w0.events
    decreases y, x
  {
    if x == 0 {
      if y > 0 {
        SpawnSound(pr, w0, y - 1, GRID_SIZE);
      } else {
        assert w0.particles[..|w0.particles|] == w0.particles;
      }
    } else {
      SpawnSound(pr, w0, y, x - 1);
      var w := SpawnUpto(pr, w0, y, x - 1);
      SpawnCellSound(pr, w, x - 1, y);
      var w' := SpawnCell(pr, w, x - 1, y);
      assert w'.particles[..|w0.particles|] == w'.particles[..|w.particles|][..|w0.particles|];
    }
  }

  /** The spawn flags of one maker over successive ticks, its energy set to es[i] by the rest of the tick before tick i. */
  function Fires(pr: ParticleRules, c: Component, es: seq<real>): (fs: seq<bool>)
    ensures |fs| == |es|
    decreases |es|
  {
    if es == [] then []
    else
      var (c1, fired) := MakerTick(pr, c.(energy := es[0]));
      [fired] + Fires(pr, c1, es[1..])
  }

  /** While its cooldown has not run out a maker does not fire, whatever energy it is given. */
  lemma {:induction false} CooldownBlocks(pr: ParticleRules, c: Component, es: seq<real>)
    ensures forall i :: 0 <= i < |es| && i + 1 < c.cooldown ==> !Fires(pr, c, es)[i]
    decreases |es|
  {
    if es != [] {
      var (c1, fired) := MakerTick(pr, c.(energy := es[0]));
      CooldownBlocks(pr, c1, es[1..]);
      assert c1.cooldown == c.cooldown - 1 || c1.cooldown == pr.spawnCooldown;
      forall i | 0 <= i < |es| && i + 1 < c.cooldown
        ensures !Fires(pr, c, es)[i]
      {
        if i > 0 {
          assert Fires(pr, c, es)[i] == Fires(pr, c1, es[1..])[i - 1];
        }
      }
    }
  }

  /**
   * Successive spawns of one maker are at least `spawnCooldown` ticks apart: after a tick that
   * fires, none of the next spawnCooldown - 1 ticks fires, whatever happens to its energy.
   */
  lemma SpawnSpacing(pr: ParticleRules, c: Component, e: real, es: seq<real>)
    requires MakerTick(pr, c.(energy := e)).1
    ensures forall i :: 0 <= i < |es| && i + 1 < pr.spawnCooldown ==> !Fires(pr, MakerTick(pr, c.(energy := e)).0, es)[i]
  {
    CooldownBlocks(pr, MakerTick(pr, c.(energy := e)).0, es);
  }

  // ---------------------------------------------------------------------
  // Moving

  /**
   * One turn of the move loop keeps every particle live, the grid valid and its layout, only adds
   * to `use`, and at most appends one score of at least 10 points.
   */
  lemma MoveAtSound(pr: ParticleRules, w: World, i: int)
    requires ValidGrid(w.grid) && AllOk(w.particles) && 0 <= i < |w.particles| && RulesOk(pr)
    ensures AllDirs(w.particles)
    ensures var w' := MoveAt(pr, w, i);
      && ValidGrid(w'.grid) && SameLayout(w.grid, w'.grid) && AllOk(w'.particles)
      && |w'.particles| <= |w.particles|
      && w'.stats.use >= w.stats.use && w'.stats.gen == w.stats.gen && w'.stats.vent == w.stats.vent
      && |w'.events| >= |w.events| && w'.events[..|w.events|] == w.events
      && ScoresOnly(w'.events[|w.events|..])
  {
    var w' := MoveAt(pr, w, i);
    assert w'.events[..|w.events|] == w.events;
    var p := w.particles[i];
    var q := p.(progress := 0.0, x := StepX(p.x, p.dir), y := StepY(p.y, p.dir));
    assert q.speed >= 1.0 ==> Points(q) >= 10;
  }

  /** The whole move loop: as MoveAtSound, over every particle. */
  lemma {:induction false} MoveSound(pr: ParticleRules, w: World, n: nat)
    requires ValidGrid(w.grid) && AllOk(w.particles) && n <= |w.particles| && RulesOk(pr)
    ensures AllDirs(w.particles)
    ensures var w' := MoveDown(pr, w, n);
      && ValidGrid(w'.grid) && SameLayout(w.grid, w'.grid) && AllOk(w'.particles)
      && |w'.particles| <= |w.particles|
      && w'.stats.use >= w.stats.use && w'.stats.gen == w.stats.gen && w'.stats.vent == w.stats.vent
      && |w'.events| >= |w.events| && w'.events[..|w.events|] == w.events
      && ScoresOnly(w'.events[|w.events|..])
    decreases n
  {
    if n == 0 {
      assert w.events[..|w.events|] == w.events;
    } else {
      MoveAtSound(pr, w, n - 1);
      var w1 := MoveAt(pr, w, n - 1);
      MoveSound(pr, w1, n - 1);
      var w' := MoveDown(pr, w1, n - 1);
      assert w'.events[..|w.events|] == w'.events[..|w1.events|][..|w.events|];
      assert w'.events[|w.events|..] == w1.events[|w.events|..] + w'.events[|w1.events|..];
    }
  }

  /**
   * The fate of a particle that reaches the next cell: it is removed exactly when that cell is off
   * the grid, empty, an aligned emitter or of a colliding kind; it scores exactly at an aligned
   * emitter; it is boosted exactly at an aligned rail holding the boost cost.
   */
  lemma MoveAtFate(pr: ParticleRules, w: World, i: int)
    requires Square(w.grid) && AllOk(w.particles) && 0 <= i < |w.particles|
    requires w.particles[i].progress + 0.05 * w.particles[i].speed >= 1.0
    ensures AllDirs(w.particles)
    ensures var p := w.particles[i];
      var tx, ty := StepX(p.x, p.dir), StepY(p.y, p.dir);
      var w' := MoveAt(pr, w, i);
      var arrived := InBounds(tx, ty) && w.grid[ty][tx].Some?;
      var aligned := arrived && w.grid[ty][tx].value.rotation == p.dir;
      && (|w'.particles| < |w.particles| <==>
            !arrived || (aligned && w.grid[ty][tx].value.kind == Emitter) ||
            (w.grid[ty][tx].value.kind in pr.collides && !(aligned && w.grid[ty][tx].value.kind in {Rail, Emitter})))
      && (|w'.events| > |w.events| <==> aligned && w.grid[ty][tx].value.kind == Emitter)
      && (|w'.events| > |w.events| ==> w'.events == w.events + [Scored(tx, ty, Points(p))])
      && (|w'.particles| == |w.particles| ==>
            w'.particles[i].x == tx && w'.particles[i].y == ty && w'.particles[i].progress == 0.0 &&
            (w'.particles[i].speed > p.speed <==> aligned && w.grid[ty][tx].value.kind == Rail && w.grid[ty][tx].value.energy >= pr.boostCost))
  {
  }

  /** A particle that has not reached the next cell only advances: nothing else changes. */
  lemma MoveAtAdvance(pr: ParticleRules, w: World, i: int)
    requires Square(w.grid) && AllOk(w.particles) && 0 <= i < |w.particles|
    requires w.particles[i].progress + 0.05 * w.particles[i].speed < 1.0
    ensures AllDirs(w.particles)
    ensures var w' := MoveAt(pr, w, i);
      && w'.grid == w.grid && w'.stats == w.stats && w'.events == w.events
      && w'.particles == w.particles[i := w.particles[i].(progress := w.particles[i].progress + 0.05 * w.particles[i].speed)]
      && w'.particles[i].progress > w.particles[i].progress
  {
  }

  /** `updateParticles` without the effect fade: spawn, then move. */
  function ParticleTick(pr: ParticleRules, w: World): World
    requires ValidGrid(w.grid) && AllOk(w.particles) && RulesOk(pr)
  {
    SpawnSound(pr, w, GRID_SIZE, 0);
    Move(pr, Spawn(pr, w))
  }

  /**
   * What one particle tick guarantees: the grid stays valid with its layout, every particle stays
   * live, only `use` grows, and the events it adds are scores.
   */
  lemma ParticleTickLaws(pr: ParticleRules, w: World)
    requires ValidGrid(w.grid) && AllOk(w.particles) && RulesOk(pr)
    ensures var w' := ParticleTick(pr, w);
      && ValidGrid(w'.grid) && SameLayout(w.grid, w'.grid) && AllOk(w'.particles)
      && w'.stats.use >= w.stats.use && w'.stats.gen == w.stats.gen && w'.stats.vent == w.stats.vent
      && |w'.events| >= |w.events| && w'.events[..|w.events|] == w.events
      && ScoresOnly(w'.events[|w.events|..])
  {
    SpawnSound(pr, w, GRID_SIZE, 0);
    var s := Spawn(pr, w);
    MoveSound(pr, s, |s.particles|);
    var w' := Move(pr, s);
    assert forall y, x :: 0 <= y < GRID_SIZE && 0 <= x < GRID_SIZE ==> w.grid[y][x].Some? == w'.grid[y][x].Some?;
    assert w'.events[..|w.events|] == w.events by {
      assert w'.events[..|s.events|] == s.events;
    }
  }

  /** The points carried by the score events of a list. */
  function ScoreOf(es: seq<Event>): int
  {
    if es == [] then 0 else ScoreOf(es[..|es| - 1]) + (if es[|es| - 1].Scored? then es[|es| - 1].points else 0)
  }

  /** Scores add up over concatenation, and a list of scores is worth at least 10 points per event. */
  lemma {:induction false} ScoreOfLaws(es: seq<Event>, fs: seq<Event>)
    ensures ScoreOf(es + fs) == ScoreOf(es) + ScoreOf(fs)
    ensures ScoresOnly(fs) ==> ScoreOf(fs) >= 10 * |fs|
    decreases |fs|
  {
    if fs == [] {
      assert es + fs == es;
    } else {
      var n := |fs| - 1;
      assert (es + fs)[..|es + fs| - 1] == es + fs[..n];
      ScoreOfLaws(es, fs[..n]);
    }
  }
}
