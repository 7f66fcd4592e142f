// The two halves of a game tick as the loops of the three generations run
// them: the energy solver's two passes, then the particles' spawn and move
// passes, each proved to compute the corresponding specification function.
module Ticks {
  import opened Constants
  import opened Grid
  import opened Solver
  import opened OverloadLaws
  import opened Particles
  import opened ParticleLaws

  /** Both solver passes, as the loops of `updatePhysics` run them. */
  method SolverTick(r: Rules, g: GridCells, amb: Matrix<real>, s0: Stats) returns (t: Outcome)
    requires ValidGrid(g) && AmbientOk(amb) && r.threshold >= 0.0
    ensures t == PhysicsTick(r, g, amb, s0)
    ensures ValidGrid(t.grid) && t.stats.gen >= s0.gen && t.stats.vent >= s0.vent && t.stats.use == s0.use
    ensures forall e :: e in t.events ==> e.Exploded? && InBounds(e.x, e.y)
  {
    PhysicsTickLaws(r, g, amb, s0);
    var st1 := EnergyPass(r, g, amb, s0);
    var st2 := ApplyPass(st1.grid, st1.changes);
    t := Outcome(st2.grid, st1.stats, st1.flows, st2.events);
  }

  /** The spawn loop, then the move loop, as `updateParticles` runs them. */
  method ParticleStep(pr: ParticleRules, w0: World) returns (w: World)
    requires ValidGrid(w0.grid) && AllOk(w0.particles) && RulesOk(pr)
    ensures w == ParticleTick(pr, w0)
  {
    SpawnSound(pr, w0, GRID_SIZE, 0);
    w := SpawnPass(pr, w0);
    w := MovePass(pr, w);
  }
}
