# Magitech energy grid — a Dafny model

The game is played on a 10 x 10 grid of components. An extractor draws energy from the
ambient field under it. Wires, batteries and prisms push that energy to their neighbours, and
vents bleed it away. A maker turns energy into particles, which travel along the grid: aligned
rails boost them and aligned emitters turn them into score. A component holding more than its
capacity plus 50 explodes.

The repository contains three generations of this simulation, and this project models all three
on top of one shared solver:

- **the engine** (`js/engine.js`, class `GameEngine`): energy moves only along a connection that
  `canConnect` accepts. That needs an output port on the source and an input port on the
  target, both relative to each component's rotation. The engine also records the
  `activeConnections` of each tick.
- **the front end** (`js/app.js`): the same two-pass solver, but any neighbour other than a
  wall accepts energy. Around it sit the editor (`applyTool`, `placeComponent`, pointer handling
  with de-duplication per cell, hot keys, `clearMap`) and the 60-tick statistics window with its
  efficiency display.
- **the legacy systems** (`js/systems/physics.js`, `js/systems/input.js`): every component
  pushes straight ahead into whatever component it faces. A battery halves its amount after
  capping it. Makers spend 20 with a 60-tick cooldown, rails boost for 10, particles pass through
  every kind, and no statistics are kept.

Shared modules:

- `Constants`, `Components` and `Grid`: the constants and the component table, with grids as
  `seq<seq<Option<Component>>>` indexed `g[y][x]`.
- `Connect`: `canConnect`.
- `Solver`: the two-pass energy solver. It is parameterised by `Rules`: which ports a source
  uses, which neighbours accept, how a battery is throttled, and the threshold above which
  energy moves.
- `Particles`: the spawn and move loops. They are parameterised by `ParticleRules`: the spawn
  cost and cooldown, the boost cost, and the kinds that stop a particle.
- `Ticks`: the shared tick methods.
- `Input`: the pointer state machine.

Every loop of the solver, spawn, move and connection passes is a `method` with a `while`
loop, and each one is proved equal to a row-major fold function (`clearMap`'s `map` is the
function `App.Blank`). The properties are lemmas about those functions:

- conservation of energy;
- `activeConnections` is exactly the structural connections of the cells that push;
- explosions are reported if and only if a cell overloads;
- spacing between a maker's spawns;
- one application of the tool per cell entered in a drag stroke;
- within one physics pass and one particle pass the score and statistics only grow (the
  front end restarts its statistics every 60 ticks and `clearMap` zeroes the score).

The classes `GameEngine`, `App.AppState` and `Legacy.LegacyGame` hold the mutable state of each
generation. Their methods state the whole new state in terms of those functions.

The floating-point numbers of the source are modelled as exact reals. The random part of the
ambient noise is a parameter: `SetupLevel` and `StartGame` take the noise matrix.

## Model

| member | source | states |
|---|---|---|
| Constants.Opposite | js/engine.js:50 | `(dir + 2) % 4` is a direction and differs from `dir` |
| Constants.DirsAreUnitSteps | js/constants.js:4 | each of the four steps moves one cell along one axis, in the order up, right, down, left |
| Constants.OppositeUndoesStep | js/engine.js:50-51 | stepping back in the opposite direction returns to the start; opposite is an involution |
| Constants.StepsAreDistinct | js/constants.js:4 | a step always leaves the cell, and two directions reach the same cell only if they are equal |
| Constants.StepIsAdjacent | js/constants.js:4 | the four steps reach exactly the edge-adjacent cells |
| Components.Lookup | js/components.js:1-242 | `COMPONENTS[name]`: each of the nine keys finds its kind, any other string nothing; proved by LookupRoundTrip and TableHasNineKinds |
| Components.MaxEnergy | js/components.js:1-242 | the `maxEnergy` column of the table (50, 60, 300, 150, 80, 100, 100, 80, 200); its bounds are Capacities |
| Components.Outputs | js/components.js:1-242 | the `outputs` column of the table, as ports relative to the rotation; its shape is PortShapes and PrismPorts |
| Components.LookupRoundTrip | js/components.js:1-242 | every kind is found under its own key and under no other string |
| Components.TableHasNineKinds | js/components.js:1-242 | the table has nine distinct keys covering every kind |
| Components.PrismPorts | js/components.js:193 | the prism outputs front, right and left, never back |
| Components.PortShapes | js/components.js:1-242 | makers and walls have no outputs, prisms three, every other kind exactly the front port; ports are distinct relative directions |
| Components.Capacities | js/components.js:1-242 | capacities are positive, the wall exceeds 100, the battery holds the most |
| Connect.RelativePort | js/engine.js:46-47 | the port of a rotated component that faces an absolute direction; undoes the port-to-direction mapping by RelativePortOfOwnPort |
| Connect.CanConnect | js/engine.js:39-55 | `canConnect` with the `inputs` column as a parameter; characterised by CanConnectOnOwnPort, InputPortFacesSource and NoInputsNeverConnect |
| Connect.RelativePortOfOwnPort | js/engine.js:46-47 | mapping an output port to its absolute direction and back through `relOut` yields the port again |
| Connect.CanConnectOnOwnPort | js/engine.js:39-55 | for an enumerated output port, `canConnect` holds iff the target exists and lists the port facing back as an input |
| Connect.InputPortFacesSource | js/engine.js:50-52 | the input port checked on the target points back at the source cell |
| Connect.CanConnectIgnoresEnergy | js/engine.js:39-55 | `canConnect` depends only on kinds and rotations, not on energy |
| Connect.NoInputsNeverConnect | js/engine.js:52 | with no `inputs` declared, `canConnect` is false for every pair |
| Grid.AmbientLevel | js/engine.js:28 | the ambient level is `(noise + 2) * 25` clamped to 0..100, in each of the three regimes |
| Grid.AmbientFromNoise | js/engine.js:25-31 | the ambient loop yields a 10 x 10 map in 0..100 holding AmbientLevel of each noise value |
| Solver.Produce | js/engine.js:111-118 | extractor production below capacity, with the amount made; its balance is EnergyLaws.PrepareBalance |
| Solver.Bleed | js/engine.js:121-125 | vent loss of a fifth of the energy, with the amount lost; its balance is EnergyLaws.PrepareBalance |
| Solver.Prepare | js/engine.js:111-125 | production then venting at one component; EnergyLaws.PrepareBalance states that `gen` and `vent` record exactly the change |
| Solver.Available | js/engine.js:129-130 | what a source may send is between 0 and its energy and at most the transfer speed |
| Solver.TargetsOf | js/engine.js:136-147 | at most one target per port; each lies on the grid one step from the source in its recorded direction |
| Solver.DistributeUpto | js/engine.js:152-164 | the guarded per-target loop keeps the accumulator square; what it yields is EnergyLaws.DistributeExact |
| Solver.Send | js/engine.js:128-167 | one source's transfer keeps the accumulator square; its result is EnergyLaws.SendExact |
| Solver.VisitCell | js/engine.js:105-167 | pass 1 at one cell keeps the state well shaped; its effect is EnergyLaws.VisitCellTransfer |
| Solver.Pass1Upto | js/engine.js:103-169 | partial pass 1 keeps the state well shaped; its meaning is EnergyLaws.Pass1Conserves |
| Solver.Pass1 | js/engine.js:99-169 | the whole of pass 1 from an empty accumulator and no flows; its meaning is EnergyLaws.Pass1Conserves and Engine.ActiveConnections |
| Solver.ApplyCell | js/engine.js:174-184 | pass 2 at one cell keeps the grid square; its meaning is OverloadLaws.Pass2Outcome |
| Solver.Explode | js/engine.js:270-275 | `explode(x, y)` empties the cell and reports one explosion there; used by Pass2Outcome and Pass2Events |
| Solver.Pass2Upto | js/engine.js:172-186 | partial pass 2 keeps the grid square; its meaning is OverloadLaws.Pass2Grid and Pass2Events |
| Solver.Pass2 | js/engine.js:172-186 | the whole of pass 2; its meaning is OverloadLaws.Pass2Grid, Pass2Events and Pass2Conserves |
| Solver.CollectTargets | js/engine.js:136-147 | the `forEach` over the output ports returns exactly TargetsOf |
| Solver.Distribute | js/engine.js:152-164 | the `forEach` over the targets returns exactly DistributeUpto over all targets |
| Solver.PrepareStep | js/engine.js:111-125 | the production and vent steps return exactly Prepare |
| Solver.SendStep | js/engine.js:128-167 | a source's guarded transfer returns exactly Send over its TargetsOf |
| Solver.VisitCellStep | js/engine.js:105-167 | the loop body at one cell returns exactly VisitCell |
| Solver.EnergyPass | js/engine.js:99-169 | the nested loops of pass 1 return exactly Pass1 |
| Solver.ApplyPass | js/engine.js:172-186 | the nested loops of pass 2 return exactly Pass2 |
| EnergyLaws.FlowsFor | js/engine.js:158-162 | one flow record per target, from the source to that target, carrying the share |
| EnergyLaws.AddEach | js/engine.js:155 | adding a share at each target keeps the accumulator square |
| EnergyLaws.DistributeExact | js/engine.js:152-164 | when the source holds the whole amount, every target is paid in order: energy falls by n shares, the accumulator gains a share at each target, one flow per target |
| EnergyLaws.AcceptsIgnoresEnergy | js/engine.js:143 | whether a neighbour accepts does not depend on any energy |
| EnergyLaws.TargetsIgnoreEnergy | js/engine.js:136-147 | a source finds the same targets on any grid of the same structure |
| EnergyLaws.ShareFits | js/engine.js:150 | k equal shares add up to the amount split, and none is negative |
| EnergyLaws.SendExact | js/engine.js:128-167 | above the threshold with k targets a source gives up exactly what it may send, k shares land and k flows are recorded; otherwise nothing moves |
| EnergyLaws.VisitCellTargets | js/engine.js:136-147 | while pass 1 runs, a source finds the targets it has on the start-of-tick grid |
| EnergyLaws.VisitCellTransfer | js/engine.js:105-167 | pass 1 at one cell, in closed form: new occupant, no other cell changed, accumulator, flows and statistics |
| EnergyLaws.Pass1Cells | js/engine.js:103-169 | after partial pass 1 every visited cell holds AfterPass1 and every other cell is untouched |
| EnergyLaws.AfterPass1Shape | js/engine.js:103-169 | pass 1 changes only the energy of a cell's occupant |
| EnergyLaws.PrepareBalance | js/engine.js:111-125 | production adds what it reports to `gen` and venting removes what it reports to `vent`; both non-negative |
| EnergyLaws.TargetsOccupied | js/app.js:336 | every target found holds a component, under every acceptance rule |
| EnergyLaws.ShareBounds | js/engine.js:150 | each share is positive and at most the transfer speed |
| EnergyLaws.SendBalance | js/engine.js:152-164 | a transfer moves energy from the source into the accumulator and records every amount moved |
| EnergyLaws.VisitCellBalance | js/engine.js:105-167 | pass 1 at one cell keeps the ledger (grid plus transit, net of `gen` and `vent`), and the statistics only grow |
| EnergyLaws.VisitCellSound | js/engine.js:105-167 | pass 1 at one cell keeps pending changes non-negative and on occupied cells, keeps earlier flows, and adds only well-formed flows |
| EnergyLaws.Pass1NextCell | js/engine.js:103-169 | the next cell pass 1 visits still holds its start-of-tick occupant |
| EnergyLaws.Pass1Balance | js/engine.js:103-169 | partial pass 1 keeps the start-of-tick ledger, and the accumulator equals the sum of the flows |
| EnergyLaws.Pass1Sound | js/engine.js:103-169 | partial pass 1 keeps pending changes non-negative and landed, with only well-formed flows |
| EnergyLaws.AfterPass1Ok | js/engine.js:105-167 | after pass 1 a component keeps its rotation and holds no negative energy and no more than it had plus production minus venting |
| EnergyLaws.Pass1Conserves | js/engine.js:98-169 | pass 1 in full: each cell is AfterPass1; the grid stays valid; grid plus transit equals start plus `gen` minus `vent`; flows are adjacent, positive and at most 2.5 |
| OverloadLaws.Pass2Grid | js/engine.js:172-186 | after partial pass 2 each visited cell holds AfterPass2 and the rest are untouched |
| OverloadLaws.Pass2Events | js/engine.js:172-186 | partial pass 2 reports one explosion per visited overloaded cell and nothing else, none repeated |
| OverloadLaws.Pass2Outcome | js/engine.js:172-186 | a cell explodes iff its energy plus its pending change exceeds capacity plus 50; survivors stay within that limit; the grid stays valid |
| OverloadLaws.Pass2Conserves | js/engine.js:177 | the grid gains at most the energy pending, exactly that much when nothing overloads |
| OverloadLaws.TickConserves | js/engine.js:98-187 | after both passes the grid holds at most start plus `gen` minus `vent`, exactly that without overload |
| OverloadLaws.PhysicsTick | js/engine.js:98-187 | `updatePhysics`: pass 1 then pass 2; its properties are PhysicsTickLaws and TickConserves |
| OverloadLaws.PhysicsTickLaws | js/engine.js:98-187 | a physics tick keeps the grid valid, grows `gen`/`vent`, leaves `use`, respects the energy bound, records well-formed flows and reports distinct explosions only |
| Trace.ChangesUpto | js/engine.js:155 | the closed-form accumulator of the sources visited so far is square |
| Trace.Pass1Structure | js/engine.js:103-169 | while pass 1 runs the grid keeps its structure and the next cell its occupant |
| Trace.Pass1Trace | js/engine.js:103-169 | partial pass 1 has recorded exactly FlowsUpto and accumulated exactly ChangesUpto |
| Trace.Pass1Closed | js/engine.js:103-169 | the flows and accumulator of pass 1 in closed form |
| Trace.LoneFlows | js/engine.js:158-162 | with one pushing source the flows are that source's alone, once it has been visited |
| Trace.LoneChanges | js/engine.js:155 | with one pushing source the accumulator holds that source's shares alone |
| Ticks.SolverTick | js/engine.js:98-187 | both solver loops return exactly PhysicsTick; the grid stays valid, statistics grow, events are explosions on the grid |
| Ticks.ParticleStep | js/engine.js:189-253 | the spawn and move loops return exactly ParticleTick |
| Particles.MakerTick | js/engine.js:194-201 | one maker's tick: the cooldown falls by one, and it fires with enough energy once the cooldown has run out; spacing proved by ParticleLaws.Fires, CooldownBlocks and SpawnSpacing |
| Particles.Spawn | js/engine.js:191-204 | the spawn loop over the grid in row-major order; its meaning is ParticleLaws.SpawnSound |
| Particles.Move | js/engine.js:207-253 | the backwards move loop over the particle list; its meaning is ParticleLaws.MoveSound and MoveAtFate |
| Particles.SpawnCell | js/engine.js:193-202 | the spawn step at one cell keeps the grid square |
| Particles.SpawnUpto | js/engine.js:191-204 | the partial spawn loop keeps the grid square; its meaning is ParticleLaws.SpawnSound |
| Particles.Remove | js/engine.js:218 | `splice(i, 1)` removes exactly the i-th particle and keeps the others in order |
| Particles.MoveAt | js/engine.js:208-252 | one turn of the move loop keeps the particles before i; its meaning is ParticleLaws.MoveAtFate |
| Particles.SpawnPass | js/engine.js:191-204 | the nested spawn loops return exactly Spawn |
| Particles.MoveOne | js/engine.js:208-252 | the move loop body returns exactly MoveAt |
| Particles.MovePass | js/engine.js:207-253 | the backwards move loop with in-place removal returns exactly Move |
| ParticleLaws.SpawnCellSound | js/engine.js:193-202 | the spawn step keeps the grid valid and its layout, appends at most one live particle, only adds to `use` |
| ParticleLaws.SpawnSound | js/engine.js:191-204 | the spawn loop keeps every particle, appends only live ones, keeps the grid valid, only adds to `use` |
| ParticleLaws.Fires | js/engine.js:195-201 | one spawn flag per tick of a maker |
| ParticleLaws.CooldownBlocks | js/engine.js:195-196 | a maker does not fire while its cooldown has not run out, whatever its energy |
| ParticleLaws.SpawnSpacing | js/engine.js:195-199 | after a maker fires, none of the next `spawnCooldown - 1` ticks fires |
| ParticleLaws.MoveAtSound | js/engine.js:208-252 | one move turn keeps particles live and the grid valid, adds only to `use`, appends at most scores of at least 10 |
| ParticleLaws.MoveSound | js/engine.js:207-253 | the whole move loop, as MoveAtSound |
| ParticleLaws.MoveAtFate | js/engine.js:211-251 | an arriving particle is removed iff off grid, on an empty cell, on an aligned emitter or on a colliding kind; it scores iff on an aligned emitter; it is boosted iff on an aligned rail holding the boost cost |
| ParticleLaws.MoveAtAdvance | js/engine.js:209-211 | a particle that has not arrived only advances its progress |
| ParticleLaws.ParticleTick | js/engine.js:189-253 | `updateParticles` without the fade: spawning then moving; its properties are ParticleTickLaws |
| ParticleLaws.ParticleTickLaws | js/engine.js:189-253 | the particle tick keeps grid and layout, keeps particles live, grows only `use`, adds only scores |
| ParticleLaws.ScoreOfLaws | js/app.js:438 | scores add over concatenation; a list of scores is worth at least 10 per event |
| Engine.ConnsAt | js/engine.js:61-83 | the connections out of one cell, in port order; exact by ConnsAtSound and ConnsAtComplete |
| Engine.ConnsAtSound | js/engine.js:61-83 | each connection listed for a cell is a one-step edge from it that `canConnect` accepts |
| Engine.StructuralUpto | js/engine.js:59-84 | the connections of the cells visited so far, row-major; sound by StructuralSound |
| Engine.Structural | js/engine.js:57-87 | `getStructuralConnections()`; a connection is in it iff `canConnect` holds, by StructuralExact |
| Engine.ActiveUpto | js/engine.js:101-169 | the connections of the pushing cells visited so far; matched to the flows by FlowsAlongActive |
| Engine.ConnsMatrix | js/engine.js:57-87 | the per-cell connection lists as a matrix; joined in order they give Structural, by StructuralIsJoin |
| Engine.ToConns | js/engine.js:76-80 | one connection per target, from the cell to it, in the target's direction |
| Engine.TargetsAccepted | js/engine.js:143 | every target found passes the acceptance test |
| Engine.TargetsComplete | js/engine.js:136-147 | every accepting in-bounds neighbour through an output port is found |
| Engine.StructuralSound | js/engine.js:57-87 | each listed connection is a one-step edge between grid cells that `canConnect` accepts |
| Engine.ConnsAtComplete | js/engine.js:66-83 | an edge `canConnect` accepts is listed for its source cell |
| Engine.StructuralExact | js/engine.js:57-87 | a connection is listed iff both cells are on the grid and `canConnect` holds |
| Engine.NoConnectionFromSinks | js/engine.js:64-66 | no connection leaves a maker or a wall |
| Engine.CellConnections | js/engine.js:61-83 | the per-cell `forEach` returns exactly ConnsAt |
| Engine.StructuralConnections | js/engine.js:57-87 | the nested loops return exactly Structural |
| Engine.RowConnections | js/engine.js:60-84 | the inner loop appends row y's connections to those of the rows above |
| Engine.FlowsOutAlongConns | js/engine.js:143-162 | a source's flows run exactly along its structural connections when it pushes, and there are none otherwise |
| Engine.FlowsAlongActive | js/engine.js:103-169 | the flows of partial pass 1 match the active connections one for one, in order |
| Engine.ActiveAreStructural | js/engine.js:103-169 | every active connection is a structural one |
| Engine.ActiveConnections | js/engine.js:101-169 | `activeConnections` after a tick: one entry per connection of each pushing source, all structural, each carrying its source's share in (0, 2.5] |
| Engine.FlowsOutShape | js/engine.js:158-162 | a source's flows leave it and carry its share |
| Engine.FlowAmounts | js/engine.js:150-162 | each flow of pass 1 carries the share of its source |
| Engine.EngineTick | js/engine.js:89-96 | `update()`: the solver tick, then the particle tick on what it leaves, with the explosions before the scores; its properties are EngineTickLaws |
| Engine.EngineTickLaws | js/engine.js:89-96 | `update()` keeps the grid valid and particles live, statistics never decrease, events are explosions or scores of at least 10 |
| Engine.GameEngine.constructor | js/engine.js:2-15 | empty 10 x 10 grid, zero ambient map, no particles, zero statistics, no connections |
| Engine.GameEngine.SetupLevel | js/engine.js:17-34 | grid emptied, particles dropped, statistics zeroed, ambient map clamped from the noise |
| Engine.GameEngine.GetStructuralConnections | js/engine.js:57-87 | returns exactly Structural of the current grid |
| Engine.GameEngine.UpdatePhysics | js/engine.js:98-187 | the new grid, statistics and `activeConnections` are PhysicsTick of the old state; ambient and particles unchanged |
| Engine.GameEngine.UpdateParticles | js/engine.js:189-263 | the new grid, particles and statistics are ParticleTick of the old state; only scores are reported |
| Engine.GameEngine.Update | js/engine.js:89-96 | the new state is EngineTick of the old one; returns the statistics, an empty event list, and the `onExplode`/`onScore` events of the tick, explosions first |
| EngineScenarios.TwoCells | tests/simulation_test.js:62-66 | the test grid: the source at (0, 1), the target at (0, 0), every other cell empty |
| EngineScenarios.NoTargets | js/engine.js:136-147 | with no accepting neighbour on any port, no target is found |
| EngineScenarios.DeclaredNeverPushes | js/engine.js:128-167 | under the table as declared, no component ever pushes |
| EngineScenarios.CornerSilent | js/engine.js:141 | a single-output corner component facing off the grid never pushes |
| EngineScenarios.TwoCellsLone | tests/simulation_test.js:62-66 | in the two-cell grid only the source can push |
| EngineScenarios.LoneChangesOf | js/engine.js:155 | the accumulator of a single pushing source is square |
| EngineScenarios.LonePass1 | js/engine.js:103-169 | pass 1 with a single source: its flows, its shares pending, each cell as AfterPass1 |
| EngineScenarios.Pass2Settles | js/engine.js:172-186 | pass 2 settles every cell independently |
| EngineScenarios.LoneTickGrid | js/engine.js:98-187 | a tick with one pushing source, cell by cell |
| EngineScenarios.LoneTickEvents | js/engine.js:180-184 | with one pushing source only cells its share overloads explode |
| EngineScenarios.LoneTickNoEvents | js/engine.js:172-186 | with one pushing source, a tick in which every occupied cell survives settling reports no explosion |
| EngineScenarios.SpawnIdle | js/engine.js:191-204 | without makers the spawn loop changes nothing |
| EngineScenarios.EngineTickIdle | js/engine.js:89-96 | with no maker and no particle, `update()` is the solver tick alone |
| EngineScenarios.DeclaredNoFlow | js/engine.js:128-167 | under the table as declared, no tick records a flow and there is no structural connection |
| EngineScenarios.TwoCellsNoMakers | js/engine.js:270-275 | a two-cell grid without makers has none after a tick |
| EngineScenarios.DeclaredStraightWire | tests/simulation_test.js:53-79 | as declared, the straight-wire test ends with the source at 50, the target at 0 and no connection (see Findings) |
| EngineScenarios.QuietTwoCells | tests/simulation_test.js:97-98 | when the source does not push, both wires keep their energy and nothing flows |
| EngineScenarios.BrokenRotation | tests/simulation_test.js:81-99 | a source facing right keeps 50, the target keeps 0, nothing flows, for any input table |
| EngineScenarios.InputRejection | tests/simulation_test.js:101-119 | a wire facing an extractor keeps 50 and no connection is active |
| EngineScenarios.WireSourcePushes | js/engine.js:128-150 | the 50-energy wire has the one target above it and sends 2.5 |
| EngineScenarios.WireTickPhysics | js/engine.js:98-187 | the solver tick of the wire scenarios moves 2.5 along one flow (47.5 / 2.5) |
| EngineScenarios.WireTickCells | js/engine.js:103-169 | pass 1 and settling of both cells in the wire scenarios |
| EngineScenarios.WireChanges | js/engine.js:155 | the wire scenarios leave 2.5 pending at the target and none at the source |
| EngineScenarios.WireTickCalm | js/engine.js:180-184 | the wire scenarios explode nothing |
| EngineScenarios.StraightWire | tests/simulation_test.js:53-79 | with wires taking input on ports 1-3, the source ends at 47.5, the target at 2.5, one connection (0, 1) to (0, 0) |
| EngineScenarios.SideInput | tests/simulation_test.js:121-152 | a target facing left takes 2.5 on its port 3 |
| Engine.StructuralIsJoin | js/engine.js:57-87 | the structural list is the per-cell lists joined in visiting order |
| EngineScenarios.LoneConns | js/engine.js:57-87 | when only one cell has connections, the structural list is that cell's |
| EngineScenarios.StructuralPair | tests/simulation_test.js:154-166 | two upward wires give exactly one connection, (0, 1) to (0, 0) upwards |
| Input.CellOf | js/app.js:195-196 | `Math.floor(rel / TILE_SIZE)` is the integer c with c <= rel / tile < c + 1 |
| Input.CellOfCovers | js/app.js:195-196 | cell c covers exactly the offsets from c * tile up to (c + 1) * tile |
| Input.Route | js/app.js:192-209 | `handleInput` on a cell: hovered, and the tool applied on a press or a newly entered cell; characterised by RouteCases |
| Input.Press | js/app.js:162-174 | `pointerdown`: held, then routed as a press; PressApplies |
| Input.Drag | js/app.js:176-181 | `pointermove`: ignored unless held, then routed as a drag; NoRepeatInCell and StrokeAppliesOncePerCell |
| Input.Release | js/app.js:183-188 | `pointerup`: released, nothing hovered, the last cell forgotten; ReleaseForgets |
| Input.RouteCases | js/app.js:192-209 | outside the grid nothing changes; inside the cell is hovered; the tool applies iff a press or a new cell, which is then remembered |
| Input.PressApplies | js/app.js:172-173 | a press inside the grid always applies the tool and holds the pointer |
| Input.NoRepeatInCell | js/app.js:203 | after the tool applies at a cell, a drag within it does nothing |
| Input.ReleaseForgets | js/app.js:183-188 | after a release, moves are ignored, and a held pointer applies again on any cell |
| Input.StrokeAppliesOncePerCell | js/app.js:192-209 | a drag stroke applies the tool once per cell it enters, consecutive repeats collapsed |
| Input.EnteredNoRepeats | js/app.js:203 | consecutive cells acted on in a stroke differ |
| App.NewComponent | js/app.js:240-246 | the record `placeComponent` creates: the kind, facing right, empty, the table's capacity, no cooldown |
| App.Place | js/app.js:234-247 | a new instance of the tool's kind, or the cell unchanged for an unknown tool; by ToolLaws and ClickReplaces |
| App.ToolResult | js/app.js:211-232 | the new content of the cell `applyTool` acts on; by ToolLaws, ClickReplaces and ClicksRotate |
| App.UseTool | js/app.js:211-232 | the grid after `applyTool`; only the target cell changes and the grid stays valid, by ToolLaws |
| App.ToolLaws | js/app.js:211-232 | a tool changes only its cell and keeps the grid valid; the eraser empties; a drag over a component does nothing; an empty cell gets a fresh instance |
| App.ClickReplaces | js/app.js:226-227 | clicking a different known tool replaces the component; an unknown tool leaves it |
| App.ClicksRotate | js/app.js:223-224 | n clicks with the own tool rotate by n quarters; the component returns to itself iff n is a multiple of 4 |
| App.KeyCommandOf | js/app.js:249-267 | the command of a key: digits pick tools, `x` and `delete` the eraser, space toggles running; by HotkeysCoverKinds |
| App.HotkeysCoverKinds | js/app.js:254-262 | key i + 1 picks the i-th kind, every kind has a key, every tool picked is the eraser or a kind |
| App.Blank | js/app.js:627 | every cell emptied, every row as long as before |
| App.BlankSquare | js/app.js:627 | clearing a square grid gives the empty valid grid |
| App.WindowStats | js/app.js:381-386 | the statistics restart at zero when the 60-tick window closes and are kept otherwise; by TimerCounts and AppTickLaws |
| App.TimerCounts | js/app.js:381-386 | from a fresh window the statistics restart exactly every 60th tick |
| App.Efficiency | js/app.js:588-593 | use over generation in percent, 100 with no generation but some use; by EfficiencyLaws |
| App.BandOf | js/app.js:598-600 | the colour band of the efficiency display; by EfficiencyLaws |
| App.EfficiencyLaws | js/app.js:588-600 | efficiency is non-negative and zero iff nothing was used; green iff use exceeds 80% of generation (or, with no generation, iff anything was used) |
| App.AppTick | js/app.js:287-460 | the front end's `updatePhysics`: solver tick, statistics window, then particle tick adding its scores; its properties are AppTickLaws |
| App.AppTickLaws | js/app.js:287-390 | a tick keeps the grid valid and particles live, the timer in 0..59 wrapping exactly after 59, statistics restarted on wrap and growing otherwise, the score growing by at least 10 per score |
| App.WindowStep | js/app.js:381-386 | the window step returns NextTimer and WindowStats |
| App.AppStep | js/app.js:287-390 | the loops of a tick return exactly AppTick, valid and with the score never lower |
| App.AppState.constructor | js/app.js:5-36 | the globals at page load: no grid, extractor selected, stopped, in the menu, pointer idle |
| App.AppState.StartGame | js/app.js:69-110 | an empty grid over the clamped ambient levels, no particles, score zero, running, extractor selected |
| App.AppState.PlaceComponent | js/app.js:234-247 | a fresh instance of the tool's kind at the cell; nothing for an unknown tool; all else unchanged |
| App.AppState.ApplyTool | js/app.js:211-232 | the grid becomes UseTool of the old grid; all else unchanged |
| App.AppState.HandleInput | js/app.js:192-209 | the input state follows Route of the cell, and the tool is applied iff Route says so |
| App.AppState.HandleKey | js/app.js:249-267 | digits pick tools, x and delete the eraser, space toggles running, nothing else changes |
| App.AppState.SelectTool | js/app.js:603-610 | the tool becomes current, nothing else changes |
| App.AppState.ToggleRun | js/app.js:612-623 | running flips, nothing else changes |
| App.AppState.PointerDown | js/app.js:162-174 | outside a game (the menu, before any grid exists) nothing happens; otherwise the pointer is held and the event handled as a press |
| App.AppState.PointerMove | js/app.js:176-181 | outside a game (the menu, before any grid exists) or with the pointer up nothing happens; otherwise the event is handled as a drag |
| App.AppState.PointerUp | js/app.js:183-190 | the input state becomes Release of the old one |
| App.AppState.ClearMap | js/app.js:625-634 | all cells emptied, the shape kept, no particles, score zero, stopped |
| App.AppState.UpdatePhysics | js/app.js:287-390 | the new grid, particles, statistics, timer and score are AppTick of the old state; the score never falls |
| Legacy.LegacyCapacity | js/systems/input.js:87-99 | the capacity the legacy `placeComponent` gives each kind; compared with the table by LegacyCapacityVsTable |
| Legacy.LegacyNew | js/systems/input.js:81-100 | the legacy instance: the kind, facing right, empty, the legacy capacity, no cooldown |
| Legacy.LegacyResult | js/systems/input.js:56-79 | the new content of the cell the legacy `applyTool` acts on; by LegacyToolLaws |
| Legacy.LegacyUse | js/systems/input.js:56-79 | the grid after the legacy `applyTool`; by LegacyToolLaws |
| Legacy.LegacyCapacityVsTable | js/systems/input.js:93-99 | legacy capacities equal the table's except prism (100 > 80) and wall (100 < 200) |
| Legacy.LegacyToolLaws | js/systems/input.js:56-79 | the eraser empties; a drag over a component does nothing; placing or clicking another kind puts a fresh instance; clicking the same kind rotates it; only that cell changes |
| Legacy.ForwardTarget | js/systems/physics.js:24-40 | a legacy source's only target is the cell it faces, when on the grid and occupied by any component, walls included |
| Legacy.BatteryThrottles | js/systems/physics.js:32-33 | a legacy battery never sends more than a later one, and the same only when empty or holding at least 2.5; other kinds send the same |
| Legacy.LegacyTick | js/systems/physics.js:1-125 | the legacy `updatePhysics`: both solver passes under the legacy rules, then spawning and moving; its properties are LegacyTickLaws |
| Legacy.LegacyTickLaws | js/systems/physics.js:1-125 | a legacy tick keeps the grid valid and particles live; its events are explosions on the grid, then scores of at least 10, and the score grows by exactly their points |
| Legacy.LegacyStep | js/systems/physics.js:1-125 | the loops of the legacy tick return exactly LegacyTick, valid, with the score never lower |
| Legacy.LegacyGame.constructor | js/state.js:2-23 | the globals once a level is laid out: a game over the given ambient map: empty grid, no particles, score zero, the pointer released |
| Legacy.LegacyGame.PlaceComponent | js/systems/input.js:81-100 | a fresh legacy instance of the tool's kind at the cell; all else unchanged |
| Legacy.LegacyGame.ApplyTool | js/systems/input.js:56-79 | the grid becomes LegacyUse of the old grid; all else unchanged |
| Legacy.LegacyGame.HandleInput | js/systems/input.js:29-54 | the input state follows Route of the cell, and the tool is applied iff Route says so |
| Legacy.LegacyGame.PointerDown | js/systems/input.js:4-11 | the pointer is held and the event handled as a press |
| Legacy.LegacyGame.PointerMove | js/systems/input.js:13-17 | ignored unless held, otherwise handled as a drag |
| Legacy.LegacyGame.PointerUp | js/systems/input.js:19-24 | the input state becomes Release of the old one |
| Legacy.LegacyGame.UpdatePhysics | js/systems/physics.js:1-125 | the new grid, particles and score are LegacyTick of the old state; the score never falls |

## Left out

- Rendering, the DOM, audio, screen shake, the alert layer driven by `dangerLevel`, and the text
  of the statistics panel are not modelled. Explosions and scores become `Event`s instead of
  effects and callbacks.
- The fade of visual effects at the end of `updateParticles` is not modelled (display only).
- `gameLoop` and `requestAnimationFrame` timing are not modelled. A tick is one call of
  `update()` or `updatePhysics()`.
- Level setup functions are not modelled (`js/levels.js` is not part of this model).
  `SetupLevel` and `StartGame` model a level without a setup function.
- `Math.random` in the ambient noise is not modelled. The noise matrix is a parameter.
- Floating point is not modelled: energies are exact reals. So the per-target guard
  `energy >= amountPerTarget` never fails (EnergyLaws.DistributeExact). Rounding drift is out of
  scope.
- Input coordinates are not measured: the canvas offset and `TILE_SIZE` are parameters of the
  pointer handlers, because `canvasRect` and resizing are DOM state.
- App.AppState.HandleKey takes the lower-cased key name. The `e.target` guard for text fields
  is not modelled. Keys compared by string order in the source other than the nine single
  digits, `x`, `delete` and space are not modelled. The eraser key clicks the eraser button;
  the model selects the "eraser" tool directly.
- App.AppState.StartGame requires the window timer in 0..59, the range every tick keeps. The
  global starts at 0 in the source.
- Components.Lookup: kinds form a closed datatype, so the `!def` checks of `canConnect` and the
  solvers can never fail in the model. The front end's tool stays a string, and its `!def` check
  in `placeComponent` is modelled.
- Legacy.LegacyGame.PlaceComponent requires the tool to be a kind. The legacy tool is the eraser
  or a kind, so a type string naming no kind is not modelled.
- Legacy statistics are not modelled: that generation keeps none. The shared solver is handed
  zeros and its totals are dropped.

## Findings

| source | as written | input that shows it | evidently intended | confidence | as-written member | corrected member |
|---|---|---|---|---|---|---|
| js/engine.js:52 | no entry of the component table declares `inputs`, so `canConnect` rejects every edge: the engine never moves energy and `getStructuralConnections` is always empty | two wires facing up at (0, 1) holding 50 and (0, 0) holding 0, then `update()` (the straight-wire test): nothing moves and no connection is active | wires accept input on relative ports 1, 2 and 3 and extractors on none, as the tests assume; then 2.5 moves along one connection | not executed | EngineScenarios.DeclaredStraightWire | EngineScenarios.StraightWire |
