// What the two-pass solver guarantees, for every generation's rules:
// the per-source transfer rule, the fact that pass 1 changes a cell's energy
// using only that cell's own start-of-tick state (so energy received this
// tick is not forwarded before the next one), conservation of energy between
// the sources and the accumulator, non-negative energies, and the overload
// rule of pass 2.
module EnergyLaws {
  import opened Constants
  import opened Components
  import opened Grid
  import opened Connect
  import opened Solver

  // ---------------------------------------------------------------------
  // Distribution of one source's share

  /** The flow records of handing `a` to each of ts from (x, y). */
  function FlowsFor(x: int, y: int, ts: seq<Target>, a: real): (fs: seq<Flow>)
    ensures |fs| == |ts|
    ensures forall i :: 0 <= i < |ts| ==> fs[i] == Flow(x, y, ts[i].x, ts[i].y, a)
  {
    seq(|ts|, i requires 0 <= i < |ts| => Flow(x, y, ts[i].x, ts[i].y, a))
  }

  /** The accumulator after adding `a` at each target in turn. */
  function AddEach(m: Matrix<real>, ts: seq<Target>, a: real): (r: Matrix<real>)
    requires Square(m)
    requires forall t :: t in ts ==> InBounds(t.x, t.y)
    ensures Square(r)
  {
    if ts == [] then m
    else
      var t := ts[|ts| - 1];
      assert t in ts;
      var prev := AddEach(m, ts[..|ts| - 1], a);
      assert Square(prev) && InBounds(t.x, t.y);
      assert |prev| == GRID_SIZE && |prev[t.y]| == GRID_SIZE;
      Set(prev, t.x, t.y, prev[t.y][t.x] + a)
  }

  function SumFlows(fs: seq<Flow>): real
  {
    if fs == [] then 0.0 else SumFlows(fs[..|fs| - 1]) + fs[|fs| - 1].amount
  }

  lemma {:induction false} SumFlowsAppend(fs: seq<Flow>, gs: seq<Flow>)
    ensures SumFlows(fs + gs) == SumFlows(fs) + SumFlows(gs)
  {
    if gs != [] {
      assert (fs + gs)[..|fs + gs| - 1] == fs + gs[..|gs| - 1];
      SumFlowsAppend(fs, gs[..|gs| - 1]);
    } else {
      assert fs + gs == fs;
    }
  }

  lemma {:induction false} SumFlowsFor(x: int, y: int, ts: seq<Target>, a: real)
    ensures SumFlows(FlowsFor(x, y, ts, a)) == Repeat(|ts|, a)
  {
    if ts != [] {
      var n := |ts| - 1;
      assert FlowsFor(x, y, ts, a)[..n] == FlowsFor(x, y, ts[..n], a);
      SumFlowsFor(x, y, ts[..n], a);
    }
  }

  lemma {:induction false} AddEachTotal(m: Matrix<real>, ts: seq<Target>, a: real)
    requires Square(m)
    requires forall t :: t in ts ==> InBounds(t.x, t.y)
    ensures Total(AddEach(m, ts, a)) == Total(m) + Repeat(|ts|, a)
  {
    if ts != [] {
      var t := ts[|ts| - 1];
      var prev := AddEach(m, ts[..|ts| - 1], a);
      AddEachTotal(m, ts[..|ts| - 1], a);
      TotalUpdate(prev, t.x, t.y, prev[t.y][t.x] + a);
    }
  }

  lemma {:induction false} AddEachNonNegative(m: Matrix<real>, ts: seq<Target>, a: real)
    requires Square(m) && a >= 0.0
    requires forall t :: t in ts ==> InBounds(t.x, t.y)
    requires forall y, x :: 0 <= y < GRID_SIZE && 0 <= x < GRID_SIZE ==> m[y][x] >= 0.0
    ensures forall y, x :: 0 <= y < GRID_SIZE && 0 <= x < GRID_SIZE ==> AddEach(m, ts, a)[y][x] >= 0.0
  {
    if ts != [] {
      AddEachNonNegative(m, ts[..|ts| - 1], a);
    }
  }

  /** n shares of a, added one at a time (n * a, kept free of multiplication for the solver). */
  function Repeat(n: nat, a: real): real
  {
    if n == 0 then 0.0 else Repeat(n - 1, a) + a
  }

  /** Repeat is multiplication. */
  lemma {:induction false} RepeatIsProduct(n: nat, a: real)
    ensures Repeat(n, a) == (n as real) * a
  {
    if n > 0 {
      RepeatIsProduct(n - 1, a);
      assert (n as real) * a == ((n - 1) as real) * a + a;
    }
  }

  /** More shares of a non-negative amount add up to more. */
  lemma {:induction false} RepeatMonotone(n: nat, k: nat, a: real)
    requires n <= k && a >= 0.0
    ensures 0.0 <= Repeat(n, a) <= Repeat(k, a)
  {
    if n < k {
      RepeatMonotone(n, k - 1, a);
    } else if n > 0 {
      RepeatMonotone(n - 1, n - 1, a);
    }
  }

  /** While the source holds the whole amount it splits, the first n targets are all paid. */
  lemma {:induction false} DistributeEnergy(d0: Dist, a: real, x: int, y: int, ts: seq<Target>, n: nat)
    requires Square(d0.changes) && n <= |ts|
    requires forall t :: t in ts ==> InBounds(t.x, t.y)
    requires a >= 0.0 && d0.energy >= Repeat(|ts|, a)
    ensures DistributeUpto(d0, a, x, y, ts, n).energy == d0.energy - Repeat(n, a)
  {
    if n > 0 {
      DistributeEnergy(d0, a, x, y, ts, n - 1);
      RepeatMonotone(n, |ts|, a);
    }
  }

  /** The flows recorded while every target is paid. */
  lemma {:induction false} DistributeFlows(d0: Dist, a: real, x: int, y: int, ts: seq<Target>, n: nat)
    requires Square(d0.changes) && n <= |ts|
    requires forall t :: t in ts ==> InBounds(t.x, t.y)
    requires a >= 0.0 && d0.energy >= Repeat(|ts|, a)
    ensures DistributeUpto(d0, a, x, y, ts, n).flows == d0.flows + FlowsFor(x, y, ts[..n], a)
  {
    if n > 0 {
      DistributeFlows(d0, a, x, y, ts, n - 1);
      DistributeEnergy(d0, a, x, y, ts, n - 1);
      RepeatMonotone(n, |ts|, a);
      assert FlowsFor(x, y, ts[..n], a) == FlowsFor(x, y, ts[..n - 1], a) + [Flow(x, y, ts[n - 1].x, ts[n - 1].y, a)];
    }
  }

  /** The accumulator while every target is paid. */
  lemma {:induction false} DistributeChanges(d0: Dist, a: real, x: int, y: int, ts: seq<Target>, n: nat)
    requires Square(d0.changes) && n <= |ts|
    requires forall t :: t in ts ==> InBounds(t.x, t.y)
    requires a >= 0.0 && d0.energy >= Repeat(|ts|, a)
    ensures DistributeUpto(d0, a, x, y, ts, n).changes == AddEach(d0.changes, ts[..n], a)
  {
    if n > 0 {
      DistributeChanges(d0, a, x, y, ts, n - 1);
      DistributeEnergy(d0, a, x, y, ts, n - 1);
      RepeatMonotone(n, |ts|, a);
      assert ts[..n][..n - 1] == ts[..n - 1];
    }
  }

  /**
   * In exact arithmetic the per-target guard `energy >= amountPerTarget` never fails when the
   * source holds the whole amount it splits: every target is paid, in order.
   */
  lemma DistributeExact(d0: Dist, a: real, x: int, y: int, ts: seq<Target>, n: nat)
    requires Square(d0.changes) && n <= |ts|
    requires forall t :: t in ts ==> InBounds(t.x, t.y)
    requires a >= 0.0 && d0.energy >= Repeat(|ts|, a)
    ensures DistributeUpto(d0, a, x, y, ts, n).energy == d0.energy - Repeat(n, a)
    ensures DistributeUpto(d0, a, x, y, ts, n).flows == d0.flows + FlowsFor(x, y, ts[..n], a)
    ensures DistributeUpto(d0, a, x, y, ts, n).changes == AddEach(d0.changes, ts[..n], a)
  {
    DistributeEnergy(d0, a, x, y, ts, n);
    DistributeFlows(d0, a, x, y, ts, n);
    DistributeChanges(d0, a, x, y, ts, n);
  }

  // ---------------------------------------------------------------------
  // Targets depend on structure only

  lemma AcceptsIgnoresEnergy(r: Rules, c: Component, c': Component, t: Cell, t': Cell, d: int)
    requires c.kind == c'.kind && c.rotation == c'.rotation && SameShape(t, t')
    ensures Accepts(r, c, t, d) == Accepts(r, c', t', d)
  {
    if t.Some? {
      assert t.value.kind == t'.value.kind by {
        assert t.value.(energy := 0.0).kind == t'.value.(energy := 0.0).kind;
      }
      assert t.value.rotation == t'.value.rotation by {
        assert t.value.(energy := 0.0).rotation == t'.value.(energy := 0.0).rotation;
      }
    }
  }

  /** Two sources at (x, y), on two grids, that every neighbour accepts or refuses alike. */
  ghost predicate AcceptAlike(r: Rules, g: GridCells, h: GridCells, c: Component, c': Component, x: int, y: int)
    requires Square(g) && Square(h)
  {
    forall d :: 0 <= d < 4 && InBounds(StepX(x, d), StepY(y, d)) ==>
      Accepts(r, c, g[StepY(y, d)][StepX(x, d)], d) == Accepts(r, c', h[StepY(y, d)][StepX(x, d)], d)
  }

  /** The target list depends on the grid only through which neighbours accept. */
  lemma {:induction false} TargetsAlike(r: Rules, g: GridCells, h: GridCells, c: Component, c': Component,
                                        x: int, y: int, ports: seq<int>)
    requires Square(g) && Square(h) && c.rotation == c'.rotation && AcceptAlike(r, g, h, c, c', x, y)
    ensures TargetsOf(r, g, c, x, y, ports) == TargetsOf(r, h, c', x, y, ports)
  {
    if ports != [] {
      TargetsAlike(r, g, h, c, c', x, y, ports[..|ports| - 1]);
    }
  }

  /** The target list of a source is the same on any grid of the same structure. */
  lemma TargetsIgnoreEnergy(r: Rules, g: GridCells, h: GridCells, c: Component, c': Component,
                            x: int, y: int, ports: seq<int>)
    requires SameStructure(g, h) && c.kind == c'.kind && c.rotation == c'.rotation
    ensures TargetsOf(r, g, c, x, y, ports) == TargetsOf(r, h, c', x, y, ports)
  {
    forall d | IsDir(d) && InBounds(StepX(x, d), StepY(y, d))
      ensures Accepts(r, c, g[StepY(y, d)][StepX(x, d)], d) == Accepts(r, c', h[StepY(y, d)][StepX(x, d)], d)
    {
      AcceptsIgnoresEnergy(r, c, c', g[StepY(y, d)][StepX(x, d)], h[StepY(y, d)][StepX(x, d)], d);
    }
    TargetsAlike(r, g, h, c, c', x, y, ports);
  }

  // ---------------------------------------------------------------------
  // What pass 1 does to one cell, from the start-of-tick grid alone

  /** The accepting neighbours of the component at (x, y) on grid g. */
  function OwnTargets(r: Rules, g: GridCells, amb: Matrix<real>, x: int, y: int): seq<Target>
    requires Square(g) && Square(amb) && InBounds(x, y) && g[y][x].Some?
  {
    var c2 := Prepare(g[y][x].value, amb[y][x]).0;
    TargetsOf(r, g, c2, x, y, SourcePorts(r, c2.kind))
  }

  /** Whether the component at (x, y) pushes energy this tick. */
  predicate Pushes(r: Rules, g: GridCells, amb: Matrix<real>, x: int, y: int)
    requires Square(g) && Square(amb) && InBounds(x, y)
  {
    g[y][x].Some? && Sends(r, Prepare(g[y][x].value, amb[y][x]).0, OwnTargets(r, g, amb, x, y))
  }

  /** The total the component at (x, y) sends this tick. */
  function Outflow(r: Rules, g: GridCells, amb: Matrix<real>, x: int, y: int): real
    requires Square(g) && Square(amb) && InBounds(x, y)
  {
    if Pushes(r, g, amb, x, y) then Available(r, Prepare(g[y][x].value, amb[y][x]).0) else 0.0
  }

  /** What each target of the component at (x, y) receives. */
  function Share(r: Rules, g: GridCells, amb: Matrix<real>, x: int, y: int): real
    requires Square(g) && Square(amb) && InBounds(x, y)
  {
    if Pushes(r, g, amb, x, y) then Outflow(r, g, amb, x, y) / (|OwnTargets(r, g, amb, x, y)| as real) else 0.0
  }

  /** The flows recorded for the component at (x, y). */
  function FlowsOut(r: Rules, g: GridCells, amb: Matrix<real>, x: int, y: int): seq<Flow>
    requires Square(g) && Square(amb) && InBounds(x, y)
  {
    if Pushes(r, g, amb, x, y) then FlowsFor(x, y, OwnTargets(r, g, amb, x, y), Share(r, g, amb, x, y)) else []
  }

  /** The occupant of (x, y) at the end of pass 1. */
  function AfterPass1(r: Rules, g: GridCells, amb: Matrix<real>, x: int, y: int): Cell
    requires Square(g) && Square(amb) && InBounds(x, y)
  {
    match g[y][x]
    case None => None
    case Some(c) =>
      var c2 := Prepare(c, amb[y][x]).0;
      Some(c2.(energy := c2.energy - Outflow(r, g, amb, x, y)))
  }

  function Made(g: GridCells, amb: Matrix<real>, x: int, y: int): real
    requires Square(g) && Square(amb) && InBounds(x, y)
  {
    if g[y][x].Some? then Prepare(g[y][x].value, amb[y][x]).1 else 0.0
  }

  function Lost(g: GridCells, amb: Matrix<real>, x: int, y: int): real
    requires Square(g) && Square(amb) && InBounds(x, y)
  {
    if g[y][x].Some? then Prepare(g[y][x].value, amb[y][x]).2 else 0.0
  }

  /** k equal shares of an amount add up to that amount. */
  lemma ShareFits(total: real, k: nat)
    requires k > 0 && total >= 0.0
    ensures total / (k as real) >= 0.0
    ensures Repeat(k, total / (k as real)) == total
  {
    RepeatIsProduct(k, total / (k as real));
  }

  /**
   * The transfer rule of one source: when what it may send exceeds the threshold and it has k >= 1
   * accepting neighbours, it gives up exactly what it may send, each target gets available/k in the
   * accumulator and one flow is recorded per target; otherwise nothing moves.
   */
  lemma SendExact(r: Rules, c: Component, x: int, y: int, ts: seq<Target>, d0: Dist)
    requires Square(d0.changes) && forall t :: t in ts ==> InBounds(t.x, t.y)
    requires c.energy >= 0.0 && d0.energy == c.energy
    ensures Send(r, c, x, y, ts, d0) ==
      if Sends(r, c, ts) then
        var a := Available(r, c) / (|ts| as real);
        Dist(c.energy - Available(r, c), AddEach(d0.changes, ts, a), d0.flows + FlowsFor(x, y, ts, a))
      else d0
  {
    if Sends(r, c, ts) {
      var a := Available(r, c) / (|ts| as real);
      ShareFits(Available(r, c), |ts|);
      DistributeExact(d0, a, x, y, ts, |ts|);
      assert ts[..|ts|] == ts;
    }
  }

  /** The targets a source finds while pass 1 runs are those it has on the start-of-tick grid. */
  lemma VisitCellTargets(r: Rules, g: GridCells, amb: Matrix<real>, st: Pass1State, x: int, y: int)
    requires Square(g) && Square(amb) && Pass1Shape(st) && InBounds(x, y)
    requires SameStructure(g, st.grid) && st.grid[y][x] == g[y][x] && g[y][x].Some?
    ensures var c2 := Prepare(g[y][x].value, amb[y][x]).0;
      TargetsOf(r, st.grid, c2, x, y, SourcePorts(r, c2.kind)) == OwnTargets(r, g, amb, x, y)
  {
    var c2 := Prepare(g[y][x].value, amb[y][x]).0;
    TargetsIgnoreEnergy(r, st.grid, g, c2, c2, x, y, SourcePorts(r, c2.kind));
  }

  /**
   * Pass 1 at one cell in closed form: its new occupant is AfterPass1, no other cell changes, each
   * target gets its share in the accumulator, one flow per target is recorded, and the amounts made
   * and vented are added to the statistics.
   */
  lemma VisitCellTransfer(r: Rules, g: GridCells, amb: Matrix<real>, st: Pass1State, x: int, y: int)
    requires Square(g) && Square(amb) && Pass1Shape(st) && InBounds(x, y)
    requires SameStructure(g, st.grid) && st.grid[y][x] == g[y][x]
    requires g[y][x].Some? ==> g[y][x].value.energy >= 0.0
    requires AmbientOk(amb)
    ensures var st' := VisitCell(r, amb, st, x, y);
      && st'.grid[y][x] == AfterPass1(r, g, amb, x, y)
      && (forall j, i :: 0 <= j < GRID_SIZE && 0 <= i < GRID_SIZE && (j != y || i != x) ==> st'.grid[j][i] == st.grid[j][i])
      && st'.changes == (if Pushes(r, g, amb, x, y)
                         then AddEach(st.changes, OwnTargets(r, g, amb, x, y), Share(r, g, amb, x, y))
                         else st.changes)
      && st'.flows == st.flows + FlowsOut(r, g, amb, x, y)
      && st'.stats == st.stats.(gen := st.stats.gen + Made(g, amb, x, y), vent := st.stats.vent + Lost(g, amb, x, y))
  {
    if g[y][x].Some? {
      var c2 := Prepare(g[y][x].value, amb[y][x]).0;
      VisitCellTargets(r, g, amb, st, x, y);
      SendExact(r, c2, x, y, OwnTargets(r, g, amb, x, y), Dist(c2.energy, st.changes, st.flows));
      if !Pushes(r, g, amb, x, y) {
        assert st.flows + [] == st.flows;
      }
    } else {
      assert st.flows + [] == st.flows;
    }
  }

  // ---------------------------------------------------------------------
  // Pass 1 as a whole

  /**
   * Pass 1 never lets a cell's new energy depend on anything but its own start-of-tick state and the
   * structure around it: every cell visited so far holds AfterPass1, every other cell is untouched.
   */
  lemma {:induction false} Pass1Cells(r: Rules, g: GridCells, amb: Matrix<real>, s0: Stats, y: nat, x: nat)
    requires ValidGrid(g) && AmbientOk(amb)
    requires (y < GRID_SIZE && x <= GRID_SIZE) || (y == GRID_SIZE && x == 0)
    ensures var st := Pass1Upto(r, amb, Pass1Start(g, s0), y, x);
      forall j, i :: 0 <= j < GRID_SIZE && 0 <= i < GRID_SIZE ==>
        st.grid[j][i] == if Before(i, j, x, y) then AfterPass1(r, g, amb, i, j) else g[j][i]
    decreases y, x
  {
    if x == 0 {
      if y > 0 {
        Pass1Cells(r, g, amb, s0, y - 1, GRID_SIZE);
      }
    } else {
      Pass1Cells(r, g, amb, s0, y, x - 1);
      var st := Pass1Upto(r, amb, Pass1Start(g, s0), y, x - 1);
      forall j, i | 0 <= j < GRID_SIZE && 0 <= i < GRID_SIZE
        ensures SameShape(g[j][i], st.grid[j][i])
      {
        AfterPass1Shape(r, g, amb, i, j);
      }
      VisitCellTransfer(r, g, amb, st, x - 1, y);
    }
  }

  lemma AfterPass1Shape(r: Rules, g: GridCells, amb: Matrix<real>, x: int, y: int)
    requires Square(g) && Square(amb) && InBounds(x, y)
    ensures SameShape(g[y][x], AfterPass1(r, g, amb, x, y))
  {
  }

  // ---------------------------------------------------------------------
  // Conservation and soundness of pass 1

  /** Production adds what it reports as made, venting removes what it reports as lost, nothing else changes. */
  lemma PrepareBalance(c: Component, ambient: real)
    requires c.energy >= 0.0 && ambient >= 0.0
    ensures var (c2, made, lost) := Prepare(c, ambient);
      && c2 == c.(energy := c2.energy)
      && c2.energy == c.energy + made - lost
      && made >= 0.0 && lost >= 0.0 && c2.energy >= 0.0
  {
  }

  /** Energy on the grid plus energy in transit, net of what was generated and vented. */
  function Ledger(st: Pass1State): real
    requires Pass1Shape(st)
  {
    TotalEnergy(st.grid) + Total(st.changes) + st.stats.vent - st.stats.gen
  }

  /** A recorded transfer between two adjacent cells of a positive amount no larger than the transfer speed. */
  predicate FlowOk(f: Flow)
  {
    InBounds(f.x, f.y) && InBounds(f.tx, f.ty) && Adjacent(f.x, f.y, f.tx, f.ty) &&
    0.0 < f.amount <= ENERGY_TRANSFER_SPEED
  }

  predicate NonNegative(m: Matrix<real>)
    requires Square(m)
  {
    forall y, x :: 0 <= y < GRID_SIZE && 0 <= x < GRID_SIZE ==> m[y][x] >= 0.0
  }

  /** Pending changes only ever sit on occupied cells. */
  predicate Landed(g: GridCells, m: Matrix<real>)
    requires Square(g) && Square(m)
  {
    forall y, x :: 0 <= y < GRID_SIZE && 0 <= x < GRID_SIZE && g[y][x].None? ==> m[y][x] == 0.0
  }

  /** Every target a source finds is occupied (under each generation's acceptance rule). */
  lemma {:induction false} TargetsOccupied(r: Rules, g: GridCells, c: Component, x: int, y: int, ports: seq<int>)
    requires Square(g)
    ensures forall t :: t in TargetsOf(r, g, c, x, y, ports) ==> g[t.y][t.x].Some?
  {
    if ports != [] {
      TargetsOccupied(r, g, c, x, y, ports[..|ports| - 1]);
    }
  }

  lemma {:induction false} AddEachLanded(g: GridCells, m: Matrix<real>, ts: seq<Target>, a: real)
    requires Square(g) && Square(m) && Landed(g, m)
    requires forall t :: t in ts ==> InBounds(t.x, t.y) && g[t.y][t.x].Some?
    ensures Landed(g, AddEach(m, ts, a))
  {
    if ts != [] {
      AddEachLanded(g, m, ts[..|ts| - 1], a);
      assert ts[|ts| - 1] in ts;
    }
  }

  /** The share each target gets is positive and at most the transfer speed. */
  lemma ShareBounds(total: real, k: nat, threshold: real)
    requires k > 0 && threshold >= 0.0 && total > threshold && total <= ENERGY_TRANSFER_SPEED
    ensures 0.0 < total / (k as real) <= ENERGY_TRANSFER_SPEED
  {
    var q := total / (k as real);
    assert (k as real) * q == total;
    assert q > 0.0;
    assert ((k - 1) as real) * q >= 0.0;
    assert (k as real) * q == ((k - 1) as real) * q + q;
  }

  /** A distribution moves energy from the source to the accumulator and records every amount moved. */
  lemma SendBalance(r: Rules, c: Component, x: int, y: int, ts: seq<Target>, d0: Dist)
    requires Square(d0.changes) && forall t :: t in ts ==> InBounds(t.x, t.y)
    requires c.energy >= 0.0 && d0.energy == c.energy
    ensures var d := Send(r, c, x, y, ts, d0);
      && d.energy + Total(d.changes) == d0.energy + Total(d0.changes)
      && Total(d.changes) - SumFlows(d.flows) == Total(d0.changes) - SumFlows(d0.flows)
  {
    SendExact(r, c, x, y, ts, d0);
    if Sends(r, c, ts) {
      var a := Available(r, c) / (|ts| as real);
      ShareFits(Available(r, c), |ts|);
      AddEachTotal(d0.changes, ts, a);
      SumFlowsFor(x, y, ts, a);
      SumFlowsAppend(d0.flows, FlowsFor(x, y, ts, a));
    }
  }

  /**
   * Pass 1 at one cell moves energy without creating or destroying any: the ledger is unchanged,
   * the accumulator grows by exactly the amounts recorded as flows, and the statistics only grow.
   */
  lemma VisitCellBalance(r: Rules, amb: Matrix<real>, st: Pass1State, x: int, y: int)
    requires Pass1Shape(st) && AmbientOk(amb) && InBounds(x, y)
    requires st.grid[y][x].Some? ==> st.grid[y][x].value.energy >= 0.0
    ensures var st' := VisitCell(r, amb, st, x, y);
      && Ledger(st') == Ledger(st)
      && Total(st'.changes) - SumFlows(st'.flows) == Total(st.changes) - SumFlows(st.flows)
      && st'.stats.gen >= st.stats.gen && st'.stats.vent >= st.stats.vent && st'.stats.use == st.stats.use
  {
    if st.grid[y][x].Some? {
      var c := st.grid[y][x].value;
      var (c2, made, lost) := Prepare(c, amb[y][x]);
      PrepareBalance(c, amb[y][x]);
      var ts := TargetsOf(r, st.grid, c2, x, y, SourcePorts(r, c2.kind));
      var d0 := Dist(c2.energy, st.changes, st.flows);
      SendBalance(r, c2, x, y, ts, d0);
      var d := Send(r, c2, x, y, ts, d0);
      TotalEnergySet(st.grid, x, y, Some(c2.(energy := d.energy)));
    }
  }

  /**
   * Pass 1 at one cell keeps the state sound: the visited cell's energy and every pending change
   * stay non-negative, earlier flows are kept, and every new flow is well formed.
   */
  lemma VisitCellSound(r: Rules, amb: Matrix<real>, st: Pass1State, x: int, y: int)
    requires Pass1Shape(st) && AmbientOk(amb) && InBounds(x, y) && r.threshold >= 0.0
    requires st.grid[y][x].Some? ==> st.grid[y][x].value.energy >= 0.0
    requires NonNegative(st.changes) && Landed(st.grid, st.changes)
    ensures var st' := VisitCell(r, amb, st, x, y);
      && NonNegative(st'.changes) && Landed(st'.grid, st'.changes)
      && (st'.grid[y][x].Some? ==> st'.grid[y][x].value.energy >= 0.0)
      && |st'.flows| >= |st.flows| && st'.flows[..|st.flows|] == st.flows
      && (forall i :: |st.flows| <= i < |st'.flows| ==> FlowOk(st'.flows[i]))
  {
    if st.grid[y][x].Some? {
      var c := st.grid[y][x].value;
      var (c2, made, lost) := Prepare(c, amb[y][x]);
      PrepareBalance(c, amb[y][x]);
      var ts := TargetsOf(r, st.grid, c2, x, y, SourcePorts(r, c2.kind));
      var d0 := Dist(c2.energy, st.changes, st.flows);
      SendExact(r, c2, x, y, ts, d0);
      if Sends(r, c2, ts) {
        var a := Available(r, c2) / (|ts| as real);
        ShareFits(Available(r, c2), |ts|);
        ShareBounds(Available(r, c2), |ts|, r.threshold);
        AddEachNonNegative(st.changes, ts, a);
        TargetsOccupied(r, st.grid, c2, x, y, SourcePorts(r, c2.kind));
        AddEachLanded(st.grid, st.changes, ts, a);
        var fs := FlowsFor(x, y, ts, a);
        forall i | 0 <= i < |fs|
          ensures FlowOk(fs[i])
        {
          assert ts[i] in ts;
          StepIsAdjacent(x, y, ts[i].x, ts[i].y);
        }
        assert (st.flows + fs)[..|st.flows|] == st.flows;
      } else {
        assert st.flows[..|st.flows|] == st.flows;
      }
    } else {
      assert st.flows[..|st.flows|] == st.flows;
    }
  }

  /** The cell pass 1 is about to visit still holds its start-of-tick occupant. */
  lemma Pass1NextCell(r: Rules, g: GridCells, amb: Matrix<real>, s0: Stats, y: nat, x: nat)
    requires ValidGrid(g) && AmbientOk(amb) && y < GRID_SIZE && x < GRID_SIZE
    ensures var st := Pass1Upto(r, amb, Pass1Start(g, s0), y, x);
      st.grid[y][x] == g[y][x] && (st.grid[y][x].Some? ==> st.grid[y][x].value.energy >= 0.0)
  {
    Pass1Cells(r, g, amb, s0, y, x);
  }

  /** Partial pass 1 keeps the ledger of the start-of-tick grid, and every change pending is a recorded flow. */
  lemma {:induction false} Pass1Balance(r: Rules, g: GridCells, amb: Matrix<real>, s0: Stats, y: nat, x: nat)
    requires ValidGrid(g) && AmbientOk(amb)
    requires (y < GRID_SIZE && x <= GRID_SIZE) || (y == GRID_SIZE && x == 0)
    ensures var st := Pass1Upto(r, amb, Pass1Start(g, s0), y, x);
      && Ledger(st) == TotalEnergy(g) + s0.vent - s0.gen
      && Total(st.changes) == SumFlows(st.flows)
      && st.stats.gen >= s0.gen && st.stats.vent >= s0.vent && st.stats.use == s0.use
    decreases y, x
  {
    if x == 0 {
      if y > 0 {
        Pass1Balance(r, g, amb, s0, y - 1, GRID_SIZE);
      } else {
        TotalOfZeros();
      }
    } else {
      Pass1Balance(r, g, amb, s0, y, x - 1);
      Pass1NextCell(r, g, amb, s0, y, x - 1);
      VisitCellBalance(r, amb, Pass1Upto(r, amb, Pass1Start(g, s0), y, x - 1), x - 1, y);
    }
  }

  /** Partial pass 1 never makes a pending change negative and records only well-formed flows. */
  lemma {:induction false} Pass1Sound(r: Rules, g: GridCells, amb: Matrix<real>, s0: Stats, y: nat, x: nat)
    requires ValidGrid(g) && AmbientOk(amb) && r.threshold >= 0.0
    requires (y < GRID_SIZE && x <= GRID_SIZE) || (y == GRID_SIZE && x == 0)
    ensures var st := Pass1Upto(r, amb, Pass1Start(g, s0), y, x);
      && NonNegative(st.changes) && Landed(st.grid, st.changes)
      && forall i :: 0 <= i < |st.flows| ==> FlowOk(st.flows[i])
    decreases y, x
  {
    if x == 0 {
      if y > 0 {
        Pass1Sound(r, g, amb, s0, y - 1, GRID_SIZE);
      }
    } else {
      Pass1Sound(r, g, amb, s0, y, x - 1);
      Pass1NextCell(r, g, amb, s0, y, x - 1);
      var st := Pass1Upto(r, amb, Pass1Start(g, s0), y, x - 1);
      VisitCellSound(r, amb, st, x - 1, y);
      var st' := VisitCell(r, amb, st, x - 1, y);
      forall i | 0 <= i < |st'.flows|
        ensures FlowOk(st'.flows[i])
      {
        if i < |st.flows| {
          assert st'.flows[i] == st'.flows[..|st.flows|][i];
        }
      }
    }
  }

  /** A component after pass 1 keeps its rotation and holds no negative energy. */
  lemma AfterPass1Ok(r: Rules, g: GridCells, amb: Matrix<real>, x: int, y: int)
    requires ValidGrid(g) && AmbientOk(amb) && InBounds(x, y)
    ensures var c := AfterPass1(r, g, amb, x, y);
      c.Some? ==> ComponentOk(c.value) && c.value.energy <= g[y][x].value.energy + Made(g, amb, x, y) - Lost(g, amb, x, y)
  {
    if g[y][x].Some? {
      PrepareBalance(g[y][x].value, amb[y][x]);
    }
  }

  /**
   * Pass 1 as a whole. Every cell ends holding AfterPass1, which depends only on the start-of-tick
   * grid (energy received this tick is not passed on before the next one); the grid stays valid;
   * energy on the grid plus energy in transit equals the start-of-tick energy plus what was
   * generated minus what was vented; the accumulator holds exactly the recorded flows, none negative;
   * every flow goes between adjacent cells and moves a positive amount no larger than the speed.
   */
  lemma Pass1Conserves(r: Rules, g: GridCells, amb: Matrix<real>, s0: Stats)
    requires ValidGrid(g) && AmbientOk(amb) && r.threshold >= 0.0
    ensures var st := Pass1(r, g, amb, s0);
      && (forall j, i :: 0 <= j < GRID_SIZE && 0 <= i < GRID_SIZE ==> st.grid[j][i] == AfterPass1(r, g, amb, i, j))
      && ValidGrid(st.grid)
      && TotalEnergy(st.grid) + Total(st.changes) == TotalEnergy(g) + (st.stats.gen - s0.gen) - (st.stats.vent - s0.vent)
      && Total(st.changes) == SumFlows(st.flows)
      && NonNegative(st.changes) && Landed(g, st.changes)
      && (forall i :: 0 <= i < |st.flows| ==> FlowOk(st.flows[i]))
      && st.stats.gen >= s0.gen && st.stats.vent >= s0.vent && st.stats.use == s0.use
  {
    Pass1Cells(r, g, amb, s0, GRID_SIZE, 0);
    Pass1Balance(r, g, amb, s0, GRID_SIZE, 0);
    Pass1Sound(r, g, amb, s0, GRID_SIZE, 0);
    forall j, i | 0 <= j < GRID_SIZE && 0 <= i < GRID_SIZE
      ensures AfterPass1(r, g, amb, i, j).Some? ==> ComponentOk(AfterPass1(r, g, amb, i, j).value)
    {
      AfterPass1Ok(r, g, amb, i, j);
    }
    forall j, i | 0 <= j < GRID_SIZE && 0 <= i < GRID_SIZE
      ensures g[j][i].None? == Pass1(r, g, amb, s0).grid[j][i].None?
    {
      AfterPass1Shape(r, g, amb, i, j);
    }
  }
}

