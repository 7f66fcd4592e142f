// The grid store: component instances, the square matrices the simulation
// keeps (grid, ambient map, change accumulator) and sums over them.
module Grid {
  import opened Constants
  import opened Components

  /** A placed component: `{type, rotation, energy, maxEnergy, cooldown}`. */
  datatype Component = Component(kind: Kind, rotation: int, energy: real, maxEnergy: real, cooldown: int)

  type Cell = Option<Component>

  /** A row-major matrix, indexed `m[y][x]` as in the source. */
  type Matrix<T> = seq<seq<T>>

  type GridCells = Matrix<Cell>

  predicate Square<T>(m: Matrix<T>)
  {
    |m| == GRID_SIZE && forall y :: 0 <= y < GRID_SIZE ==> |m[y]| == GRID_SIZE
  }

  /** A GRID_SIZE x GRID_SIZE matrix holding v everywhere. */
  function Fill<T>(v: T): (m: Matrix<T>)
    ensures Square(m)
    ensures forall y, x :: 0 <= y < GRID_SIZE && 0 <= x < GRID_SIZE ==> m[y][x] == v
  {
    seq(GRID_SIZE, _ => seq(GRID_SIZE, _ => v))
  }

  /** `m[y][x] = v`: one cell changes, every other cell and the shape stay. */
  function Set<T>(m: Matrix<T>, x: int, y: int, v: T): (r: Matrix<T>)
    requires Square(m) && InBounds(x, y)
    ensures Square(r) && r[y][x] == v
    ensures forall j, i :: 0 <= j < GRID_SIZE && 0 <= i < GRID_SIZE && (j != y || i != x) ==> r[j][i] == m[j][i]
  {
    m[y := m[y][x := v]]
  }

  predicate ComponentOk(c: Component)
  {
    IsDir(c.rotation) && c.energy >= 0.0
  }

  /** The grid invariant: square, every rotation a direction, no negative energy. */
  predicate ValidGrid(g: GridCells)
  {
    Square(g) &&
    forall y, x :: 0 <= y < GRID_SIZE && 0 <= x < GRID_SIZE && g[y][x].Some? ==> ComponentOk(g[y][x].value)
  }

  /** Ambient energy lies in 0..100 everywhere. */
  predicate AmbientOk(a: Matrix<real>)
  {
    Square(a) && forall y, x :: 0 <= y < GRID_SIZE && 0 <= x < GRID_SIZE ==> 0.0 <= a[y][x] <= 100.0
  }

  /** Same occupant apart from the energy it holds. */
  predicate SameShape(a: Cell, b: Cell)
  {
    a.Some? == b.Some? && (a.Some? ==> a.value.(energy := 0.0) == b.value.(energy := 0.0))
  }

  /** Two grids that differ at most in the energies of their components. */
  predicate SameStructure(g: GridCells, h: GridCells)
  {
    Square(g) && Square(h) &&
    forall y, x :: 0 <= y < GRID_SIZE && 0 <= x < GRID_SIZE ==> SameShape(g[y][x], h[y][x])
  }

  function CellEnergy(c: Cell): real
  {
    if c.Some? then c.value.energy else 0.0
  }

  function Sum(s: seq<real>): real
  {
    if s == [] then 0.0 else Sum(s[..|s| - 1]) + s[|s| - 1]
  }

  /** Sum of every entry of a matrix. */
  function Total(m: Matrix<real>): real
  {
    if m == [] then 0.0 else Total(m[..|m| - 1]) + Sum(m[|m| - 1])
  }

  /** The energy held by each cell. */
  function Energies(g: GridCells): (m: Matrix<real>)
    requires Square(g)
    ensures Square(m)
    ensures forall y, x :: 0 <= y < GRID_SIZE && 0 <= x < GRID_SIZE ==> m[y][x] == CellEnergy(g[y][x])
  {
    seq(GRID_SIZE, y requires 0 <= y < GRID_SIZE => seq(GRID_SIZE, x requires 0 <= x < GRID_SIZE => CellEnergy(g[y][x])))
  }

  /** Energy stored on the whole grid. */
  function TotalEnergy(g: GridCells): real
    requires Square(g)
  {
    Total(Energies(g))
  }

  lemma {:induction false} SumUpdate(s: seq<real>, i: int, v: real)
    requires 0 <= i < |s|
    ensures Sum(s[i := v]) == Sum(s) - s[i] + v
  {
    var n := |s| - 1;
    if i < n {
      assert s[i := v][..n] == s[..n][i := v];
      SumUpdate(s[..n], i, v);
    } else {
      assert s[i := v][..n] == s[..n];
    }
  }

  lemma {:induction false} SumNonNegative(s: seq<real>)
    requires forall i :: 0 <= i < |s| ==> s[i] >= 0.0
    ensures Sum(s) >= 0.0
  {
    if s != [] {
      SumNonNegative(s[..|s| - 1]);
    }
  }

  lemma {:induction false} TotalRowUpdate(m: Matrix<real>, y: int, row: seq<real>)
    requires 0 <= y < |m|
    ensures Total(m[y := row]) == Total(m) - Sum(m[y]) + Sum(row)
  {
    var n := |m| - 1;
    if y < n {
      assert m[y := row][..n] == m[..n][y := row];
      TotalRowUpdate(m[..n], y, row);
    } else {
      assert m[y := row][..n] == m[..n];
    }
  }

  /** Changing one entry changes the total by exactly the difference. */
  lemma TotalUpdate(m: Matrix<real>, x: int, y: int, v: real)
    requires Square(m) && InBounds(x, y)
    ensures Total(Set(m, x, y, v)) == Total(m) - m[y][x] + v
  {
    SumUpdate(m[y], x, v);
    TotalRowUpdate(m, y, m[y][x := v]);
  }

  lemma {:induction false} TotalNonNegative(m: Matrix<real>)
    requires forall y, x :: 0 <= y < |m| && 0 <= x < |m[y]| ==> m[y][x] >= 0.0
    ensures Total(m) >= 0.0
  {
    if m != [] {
      TotalNonNegative(m[..|m| - 1]);
      SumNonNegative(m[|m| - 1]);
    }
  }

  lemma {:induction false} SumZero(n: nat)
    ensures Sum(seq(n, _ => 0.0)) == 0.0
  {
    if n > 0 {
      assert seq(n, _ => 0.0)[..n - 1] == seq(n - 1, _ => 0.0);
      SumZero(n - 1);
    }
  }

  lemma {:induction false} TotalZeroRows(rows: nat)
    ensures Total(seq(rows, _ => seq(GRID_SIZE, _ => 0.0))) == 0.0
  {
    if rows > 0 {
      assert seq(rows, _ => seq(GRID_SIZE, _ => 0.0))[..rows - 1] == seq(rows - 1, _ => seq(GRID_SIZE, _ => 0.0));
      TotalZeroRows(rows - 1);
      SumZero(GRID_SIZE);
    }
  }

  /** A freshly zeroed accumulator sums to zero. */
  lemma TotalOfZeros()
    ensures Total(Fill(0.0)) == 0.0
  {
    TotalZeroRows(GRID_SIZE);
  }

  /** Replacing one cell changes the grid's energy by the difference of the two occupants. */
  lemma TotalEnergySet(g: GridCells, x: int, y: int, c: Cell)
    requires Square(g) && InBounds(x, y)
    ensures TotalEnergy(Set(g, x, y, c)) == TotalEnergy(g) - CellEnergy(g[y][x]) + CellEnergy(c)
  {
    var g' := Set(g, x, y, c);
    var e, e' := Energies(g), Set(Energies(g), x, y, CellEnergy(c));
    forall j | 0 <= j < GRID_SIZE
      ensures Energies(g')[j] == e'[j]
    {
      assert forall i :: 0 <= i < GRID_SIZE ==> Energies(g')[j][i] == e'[j][i];
    }
    assert Energies(g') == e';
    TotalUpdate(Energies(g), x, y, CellEnergy(c));
  }

  /** Row-major order: cell (i, j) is visited before cell (x, y). */
  predicate Before(i: int, j: int, x: int, y: int)
  {
    j < y || (j == y && i < x)
  }

  /** Two square matrices that agree everywhere are equal. */
  lemma MatrixEq<T>(a: Matrix<T>, b: Matrix<T>)
    requires Square(a) && Square(b)
    requires forall y, x :: 0 <= y < GRID_SIZE && 0 <= x < GRID_SIZE ==> a[y][x] == b[y][x]
    ensures a == b
  {
    forall y | 0 <= y < GRID_SIZE
      ensures a[y] == b[y]
    {
      assert forall x :: 0 <= x < GRID_SIZE ==> a[y][x] == b[y][x];
    }
  }

  /** A sequence bounded entry by entry by the sum of two others sums to at most their sums. */
  lemma {:induction false} SumPointwise(s: seq<real>, t: seq<real>, u: seq<real>)
    requires |s| == |t| == |u|
    requires forall i :: 0 <= i < |u| ==> u[i] <= s[i] + t[i]
    ensures Sum(u) <= Sum(s) + Sum(t)
    ensures (forall i :: 0 <= i < |u| ==> u[i] == s[i] + t[i]) ==> Sum(u) == Sum(s) + Sum(t)
  {
    if u != [] {
      var n := |u| - 1;
      SumPointwise(s[..n], t[..n], u[..n]);
    }
  }

  /** The matrix version of SumPointwise, row by row. */
  lemma {:induction false} TotalPointwise(a: Matrix<real>, b: Matrix<real>, c: Matrix<real>)
    requires |a| == |b| == |c|
    requires forall y :: 0 <= y < |c| ==> |a[y]| == |b[y]| == |c[y]|
    requires forall y, x :: 0 <= y < |c| && 0 <= x < |c[y]| ==> c[y][x] <= a[y][x] + b[y][x]
    ensures Total(c) <= Total(a) + Total(b)
    ensures (forall y, x :: 0 <= y < |c| && 0 <= x < |c[y]| ==> c[y][x] == a[y][x] + b[y][x])
        ==> Total(c) == Total(a) + Total(b)
  {
    if c != [] {
      var n := |c| - 1;
      TotalPointwise(a[..n], b[..n], c[..n]);
      SumPointwise(a[n], b[n], c[n]);
    }
  }

  /** The ambient level of a cell from its noise value: `max(0, min(100, (noise + 2) * 25))`. */
  function AmbientLevel(noise: real): (e: real)
    ensures 0.0 <= e <= 100.0
    ensures (noise + 2.0) * 25.0 <= 0.0 ==> e == 0.0
    ensures (noise + 2.0) * 25.0 >= 100.0 ==> e == 100.0
    ensures 0.0 <= (noise + 2.0) * 25.0 <= 100.0 ==> e == (noise + 2.0) * 25.0
  {
    var v := (noise + 2.0) * 25.0;
    if v >= 100.0 then 100.0 else if v <= 0.0 then 0.0 else v
  }

  /** The nested loops that fill the ambient map from a noise matrix. */
  method AmbientFromNoise(noise: Matrix<real>) returns (a: Matrix<real>)
    requires Square(noise)
    ensures AmbientOk(a)
    ensures forall y, x :: 0 <= y < GRID_SIZE && 0 <= x < GRID_SIZE ==> a[y][x] == AmbientLevel(noise[y][x])
  {
    a := Fill(0.0);
    var y := 0;
    while y < GRID_SIZE
      invariant 0 <= y <= GRID_SIZE && AmbientOk(a)
      invariant forall j, i :: 0 <= j < y && 0 <= i < GRID_SIZE ==> a[j][i] == AmbientLevel(noise[j][i])
    {
      var x := 0;
      while x < GRID_SIZE
        invariant 0 <= x <= GRID_SIZE && AmbientOk(a)
        invariant forall j, i :: 0 <= j < GRID_SIZE && 0 <= i < GRID_SIZE && Before(i, j, x, y) ==> a[j][i] == AmbientLevel(noise[j][i])
      {
        a := Set(a, x, y, AmbientLevel(noise[y][x]));
        x := x + 1;
      }
      y := y + 1;
    }
  }
}
