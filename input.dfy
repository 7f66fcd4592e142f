// Pointer input, shared by js/app.js and the legacy js/systems/input.js (the
// two `handleInput` functions are the same): a pointer position becomes a
// grid cell, events outside the grid are ignored, and while the pointer is
// held the tool is applied once per cell entered rather than on every move.
module Input {
  import opened Constants

  /** `inputState`: pointer held, the hovered cell, and the cell the tool was last applied to. */
  datatype InputState = InputState(isDown: bool, gx: int, gy: int, startX: int, startY: int)

  /** The state before any pointer event. */
  const IDLE: InputState := InputState(false, -1, -1, -1, -1)

  /** What one pointer event leads to: the new input state, and whether the tool is applied at (x, y). */
  datatype Routed = Routed(state: InputState, apply: bool)

  /** `Math.floor(rel / TILE_SIZE)`: the cell index a canvas offset falls in. */
  function CellOf(rel: real, tile: real): (c: int)
    requires tile > 0.0
    ensures c as real <= rel / tile < c as real + 1.0
  {
    (rel / tile).Floor
  }

  /** Scaling by a positive width keeps the order of two offsets. */
  lemma ScaleOrder(a: real, b: real, t: real)
    requires t > 0.0
    ensures a < b <==> a * t < b * t
    ensures a <= b <==> a * t <= b * t
  {
    assert (b - a) * t == b * t - a * t;
    if a < b {
      assert (b - a) * t > 0.0;
    } else {
      assert (a - b) * t >= 0.0;
    }
  }

  /** The tiles are tile wide: cell c covers the offsets from c * tile up to (c + 1) * tile. */
  lemma CellOfCovers(rel: real, tile: real, c: int)
    requires tile > 0.0
    ensures CellOf(rel, tile) == c <==> c as real * tile <= rel < (c as real + 1.0) * tile
  {
    var q := rel / tile;
    var lo, hi := c as real, c as real + 1.0;
    assert rel == q * tile;
    ScaleOrder(lo, q, tile);
    ScaleOrder(q, hi, tile);
    assert lo * tile <= rel <==> lo <= q;
    assert rel < hi * tile <==> q < hi;
    var f := CellOf(rel, tile);
    assert f as real <= q < f as real + 1.0;
    if lo <= q < hi {
      assert c < f + 1 && f < c + 1;
    }
  }

  /**
   * `handleInput` once the event is a grid cell (x, y): outside the grid nothing happens; inside,
   * the cell is remembered as hovered, and unless this is a press, a move within the cell the tool
   * was last applied to stops there; otherwise the cell is remembered and the tool applied.
   */
  function Route(s: InputState, x: int, y: int, isStart: bool): Routed
  {
    if !InBounds(x, y) then Routed(s, false)
    else
      var s1 := s.(gx := x, gy := y);
      if !isStart && x == s.startX && y == s.startY then Routed(s1, false)
      else Routed(s1.(startX := x, startY := y), true)
  }

  /** `pointerdown`: the pointer is held, then the event is routed as a press. */
  function Press(s: InputState, x: int, y: int): Routed
  {
    Route(s.(isDown := true), x, y, true)
  }

  /** `pointermove`: ignored unless the pointer is held, otherwise routed as a drag. */
  function Drag(s: InputState, x: int, y: int): Routed
  {
    if !s.isDown then Routed(s, false) else Route(s, x, y, false)
  }

  /** `pointerup` / `pointercancel`: released, nothing hovered, the last cell's column forgotten. */
  function Release(s: InputState): InputState
  {
    s.(isDown := false, gx := -1, gy := -1, startX := -1)
  }

  /** The three outcomes of a routed event, and what each leaves of the state. */
  lemma RouteCases(s: InputState, x: int, y: int, isStart: bool)
    ensures var r := Route(s, x, y, isStart);
      && (!InBounds(x, y) ==> r == Routed(s, false))
      && (InBounds(x, y) ==> r.state.gx == x && r.state.gy == y && r.state.isDown == s.isDown)
      && (r.apply <==> InBounds(x, y) && (isStart || x != s.startX || y != s.startY))
      && (r.apply ==> r.state.startX == x && r.state.startY == y)
      && (!r.apply ==> r.state.startX == s.startX && r.state.startY == s.startY)
  {
  }

  /** A press inside the grid always applies the tool, even on the cell just acted on. */
  lemma PressApplies(s: InputState, x: int, y: int)
    requires InBounds(x, y)
    ensures Press(s, x, y).apply && Press(s, x, y).state.isDown
    ensures Press(s, x, y).state.startX == x && Press(s, x, y).state.startY == y
  {
  }

  /** After the tool is applied at a cell, a drag that stays in that cell does nothing more. */
  lemma NoRepeatInCell(s: InputState, x: int, y: int, isStart: bool)
    requires Route(s, x, y, isStart).apply
    ensures !Route(Route(s, x, y, isStart).state, x, y, false).apply
    ensures Route(Route(s, x, y, isStart).state, x, y, false).state == Route(s, x, y, isStart).state
  {
  }

  /** After a release, any move or press inside the grid applies the tool again, once it is held. */
  lemma ReleaseForgets(s: InputState, x: int, y: int)
    requires InBounds(x, y)
    ensures !Release(s).isDown && !Drag(Release(s), x, y).apply
    ensures Route(Release(s), x, y, false).apply
  {
  }

  /** The cells at which a stroke of drag events applies the tool, in order. */
  function Applied(s: InputState, cells: seq<(int, int)>): seq<(int, int)>
    decreases |cells|
  {
    if cells == [] then []
    else
      var r := Route(s, cells[0].0, cells[0].1, false);
      (if r.apply then [cells[0]] else []) + Applied(r.state, cells[1..])
  }

  /** The cells a path enters, leaving out those it is already in: consecutive repeats collapse. */
  function Entered(last: (int, int), cells: seq<(int, int)>): seq<(int, int)>
    decreases |cells|
  {
    if cells == [] then []
    else (if cells[0] == last then [] else [cells[0]]) + Entered(cells[0], cells[1..])
  }

  predicate AllInBounds(cells: seq<(int, int)>)
  {
    forall i :: 0 <= i < |cells| ==> InBounds(cells[i].0, cells[i].1)
  }

  /**
   * A drag stroke inside the grid applies the tool exactly once for each cell it enters: the cells
   * acted on are the path with its consecutive repeats collapsed, starting from the last cell acted on.
   */
  lemma {:induction false} StrokeAppliesOncePerCell(s: InputState, cells: seq<(int, int)>)
    requires AllInBounds(cells)
    ensures Applied(s, cells) == Entered((s.startX, s.startY), cells)
    decreases |cells|
  {
    if cells != [] {
      var r := Route(s, cells[0].0, cells[0].1, false);
      assert (r.state.startX, r.state.startY) == cells[0];
      StrokeAppliesOncePerCell(r.state, cells[1..]);
    }
  }

  /** Consecutive cells acted on in one stroke are different cells. */
  lemma {:induction false} EnteredNoRepeats(last: (int, int), cells: seq<(int, int)>)
    ensures var e := Entered(last, cells);
      (|e| > 0 ==> e[0] != last) && forall i :: 0 <= i < |e| - 1 ==> e[i] != e[i + 1]
    decreases |cells|
  {
    if cells != [] {
      EnteredNoRepeats(cells[0], cells[1..]);
      var rest := Entered(cells[0], cells[1..]);
      var e := Entered(last, cells);
      if cells[0] != last {
        assert e == [cells[0]] + rest;
      } else {
        assert e == rest;
        if |rest| > 0 {
          assert rest[0] != cells[0];
        }
      }
    }
  }
}
