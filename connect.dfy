// The port rule of js/engine.js (`canConnect`): energy may pass from one
// component to its neighbour in absolute direction d when d is one of the
// source's output ports and the opposite direction is one of the target's
// input ports, both taken relative to each component's rotation.
//
// The component table of js/components.js declares no input ports, so the
// input side is a parameter here: an InputTable gives each kind's
// rotation-relative input ports.
module Connect {
  import opened Constants
  import opened Components
  import opened Grid

  /** Rotation-relative input ports of each kind. */
  type InputTable = Kind -> set<int>

  /** The port of a component with rotation rot that faces absolute direction d. */
  function RelativePort(d: int, rot: int): int
  {
    (d - rot + 4) % 4
  }

  /** `canConnect(c1, .., c2, .., dir)`. */
  function CanConnect(inputs: InputTable, c1: Cell, c2: Cell, dir: int): bool
  {
    c1.Some? && c2.Some? &&
    RelativePort(dir, c1.value.rotation) in Outputs(c1.value.kind) &&
    RelativePort((dir + 2) % 4, c2.value.rotation) in inputs(c2.value.kind)
  }

  /** Mapping an enumerated output port to its absolute direction and back gives the port again. */
  lemma RelativePortOfOwnPort(rot: int, o: int)
    requires IsDir(rot) && 0 <= o < 4
    ensures IsDir((rot + o) % 4)
    ensures RelativePort((rot + o) % 4, rot) == o
  {
  }

  /**
   * For a port the source enumerates itself, the output check of canConnect always passes:
   * only the target's occupancy and input side decide.
   */
  lemma CanConnectOnOwnPort(inputs: InputTable, c: Component, t: Cell, o: int)
    requires IsDir(c.rotation) && o in Outputs(c.kind)
    ensures CanConnect(inputs, Some(c), t, (c.rotation + o) % 4)
        <==> t.Some? && RelativePort(Opposite((c.rotation + o) % 4), t.value.rotation) in inputs(t.value.kind)
  {
    PortShapes(c.kind);
    RelativePortOfOwnPort(c.rotation, o);
  }

  /**
   * The input port checked on the target is the one whose absolute direction points back at the
   * source cell: stepping from the target through that port lands on the source.
   */
  lemma InputPortFacesSource(d: int, rot2: int, x: int, y: int)
    requires IsDir(d) && IsDir(rot2)
    ensures IsDir((rot2 + RelativePort(Opposite(d), rot2)) % 4)
    ensures (rot2 + RelativePort(Opposite(d), rot2)) % 4 == Opposite(d)
    ensures StepX(StepX(x, d), (rot2 + RelativePort(Opposite(d), rot2)) % 4) == x
    ensures StepY(StepY(y, d), (rot2 + RelativePort(Opposite(d), rot2)) % 4) == y
  {
    OppositeUndoesStep(d, x, y);
  }

  /** canConnect looks only at kinds and rotations, never at the energy the cells hold. */
  lemma CanConnectIgnoresEnergy(inputs: InputTable, a1: Cell, b1: Cell, a2: Cell, b2: Cell, dir: int)
    requires SameShape(a1, b1) && SameShape(a2, b2)
    ensures CanConnect(inputs, a1, a2, dir) == CanConnect(inputs, b1, b2, dir)
  {
    if a1.Some? {
      assert a1.value.(energy := 0.0).kind == a1.value.kind;
      assert a1.value.(energy := 0.0).rotation == a1.value.rotation;
    }
    if a2.Some? {
      assert a2.value.(energy := 0.0).kind == a2.value.kind;
      assert a2.value.(energy := 0.0).rotation == a2.value.rotation;
    }
  }

  /** With the table exactly as js/components.js declares it (no `inputs` anywhere), nothing ever connects. */
  lemma NoInputsNeverConnect(c1: Cell, c2: Cell, dir: int)
    ensures !CanConnect(_ => {}, c1, c2, dir)
  {
  }
}
