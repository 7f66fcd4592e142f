// The per-kind component table (js/components.js), restricted to what the
// simulation reads: the capacity and the rotation-relative output ports.
module Components {

  datatype Option<T> = None | Some(value: T)

  /** The nine component kinds, in the order of the table. */
  datatype Kind = Extractor | Wire | Battery | Vent | Maker | Rail | Emitter | Prism | Wall

  /** The table's keys, in declaration order. */
  const KINDS: seq<Kind> := [Extractor, Wire, Battery, Vent, Maker, Rail, Emitter, Prism, Wall]

  /** The key under which a kind is stored in the table (and the `type` string of its instances). */
  function Name(k: Kind): string
  {
    match k
    case Extractor => "extractor"
    case Wire => "wire"
    case Battery => "battery"
    case Vent => "vent"
    case Maker => "maker"
    case Rail => "rail"
    case Emitter => "emitter"
    case Prism => "prism"
    case Wall => "wall"
  }

  /** Table lookup by key: `COMPONENTS[name]`, absent for any other string. */
  function Lookup(name: string): Option<Kind>
  {
    if name == "extractor" then Some(Extractor)
    else if name == "wire" then Some(Wire)
    else if name == "battery" then Some(Battery)
    else if name == "vent" then Some(Vent)
    else if name == "maker" then Some(Maker)
    else if name == "rail" then Some(Rail)
    else if name == "emitter" then Some(Emitter)
    else if name == "prism" then Some(Prism)
    else if name == "wall" then Some(Wall)
    else None
  }

  /** `maxEnergy` of each kind. */
  function MaxEnergy(k: Kind): real
  {
    match k
    case Extractor => 50.0
    case Wire => 60.0
    case Battery => 300.0
    case Vent => 150.0
    case Maker => 80.0
    case Rail => 100.0
    case Emitter => 100.0
    case Prism => 80.0
    case Wall => 200.0
  }

  /** `outputs` of each kind: rotation-relative ports (0 front, 1 right, 2 back, 3 left). */
  function Outputs(k: Kind): seq<int>
  {
    match k
    case Prism => [0, 1, 3]
    case Maker => []
    case Wall => []
    case _ => [0]
  }

  /** The lookup and the key agree: every kind is found under its own name and only there. */
  lemma LookupRoundTrip(k: Kind, name: string)
    ensures Lookup(Name(k)) == Some(k)
    ensures Lookup(name) == Some(k) <==> name == Name(k)
  {
  }

  /** The table has exactly nine distinct keys, one per kind. */
  lemma TableHasNineKinds()
    ensures |KINDS| == 9
    ensures forall i, j :: 0 <= i < j < |KINDS| ==> KINDS[i] != KINDS[j]
    ensures forall k: Kind :: k in KINDS
  {
    forall k: Kind
      ensures k in KINDS
    {
      var i := match k
        case Extractor => 0 case Wire => 1 case Battery => 2 case Vent => 3 case Maker => 4
        case Rail => 5 case Emitter => 6 case Prism => 7 case Wall => 8;
      assert KINDS[i] == k;
    }
  }

  /** The prism splits three ways: front, right and left, never back. */
  lemma PrismPorts()
    ensures |Outputs(Prism)| == 3
    ensures forall o :: o in Outputs(Prism) <==> o in {0, 1, 3}
  {
  }

  /** Port shape of every kind: makers and walls never push, prisms fan out, the rest push forward only. */
  lemma PortShapes(k: Kind)
    ensures Outputs(k) == [] <==> k == Maker || k == Wall
    ensures k != Maker && k != Wall && k != Prism ==> Outputs(k) == [0]
    ensures forall o :: o in Outputs(k) ==> 0 <= o < 4
    ensures forall i, j :: 0 <= i < j < |Outputs(k)| ==> Outputs(k)[i] != Outputs(k)[j]
  {
  }

  /** Every capacity is positive and the wall is the durable one. */
  lemma Capacities(k: Kind)
    ensures MaxEnergy(k) > 0.0
    ensures MaxEnergy(Wall) > 100.0
    ensures MaxEnergy(k) <= MaxEnergy(Battery)
  {
  }
}
