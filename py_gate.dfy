// impl/py/src/jeff/op/qubit/gate.py: Pauli and well-known gate catalogues, and quantum gates.
module PyGate {
  import opened Wrappers
  import opened PyErrors
  import Text
  import PyLazy

  /** `Pauli`: an enum whose values are the lower-case one-letter names. */
  datatype Pauli = I | X | Y | Z
  {
    function Value(): (s: string)
      ensures |s| == 1 && Text.IsLower(s)
    {
      match this
      case I => "i"
      case X => "x"
      case Y => "y"
      case Z => "z"
    }
  }

  /** `Pauli.from_name`: matches the lower-cased name against i, x, y and z, or raises `ValueError`. */
  function PauliFromName(name: string): (r: Result<Pauli, PyError>)
    ensures r.Ok? <==> Text.Lower(name) in {"i", "x", "y", "z"}
    ensures r.Ok? ==> r.value.Value() == Text.Lower(name)
    ensures r.Err? ==> r.error == ValueError
  {
    match Text.Lower(name)
    case "i" => Ok(Pauli.I)
    case "x" => Ok(Pauli.X)
    case "y" => Ok(Pauli.Y)
    case "z" => Ok(Pauli.Z)
    case _ => Err(ValueError)
  }

  /** Each Pauli's value parses back to it. */
  lemma PauliRoundTrip(p: Pauli)
    ensures PauliFromName(p.Value()) == Ok(p)
  {
    Text.LowerOfLower(p.Value());
  }

  /** Pauli matching ignores ASCII case. */
  lemma PauliFromNameIgnoresCase(name: string)
    ensures PauliFromName(Text.Lower(name)) == PauliFromName(name)
  {
    Text.LowerIdempotent(name);
  }

  /** `KnownGate`: the standard gates, each with its lower-case value. */
  datatype KnownGate = GPhase | I | X | Y | Z | S | T | RX | RY | RZ | H | U | Swap
  {
    function Value(): (s: string)
      ensures |s| > 0 && Text.IsLower(s)
    {
      match this
      case GPhase => "gphase"
      case I => "i"
      case X => "x"
      case Y => "y"
      case Z => "z"
      case S => "s"
      case T => "t"
      case RX => "rx"
      case RY => "ry"
      case RZ => "rz"
      case H => "h"
      case U => "u"
      case Swap => "swap"
    }

    /** `num_qubits`: the global phase acts on no qubit, swap on two, every other gate on one. */
    function NumQubits(): (n: nat)
      ensures n <= 2
      ensures n == 0 <==> this == GPhase
      ensures n == 2 <==> this == Swap
    {
      match this
      case GPhase => 0
      case Swap => 2
      case _ => 1
    }

    /** `num_params`: the phase and the axis rotations take one angle, U takes three, all others none. */
    function NumParams(): (n: nat)
      ensures n == 0 || n == 1 || n == 3
      ensures n == 1 <==> this in {GPhase, RX, RY, RZ}
      ensures n == 3 <==> this == U
    {
      match this
      case GPhase => 1
      case RX => 1
      case RY => 1
      case RZ => 1
      case U => 3
      case _ => 0
    }
  }

  /** The members of `KnownGate` in definition order, as iterating the enum yields them. */
  const KnownGates: seq<KnownGate> :=
    [KnownGate.GPhase, KnownGate.I, KnownGate.X, KnownGate.Y, KnownGate.Z, KnownGate.S,
     KnownGate.T, KnownGate.RX, KnownGate.RY, KnownGate.RZ, KnownGate.H, KnownGate.U, KnownGate.Swap]

  lemma KnownGatesCoverAll(g: KnownGate)
    ensures g in KnownGates
  {
  }

  /** The first of `gates` whose value is `name`. */
  function FirstWithValue(gates: seq<KnownGate>, name: string): (r: Option<KnownGate>)
    ensures r.None? <==> forall i :: 0 <= i < |gates| ==> gates[i].Value() != name
    ensures r.Some? ==> r.value in gates && r.value.Value() == name
  {
    if |gates| == 0 then None
    else if gates[0].Value() == name then Some(gates[0])
    else
      var r := FirstWithValue(gates[1..], name);
      assert forall i :: 1 <= i < |gates| ==> gates[i] == gates[1..][i - 1];
      r
  }

  /** `KnownGate.from_name`: the member whose value is the lower-cased name, or `ValueError`. */
  function KnownFromName(name: string): (r: Result<KnownGate, PyError>)
    ensures r.Ok? <==> exists g: KnownGate :: g.Value() == Text.Lower(name)
    ensures r.Ok? ==> r.value.Value() == Text.Lower(name)
    ensures r.Err? ==> r.error == ValueError
  {
    match FirstWithValue(KnownGates, Text.Lower(name))
    case Some(g) => Ok(g)
    case None =>
      assert forall g: KnownGate :: g.Value() != Text.Lower(name) by {
        forall g: KnownGate ensures g.Value() != Text.Lower(name) {
          KnownGatesCoverAll(g);
        }
      }
      Err(ValueError)
  }

  /** The thirteen values are pairwise distinct. */
  lemma KnownValuesDistinct(a: KnownGate, b: KnownGate)
    requires a.Value() == b.Value()
    ensures a == b
  {
  }

  /** Each gate's value names that gate. */
  lemma KnownFromNameRoundTrip(g: KnownGate)
    ensures KnownFromName(g.Value()) == Ok(g)
  {
    Text.LowerOfLower(g.Value());
    var r := KnownFromName(g.Value());
    assert r.Ok? by {
      assert g.Value() == Text.Lower(g.Value());
    }
    KnownValuesDistinct(r.value, g);
  }

  /** Gate-name matching ignores ASCII case. */
  lemma KnownFromNameIgnoresCase(name: string)
    ensures KnownFromName(Text.Lower(name)) == KnownFromName(name)
  {
    Text.LowerIdempotent(name);
  }

  /**
   * What distinguishes the three `QubitGate` subclasses: a well-known gate, a
   * custom gate with its own name and counts, or a Pauli-product rotation.
   */
  datatype GateShape =
    | WellKnown(kind: KnownGate)
    | Custom(name: string, numQubits: int, numParams: int)
    | Ppr(pauliString: seq<Pauli>)
  {
    /** `num_qubits`: a Pauli-product rotation acts on one qubit per Pauli. */
    function NumQubits(): (n: int)
      ensures WellKnown? ==> n == kind.NumQubits()
      ensures Custom? ==> n == numQubits
      ensures Ppr? ==> n == |pauliString|
    {
      match this
      case WellKnown(k) => k.NumQubits()
      case Custom(_, nq, _) => nq
      case Ppr(ps) => |ps|
    }

    /** `num_params`: a Pauli-product rotation takes exactly one angle. */
    function NumParams(): (n: int)
      ensures WellKnown? ==> n == kind.NumParams()
      ensures Custom? ==> n == numParams
      ensures Ppr? ==> n == 1
    {
      match this
      case WellKnown(k) => k.NumParams()
      case Custom(_, _, np) => np
      case Ppr(_) => 1
    }
  }

  /**
   * The rule in `from_gate_name`: the well-known gate if the name is known and
   * both counts agree with it, and a custom gate with the given name and counts
   * otherwise. Either way the gate has the requested counts.
   */
  function ChooseShape(name: string, numQubits: int, numParams: int): (r: GateShape)
    ensures r.WellKnown? <==>
      KnownFromName(name).Ok? &&
      KnownFromName(name).value.NumQubits() == numQubits &&
      KnownFromName(name).value.NumParams() == numParams
    ensures r.WellKnown? ==> r.kind.Value() == Text.Lower(name)
    ensures !r.WellKnown? ==> r == Custom(name, numQubits, numParams)
    ensures r.NumQubits() == numQubits && r.NumParams() == numParams
  {
    match KnownFromName(name)
    case Ok(g) =>
      if g.NumQubits() == numQubits && g.NumParams() == numParams then WellKnown(g)
      else Custom(name, numQubits, numParams)
    case Err(_) => Custom(name, numQubits, numParams)
  }

  /** A name that is a gate's value, with that gate's counts, always selects it. */
  lemma ChooseKnownName(g: KnownGate)
    ensures ChooseShape(g.Value(), g.NumQubits(), g.NumParams()) == WellKnown(g)
  {
    KnownFromNameRoundTrip(g);
  }

  /** A Pauli-string item as the constructor and setter accept it: a member or its name. */
  datatype PauliItem = PauliMember(pauli: Pauli) | PauliName(name: string)

  /**
   * The `pauli_string` setter's conversion: names go through `Pauli.from_name`,
   * members are kept; the first name that does not parse raises `ValueError`.
   */
  function ConvertPaulis(items: seq<PauliItem>): (r: Result<seq<Pauli>, PyError>)
    ensures r.Ok? <==> forall i :: 0 <= i < |items| && items[i].PauliName? ==>
      PauliFromName(items[i].name).Ok?
    ensures r.Ok? ==> |r.value| == |items|
    ensures r.Ok? ==> forall i :: 0 <= i < |items| && items[i].PauliMember? ==> r.value[i] == items[i].pauli
    ensures r.Ok? ==> forall i :: 0 <= i < |items| && items[i].PauliName? ==>
      r.value[i] == PauliFromName(items[i].name).value
    ensures r.Err? ==> r.error == ValueError
  {
    if |items| == 0 then Ok([])
    else
      var head: Result<Pauli, PyError> :=
        if items[0].PauliMember? then Ok(items[0].pauli) else PauliFromName(items[0].name);
      var tail := ConvertPaulis(items[1..]);
      assert forall i :: 1 <= i < |items| ==> items[i] == items[1..][i - 1];
      if head.Err? then Err(ValueError)
      else if tail.Err? then Err(ValueError)
      else
        var ps := [head.value] + tail.value;
        assert forall i :: 1 <= i < |items| ==> ps[i] == tail.value[i - 1];
        Ok(ps)
  }

  /** A string of members converts to itself. */
  lemma {:induction false} ConvertMembers(ps: seq<Pauli>)
    ensures ConvertPaulis(seq(|ps|, i requires 0 <= i < |ps| => PauliMember(ps[i]))) == Ok(ps)
  {
    var items := seq(|ps|, i requires 0 <= i < |ps| => PauliMember(ps[i]));
    var r := ConvertPaulis(items);
    assert r.Ok?;
    assert r.value == ps;
  }

  /**
   * `QubitGate`: the gate shape plus the modifiers every gate carries. The
   * back-pointer to the owning operation is not part of this model.
   */
  class QubitGate {
    var shape: GateShape
    var numControls: int
    var adjoint: bool
    var power: int
    const lazy: PyLazy.LazyUpdate

    /** The subclass constructors: store the shape and the modifiers, and mark the gate dirty. */
    constructor (shape: GateShape, numControls: int, adjoint: bool, power: int)
      ensures this.shape == shape && this.numControls == numControls
      ensures this.adjoint == adjoint && this.power == power
      ensures fresh(lazy) && lazy.dirty
    {
      this.shape := shape;
      this.numControls := numControls;
      this.adjoint := adjoint;
      this.power := power;
      lazy := new PyLazy.LazyUpdate();
    }

    /** A gate built with the default modifiers: no controls, not adjoint, power 1. */
    constructor Plain(shape: GateShape)
      ensures this.shape == shape
      ensures numControls == 0 && !adjoint && power == 1
      ensures fresh(lazy) && lazy.dirty
    {
      this.shape := shape;
      numControls := 0;
      adjoint := false;
      power := 1;
      lazy := new PyLazy.LazyUpdate();
    }

    /** `PPRGate.__init__`: converts the item names; a name that does not parse raises `ValueError`. */
    static method NewPpr(items: seq<PauliItem>, numControls: int, adjoint: bool, power: int)
      returns (r: Result<QubitGate, PyError>)
      ensures r.Err? <==> ConvertPaulis(items).Err?
      ensures r.Err? ==> r.error == ValueError
      ensures r.Ok? ==> fresh(r.value) && fresh(r.value.lazy) && r.value.lazy.dirty
      ensures r.Ok? ==> r.value.shape == Ppr(ConvertPaulis(items).value)
      ensures r.Ok? ==> r.value.numControls == numControls && r.value.adjoint == adjoint
      ensures r.Ok? ==> r.value.power == power
      ensures r.Ok? ==> r.value.NumQubits() == |items| && r.value.NumParams() == 1
    {
      var ps := ConvertPaulis(items);
      if ps.Err? {
        return Err(ValueError);
      }
      var g := new QubitGate(Ppr(ps.value), numControls, adjoint, power);
      return Ok(g);
    }

    /**
     * `from_gate_name`: a gate with the shape `ChooseShape` picks and the
     * modifiers passed through unchanged.
     */
    static method FromGateName(name: string, numQubits: int, numParams: int,
                               numControls: int, adjoint: bool, power: int)
      returns (g: QubitGate)
      ensures fresh(g) && fresh(g.lazy) && g.lazy.dirty
      ensures g.shape == ChooseShape(name, numQubits, numParams)
      ensures g.NumQubits() == numQubits && g.NumParams() == numParams
      ensures g.numControls == numControls && g.adjoint == adjoint && g.power == power
    {
      g := new QubitGate(ChooseShape(name, numQubits, numParams), numControls, adjoint, power);
    }

    /**
     * `num_qubits`, which each subclass defines: the well-known gate's count,
     * the custom gate's stored count, one per Pauli of a rotation. Control
     * qubits are not included.
     */
    function NumQubits(): (n: int)
      reads this
      ensures shape.WellKnown? ==> n == shape.kind.NumQubits()
      ensures shape.Custom? ==> n == shape.numQubits
      ensures shape.Ppr? ==> n == |shape.pauliString|
    {
      shape.NumQubits()
    }

    /** `num_params`, which each subclass defines: one angle for a rotation. */
    function NumParams(): (n: int)
      reads this
      ensures shape.WellKnown? ==> n == shape.kind.NumParams()
      ensures shape.Custom? ==> n == shape.numParams
      ensures shape.Ppr? ==> n == 1
    {
      shape.NumParams()
    }

    /** The `num_controls` setter. */
    method SetNumControls(n: int)
      modifies this, lazy
      ensures numControls == n && lazy.dirty
      ensures shape == old(shape) && adjoint == old(adjoint) && power == old(power)
    {
      numControls := n;
      lazy.MarkDirty();
    }

    /** The `adjoint` setter. */
    method SetAdjoint(a: bool)
      modifies this, lazy
      ensures adjoint == a && lazy.dirty
      ensures shape == old(shape) && numControls == old(numControls) && power == old(power)
    {
      adjoint := a;
      lazy.MarkDirty();
    }

    /** The `power` setter. */
    method SetPower(p: int)
      modifies this, lazy
      ensures power == p && lazy.dirty
      ensures shape == old(shape) && numControls == old(numControls) && adjoint == old(adjoint)
    {
      power := p;
      lazy.MarkDirty();
    }

    /** `WellKnownGate.kind` setter; the property exists only on well-known gates. */
    method SetKind(kind: KnownGate)
      requires shape.WellKnown?
      modifies this, lazy
      ensures shape == WellKnown(kind) && lazy.dirty
      ensures numControls == old(numControls) && adjoint == old(adjoint) && power == old(power)
    {
      shape := WellKnown(kind);
      lazy.MarkDirty();
    }

    /** `CustomGate.name` setter. */
    method SetName(name: string)
      requires shape.Custom?
      modifies this, lazy
      ensures shape == old(shape).(name := name) && lazy.dirty
      ensures numControls == old(numControls) && adjoint == old(adjoint) && power == old(power)
    {
      shape := shape.(name := name);
      lazy.MarkDirty();
    }

    /** `CustomGate.num_qubits` setter. */
    method SetNumQubits(n: int)
      requires shape.Custom?
      modifies this, lazy
      ensures shape == old(shape).(numQubits := n) && NumQubits() == n && lazy.dirty
      ensures numControls == old(numControls) && adjoint == old(adjoint) && power == old(power)
    {
      shape := shape.(numQubits := n);
      lazy.MarkDirty();
    }

    /** `CustomGate.num_params` setter. */
    method SetNumParams(n: int)
      requires shape.Custom?
      modifies this, lazy
      ensures shape == old(shape).(numParams := n) && NumParams() == n && lazy.dirty
      ensures numControls == old(numControls) && adjoint == old(adjoint) && power == old(power)
    {
      shape := shape.(numParams := n);
      lazy.MarkDirty();
    }

    /** `PPRGate.pauli_string` setter: on `ValueError` nothing changes. */
    method SetPauliString(items: seq<PauliItem>) returns (r: Result<(), PyError>)
      requires shape.Ppr?
      modifies this, lazy
      ensures r.Err? <==> ConvertPaulis(items).Err?
      ensures r.Err? ==> r.error == ValueError && shape == old(shape) && lazy.dirty == old(lazy.dirty)
      ensures r.Ok? ==> shape == Ppr(ConvertPaulis(items).value) && lazy.dirty
      ensures r.Ok? ==> NumQubits() == |items|
      ensures numControls == old(numControls) && adjoint == old(adjoint) && power == old(power)
    {
      var ps := ConvertPaulis(items);
      if ps.Err? {
        return Err(ValueError);
      }
      shape := Ppr(ps.value);
      lazy.MarkDirty();
      return Ok(());
    }

    /**
     * `_str_attributes`: the non-default modifiers in order; numControls when
     * non-zero, adjoint when set, power when not 1.
     */
    function StrAttributes(): (r: seq<string>)
      reads this
      ensures ("numControls=" + Text.IntToString(numControls)) in r <==> numControls != 0
      ensures "adjoint" in r <==> adjoint
      ensures ("power=" + Text.IntToString(power)) in r <==> power != 1
      ensures |r| == (if numControls != 0 then 1 else 0) + (if adjoint then 1 else 0) +
        (if power != 1 then 1 else 0)
      ensures forall i :: 0 <= i < |r| ==> |r[i]| > 0 && r[i][0] in {'n', 'a', 'p'}
      ensures numControls != 0 ==> r[0] == "numControls=" + Text.IntToString(numControls)
      ensures adjoint ==> r[if numControls != 0 then 1 else 0] == "adjoint"
      ensures power != 1 ==> r[|r| - 1] == "power=" + Text.IntToString(power)
    {
      var c := "numControls=" + Text.IntToString(numControls);
      var a := "adjoint";
      var p := "power=" + Text.IntToString(power);
      assert c[0] == 'n' && a[0] == 'a' && p[0] == 'p';
      Flagged(c, a, p, numControls != 0, adjoint, power != 1)
    }
  }

  /** `c`, `a` and `p`, in that order, each kept only when its flag is set. */
  function Flagged(c: string, a: string, p: string, kc: bool, ka: bool, kp: bool): (r: seq<string>)
    ensures c != a && c != p ==> (c in r <==> kc)
    ensures a != c && a != p ==> (a in r <==> ka)
    ensures p != c && p != a ==> (p in r <==> kp)
    ensures |r| == (if kc then 1 else 0) + (if ka then 1 else 0) + (if kp then 1 else 0)
    ensures forall i :: 0 <= i < |r| ==> r[i] == c || r[i] == a || r[i] == p
    ensures kc ==> r[0] == c
    ensures ka ==> r[if kc then 1 else 0] == a
    ensures kp ==> r[|r| - 1] == p
  {
    (if kc then [c] else []) + (if ka then [a] else []) + (if kp then [p] else [])
  }
}
