// impl/rs/src/reader/optype/qubit/well_known.rs: the well-known gate set.
module RsWellKnown {
  import opened RsMessage

  /** The fourteen gates of the shared gate set. */
  datatype WellKnownGate =
    | GPhase | I | X | Y | Z | S | T | R1 | Rx | Ry | Rz | H | U | Swap
  {
    /** The number of qubits acted on: none for the global phase, two for swap, else one. */
    function NumQubits(): (n: nat)
      ensures n <= 2
      ensures n == 0 <==> this == GPhase
      ensures n == 2 <==> this == Swap
    {
      match this
      case GPhase => 0
      case Swap => 2
      case _ => 1
    }

    /** The number of float parameters: three for U, one for the phase and the rotations, else none. */
    function NumParams(): (n: nat)
      ensures n == 0 || n == 1 || n == 3
      ensures n == 3 <==> this == U
      ensures n == 1 <==> this in {GPhase, R1, Rx, Ry, Rz}
    {
      match this
      case GPhase | R1 | Rx | Ry | Rz => 1
      case U => 3
      case _ => 0
    }
  }

  /** The derived default gate. */
  const DEFAULT: WellKnownGate := I

  /** Every schema tag maps to its same-named gate; `Tag` undoes it. */
  function ReadCapnp(w: EncWellKnown): (g: WellKnownGate)
    ensures Tag(g) == w
  {
    match w
    case WGphase => GPhase
    case WI => I
    case WX => X
    case WY => Y
    case WZ => Z
    case WS => S
    case WT => T
    case WR1 => R1
    case WRx => Rx
    case WRy => Ry
    case WRz => Rz
    case WH => H
    case WU => U
    case WSwap => Swap
  }

  /** The schema tag of a gate. */
  function Tag(g: WellKnownGate): EncWellKnown
  {
    match g
    case GPhase => WGphase
    case I => WI
    case X => WX
    case Y => WY
    case Z => WZ
    case S => WS
    case T => WT
    case R1 => WR1
    case Rx => WRx
    case Ry => WRy
    case Rz => WRz
    case H => WH
    case U => WU
    case Swap => WSwap
  }

  /** `Tag` and `ReadCapnp` are inverse bijections. */
  lemma TagRoundTrip(g: WellKnownGate)
    ensures ReadCapnp(Tag(g)) == g
  {
  }

  /** Reading is total and one-to-one over the fourteen tags. */
  lemma ReadCapnpInjective(v: EncWellKnown, w: EncWellKnown)
    ensures ReadCapnp(v) == ReadCapnp(w) ==> v == w
  {
    if ReadCapnp(v) == ReadCapnp(w) {
      assert Tag(ReadCapnp(v)) == v;
    }
  }

  /** The default gate is the identity: one qubit, no parameters. */
  lemma DefaultIsIdentity()
    ensures DEFAULT == I && DEFAULT.NumQubits() == 1 && DEFAULT.NumParams() == 0
  {
  }

  /** The global phase takes one float input and no qubits, matching its documented signature. */
  lemma GPhaseSignature()
    ensures GPhase.NumQubits() == 0 && GPhase.NumParams() == 1
  {
  }
}
