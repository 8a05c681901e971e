// impl/rs/src/reader/optype/qubit.rs: qubit and qubit-register operations
// and quantum gates. Its `Pauli`/`PauliString` copy is `RsPauli`.
module RsQubit {
  import opened MachineInts
  import opened Wrappers
  import opened RsReader
  import opened RsMessage
  import opened RsStringTable
  import RsPauli

  /**
   * The twelve well-known gates this file's reader knows. It has no global
   * phase and no identity, unlike `RsWellKnown.WellKnownGate`.
   */
  datatype WellKnownGate = X | Y | Z | S | T | R1 | Rx | Ry | Rz | H | U | Swap

  /** The schema tags this file's well-known reader handles: all but the global phase and identity. */
  predicate IsLocalTag(w: EncWellKnown)
  {
    w != WGphase && w != WI
  }

  /** The schema tag of each gate; one-to-one into the tags `IsLocalTag` accepts. */
  function LocalTag(g: WellKnownGate): (w: EncWellKnown)
    ensures IsLocalTag(w)
  {
    match g
    case X => WX
    case Y => WY
    case Z => WZ
    case S => WS
    case T => WT
    case R1 => WR1
    case Rx => WRx
    case Ry => WRy
    case Rz => WRz
    case H => WH
    case U => WU
    case Swap => WSwap
  }

  /**
   * Maps each of twelve tags to its same-named gate. The source hits
   * `unimplemented!` on any other tag, here the global phase and identity.
   */
  function ReadWellKnown(w: EncWellKnown): (g: WellKnownGate)
    requires IsLocalTag(w)
    ensures LocalTag(g) == w
  {
    match w
    case WX => X
    case WY => Y
    case WZ => Z
    case WS => S
    case WT => T
    case WR1 => R1
    case WRx => Rx
    case WRy => Ry
    case WRz => Rz
    case WH => H
    case WU => U
    case WSwap => Swap
  }

  /** The global phase and identity tags are exactly the ones this reader cannot read. */
  lemma LocalTagsMissGPhaseAndI(w: EncWellKnown)
    ensures IsLocalTag(w) <==> exists g :: LocalTag(g) == w
  {
    if IsLocalTag(w) {
      assert LocalTag(ReadWellKnown(w)) == w;
    }
  }

  /** The kind of a gate. */
  datatype GateOpType =
    | Custom(name: string, numQubits: u8, numParams: u8)
    | WellKnown(gate: WellKnownGate)
    | PauliProdRotation(pauliString: RsPauli.PauliString)

  /** A gate with its modifiers. */
  datatype GateOp = GateOp(gateType: GateOpType, controlQubits: u8, adjoint: bool, power: u8)

  /** The gates this file can read without reaching `unimplemented!`. */
  predicate GateReadable(g: EncGate)
  {
    g.kind.GWellKnown? ==> IsLocalTag(g.kind.wellKnown)
  }

  /**
   * `GateOp::try_read_capnp`. The modifiers are copied unchanged; a custom gate's
   * name is looked up in the string table and a lookup error is returned as is.
   */
  function TryReadGate(g: EncGate, strings: StringTable): (r: Result<GateOp, ReadError>)
    requires GateReadable(g)
    ensures r.Err? <==> g.kind.GCustom? && strings.Get(g.kind.name, "gate name").Err?
    ensures r.Err? ==> r.error == strings.Get(g.kind.name, "gate name").error
    ensures r.Ok? ==> r.value.controlQubits == g.controlQubits
    ensures r.Ok? ==> r.value.adjoint == g.adjoint && r.value.power == g.power
    ensures r.Ok? && g.kind.GCustom? ==>
      r.value.gateType == Custom(strings.Get(g.kind.name, "gate name").value, g.kind.numQubits, g.kind.numParams)
    ensures r.Ok? && g.kind.GWellKnown? ==>
      r.value.gateType.WellKnown? && LocalTag(r.value.gateType.gate) == g.kind.wellKnown
    ensures r.Ok? && g.kind.GPpr? ==>
      r.value.gateType == PauliProdRotation(RsPauli.PauliString(g.kind.pauliString))
  {
    var gateType :- match g.kind
      case GWellKnown(w) => Ok(WellKnown(ReadWellKnown(w)))
      case GCustom(nameIdx, numQubits, numParams) =>
        var name :- strings.Get(nameIdx, "gate name");
        Ok(Custom(name, numQubits, numParams))
      case GPpr(paulis) => Ok(PauliProdRotation(RsPauli.PauliString(paulis)));
    Ok(GateOp(gateType, g.controlQubits, g.adjoint, g.power))
  }

  /** `GateOp::read_capnp` panics (excluded here) exactly when `try_read_capnp` fails. */
  function ReadGate(g: EncGate, strings: StringTable): (r: GateOp)
    requires GateReadable(g) && TryReadGate(g, strings).Ok?
    ensures TryReadGate(g, strings) == Ok(r)
    ensures r.controlQubits == g.controlQubits && r.adjoint == g.adjoint && r.power == g.power
  {
    TryReadGate(g, strings).value
  }

  /** A gate that is not custom always reads, whatever the string table holds. */
  lemma OnlyCustomGatesFail(g: EncGate, strings: StringTable)
    requires GateReadable(g) && !g.kind.GCustom?
    ensures TryReadGate(g, strings).Ok?
  {
  }

  /** An operation over qubits. */
  datatype QubitOp = Alloc | Free | FreeZero | Measure | MeasureNd | Reset | Gate(gate: GateOp)

  /** The qubit operations whose gate, if any, reads without a panic. */
  predicate QubitOpReadable(op: EncQubitOp, strings: StringTable)
  {
    op.QGate? ==> GateReadable(op.gate) && TryReadGate(op.gate, strings).Ok?
  }

  /** Each of the seven schema tags maps to its same-named operation. */
  function ReadQubitOp(op: EncQubitOp, strings: StringTable): (r: QubitOp)
    requires QubitOpReadable(op, strings)
    ensures r.Alloc? <==> op.QAlloc?
    ensures r.Free? <==> op.QFree?
    ensures r.FreeZero? <==> op.QFreeZero?
    ensures r.Measure? <==> op.QMeasure?
    ensures r.MeasureNd? <==> op.QMeasureNd?
    ensures r.Reset? <==> op.QReset?
    ensures r.Gate? <==> op.QGate?
    ensures r.Gate? ==> Ok(r.gate) == TryReadGate(op.gate, strings)
  {
    match op
    case QAlloc => Alloc
    case QFree => Free
    case QFreeZero => FreeZero
    case QMeasure => Measure
    case QMeasureNd => MeasureNd
    case QReset => Reset
    case QGate(g) => Gate(ReadGate(g, strings))
  }

  /** An operation over qubit registers. */
  datatype QubitRegisterOp =
    | RegAlloc | RegFree | RegFreeZero | ExtractIndex | InsertIndex | ExtractSlice
    | InsertSlice | Length | Split | Join | Create
  {
    /**
     * The explicit discriminants are Alloc 0, FreeZero 1 and Free 10; the
     * variants after FreeZero count on from 2.
     */
    function Discriminant(): (d: nat)
      ensures d <= 10
      ensures FromDiscriminant(d) == Some(this)
    {
      match this
      case RegAlloc => 0
      case RegFree => 10
      case RegFreeZero => 1
      case ExtractIndex => 2
      case InsertIndex => 3
      case ExtractSlice => 4
      case InsertSlice => 5
      case Length => 6
      case Split => 7
      case Join => 8
      case Create => 9
    }
  }

  /** The variant with discriminant `d`, if any. */
  function FromDiscriminant(d: nat): Option<QubitRegisterOp>
  {
    match d
    case 0 => Some(RegAlloc)
    case 1 => Some(RegFreeZero)
    case 2 => Some(ExtractIndex)
    case 3 => Some(InsertIndex)
    case 4 => Some(ExtractSlice)
    case 5 => Some(InsertSlice)
    case 6 => Some(Length)
    case 7 => Some(Split)
    case 8 => Some(Join)
    case 9 => Some(Create)
    case 10 => Some(RegFree)
    case _ => None
  }

  /** The discriminants are pairwise distinct. */
  lemma DiscriminantInjective(a: QubitRegisterOp, b: QubitRegisterOp)
    ensures a.Discriminant() == b.Discriminant() ==> a == b
  {
    if a.Discriminant() == b.Discriminant() {
      assert FromDiscriminant(a.Discriminant()) == Some(a);
      assert FromDiscriminant(b.Discriminant()) == Some(b);
    }
  }

  /** Each of the eleven schema tags maps to its same-named operation. */
  function ReadQuregOp(op: EncQuregOp): (r: QubitRegisterOp)
    ensures QuregTag(r) == op
  {
    match op
    case RAlloc => RegAlloc
    case RFree => RegFree
    case RFreeZero => RegFreeZero
    case RExtractIndex => ExtractIndex
    case RInsertIndex => InsertIndex
    case RExtractSlice => ExtractSlice
    case RInsertSlice => InsertSlice
    case RLength => Length
    case RSplit => Split
    case RJoin => Join
    case RCreate => Create
  }

  /** The schema tag of a register operation. */
  function QuregTag(r: QubitRegisterOp): EncQuregOp
  {
    match r
    case RegAlloc => RAlloc
    case RegFree => RFree
    case RegFreeZero => RFreeZero
    case ExtractIndex => RExtractIndex
    case InsertIndex => RInsertIndex
    case ExtractSlice => RExtractSlice
    case InsertSlice => RInsertSlice
    case Length => RLength
    case Split => RSplit
    case Join => RJoin
    case Create => RCreate
  }
}
