// The capnp message a Rust reader looks into. It is an abstract,
// schema-conforming form of the encoded data. Lists are sequences, and
// string and value references are the integer indices the encoding stores.
// Decoding bytes into this form is done by the capnp library and is not
// part of the model.
module RsMessage {
  import opened MachineInts
  import opened Wrappers
  import RsTypes

  /** A capnp text field: bytes that are valid UTF-8 (kept decoded) or bytes that are not. */
  datatype Text = Utf8(s: string) | NotUtf8

  /** The value of a metadata entry: a text pointer or a pointer of some other kind. */
  datatype MetaValue = TextValue(text: Text) | OtherValue

  /** A metadata entry: a string-table index naming it, and its value. */
  datatype EncMeta = EncMeta(name: u16, value: MetaValue)

  /** An entry of a function's value table. */
  datatype EncValue = EncValue(ty: RsTypes.CapnpType, metadata: seq<EncMeta>)

  /** A dataflow region: boundary value ids, operations and metadata. */
  datatype EncRegion = EncRegion(
    sources: seq<u32>, targets: seq<u32>, operations: seq<EncOp>, metadata: seq<EncMeta>)

  /** An operation: input and output value ids, its instruction and metadata. */
  datatype EncOp = EncOp(
    inputs: seq<u32>, outputs: seq<u32>, instruction: EncInstruction, metadata: seq<EncMeta>)

  /** The instruction union of an operation. */
  datatype EncInstruction =
    | IQubit(qubit: EncQubitOp)
    | IQureg(qureg: EncQuregOp)
      /** Integer and float instructions keep only their (unmodelled) payload tag. */
    | IInt(intTag: nat)
    | IIntArray(intArrayTag: nat)
    | IFloat(floatTag: nat)
    | IFloatArray(floatArrayTag: nat)
    | IScf(scf: EncScf)
    | IFunc(funcCall: u16)
      /** A discriminant that is not in the schema: `which()` fails on it. */
    | IUnknown

  datatype EncQubitOp =
    | QAlloc | QFree | QFreeZero | QMeasure | QMeasureNd | QReset
    | QGate(gate: EncGate)

  datatype EncQuregOp =
    | RAlloc | RFree | RFreeZero | RExtractIndex | RInsertIndex | RExtractSlice
    | RInsertSlice | RLength | RSplit | RJoin | RCreate

  /** The schema's fourteen well-known gate tags. */
  datatype EncWellKnown =
    | WGphase | WI | WX | WY | WZ | WS | WT | WR1 | WRx | WRy | WRz | WH | WU | WSwap

  /** The schema's Pauli operator tags. */
  datatype EncPauli = PauliX | PauliY | PauliZ | PauliI

  datatype EncGateKind =
    | GWellKnown(wellKnown: EncWellKnown)
    | GCustom(name: u16, numQubits: u8, numParams: u8)
    | GPpr(pauliString: seq<EncPauli>)

  /** A qubit gate with its modifiers. */
  datatype EncGate = EncGate(kind: EncGateKind, controlQubits: u8, adjoint: bool, power: u8)

  /**
   * A structured control-flow instruction. A switch's default is what the capnp
   * library's `get_default()` yields: `Some` region when it reads one, `None`
   * when it reports an error.
   */
  datatype EncScf =
    | SSwitch(branches: seq<EncRegion>, default: Option<EncRegion>)
    | SFor(region: EncRegion)
    | SWhile(condition: EncRegion, body: EncRegion)
    | SDoWhile(body: EncRegion, condition: EncRegion)

  datatype EncFunctionKind =
    | FDefinition(body: EncRegion, values: seq<EncValue>)
    | FDeclaration(inputs: seq<EncValue>, outputs: seq<EncValue>)

  /** A function: the string-table index of its name, its kind and metadata. */
  datatype EncFunction = EncFunction(name: u16, kind: EncFunctionKind, metadata: seq<EncMeta>)

  /**
   * The root module. `tool` and `toolVersion` are `None` when the capnp library
   * cannot read the field.
   */
  datatype EncModule = EncModule(
    version: u32,
    functions: seq<EncFunction>,
    strings: seq<Text>,
    entrypoint: u32,
    tool: Option<Text>,
    toolVersion: Option<Text>,
    metadata: seq<EncMeta>)
}
