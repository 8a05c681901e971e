// impl/rs/src/reader/optype.rs: the instruction of an operation.
module RsOpType {
  import opened MachineInts
  import opened RsMessage
  import opened RsStringTable
  import opened RsValue
  import RsQubit
  import RsControlFlow
  import RsOp

  /**
   * The type of an operation. Integer and float operations keep only their
   * schema tag; their readers only rename tags and are not part of this model.
   */
  datatype OpType =
    | QubitOp(qubit: RsQubit.QubitOp)
    | QubitRegisterOp(qureg: RsQubit.QubitRegisterOp)
    | IntOp(intTag: nat)
    | IntArrayOp(intArrayTag: nat)
    | FloatOp(floatTag: nat)
    | FloatArrayOp(floatArrayTag: nat)
    | ControlFlowOp(controlFlow: RsControlFlow.ControlFlowOp)
    | FuncOp(func: RsControlFlow.FuncOp)

  /**
   * The instructions that read without a panic: a known tag, and for a qubit
   * operation a gate that reads.
   */
  predicate Readable(ins: EncInstruction, strings: StringTable)
  {
    !ins.IUnknown? && (ins.IQubit? ==> RsQubit.QubitOpReadable(ins.qubit, strings))
  }

  /** Each of the eight instruction tags maps to its same-named variant. */
  function ReadCapnp(ins: EncInstruction, strings: StringTable, values: ValueTable): (r: OpType)
    requires Readable(ins, strings)
    ensures r.QubitOp? <==> ins.IQubit?
    ensures r.QubitRegisterOp? <==> ins.IQureg?
    ensures r.IntOp? <==> ins.IInt?
    ensures r.IntArrayOp? <==> ins.IIntArray?
    ensures r.FloatOp? <==> ins.IFloat?
    ensures r.FloatArrayOp? <==> ins.IFloatArray?
    ensures r.ControlFlowOp? <==> ins.IScf?
    ensures r.FuncOp? <==> ins.IFunc?
    ensures r.QubitOp? ==> r.qubit == RsQubit.ReadQubitOp(ins.qubit, strings)
    ensures r.QubitRegisterOp? ==> r.qureg == RsQubit.ReadQuregOp(ins.qureg)
    ensures r.ControlFlowOp? ==> r.controlFlow == RsControlFlow.ReadCapnp(ins.scf, strings, values)
    ensures r.FuncOp? ==> r.func.funcIdx == ins.funcCall
  {
    match ins
    case IQubit(q) => QubitOp(RsQubit.ReadQubitOp(q, strings))
    case IQureg(q) => QubitRegisterOp(RsQubit.ReadQuregOp(q))
    case IInt(t) => IntOp(t)
    case IIntArray(t) => IntArrayOp(t)
    case IFloat(t) => FloatOp(t)
    case IFloatArray(t) => FloatArrayOp(t)
    case IScf(scf) => ControlFlowOp(RsControlFlow.ReadCapnp(scf, strings, values))
    case IFunc(f) => FuncOp(RsControlFlow.FuncOp(f))
  }

  /** `Operation::op_type`: the operation's instruction, read with the operation's own tables. */
  function OpTypeOf(op: RsOp.Operation): (r: OpType)
    requires Readable(op.op.instruction, op.strings)
    ensures r == ReadCapnp(op.op.instruction, op.strings, op.values)
  {
    ReadCapnp(op.op.instruction, op.strings, op.values)
  }

  /** A control-flow instruction's regions share the enclosing operation's tables. */
  lemma ControlFlowSharesTables(op: RsOp.Operation)
    requires Readable(op.op.instruction, op.strings) && op.op.instruction.IScf?
    ensures var cf := OpTypeOf(op).controlFlow;
      (cf.Switch? ==> cf.switch.strings == op.strings && cf.switch.values == op.values)
      && (cf.For? ==> cf.region.strings == op.strings && cf.region.values == op.values)
      && (cf.While? || cf.DoWhile? ==> cf.body.values == op.values && cf.condition.values == op.values)
  {
  }
}
