// impl/rs/src/reader/op.rs: an operation of a dataflow region. Its
// `op_type` is `RsOpType.OpTypeOf`, because the op type refers back to regions.
module RsOp {
  import opened MachineInts
  import opened Wrappers
  import opened RsReader
  import opened RsMessage
  import opened RsStringTable
  import opened RsValue
  import RsTypes
  import RsMetadata
  import opened RsLib

  /** An operation, sharing the module's string table and the function's value table. */
  datatype Operation = Operation(op: EncOp, strings: StringTable, values: ValueTable)
  {
    /** The stored ids on the given side: inputs are incoming, outputs outgoing. */
    function BoundaryIds(direction: Direction): (ids: seq<u32>)
      ensures direction == Incoming ==> ids == op.inputs
      ensures direction == Outgoing ==> ids == op.outputs
    {
      match direction
      case Incoming => op.inputs
      case Outgoing => op.outputs
    }

    /** The inputs or outputs, each looked up in the value table, in stored order. */
    function Boundary(direction: Direction): (r: seq<Result<Value, ReadError>>)
      ensures |r| == BoundaryCount(direction)
      ensures forall i :: 0 <= i < |r| ==> r[i] == values.Get(BoundaryIds(direction)[i])
    {
      Resolve(BoundaryIds(direction), values)
    }

    function Inputs(): (r: seq<Result<Value, ReadError>>)
      ensures |r| == InputCount()
      ensures forall i :: 0 <= i < |r| ==> r[i] == values.Get(op.inputs[i])
    {
      Boundary(Incoming)
    }

    function Outputs(): (r: seq<Result<Value, ReadError>>)
      ensures |r| == OutputCount()
      ensures forall i :: 0 <= i < |r| ==> r[i] == values.Get(op.outputs[i])
    {
      Boundary(Outgoing)
    }

    /** The number of stored ids on the given side. */
    function BoundaryCount(direction: Direction): (n: nat)
      ensures n == |BoundaryIds(direction)|
    {
      |BoundaryIds(direction)|
    }

    function InputCount(): (n: nat)
      ensures n == |op.inputs|
    {
      BoundaryCount(Incoming)
    }

    function OutputCount(): (n: nat)
      ensures n == |op.outputs|
    {
      BoundaryCount(Outgoing)
    }

    /** One input or output: `None` past the end, else the lookup of the `idx`-th id. */
    function BoundaryValueAt(direction: Direction, idx: u64): (r: Option<Result<Value, ReadError>>)
      ensures r.None? <==> idx >= BoundaryCount(direction)
      ensures r.Some? ==> r.value == values.Get(BoundaryIds(direction)[idx])
      ensures r.Some? ==> r.value == Boundary(direction)[idx]
    {
      BoundaryValue(BoundaryIds(direction), values, idx)
    }

    function Input(idx: u64): (r: Option<Result<Value, ReadError>>)
      ensures r.None? <==> idx >= InputCount()
      ensures r.Some? ==> r.value == values.Get(op.inputs[idx]) && r.value == Inputs()[idx]
    {
      BoundaryValueAt(Incoming, idx)
    }

    function Output(idx: u64): (r: Option<Result<Value, ReadError>>)
      ensures r.None? <==> idx >= OutputCount()
      ensures r.Some? ==> r.value == values.Get(op.outputs[idx]) && r.value == Outputs()[idx]
    {
      BoundaryValueAt(Outgoing, idx)
    }

    /** The types of the inputs, position for position; a failed lookup stays that error. */
    function InputTypes(): (r: seq<Result<RsTypes.Type, ReadError>>)
      ensures |r| == InputCount()
      ensures forall i :: 0 <= i < |r| ==> (r[i].Ok? <==> Inputs()[i].Ok?)
      ensures forall i :: 0 <= i < |r| && r[i].Ok? ==> r[i].value == Inputs()[i].value.ty
      ensures forall i :: 0 <= i < |r| && r[i].Err? ==> r[i].error == Inputs()[i].error
    {
      TypesOf(Inputs())
    }

    /** The types of the outputs, position for position; a failed lookup stays that error. */
    function OutputTypes(): (r: seq<Result<RsTypes.Type, ReadError>>)
      ensures |r| == OutputCount()
      ensures forall i :: 0 <= i < |r| ==> (r[i].Ok? <==> Outputs()[i].Ok?)
      ensures forall i :: 0 <= i < |r| && r[i].Ok? ==> r[i].value == Outputs()[i].value.ty
      ensures forall i :: 0 <= i < |r| && r[i].Err? ==> r[i].error == Outputs()[i].error
    {
      TypesOf(Outputs())
    }

    /**
     * `metadata_reader` and `strings` of `HasMetadataSealed`: the operation's
     * own metadata entries, resolved with the string table it carries.
     */
    function MetadataList(): (m: RsMetadata.MetadataList)
      ensures m.strings == strings
      ensures m.MetadataCount() == |op.metadata|
    {
      RsMetadata.MetadataList(op.metadata, strings)
    }
  }
}
