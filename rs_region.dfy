// impl/rs/src/reader/region.rs: a dataflow region and its operations.
module RsRegion {
  import opened MachineInts
  import opened Wrappers
  import opened RsReader
  import opened RsMessage
  import opened RsStringTable
  import opened RsValue
  import opened RsLib
  import RsMetadata
  import RsOp

  /** A region, sharing the module's string table and the function's value table. */
  datatype Region = Region(region: EncRegion, strings: StringTable, values: ValueTable)
  {
    /** The stored ids on the given side: sources are incoming, targets outgoing. */
    function BoundaryIds(direction: Direction): (ids: seq<u32>)
      ensures direction == Incoming ==> ids == region.sources
      ensures direction == Outgoing ==> ids == region.targets
    {
      match direction
      case Incoming => region.sources
      case Outgoing => region.targets
    }

    /** The sources or targets, each looked up in the value table, in stored order. */
    function Boundary(direction: Direction): (r: seq<Result<Value, ReadError>>)
      ensures |r| == BoundaryCount(direction)
      ensures forall i :: 0 <= i < |r| ==> r[i] == values.Get(BoundaryIds(direction)[i])
    {
      Resolve(BoundaryIds(direction), values)
    }

    function Sources(): (r: seq<Result<Value, ReadError>>)
      ensures |r| == SourceCount()
      ensures forall i :: 0 <= i < |r| ==> r[i] == values.Get(region.sources[i])
    {
      Boundary(Incoming)
    }

    function Targets(): (r: seq<Result<Value, ReadError>>)
      ensures |r| == TargetCount()
      ensures forall i :: 0 <= i < |r| ==> r[i] == values.Get(region.targets[i])
    {
      Boundary(Outgoing)
    }

    function BoundaryCount(direction: Direction): (n: nat)
      ensures n == |BoundaryIds(direction)|
    {
      |BoundaryIds(direction)|
    }

    function SourceCount(): (n: nat)
      ensures n == |region.sources|
    {
      BoundaryCount(Incoming)
    }

    function TargetCount(): (n: nat)
      ensures n == |region.targets|
    {
      BoundaryCount(Outgoing)
    }

    /** One boundary value: `None` iff `idx` is past the end, else the lookup of the `idx`-th id. */
    function BoundaryValueAt(direction: Direction, idx: u64): (r: Option<Result<Value, ReadError>>)
      ensures r.None? <==> idx >= BoundaryCount(direction)
      ensures r.Some? ==> r.value == values.Get(BoundaryIds(direction)[idx])
      ensures r.Some? ==> r.value == Boundary(direction)[idx]
    {
      BoundaryValue(BoundaryIds(direction), values, idx)
    }

    function Source(idx: u64): (r: Option<Result<Value, ReadError>>)
      ensures r.None? <==> idx >= SourceCount()
      ensures r.Some? ==> r.value == values.Get(region.sources[idx]) && r.value == Sources()[idx]
    {
      BoundaryValueAt(Incoming, idx)
    }

    function Target(idx: u64): (r: Option<Result<Value, ReadError>>)
      ensures r.None? <==> idx >= TargetCount()
      ensures r.Some? ==> r.value == values.Get(region.targets[idx]) && r.value == Targets()[idx]
    {
      BoundaryValueAt(Outgoing, idx)
    }

    /** The operations in stored order, each sharing this region's tables. */
    function Operations(): (ops: seq<RsOp.Operation>)
      ensures |ops| == OperationCount()
      ensures forall i :: 0 <= i < |ops| ==> ops[i].op == region.operations[i]
      ensures forall i :: 0 <= i < |ops| ==> ops[i].strings == strings && ops[i].values == values
    {
      seq(|region.operations|, i requires 0 <= i < |region.operations| =>
        RsOp.Operation(region.operations[i], strings, values))
    }

    function OperationCount(): (n: nat)
      ensures n == |region.operations|
    {
      |region.operations|
    }

    /**
     * The `n`-th operation. The source indexes with `n as u32`, so it panics
     * (excluded here) exactly when the truncated index is out of range.
     */
    function Operation(n: u64): (op: RsOp.Operation)
      requires AsU32(n) < OperationCount()
      ensures op == Operations()[AsU32(n)]
      ensures op.strings == strings && op.values == values
    {
      RsOp.Operation(region.operations[AsU32(n)], strings, values)
    }

    /**
     * `metadata_reader` and `strings` of `HasMetadataSealed`: the region's
     * own metadata entries, resolved with the string table it carries.
     */
    function MetadataList(): (m: RsMetadata.MetadataList)
      ensures m.strings == strings
      ensures m.MetadataCount() == |region.metadata|
    {
      RsMetadata.MetadataList(region.metadata, strings)
    }
  }
}
