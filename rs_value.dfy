// impl/rs/src/reader/value.rs: typed values and the function-level value table.
module RsValue {
  import opened MachineInts
  import opened Wrappers
  import opened RsReader
  import opened RsMessage
  import opened RsStringTable
  import RsTypes
  import RsMetadata

  /**
   * A typed value. `id` is its index in the function's value table, or `None`
   * for an input or output of a function declaration. `Value::id` and
   * `Value::ty` are the fields `id` and `ty`.
   */
  datatype Value = Value(id: Option<u32>, ty: RsTypes.Type, metadata: seq<EncMeta>, strings: StringTable)
  {
    /**
     * `metadata_reader` and `strings` of `HasMetadataSealed`: the value's
     * own metadata entries, resolved with the string table it carries.
     */
    function MetadataList(): (m: RsMetadata.MetadataList)
      ensures m.strings == strings
      ensures m.MetadataCount() == |metadata|
    {
      RsMetadata.MetadataList(metadata, strings)
    }
  }

  /** Builds the view of an encoded value under the given id. */
  function ReadValue(id: Option<u32>, v: EncValue, strings: StringTable): (r: Value)
    ensures r.id == id && r.ty == RsTypes.ReadCapnp(v.ty)
    ensures r.metadata == v.metadata && r.strings == strings
  {
    Value(id, RsTypes.ReadCapnp(v.ty), v.metadata, strings)
  }

  /** The value table of a function definition. */
  datatype ValueTable = ValueTable(values: seq<EncValue>, strings: StringTable)
  {
    function Len(): (n: nat)
      ensures n == |values|
    {
      |values|
    }

    function IsEmpty(): (b: bool)
      ensures b <==> Len() == 0
    {
      |values| == 0
    }

    /** The value at `idx`, carrying `Some(idx)` as its id; `ValueOutOfBounds` past the end. */
    function Get(idx: u32): (r: Result<Value, ReadError>)
      ensures r.Err? <==> idx >= Len()
      ensures r.Err? ==> r.error == ValueOutOfBounds(idx, Len())
      ensures r.Ok? ==> r.value == ReadValue(Some(idx), values[idx], strings)
    {
      if idx as int >= |values| then Err(ValueOutOfBounds(idx, |values|))
      else Ok(ReadValue(Some(idx), values[idx], strings))
    }
  }

  /**
   * The iterator `ids.iter().map(|idx| table.get(idx))`: one lookup per
   * stored id, in stored order.
   */
  function Resolve(ids: seq<u32>, table: ValueTable): (r: seq<Result<Value, ReadError>>)
    ensures |r| == |ids|
    ensures forall i :: 0 <= i < |ids| ==> r[i] == table.Get(ids[i])
  {
    if ids == [] then [] else [table.Get(ids[0])] + Resolve(ids[1..], table)
  }

  /** The type of each lookup, position for position, with errors kept as they are. */
  function TypesOf(rs: seq<Result<Value, ReadError>>): (r: seq<Result<RsTypes.Type, ReadError>>)
    ensures |r| == |rs|
    ensures forall i :: 0 <= i < |rs| ==> r[i].Ok? == rs[i].Ok?
    ensures forall i :: 0 <= i < |rs| && rs[i].Ok? ==> r[i].value == rs[i].value.ty
    ensures forall i :: 0 <= i < |rs| && rs[i].Err? ==> r[i].error == rs[i].error
  {
    if rs == [] then []
    else
      var head := match rs[0] case Ok(v) => Ok(v.ty) case Err(e) => Err(e);
      [head] + TypesOf(rs[1..])
  }

  /**
   * One boundary value: `None` when `idx` is past the end of the id list,
   * otherwise the value-table lookup of the `idx`-th id.
   */
  function BoundaryValue(ids: seq<u32>, table: ValueTable, idx: u64): (r: Option<Result<Value, ReadError>>)
    ensures r.None? <==> idx >= |ids|
    ensures r.Some? ==> r.value == table.Get(ids[idx])
  {
    if idx >= |ids| then None else Some(table.Get(ids[idx]))
  }

  /** Single lookups and the iterator agree: the `idx`-th item is the `idx`-th lookup. */
  lemma BoundaryValueIsResolveItem(ids: seq<u32>, table: ValueTable, idx: u64)
    requires idx < |ids|
    ensures BoundaryValue(ids, table, idx) == Some(Resolve(ids, table)[idx])
  {
  }
}
