// impl/rs/src/reader/module.rs: the top-level module view.
module RsModule {
  import opened MachineInts
  import opened Wrappers
  import opened RsMessage
  import opened RsStringTable
  import RsFunction
  import RsMetadata

  datatype Module = Module(root: EncModule)
  {
    function Version(): (v: u32)
      ensures v == root.version
    {
      root.version
    }

    /** The module-level string table. */
    function Strings(): (t: StringTable)
      ensures t.strings == root.strings
    {
      StringTable(root.strings)
    }

    /** The functions in stored order, all sharing the module's string table. */
    function Functions(): (fs: seq<RsFunction.Function>)
      ensures |fs| == FunctionCount()
      ensures forall i :: 0 <= i < |fs| ==> fs[i] == RsFunction.ReadCapnp(root.functions[i], Strings())
      ensures forall i :: 0 <= i < |fs| ==> fs[i].Strings() == Strings()
    {
      seq(|root.functions|, i requires 0 <= i < |root.functions| =>
        RsFunction.ReadCapnp(root.functions[i], Strings()))
    }

    function FunctionCount(): (n: nat)
      ensures n == |root.functions|
    {
      |root.functions|
    }

    /** The `n`-th function; the source panics (excluded here) for `n >= function_count`. */
    function Function(n: u32): (f: RsFunction.Function)
      requires n < FunctionCount()
      ensures f == Functions()[n]
    {
      RsFunction.ReadCapnp(root.functions[n], Strings())
    }

    /** The `n`-th function, `None` exactly when `n >= function_count`. */
    function TryFunction(n: u32): (r: Option<RsFunction.Function>)
      ensures r.None? <==> n >= FunctionCount()
      ensures r.Some? ==> r.value == Functions()[n]
    {
      if n as int >= |root.functions| then None else Some(Function(n))
    }

    /** The stored entrypoint id; nothing checks it against the function count. */
    function EntrypointId(): (id: u32)
      ensures id == root.entrypoint
    {
      root.entrypoint
    }

    /** The entrypoint function; the source panics (excluded here) when the id is out of range. */
    function Entrypoint(): (f: RsFunction.Function)
      requires EntrypointId() < FunctionCount()
      ensures f == Functions()[EntrypointId()]
      ensures TryFunction(EntrypointId()) == Some(f)
    {
      Function(EntrypointId())
    }

    /** The tool name, or "" when the field is unreadable or not UTF-8. */
    function Tool(): (s: string)
      ensures root.tool.Some? && root.tool.value.Utf8? ==> s == root.tool.value.s
      ensures root.tool.None? || root.tool.value.NotUtf8? ==> s == ""
    {
      TextOrEmpty(root.tool)
    }

    /** The tool version, or "" when the field is unreadable or not UTF-8. */
    function ToolVersion(): (s: string)
      ensures root.toolVersion.Some? && root.toolVersion.value.Utf8? ==> s == root.toolVersion.value.s
      ensures root.toolVersion.None? || root.toolVersion.value.NotUtf8? ==> s == ""
    {
      TextOrEmpty(root.toolVersion)
    }

    /**
     * `metadata_reader` and `strings` of `HasMetadataSealed`: the module's
     * own metadata entries, resolved with the module's string table.
     */
    function MetadataList(): (m: RsMetadata.MetadataList)
      ensures m.strings == Strings()
      ensures m.MetadataCount() == |root.metadata|
    {
      RsMetadata.MetadataList(root.metadata, Strings())
    }
  }

  /** `.ok().and_then(to_str).unwrap_or("")` on a text field. */
  function TextOrEmpty(t: Option<Text>): (s: string)
    ensures t.None? || t.value.NotUtf8? ==> s == ""
    ensures t.Some? && t.value.Utf8? ==> s == t.value.s
  {
    match t
    case Some(Utf8(s)) => s
    case _ => ""
  }
}
