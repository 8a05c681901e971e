// impl/rs/src/reader/function.rs: function definitions and declarations.
module RsFunction {
  import opened MachineInts
  import opened Wrappers
  import opened RsReader
  import opened RsMessage
  import opened RsStringTable
  import opened RsValue
  import RsRegion
  import RsMetadata

  /** A function with a body region and its own value table. */
  datatype FunctionDefinition = FunctionDefinition(
    name: u16, body: EncRegion, values: ValueTable, strings: StringTable, metadata: seq<EncMeta>)

  /** A function with only a signature. */
  datatype FunctionDeclaration = FunctionDeclaration(
    name: u16, inputs: seq<EncValue>, outputs: seq<EncValue>, strings: StringTable, metadata: seq<EncMeta>)

  datatype Function = Definition(def: FunctionDefinition) | Declaration(decl: FunctionDeclaration)
  {
    function NameIdx(): u16
    {
      match this
      case Definition(d) => d.name
      case Declaration(d) => d.name
    }

    function Strings(): StringTable
    {
      match this
      case Definition(d) => d.strings
      case Declaration(d) => d.strings
    }

    /** Whether `name` reads without a panic. */
    predicate NameReadable()
    {
      Strings().Get(NameIdx(), "function name").Ok?
    }

    /** The name; the source panics (excluded here) when the index is out of bounds or not UTF-8. */
    function Name(): (s: string)
      requires NameReadable()
      ensures Strings().Get(NameIdx(), "function name") == Ok(s)
    {
      Strings().Get(NameIdx(), "function name").value
    }

    /** The body region of a definition, sharing the definition's tables. */
    function Body(): (r: RsRegion.Region)
      requires Definition?
      ensures r.region == def.body && r.strings == def.strings && r.values == def.values
    {
      RsRegion.Region(def.body, def.strings, def.values)
    }

    /**
     * The inputs: a definition's body sources, looked up in its value table;
     * a declaration's stored inputs, each read successfully with no id.
     */
    function InputTypes(): (r: seq<Result<Value, ReadError>>)
      ensures Definition? ==> |r| == |def.body.sources|
      ensures Definition? ==> forall i :: 0 <= i < |r| ==> r[i] == def.values.Get(def.body.sources[i])
      ensures Declaration? ==> |r| == |decl.inputs|
      ensures Declaration? ==> forall i :: 0 <= i < |r| ==> r[i] == Ok(ReadValue(None, decl.inputs[i], decl.strings))
    {
      match this
      case Definition(_) => Body().Sources()
      case Declaration(d) => DeclarationValues(d.inputs, d.strings)
    }

    /**
     * The outputs: a definition's body targets, looked up in its value table;
     * a declaration's stored outputs, each read successfully with no id.
     */
    function OutputTypes(): (r: seq<Result<Value, ReadError>>)
      ensures Definition? ==> |r| == |def.body.targets|
      ensures Definition? ==> forall i :: 0 <= i < |r| ==> r[i] == def.values.Get(def.body.targets[i])
      ensures Declaration? ==> |r| == |decl.outputs|
      ensures Declaration? ==> forall i :: 0 <= i < |r| ==> r[i] == Ok(ReadValue(None, decl.outputs[i], decl.strings))
    {
      match this
      case Definition(_) => Body().Targets()
      case Declaration(d) => DeclarationValues(d.outputs, d.strings)
    }

    /**
     * `metadata_reader` and `strings` of `HasMetadataSealed`: the variant's
     * own metadata entries, resolved with the string table its name uses.
     */
    function MetadataList(): (m: RsMetadata.MetadataList)
      ensures m.strings == Strings()
      ensures m.MetadataCount() == if Definition? then |def.metadata| else |decl.metadata|
    {
      match this
      case Definition(d) => RsMetadata.MetadataList(d.metadata, d.strings)
      case Declaration(d) => RsMetadata.MetadataList(d.metadata, d.strings)
    }
  }

  /** The values of a declaration's signature: each one read, with no id. */
  function DeclarationValues(vs: seq<EncValue>, strings: StringTable): (r: seq<Result<Value, ReadError>>)
    ensures |r| == |vs|
    ensures forall i :: 0 <= i < |r| ==> r[i] == Ok(ReadValue(None, vs[i], strings))
  {
    seq(|vs|, i requires 0 <= i < |vs| => Ok(ReadValue(None, vs[i], strings)))
  }

  /** A declaration's signature never fails to read, and no item carries an id. */
  lemma DeclarationItemsHaveNoId(f: Function, i: nat)
    requires f.Declaration? && i < |f.decl.inputs|
    ensures f.InputTypes()[i].Ok? && f.InputTypes()[i].value.id == None
  {
  }

  /** Reads a function: a definition tag gives a definition with its own value table, a declaration tag a declaration. */
  function ReadCapnp(f: EncFunction, strings: StringTable): (r: Function)
    ensures r.Definition? <==> f.kind.FDefinition?
    ensures r.NameIdx() == f.name && r.Strings() == strings
    ensures r.Definition? ==> r.def.body == f.kind.body && r.def.values == ValueTable(f.kind.values, strings)
    ensures r.Declaration? ==> r.decl.inputs == f.kind.inputs && r.decl.outputs == f.kind.outputs
    ensures r.MetadataList() == RsMetadata.MetadataList(f.metadata, strings)
  {
    match f.kind
    case FDefinition(body, values) =>
      Definition(FunctionDefinition(f.name, body, ValueTable(values, strings), strings, f.metadata))
    case FDeclaration(inputs, outputs) =>
      Declaration(FunctionDeclaration(f.name, inputs, outputs, strings, f.metadata))
  }

  /** A definition's signature is its body's boundary: sources in, targets out. */
  lemma DefinitionSignatureIsBoundary(f: EncFunction, strings: StringTable, i: nat)
    requires f.kind.FDefinition? && i < |f.kind.body.sources|
    ensures var fn := ReadCapnp(f, strings);
      |fn.InputTypes()| == |f.kind.body.sources|
      && fn.InputTypes()[i] == ValueTable(f.kind.values, strings).Get(f.kind.body.sources[i])
  {
    var fn := ReadCapnp(f, strings);
    assert fn.InputTypes() == fn.Body().Sources();
  }
}
