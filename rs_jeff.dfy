// impl/rs/src/jeff.rs: loading a jeff program and checking its version.
module RsJeff {
  import opened MachineInts
  import opened Wrappers
  import opened RsMessage
  import opened RsLib
  import RsModule

  /** The version of the format this reader accepts. */
  const VERSION: u32 := SCHEMA_VERSION

  /** A loaded jeff program. */
  datatype Jeff = Jeff(root: EncModule)
  {
    function Module(): (m: RsModule.Module)
      ensures m.root == root
    {
      RsModule.Module(root)
    }
  }

  /** Accepts exactly the current version; any other is `InvalidVersion` carrying it. */
  function CheckVersion(j: Jeff): (r: Result<(), JeffError>)
    ensures r.Ok? <==> j.Module().Version() == VERSION
    ensures r.Err? ==> r.error == InvalidVersion(j.Module().Version())
  {
    var version := j.Module().Version();
    if version == VERSION then Ok(()) else Err(InvalidVersion(version))
  }

  /**
   * `read` and `read_slice` after the capnp library has decoded the bytes
   * (`decoded`): a decoding error is returned as is, otherwise the version is
   * checked before the program is handed out.
   */
  function Load(decoded: Result<EncModule, JeffError>): (r: Result<Jeff, JeffError>)
    ensures r.Ok? <==> decoded.Ok? && decoded.value.version == VERSION
    ensures r.Ok? ==> r.value.root == decoded.value
    ensures decoded.Err? ==> r == Err(decoded.error)
    ensures decoded.Ok? && r.Err? ==> r.error == InvalidVersion(decoded.value.version)
  {
    var root :- decoded;
    var j := Jeff(root);
    var _ :- CheckVersion(j);
    Ok(j)
  }

  /** No loaded program fails the version check. */
  lemma LoadedPassesCheck(decoded: Result<EncModule, JeffError>)
    requires Load(decoded).Ok?
    ensures CheckVersion(Load(decoded).value).Ok?
  {
  }

  /** The accepted version is the schema version, 0. */
  lemma VersionIsSchemaVersion()
    ensures VERSION == SCHEMA_VERSION == 0
  {
  }
}
