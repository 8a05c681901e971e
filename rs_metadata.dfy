// impl/rs/src/reader/metadata.rs: metadata entries and the lookups every
// element with metadata offers (the `HasMetadata` trait's default methods).
module RsMetadata {
  import opened MachineInts
  import opened Wrappers
  import opened RsReader
  import opened RsMessage
  import opened RsStringTable

  /** A metadata entry whose name has been resolved through the string table. */
  datatype Metadata = Metadata(name: string, value: MetaValue)
  {
    /** The value as a string: `None` unless it is a text pointer holding valid UTF-8. */
    function ValueStr(): (r: Option<string>)
      ensures r.Some? <==> value.TextValue? && value.text.Utf8?
      ensures r.Some? ==> r.value == value.text.s
    {
      match value
      case TextValue(Utf8(s)) => Some(s)
      case _ => None
    }
  }

  /** Reads an entry; a bad name index fails with the string table's own error. */
  function TryReadCapnp(meta: EncMeta, strings: StringTable): (r: Result<Metadata, ReadError>)
    ensures r.Err? <==> strings.Get(meta.name, "metadata name").Err?
    ensures r.Err? ==> r.error == strings.Get(meta.name, "metadata name").error
    ensures r.Ok? ==> r.value.value == meta.value
    ensures r.Ok? ==> Ok(r.value.name) == strings.Get(meta.name, "metadata name")
  {
    var name :- strings.Get(meta.name, "metadata name");
    Ok(Metadata(name, meta.value))
  }

  /** Reads an entry, panicking (excluded by the precondition) exactly when `TryReadCapnp` fails. */
  function ReadCapnp(meta: EncMeta, strings: StringTable): (m: Metadata)
    requires TryReadCapnp(meta, strings).Ok?
    ensures Ok(m) == TryReadCapnp(meta, strings)
  {
    TryReadCapnp(meta, strings).value
  }

  /** Every entry's name is a valid string-table index holding UTF-8. */
  predicate NamesReadable(entries: seq<EncMeta>, strings: StringTable): (b: bool)
    ensures b <==> forall i :: 0 <= i < |entries| ==> strings.Get(entries[i].name, "metadata name").Ok?
  {
    forall i :: 0 <= i < |entries| ==> TryReadCapnp(entries[i], strings).Ok?
  }

  /** The metadata list of an element, with the module's string table. */
  datatype MetadataList = MetadataList(entries: seq<EncMeta>, strings: StringTable)
  {
    function MetadataCount(): (n: nat)
      ensures n == |entries|
    {
      |entries|
    }

    /**
     * The `n`-th entry. The source indexes with `n as u32`, so the panic
     * (excluded here) happens when the truncated index is out of range, or
     * when the entry's name cannot be read.
     */
    function MetadataAt(n: u64): (m: Metadata)
      requires AsU32(n) < MetadataCount()
      requires TryReadCapnp(entries[AsU32(n)], strings).Ok?
      ensures Ok(m) == TryReadCapnp(entries[AsU32(n)], strings)
    {
      ReadCapnp(entries[AsU32(n)], strings)
    }

    /**
     * The `n`-th entry, as written: `None` when the truncated index `n as u32`
     * is out of range. An in-range entry with a bad name panics (excluded here).
     */
    function TryMetadata(n: u64): (r: Option<Metadata>)
      requires AsU32(n) < MetadataCount() ==> TryReadCapnp(entries[AsU32(n)], strings).Ok?
      ensures r.None? <==> AsU32(n) >= MetadataCount()
      ensures r.Some? ==> Ok(r.value) == TryReadCapnp(entries[AsU32(n)], strings)
    {
      if AsU32(n) < |entries| then Some(ReadCapnp(entries[AsU32(n)], strings)) else None
    }

    /** The corrected lookup: `None` exactly when `n` is at least the entry count. */
    function TryMetadataChecked(n: u64): (r: Option<Metadata>)
      requires n < MetadataCount() ==> TryReadCapnp(entries[n], strings).Ok?
      ensures r.None? <==> n >= MetadataCount()
      ensures r.Some? ==> Ok(r.value) == TryReadCapnp(entries[n], strings)
    {
      if n < |entries| then Some(ReadCapnp(entries[n], strings)) else None
    }

    /** All entries in stored order; one with an unreadable name panics (excluded here). */
    function MetadataEntries(): (ms: seq<Metadata>)
      requires NamesReadable(entries, strings)
      ensures |ms| == MetadataCount()
      ensures forall i :: 0 <= i < |ms| ==> Ok(ms[i]) == TryReadCapnp(entries[i], strings)
    {
      seq(|entries|, i requires 0 <= i < |entries| => ReadCapnp(entries[i], strings))
    }
  }

  /**
   * As written, `try_metadata(2^32)` on a one-entry list returns the first
   * entry, although its documentation promises `None` for every index at or
   * past the count.
   */
  lemma TryMetadataWrapsAround(e: EncMeta, strings: StringTable)
    requires TryReadCapnp(e, strings).Ok?
    ensures MetadataList([e], strings).TryMetadata(U32_LIMIT).Some?
    ensures U32_LIMIT >= MetadataList([e], strings).MetadataCount()
    ensures MetadataList([e], strings).TryMetadataChecked(U32_LIMIT).None?
  {
  }

  /** The corrected lookup agrees with the one as written on every index below 2^32. */
  lemma TryMetadataCheckedAgrees(l: MetadataList, n: u64)
    requires n < U32_LIMIT
    requires n < l.MetadataCount() ==> TryReadCapnp(l.entries[n], l.strings).Ok?
    ensures l.TryMetadataChecked(n) == l.TryMetadata(n)
  {
  }
}
