// impl/rs/src/reader/string_table.rs: the module-level string table.
module RsStringTable {
  import opened MachineInts
  import opened Wrappers
  import opened RsReader
  import RsMessage

  /** A view over the module's list of strings. */
  datatype StringTable = StringTable(strings: seq<RsMessage.Text>)
  {
    /** The number of strings in the table. */
    function Len(): (n: nat)
      ensures n == |strings|
    {
      |strings|
    }

    /**
     * The string at `idx`. The `u16` index is widened to `u32`; an index past
     * the end is `StringOutOfBounds`, an entry that is not UTF-8 is `StringNotUtf8`.
     */
    function Get(idx: u16, context: string): (r: Result<string, ReadError>)
      ensures r == Err(StringOutOfBounds(context, idx, Len())) <==> idx >= Len()
      ensures idx < Len() && strings[idx].NotUtf8? <==> r == Err(StringNotUtf8(context, idx))
      ensures idx < Len() && strings[idx].Utf8? ==> r == Ok(strings[idx].s)
      ensures r.Ok? <==> idx < Len() && strings[idx].Utf8?
    {
      if idx as int >= |strings| then
        Err(StringOutOfBounds(context, idx as u32, |strings|))
      else
        match strings[idx]
        case NotUtf8 => Err(StringNotUtf8(context, idx as u32))
        case Utf8(s) => Ok(s)
    }
  }
}
