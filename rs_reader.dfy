// impl/rs/src/reader.rs: the errors raised while reading a jeff program.
module RsReader {
  import opened MachineInts

  datatype ReadError =
      /** A string index into the module's string table was out of bounds. */
    | StringOutOfBounds(context: string, idx: u32, count: nat)
      /** The indexed string was not valid UTF-8 (the decoder's detail is not kept). */
    | StringNotUtf8(context: string, idx: u32)
      /** A value index into the function's value table was out of bounds. */
    | ValueOutOfBounds(idx: u32, count: nat)
}
