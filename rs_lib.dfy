// impl/rs/src/lib.rs: the schema version, the top-level error and port directions.
module RsLib {
  import opened MachineInts
  import RsReader

  /** Latest version of the jeff schema. */
  const SCHEMA_VERSION: u32 := 0

  /** Errors that can occur when processing a jeff file. */
  datatype JeffError =
      /** The capnp layer rejected the bytes (its error detail is not modelled). */
    | InvalidFile
    | InvalidVersion(v: u32)
    | ReadError(error: RsReader.ReadError)

  /** Direction of a port: towards a node or away from it. */
  datatype Direction = Incoming | Outgoing
  {
    /** The discriminant of the direction. */
    function Discriminant(): (d: nat)
      ensures this == Incoming ==> d == 0
      ensures this == Outgoing ==> d == 1
    {
      if Incoming? then 0 else 1
    }

    /** The opposite direction. */
    function Reverse(): (r: Direction)
      ensures r != this
    {
      match this
      case Incoming => Outgoing
      case Outgoing => Incoming
    }
  }

  /** The derived default direction. */
  const DEFAULT_DIRECTION: Direction := Incoming

  /** Incoming and outgoing directions, in that order. */
  const BOTH: seq<Direction> := [Incoming, Outgoing]

  /** Reversing twice gives the direction back. */
  lemma ReverseInvolutive(d: Direction)
    ensures d.Reverse().Reverse() == d
  {
  }

  /** `BOTH` lists every direction exactly once, and the discriminants tell the directions apart. */
  lemma BothCoversDirections(d: Direction)
    ensures d in BOTH
    ensures |BOTH| == 2 && BOTH[0] != BOTH[1]
    ensures BOTH[0] == DEFAULT_DIRECTION && DEFAULT_DIRECTION.Discriminant() == 0
    ensures BOTH[1] == DEFAULT_DIRECTION.Reverse()
  {
  }
}
