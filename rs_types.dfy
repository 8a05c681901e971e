// impl/rs/src/types.rs: the value types of the Rust reader and their
// conversion from and to the schema's encoding.
module RsTypes {
  import opened MachineInts

  /** The schema's `FloatPrecision` enum as stored in a message. */
  datatype CapnpFloatPrecision = CapnpFloat32 | CapnpFloat64

  /** The schema's `Type` union as stored in a message: one tag and its payload. */
  datatype CapnpType =
    | CapnpQubit
    | CapnpQureg
    | CapnpInt(bits: u8)
    | CapnpIntArray(bits: u8)
    | CapnpFloat(precision: CapnpFloatPrecision)
    | CapnpFloatArray(precision: CapnpFloatPrecision)

  /** Precision of a floating point number. */
  datatype FloatPrecision = Float32 | Float64
  {
    /** The bitwidth of the precision. */
    function Bits(): (b: u8)
      ensures this == Float32 ==> b == 32
      ensures this == Float64 ==> b == 64
    {
      match this
      case Float32 => 32
      case Float64 => 64
    }
  }

  /** The schema precision for a precision; reading it back gives the precision again. */
  function AsCapnp(p: FloatPrecision): (c: CapnpFloatPrecision)
    ensures FromCapnp(c) == p
  {
    match p
    case Float32 => CapnpFloat32
    case Float64 => CapnpFloat64
  }

  /** The precision named by a schema precision. */
  function FromCapnp(c: CapnpFloatPrecision): (p: FloatPrecision)
    ensures p == Float32 <==> c == CapnpFloat32
  {
    match c
    case CapnpFloat32 => Float32
    case CapnpFloat64 => Float64
  }

  /** Distinct precisions have distinct bitwidths, so `Bits` identifies the precision. */
  lemma BitsInjective(p: FloatPrecision, q: FloatPrecision)
    requires p.Bits() == q.Bits()
    ensures p == q
  {
  }

  /** Converting schema precisions to model precisions and back changes nothing. */
  lemma PrecisionRoundTrip(c: CapnpFloatPrecision)
    ensures AsCapnp(FromCapnp(c)) == c
  {
  }

  /** Value type. Equality is structural on the variant and its payload. */
  datatype Type =
    | Qubit
    | QubitRegister
    | Int(bits: u8)
    | IntArray(bits: u8)
    | Float(precision: FloatPrecision)
    | FloatArray(precision: FloatPrecision)

  function IntOf(bits: u8): (t: Type)
    ensures t.Int? && t.bits == bits
  {
    Int(bits)
  }

  /** The boolean type is the integer type of bitwidth one. */
  function Bool(): (t: Type)
    ensures t == IntOf(1)
  {
    Int(1)
  }

  function IntArrayOf(bits: u8): (t: Type)
    ensures t.IntArray? && t.bits == bits
  {
    IntArray(bits)
  }

  function FloatOf(precision: FloatPrecision): (t: Type)
    ensures t.Float? && t.precision == precision
  {
    Float(precision)
  }

  function FloatArrayOf(precision: FloatPrecision): (t: Type)
    ensures t.FloatArray? && t.precision == precision
  {
    FloatArray(precision)
  }

  /** Reads a type from its schema encoding: each tag becomes its variant, with the payload kept. */
  function ReadCapnp(c: CapnpType): (t: Type)
    ensures c.CapnpQubit? <==> t.Qubit?
    ensures c.CapnpQureg? <==> t.QubitRegister?
    ensures c.CapnpInt? <==> t.Int?
    ensures c.CapnpIntArray? <==> t.IntArray?
    ensures c.CapnpFloat? <==> t.Float?
    ensures c.CapnpFloatArray? <==> t.FloatArray?
    ensures (c.CapnpInt? || c.CapnpIntArray?) ==> t.bits == c.bits
  {
    match c
    case CapnpQubit => Qubit
    case CapnpQureg => QubitRegister
    case CapnpInt(bits) => Int(bits)
    case CapnpIntArray(bits) => IntArray(bits)
    case CapnpFloat(prec) => Float(FromCapnp(prec))
    case CapnpFloatArray(prec) => FloatArray(FromCapnp(prec))
  }

  /** Encodes a type; reading the encoding back returns the same type. */
  function BuildCapnp(t: Type): (c: CapnpType)
    ensures ReadCapnp(c) == t
  {
    match t
    case Qubit => CapnpQubit
    case QubitRegister => CapnpQureg
    case Int(bits) => CapnpInt(bits)
    case IntArray(bits) => CapnpIntArray(bits)
    case Float(precision) => CapnpFloat(AsCapnp(precision))
    case FloatArray(precision) => CapnpFloatArray(AsCapnp(precision))
  }

  /** Reading is injective on encodings: the encoding of the type read is the encoding read. */
  lemma BuildAfterRead(c: CapnpType)
    ensures BuildCapnp(ReadCapnp(c)) == c
  {
  }
}
