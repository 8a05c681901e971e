// impl/py/src/jeff/type.py: value types and their encoded tags.
module PyType {
  import opened Wrappers
  import opened PyErrors
  import opened MachineInts
  import Text

  /** `FloatPrecision`: an enum whose values are the lower-case precision names. */
  datatype FloatPrecision = Float32 | Float64
  {
    function Value(): (s: string)
      ensures Text.IsLower(s)
    {
      match this
      case Float32 => "float32"
      case Float64 => "float64"
    }
  }

  /** `FloatPrecision.from_name`: matches the lower-cased name, or raises `ValueError`. */
  function PrecisionFromName(name: string): (r: Result<FloatPrecision, PyError>)
    ensures r.Ok? <==> Text.Lower(name) == "float32" || Text.Lower(name) == "float64"
    ensures r.Ok? ==> r.value.Value() == Text.Lower(name)
    ensures r.Err? ==> r.error == ValueError
  {
    var lowered := Text.Lower(name);
    if lowered == "float32" then Ok(Float32)
    else if lowered == "float64" then Ok(Float64)
    else Err(ValueError)
  }

  /** Each precision's value parses back to it. */
  lemma PrecisionRoundTrip(p: FloatPrecision)
    ensures PrecisionFromName(p.Value()) == Ok(p)
  {
    Text.LowerOfLower(p.Value());
  }

  /** Matching ignores ASCII case. */
  lemma PrecisionFromNameIgnoresCase(name: string)
    ensures PrecisionFromName(Text.Lower(name)) == PrecisionFromName(name)
  {
    Text.LowerIdempotent(name);
  }

  /**
   * The six frozen type dataclasses. Datatype equality is structural on the
   * variant and its width or precision, as the generated `__eq__` is.
   */
  datatype JeffType =
    | QubitType
    | QuregType
    | IntType(bitwidth: int)
    | IntArrayType(bitwidth: int)
    | FloatType(precision: FloatPrecision)
    | FloatArrayType(precision: FloatPrecision)

  /**
   * What the float-precision field of an encoded type holds: the precision's
   * name, or the Python enum member itself when that is what was assigned.
   */
  datatype PrecisionField = PrecisionName(name: string) | PrecisionMember(member: FloatPrecision)

  /** An encoded `Type` union, by its `which` tag. */
  datatype TypeReader =
    | QubitTag
    | QuregTag
    | IntTag(intWidth: u8)
    | IntArrayTag(intArray: u8)
    | FloatTag(float: PrecisionField)
    | FloatArrayTag(floatArray: PrecisionField)
    | UnknownTag(which: string)

  /** Parsing a precision field with `from_name`; an enum member has no `lower()`. */
  function ReadPrecision(f: PrecisionField): (r: Result<FloatPrecision, PyError>)
    ensures f.PrecisionName? ==> r == PrecisionFromName(f.name)
    ensures f.PrecisionMember? ==> r == Err(AttributeError)
  {
    match f
    case PrecisionName(name) => PrecisionFromName(name)
    case PrecisionMember(_) => Err(AttributeError)
  }

  /** `JeffType._read_from_buffer`: one type per tag, `ValueError` for an unknown tag. */
  function ReadType(reader: TypeReader): (r: Result<JeffType, PyError>)
    ensures reader.QubitTag? <==> r == Ok(QubitType)
    ensures reader.QuregTag? <==> r == Ok(QuregType)
    ensures reader.IntTag? <==> r.Ok? && r.value.IntType?
    ensures reader.IntTag? ==> r.value.bitwidth == reader.intWidth
    ensures reader.IntArrayTag? <==> r.Ok? && r.value.IntArrayType?
    ensures reader.IntArrayTag? ==> r.value.bitwidth == reader.intArray
    ensures reader.FloatTag? && ReadPrecision(reader.float).Ok? <==> r.Ok? && r.value.FloatType?
    ensures reader.FloatTag? && r.Ok? ==> Ok(r.value.precision) == ReadPrecision(reader.float)
    ensures reader.FloatArrayTag? && ReadPrecision(reader.floatArray).Ok? <==> r.Ok? && r.value.FloatArrayType?
    ensures reader.FloatArrayTag? && r.Ok? ==> Ok(r.value.precision) == ReadPrecision(reader.floatArray)
    ensures reader.UnknownTag? ==> r == Err(ValueError)
  {
    match reader
    case QubitTag => Ok(QubitType)
    case QuregTag => Ok(QuregType)
    case IntTag(w) => Ok(IntType(w))
    case IntArrayTag(w) => Ok(IntArrayType(w))
    case FloatTag(f) =>
      var p :- ReadPrecision(f);
      Ok(FloatType(p))
    case FloatArrayTag(f) =>
      var p :- ReadPrecision(f);
      Ok(FloatArrayType(p))
    case UnknownTag(_) => Err(ValueError)
  }

  /**
   * The per-type `_write_to_buffer`, as written: `FloatArrayType` assigns the
   * enum member instead of its value.
   */
  function WriteTypeAsWritten(t: JeffType): (r: Result<TypeReader, PyError>)
    ensures !t.FloatArrayType? ==> r == WriteType(t)
    ensures t.FloatArrayType? ==> r == Ok(FloatArrayTag(PrecisionMember(t.precision)))
  {
    match t
    case FloatArrayType(p) => Ok(FloatArrayTag(PrecisionMember(p)))
    case _ => WriteType(t)
  }

  /** Whether a width fits the schema's `UInt8` field. */
  predicate FitsWidth(w: int)
  {
    0 <= w < U8_LIMIT
  }

  /**
   * The per-type `_write_to_buffer` with every precision written by its value.
   * The width field is a `UInt8`, so assigning a width outside 0..255 raises.
   */
  function WriteType(t: JeffType): (r: Result<TypeReader, PyError>)
    ensures r.Err? <==> (t.IntType? || t.IntArrayType?) && !FitsWidth(t.bitwidth)
    ensures r.Err? ==> r.error == KjException
    ensures r.Ok? ==> !r.value.UnknownTag?
  {
    match t
    case QubitType => Ok(QubitTag)
    case QuregType => Ok(QuregTag)
    case IntType(w) => if FitsWidth(w) then Ok(IntTag(w)) else Err(KjException)
    case IntArrayType(w) => if FitsWidth(w) then Ok(IntArrayTag(w)) else Err(KjException)
    case FloatType(p) => Ok(FloatTag(PrecisionName(p.Value())))
    case FloatArrayType(p) => Ok(FloatArrayTag(PrecisionName(p.Value())))
  }

  /**
   * Writing a type and reading it back gives the same type: widths and
   * precisions survive whenever the write succeeds.
   */
  lemma {:induction false} WriteReadRoundTrip(t: JeffType)
    ensures WriteType(t).Ok? ==> ReadType(WriteType(t).value) == Ok(t)
  {
    match t
    case FloatType(p) => PrecisionRoundTrip(p);
    case FloatArrayType(p) => PrecisionRoundTrip(p);
    case _ =>
  }

  /** As written, a float-array type does not survive writing and reading back. */
  lemma FloatArrayAsWrittenDoesNotRoundTrip(p: FloatPrecision)
    ensures ReadType(WriteTypeAsWritten(FloatArrayType(p)).value) == Err(AttributeError)
    ensures ReadType(WriteType(FloatArrayType(p)).value) == Ok(FloatArrayType(p))
  {
    WriteReadRoundTrip(FloatArrayType(p));
  }

  /** `__str__`: qubit, qureg, int{w}, int{w}[], and the precision's value, plain or with []. */
  function Str(t: JeffType): (s: string)
    ensures |s| >= 4
  {
    match t
    case QubitType => "qubit"
    case QuregType => "qureg"
    case IntType(w) => "int" + Text.IntToString(w)
    case IntArrayType(w) => "int" + Text.IntToString(w) + "[]"
    case FloatType(p) => p.Value()
    case FloatArrayType(p) => p.Value() + "[]"
  }

  /** Only the integer types print with an initial `i`. */
  lemma StrInitial(t: JeffType)
    ensures Str(t)[0] == 'i' <==> t.IntType? || t.IntArrayType?
  {
    match t {
      case IntType(w) => assert Str(t)[..3] == "int";
      case IntArrayType(w) => assert Str(t)[..3] == "int";
      case _ =>
    }
  }

  /** An integer type's string ends in `]` exactly when it is the array type. */
  lemma IntStrLast(t: JeffType)
    requires t.IntType? || t.IntArrayType?
    ensures Str(t)[|Str(t)| - 1] == ']' <==> t.IntArrayType?
  {
    if t.IntType? {
      var d := Text.IntToString(t.bitwidth);
      Text.IntToStringEndsInDigit(t.bitwidth);
      assert Str(t)[|Str(t)| - 1] == d[|d| - 1];
    }
  }

  lemma IntStrInjective(a: JeffType, b: JeffType)
    requires a.IntType? || a.IntArrayType?
    requires b.IntType? || b.IntArrayType?
    requires Str(a) == Str(b)
    ensures a == b
  {
    IntStrLast(a);
    IntStrLast(b);
    var s := Str(a);
    if a.IntType? {
      assert s[3..] == Text.IntToString(a.bitwidth) == Text.IntToString(b.bitwidth);
    } else {
      assert s[3..|s| - 2] == Text.IntToString(a.bitwidth) == Text.IntToString(b.bitwidth);
    }
    Text.IntToStringInjective(a.bitwidth, b.bitwidth);
  }

  /** Distinct types print distinctly. */
  lemma StrInjective(a: JeffType, b: JeffType)
    requires Str(a) == Str(b)
    ensures a == b
  {
    StrInitial(a);
    StrInitial(b);
    if a.IntType? || a.IntArrayType? {
      IntStrInjective(a, b);
    } else {
      ParseNonIntOfStr(a);
      ParseNonIntOfStr(b);
    }
  }

  /** The inverse of `Str` on the types without a width. */
  ghost function ParseNonInt(s: string): Option<JeffType>
  {
    if s == "qubit" then Some(QubitType)
    else if s == "qureg" then Some(QuregType)
    else if s == "float32" then Some(FloatType(Float32))
    else if s == "float64" then Some(FloatType(Float64))
    else if s == "float32[]" then Some(FloatArrayType(Float32))
    else if s == "float64[]" then Some(FloatArrayType(Float64))
    else None
  }

  lemma ParseNonIntOfStr(t: JeffType)
    requires !t.IntType? && !t.IntArrayType?
    ensures ParseNonInt(Str(t)) == Some(t)
  {
    match t {
      case FloatArrayType(Float32) => assert Str(t) == "float32[]";
      case FloatArrayType(Float64) => assert Str(t) == "float64[]";
      case _ =>
    }
  }
}
