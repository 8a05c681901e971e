// impl/rs/src/reader/optype/qubit/pauli.rs: the Pauli-product rotation gate.
// impl/rs/src/reader/optype/qubit.rs carries an identical copy of `Pauli`
// and `PauliString`; both are modelled by this one module.
module RsPauli {
  import opened MachineInts
  import opened RsMessage
  import opened Wrappers

  /** A Pauli operator. */
  datatype Pauli = X | Y | Z | I
  {
    /**
     * The one-letter name of the operator: the letter that names its schema
     * tag, and so the operator itself.
     */
    function Name(): (s: string)
      ensures |s| == 1
      ensures NameTag(s) == Some(PauliTag(this))
      ensures ReadPauli(NameTag(s).value) == this
    {
      match this
      case X => "X"
      case Y => "Y"
      case Z => "Z"
      case I => "I"
    }
  }

  /** The schema tag whose operator carries the one-letter name `s`, if any does. */
  function NameTag(s: string): (p: Option<EncPauli>)
    ensures p == Some(PauliX) <==> s == "X"
    ensures p == Some(PauliY) <==> s == "Y"
    ensures p == Some(PauliZ) <==> s == "Z"
    ensures p == Some(PauliI) <==> s == "I"
    ensures p.None? <==> s != "X" && s != "Y" && s != "Z" && s != "I"
  {
    if s == "X" then Some(PauliX)
    else if s == "Y" then Some(PauliY)
    else if s == "Z" then Some(PauliZ)
    else if s == "I" then Some(PauliI)
    else None
  }

  /** Each schema tag names its same-named operator. */
  function ReadPauli(p: EncPauli): (r: Pauli)
    ensures PauliTag(r) == p
  {
    match p
    case PauliX => X
    case PauliY => Y
    case PauliZ => Z
    case PauliI => I
  }

  /** The schema tag of an operator; the inverse of `ReadPauli`. */
  function PauliTag(q: Pauli): EncPauli
  {
    match q
    case X => PauliX
    case Y => PauliY
    case Z => PauliZ
    case I => PauliI
  }

  lemma PauliTagRoundTrip(q: Pauli)
    ensures ReadPauli(PauliTag(q)) == q
  {
  }

  /** Distinct operators have distinct names. */
  lemma NameInjective(p: Pauli, q: Pauli)
    ensures p.Name() == q.Name() ==> p == q
  {
  }

  /** A string of Pauli operators, read lazily from the encoded list. */
  datatype PauliString = PauliString(paulis: seq<EncPauli>)
  {
    /** The number of operators. The list length is a `u32`, widened without loss. */
    function Len(): (n: nat)
      ensures n == |paulis|
    {
      |paulis|
    }

    function IsEmpty(): (b: bool)
      ensures b <==> Len() == 0
    {
      Len() == 0
    }

    /**
     * The `n`-th operator. The source indexes with `n as u32` and panics
     * (excluded here) when that truncated index is out of range.
     */
    function Get(n: u64): (p: Pauli)
      requires AsU32(n) < Len()
      ensures PauliTag(p) == paulis[AsU32(n)]
    {
      ReadPauli(paulis[AsU32(n)])
    }

    /** The operators in stored order. */
    function Iter(): (ps: seq<Pauli>)
      ensures |ps| == Len()
      ensures forall i :: 0 <= i < |ps| ==> PauliTag(ps[i]) == paulis[i]
    {
      seq(|paulis|, i requires 0 <= i < |paulis| => ReadPauli(paulis[i]))
    }

    /** The gate acts on one qubit per operator. */
    function NumQubits(): (n: nat)
      ensures n == Len()
    {
      Len()
    }

    /** The gate takes exactly one rotation angle. */
    function NumParams(): (n: nat)
      ensures n == 1
    {
      1
    }
  }

  /** `iter()` yields `get(0)`, ..., `get(len - 1)` in order. */
  lemma IterIsGets(ps: PauliString, i: nat)
    requires i < ps.Len() && ps.Len() < U32_LIMIT
    ensures ps.Iter()[i] == ps.Get(i as u64)
  {
    var p := ps.Iter()[i];
    assert PauliTag(p) == ps.paulis[i];
    PauliTagRoundTrip(p);
  }
}
