// impl/py/src/jeff/op/qubit/non_unitary.py: the non-unitary qubit operations.
module PyNonUnitary {
  import opened Wrappers
  import opened PyErrors
  import PyKind

  /** The six non-unitary operations, each identified by its schema tag name. */
  datatype NonUnitaryOp = QubitAlloc | QubitFree | QubitFreeZero | QubitMeasure | QubitMeasureNd | QubitReset
  {
    /** `name`. */
    function Name(): (s: string)
      ensures |s| > 0
    {
      match this
      case QubitAlloc => "alloc"
      case QubitFree => "free"
      case QubitFreeZero => "freeZero"
      case QubitMeasure => "measure"
      case QubitMeasureNd => "measureNd"
      case QubitReset => "reset"
    }

    /** `op_kind`: always `QUBIT`. */
    function OpKind(): (k: PyKind.OpKind)
      ensures k == PyKind.Qubit
    {
      PyKind.Qubit
    }

    /** `qualified_name`: the kind's string form, a dot, then the name. */
    function QualifiedName(): (s: string)
      ensures s == "OpKind.QUBIT." + Name()
    {
      OpKind().Str() + "." + Name()
    }

    /**
     * The full name the `qualified_name` docstring promises: the kind's
     * value `qubit`, a dot, then the name.
     */
    function DocumentedName(): (s: string)
      ensures s == "qubit." + Name()
    {
      OpKind().Value() + "." + Name()
    }
  }

  /** As written, the qualified name lacks the documented `qubit.` prefix. */
  lemma QualifiedNameLacksPrefix(op: NonUnitaryOp)
    ensures !("qubit." <= op.QualifiedName())
    ensures op.QualifiedName() != op.DocumentedName()
  {
    assert op.QualifiedName()[0] == 'O';
  }

  /** The documented full name tells the operations apart. */
  lemma DocumentedNameInjective(a: NonUnitaryOp, b: NonUnitaryOp)
    requires a.DocumentedName() == b.DocumentedName()
    ensures a == b
  {
    assert a.Name() == a.DocumentedName()[6..];
    assert b.Name() == b.DocumentedName()[6..];
    NamesDistinct(a, b);
  }

  /** The candidates `_read_from_buffer` tries, in order. */
  const Candidates: seq<NonUnitaryOp> :=
    [QubitAlloc, QubitFree, QubitFreeZero, QubitMeasure, QubitMeasureNd, QubitReset]

  lemma CandidatesCoverAll(op: NonUnitaryOp)
    ensures op in Candidates
  {
  }

  /** The first of `ops` named `which`. */
  function FirstNamed(ops: seq<NonUnitaryOp>, which: string): (r: Option<NonUnitaryOp>)
    ensures r.None? <==> forall i :: 0 <= i < |ops| ==> ops[i].Name() != which
    ensures r.Some? ==> r.value in ops && r.value.Name() == which
    ensures r.Some? ==>
      exists i :: (0 <= i < |ops| && ops[i] == r.value &&
        forall j :: 0 <= j < i ==> ops[j].Name() != which)
  {
    var k := FirstIndex(ops, which);
    if k < |ops| then Some(ops[k]) else None
  }

  /** Where the first of `ops` named `which` sits, or `|ops|` when none is. */
  function FirstIndex(ops: seq<NonUnitaryOp>, which: string): (k: nat)
    ensures k <= |ops| && (k < |ops| ==> ops[k].Name() == which)
    ensures forall j :: 0 <= j < k ==> ops[j].Name() != which
  {
    if |ops| == 0 || ops[0].Name() == which then 0
    else 1 + FirstIndex(ops[1..], which)
  }

  /** `_read_from_buffer`: the operation whose name is the reader's tag, or `ValueError`. */
  function ReadFromBuffer(which: string): (r: Result<NonUnitaryOp, PyError>)
    ensures r.Ok? <==> exists op: NonUnitaryOp :: op.Name() == which
    ensures r.Ok? ==> r.value.Name() == which
    ensures r.Err? ==> r.error == ValueError
  {
    match FirstNamed(Candidates, which)
    case Some(op) => Ok(op)
    case None =>
      assert forall op: NonUnitaryOp :: op.Name() != which by {
        forall op: NonUnitaryOp ensures op.Name() != which {
          CandidatesCoverAll(op);
        }
      }
      Err(ValueError)
  }

  /** The six names are pairwise distinct. */
  lemma NamesDistinct(a: NonUnitaryOp, b: NonUnitaryOp)
    requires a.Name() == b.Name()
    ensures a == b
  {
  }

  /** Reading an operation's own name gives that operation back. */
  lemma ReadOwnName(op: NonUnitaryOp)
    ensures ReadFromBuffer(op.Name()) == Ok(op)
  {
    var r := ReadFromBuffer(op.Name());
    NamesDistinct(r.value, op);
  }
}
