// impl/py/src/jeff/op/kind.py: the categories of operation types.
module PyKind {
  import opened Wrappers
  import Text

  /** `OpKind`: each member's value is a dotted kind string. */
  datatype OpKind = Qubit | QubitGate | Scf
  {
    /** The member's value. */
    function Value(): (s: string)
    {
      match this
      case Qubit => "qubit"
      case QubitGate => "qubit.gate"
      case Scf => "scf"
    }

    /** `kind`: the value up to its first `.`, i.e. `value.split(".")[0]`. */
    function Kind(): (k: string)
      ensures '.' !in k
      ensures k == Value() || (|k| < |Value()| && Value()[|k|] == '.')
      ensures Value()[..|k|] == k
    {
      Text.Split(Value(), '.')[0]
    }

    /** `subkind`: `None` when the value has no `.`, otherwise `value.split(".")[1]`. */
    function Subkind(): (r: Option<string>)
      ensures r.None? <==> '.' !in Value()
      ensures r.Some? ==> '.' !in r.value
    {
      if '.' !in Value() then None else Some(Text.Split(Value(), '.')[1])
    }

    /** `str(kind)`: the enum's own `ClassName.MEMBER` form. */
    function Str(): (s: string)
    {
      match this
      case Qubit => "OpKind.QUBIT"
      case QubitGate => "OpKind.QUBIT_GATE"
      case Scf => "OpKind.SCF"
    }
  }

  /** The kinds and subkinds of the three members. */
  lemma KindTable()
    ensures Qubit.Kind() == "qubit" && Qubit.Subkind() == None
    ensures QubitGate.Kind() == "qubit" && QubitGate.Subkind() == Some("gate")
    ensures Scf.Kind() == "scf" && Scf.Subkind() == None
  {
    assert '.' !in Qubit.Value() && '.' !in Scf.Value();
    GateSplit();
  }

  lemma GateSplit()
    ensures Text.Split(QubitGate.Value(), '.') == ["qubit", "gate"]
  {
    var a, b := "qubit", "gate";
    assert '.' !in a && '.' !in b;
    assert QubitGate.Value() == a + ['.'] + b;
    Text.SplitAt(a, b, '.');
    assert Text.Split(b, '.') == [b];
  }

  /** A gate operation is a qubit operation: `QUBIT_GATE.kind == QUBIT.value`. */
  lemma GateKindIsQubit()
    ensures QubitGate.Kind() == Qubit.Value()
  {
    KindTable();
  }

  /** The member values are pairwise distinct. */
  lemma ValueInjective(a: OpKind, b: OpKind)
    requires a.Value() == b.Value()
    ensures a == b
  {
  }
}
