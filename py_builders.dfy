// The convenience builders of the package root: each checks the kinds of the
// values it is given and returns a new operation with the right arity layout.
module PyBuilders {
  import opened Wrappers
  import opened PyErrors
  import PyType
  import PyGate
  import PyNonUnitary
  import PyValue
  import PyIr

  type Value = PyValue.Value

  /** The type classes the builders check against. */
  datatype TypeClass = QubitClass | IntClass | FloatClass

  /** `isinstance(t, cls)`: every type class is a direct subclass of `JeffType`. */
  predicate IsInstance(t: PyType.JeffType, cls: TypeClass)
  {
    match cls
    case QubitClass => t.QubitType?
    case IntClass => t.IntType?
    case FloatClass => t.FloatType?
  }

  /** Every value's type is an instance of `cls`. */
  predicate AllOfClass(vals: seq<Value>, cls: TypeClass)
  {
    forall i :: 0 <= i < |vals| ==> IsInstance(vals[i].ty, cls)
  }

  /**
   * `_check_values`: `ValueError` at the first value whose type is not of the
   * expected class, and nothing otherwise. A single value is checked as a
   * one-element list.
   */
  method CheckValues(vals: seq<Value>, cls: TypeClass) returns (r: Result<(), PyError>)
    ensures r.Ok? <==> AllOfClass(vals, cls)
    ensures r.Err? ==> r.error == ValueError
  {
    for i := 0 to |vals|
      invariant forall j :: 0 <= j < i ==> IsInstance(vals[j].ty, cls)
    {
      if !IsInstance(vals[i].ty, cls) {
        return Err(ValueError);
      }
    }
    return Ok(());
  }

  /** A new value of each type, in order, none of them numbered yet. */
  method FreshValues(ts: seq<PyType.JeffType>) returns (vals: seq<Value>)
    ensures PyIr.TypesOf(vals) == ts
    ensures forall i :: 0 <= i < |vals| ==> fresh(vals[i]) && vals[i].id == None && vals[i].table == null
  {
    vals := [];
    for i := 0 to |ts|
      invariant |vals| == i && forall j :: 0 <= j < i ==> vals[j].ty == ts[j]
      invariant forall j :: 0 <= j < i ==> fresh(vals[j]) && vals[j].id == None && vals[j].table == null
    {
      var v := new PyValue.Value(ts[i]);
      vals := vals + [v];
    }
  }

  /** `n` copies of the qubit type. */
  function Qubits(n: nat): (ts: seq<PyType.JeffType>)
    ensures |ts| == n && forall i :: 0 <= i < n ==> ts[i] == PyType.QubitType
  {
    seq(n, _ => PyType.QubitType)
  }

  /** `qubit_alloc()`: no inputs and one new qubit output. */
  method QubitAlloc() returns (op: PyIr.JeffOp)
    ensures fresh(op) && op.opType == PyIr.NonUnitary(PyNonUnitary.QubitAlloc)
    ensures op.inputs == Some([])
    ensures op.outputs.Some? && |op.outputs.value| == 1
    ensures op.outputs.value[0].ty == PyType.QubitType && op.outputs.value[0].id == None
    ensures fresh(op.outputs.value[0])
  {
    var q := new PyValue.Value(PyType.QubitType);
    op := new PyIr.JeffOp(PyIr.NonUnitary(PyNonUnitary.QubitAlloc), [], [q]);
  }

  /** `qubit_free(qubit)`: the qubit as the only input and no outputs. */
  method QubitFree(qubit: Value) returns (op: PyIr.JeffOp)
    ensures fresh(op) && op.opType == PyIr.NonUnitary(PyNonUnitary.QubitFree)
    ensures op.inputs == Some([qubit]) && op.outputs == Some([])
  {
    op := new PyIr.JeffOp(PyIr.NonUnitary(PyNonUnitary.QubitFree), [qubit], []);
  }

  /**
   * The arity layout of a gate op: the inputs are the gate's target qubits,
   * then its controls, then its parameters, and there is one output per
   * target or control qubit.
   */
  predicate GateLayout(g: PyGate.QubitGate, inputs: seq<Value>, outputs: seq<Value>)
    reads g
  {
    g.numControls >= 0 &&
    |inputs| == g.NumQubits() + g.numControls + g.NumParams() &&
    |outputs| == g.NumQubits() + g.numControls
  }

  /**
   * `quantum_gate(name, qubits, params, control_qubits=.., adjoint=.., power=..)`:
   * `ValueError` unless every qubit and control is a qubit and every
   * parameter a float; otherwise a gate chosen by `from_gate_name` from the
   * three counts, with inputs qubits ++ controls ++ params and one new qubit
   * output per target or control qubit.
   */
  method QuantumGate(name: string, qubits: seq<Value>, params: seq<Value>, controls: seq<Value>,
                     adjoint: bool, power: int)
    returns (r: Result<PyIr.JeffOp, PyError>)
    ensures r.Ok? <==> AllOfClass(qubits, QubitClass) && AllOfClass(controls, QubitClass) && AllOfClass(params, FloatClass)
    ensures r.Err? ==> r.error == ValueError
    ensures r.Ok? ==> fresh(r.value) && r.value.opType.GateOp? && fresh(r.value.opType.gate)
    ensures r.Ok? ==> r.value.opType.gate.shape == PyGate.ChooseShape(name, |qubits|, |params|)
    ensures r.Ok? ==> r.value.opType.gate.numControls == |controls| &&
                      r.value.opType.gate.adjoint == adjoint && r.value.opType.gate.power == power
    ensures r.Ok? ==> r.value.inputs == Some(qubits + controls + params)
    ensures r.Ok? ==> r.value.outputs.Some? && PyIr.TypesOf(r.value.outputs.value) == Qubits(|qubits| + |controls|)
    ensures r.Ok? ==> forall v :: v in r.value.outputs.value ==> fresh(v) && v.id == None
    ensures r.Ok? ==> GateLayout(r.value.opType.gate, r.value.inputs.value, r.value.outputs.value)
  {
    var c := CheckValues(qubits, QubitClass);
    if c.Err? {
      return Err(c.error);
    }
    c := CheckValues(controls, QubitClass);
    if c.Err? {
      return Err(c.error);
    }
    c := CheckValues(params, FloatClass);
    if c.Err? {
      return Err(c.error);
    }
    var gate := PyGate.QubitGate.FromGateName(name, |qubits|, |params|, |controls|, adjoint, power);
    var outputs := FreshValues(Qubits(|qubits| + |controls|));
    var op := new PyIr.JeffOp(PyIr.GateOp(gate), qubits + controls + params, outputs);
    return Ok(op);
  }

  /**
   * `pauli_rotation(angle, pauli_string, qubits, control_qubits=.., adjoint=.., power=..)`:
   * the names in the Pauli string are converted first (`ValueError` for one
   * that is not a Pauli); then the string length must equal the number of
   * qubits (`AssertionError`); then qubits and controls must be qubits and
   * the angle a float (`ValueError`). The op's inputs are qubits ++ controls
   * ++ [angle], with one new qubit output per input before the angle.
   */
  method PauliRotation(angle: Value, pauliString: seq<PyGate.PauliItem>, qubits: seq<Value>, controls: seq<Value>,
                       adjoint: bool, power: int)
    returns (r: Result<PyIr.JeffOp, PyError>)
    ensures PyGate.ConvertPaulis(pauliString).Err? ==> r == Err(ValueError)
    ensures PyGate.ConvertPaulis(pauliString).Ok? && |pauliString| != |qubits| ==> r == Err(AssertionError)
    ensures r.Ok? <==> PyGate.ConvertPaulis(pauliString).Ok? && |pauliString| == |qubits| &&
                       AllOfClass(qubits, QubitClass) && AllOfClass(controls, QubitClass) &&
                       IsInstance(angle.ty, FloatClass)
    ensures PyGate.ConvertPaulis(pauliString).Ok? && |pauliString| == |qubits| && r.Err? ==> r.error == ValueError
    ensures r.Err? ==> r.error in {ValueError, AssertionError}
    ensures r.Ok? ==> fresh(r.value) && r.value.opType.GateOp? && fresh(r.value.opType.gate)
    ensures r.Ok? ==> r.value.opType.gate.shape == PyGate.Ppr(PyGate.ConvertPaulis(pauliString).value)
    ensures r.Ok? ==> r.value.opType.gate.numControls == |controls| &&
                      r.value.opType.gate.adjoint == adjoint && r.value.opType.gate.power == power
    ensures r.Ok? ==> r.value.inputs == Some(qubits + controls + [angle])
    ensures r.Ok? ==> r.value.outputs.Some? && PyIr.TypesOf(r.value.outputs.value) == Qubits(|qubits| + |controls|)
    ensures r.Ok? ==> forall v :: v in r.value.outputs.value ==> fresh(v) && v.id == None
    ensures r.Ok? ==> GateLayout(r.value.opType.gate, r.value.inputs.value, r.value.outputs.value)
  {
    var paulis := PyGate.ConvertPaulis(pauliString);
    if paulis.Err? {
      return Err(ValueError);
    }
    if |paulis.value| != |qubits| {
      return Err(AssertionError);
    }
    var c := CheckValues(qubits, QubitClass);
    if c.Err? {
      return Err(c.error);
    }
    c := CheckValues(controls, QubitClass);
    if c.Err? {
      return Err(c.error);
    }
    c := CheckValues([angle], FloatClass);
    if c.Err? {
      return Err(c.error);
    }
    assert [angle][0] == angle;
    var members := seq(|paulis.value|, i requires 0 <= i < |paulis.value| => PyGate.PauliMember(paulis.value[i]));
    PyGate.ConvertMembers(paulis.value);
    var ppr := PyGate.QubitGate.NewPpr(members, |controls|, adjoint, power);
    assert ppr.Ok?;
    var outputs := FreshValues(Qubits(|qubits| + |controls|));
    var op := new PyIr.JeffOp(PyIr.GateOp(ppr.value), qubits + controls + [angle], outputs);
    return Ok(op);
  }

  /** A region whose boundary lists are cached, as they are for every region built in memory. */
  predicate Cached(rg: PyIr.Region)
    reads rg
  {
    rg.sources.Some? && rg.targets.Some?
  }

  /**
   * `all(map(lambda x, y: x.type == y.type, xs, ys))`: the types agree
   * position by position, up to the shorter of the two lists.
   */
  predicate TypesAgree(xs: seq<Value>, ys: seq<Value>)
  {
    forall i :: 0 <= i < |xs| && i < |ys| ==> xs[i].ty == ys[i].ty
  }

  /** The four assertions `switch_case` makes of one region against the first branch. */
  predicate SameSignature(b: PyIr.Region, first: PyIr.Region)
    requires Cached(b) && Cached(first)
    reads b, first
  {
    |b.sources.value| == |first.sources.value| && TypesAgree(b.sources.value, first.sources.value) &&
    |b.targets.value| == |first.targets.value| && TypesAgree(b.targets.value, first.targets.value)
  }

  /** Two regions have the same signature exactly when their source types and target types are equal. */
  lemma SameSignatureIsEqualTypes(b: PyIr.Region, first: PyIr.Region)
    requires Cached(b) && Cached(first)
    ensures SameSignature(b, first) <==>
      PyIr.TypesOf(b.sources.value) == PyIr.TypesOf(first.sources.value) &&
      PyIr.TypesOf(b.targets.value) == PyIr.TypesOf(first.targets.value)
  {
    if PyIr.TypesOf(b.sources.value) == PyIr.TypesOf(first.sources.value) &&
       PyIr.TypesOf(b.targets.value) == PyIr.TypesOf(first.targets.value) {
      assert |b.sources.value| == |PyIr.TypesOf(b.sources.value)|;
      assert |b.targets.value| == |PyIr.TypesOf(b.targets.value)|;
    }
  }

  /**
   * The regions `switch_case` checks: the branches, then the default when
   * one is given and is truthy, that is, has at least one operation.
   */
  function Checked(branches: seq<PyIr.Region>, default: Option<PyIr.Region>): (rs: seq<PyIr.Region>)
    requires forall i :: 0 <= i < |branches| ==> Cached(branches[i])
    requires default.Some? ==> Cached(default.value)
    reads set b | b in branches, if default.Some? then {default.value} else {}
    ensures forall i :: 0 <= i < |rs| ==> Cached(rs[i])
    ensures default.Some? && default.value.Count() > 0 ==> rs == branches + [default.value]
    ensures default.None? || default.value.Count() == 0 ==> rs == branches
  {
    if default.Some? && default.value.Count() > 0 then branches + [default.value] else branches
  }

  /** What `switch_case` accepts: an int index, a first branch, every checked region like it, and matching arguments. */
  predicate SwitchAccepts(index: Value, regionArgs: seq<Value>, branches: seq<PyIr.Region>, default: Option<PyIr.Region>)
    requires forall i :: 0 <= i < |branches| ==> Cached(branches[i])
    requires default.Some? ==> Cached(default.value)
    reads set b | b in branches, if default.Some? then {default.value} else {}
  {
    IsInstance(index.ty, IntClass) && |branches| > 0 &&
    var checked := Checked(branches, default);
    (forall i :: 0 <= i < |checked| ==> SameSignature(checked[i], branches[0])) &&
    TypesAgree(regionArgs, branches[0].sources.value)
  }

  /**
   * The checks of `switch_case`: `ValueError` for an index that is not an
   * int; `IndexError` when there is no first branch to compare with; and
   * `AssertionError` when a checked region or the arguments disagree with it.
   */
  method CheckSwitch(index: Value, regionArgs: seq<Value>, branches: seq<PyIr.Region>, default: Option<PyIr.Region>)
    returns (r: Result<(), PyError>)
    requires forall i :: 0 <= i < |branches| ==> Cached(branches[i])
    requires default.Some? ==> Cached(default.value)
    ensures r.Ok? <==> SwitchAccepts(index, regionArgs, branches, default)
    ensures !IsInstance(index.ty, IntClass) ==> r == Err(ValueError)
    ensures IsInstance(index.ty, IntClass) && |branches| == 0 ==> r == Err(IndexError)
    ensures IsInstance(index.ty, IntClass) && |branches| > 0 && r.Err? ==> r == Err(AssertionError)
  {
    var c := CheckValues([index], IntClass);
    if c.Err? {
      return c;
    }
    assert [index][0] == index;
    if |branches| == 0 {
      return Err(IndexError);
    }
    var first := branches[0];
    var checked := Checked(branches, default);
    for i := 0 to |checked|
      invariant forall j :: 0 <= j < i ==> SameSignature(checked[j], first)
    {
      var b := checked[i];
      assert i < |branches| ==> b == branches[i];
      if |b.sources.value| != |first.sources.value| || !TypesAgree(b.sources.value, first.sources.value) {
        return Err(AssertionError);
      }
      if |b.targets.value| != |first.targets.value| || !TypesAgree(b.targets.value, first.targets.value) {
        return Err(AssertionError);
      }
    }
    if !TypesAgree(regionArgs, first.sources.value) {
      return Err(AssertionError);
    }
    return Ok(());
  }

  /**
   * `switch_case(index, region_args, branches, default)`: after the checks,
   * a new switch over the branches and the default, and an op whose inputs
   * are the index then the arguments and whose outputs are new values of
   * the first branch's target types.
   */
  method SwitchCase(index: Value, regionArgs: seq<Value>, branches: seq<PyIr.Region>, default: Option<PyIr.Region>)
    returns (r: Result<PyIr.JeffOp, PyError>)
    requires forall i :: 0 <= i < |branches| ==> Cached(branches[i])
    requires default.Some? ==> Cached(default.value)
    modifies branches`parent, (if default.Some? then {default.value} else {})`parent
    ensures r.Ok? <==> old(SwitchAccepts(index, regionArgs, branches, default))
    ensures !IsInstance(index.ty, IntClass) ==> r == Err(ValueError)
    ensures IsInstance(index.ty, IntClass) && |branches| == 0 ==> r == Err(IndexError)
    ensures IsInstance(index.ty, IntClass) && |branches| > 0 && r.Err? ==> r == Err(AssertionError)
    ensures r.Ok? ==> fresh(r.value) && r.value.opType.ScfOp? && fresh(r.value.opType.scf)
    ensures r.Ok? ==> r.value.opType.scf.op == r.value
    ensures r.Ok? ==>
      r.value.opType.scf.shape == PyIr.ScfShape.Switch(Some(branches), if default.Some? then PyIr.Present(default.value) else PyIr.Absent)
    ensures r.Ok? ==> forall b :: b in branches ==> b.parent == PyIr.ScfParent(r.value.opType.scf)
    ensures r.Ok? && default.Some? ==> default.value.parent == PyIr.ScfParent(r.value.opType.scf)
    ensures r.Ok? ==> r.value.inputs == Some([index] + regionArgs)
    ensures r.Ok? ==> |branches| > 0 && r.value.outputs.Some?
    ensures r.Ok? ==>
      PyIr.TypesOf(r.value.outputs.value) == old(PyIr.TypesOf(branches[0].targets.value))
    ensures r.Ok? ==> forall v :: v in r.value.outputs.value ==> fresh(v) && v.id == None
    ensures r.Err? ==> unchanged(branches) && (default.Some? ==> unchanged(default.value))
  {
    var c := CheckSwitch(index, regionArgs, branches, default);
    if c.Err? {
      return Err(c.error);
    }
    var outTypes := PyIr.TypesOf(branches[0].targets.value);
    var scf := new PyIr.Scf.Switch(branches, default);
    var outputs := FreshValues(outTypes);
    var op := new PyIr.JeffOp(PyIr.ScfOp(scf), [index] + regionArgs, outputs);
    return Ok(op);
  }
}
