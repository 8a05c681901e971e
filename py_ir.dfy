// impl/py/src/jeff/region.py, op/__init__.py, op/scf.py, function.py and
// module.py: the program tree of the builder API. Regions, operations,
// structured-control-flow ops, functions and the module point at each other,
// so they share one module.
module PyIr {
  import opened Wrappers
  import opened PyErrors
  import PyLazy
  import PyKind
  import PyType
  import PyGate
  import PyNonUnitary
  import PyValue
  import PyStringTable

  type Value = PyValue.Value
  type ValueTable = PyValue.ValueTable

  // ---------------------------------------------------------------------------
  // Encoded data, as far as the builder classes read it.
  // ---------------------------------------------------------------------------

  /** An encoded region: source and target value ids and the number of encoded operations. */
  datatype RegionReader = RegionReader(sources: seq<int>, targets: seq<int>, operationCount: nat)

  /** An encoded operation's input and output value ids. */
  datatype OpReader = OpReader(inputs: seq<int>, outputs: seq<int>)

  /** The encoded structured-control-flow union, with any other tag kept by name. */
  datatype ScfReader =
    | SwitchReader(branches: seq<RegionReader>, default: Option<RegionReader>)
    | ForReader(body: RegionReader)
    | WhileReader(condition: RegionReader, body: RegionReader)
    | DoWhileReader(body: RegionReader, condition: RegionReader)
    | OtherScf(which: string)

  /** The encoded function union: a definition's body and value types, or a declaration's signature. */
  datatype FunctionBodyReader =
    | DefinitionReader(body: RegionReader, values: seq<PyType.TypeReader>)
    | DeclarationReader(inputs: seq<PyType.TypeReader>, outputs: seq<PyType.TypeReader>)
    | OtherFunction(which: string)

  /** An encoded function: its name's string-table index and its body. */
  datatype FunctionReader = FunctionReader(name: int, body: FunctionBodyReader)

  /** An encoded module. */
  datatype ModuleReader = ModuleReader(functions: seq<FunctionReader>, entrypoint: int, version: int,
                                       tool: string, toolVersion: string, strings: seq<string>)

  // ---------------------------------------------------------------------------
  // Shared helpers: resolving stored ids and registering values.
  // ---------------------------------------------------------------------------

  /** `ids` name stored slots of `values` that lie below `len`. */
  predicate AllStored(values: map<int, Value>, len: nat, ids: seq<int>)
  {
    forall i :: 0 <= i < |ids| ==> 0 <= ids[i] < len && ids[i] in values
  }

  /** Each value is the stored value its id names. */
  predicate ResolvedAs(values: map<int, Value>, ids: seq<int>, vals: seq<Value>)
  {
    |vals| <= |ids| && forall i :: 0 <= i < |vals| ==> ids[i] in values && vals[i] == values[ids[i]]
  }

  /**
   * The loop `for id in ids: cache.append(table[id])` behind the lazy
   * `sources`, `targets`, `inputs` and `outputs` getters. The cache list is
   * created before the loop, so when a lookup raises, the values resolved so
   * far stay cached: `vals` is that prefix and `err` the exception. When every
   * id names a stored slot, nothing is read from the table's buffer and all
   * ids resolve.
   */
  method Resolve(table: ValueTable, ids: seq<int>) returns (vals: seq<Value>, err: Option<PyError>)
    modifies table`values
    ensures err.None? ==> |vals| == |ids|
    ensures err.Some? ==> |vals| < |ids|
    ensures forall i :: 0 <= i < |vals| ==> ids[i] in table.values && vals[i] == table.values[ids[i]]
    ensures forall k :: k in old(table.values) ==> k in table.values && table.values[k] == old(table.values[k])
    ensures AllStored(old(table.values), table.len, ids) ==> err.None? && table.values == old(table.values)
    ensures err.Some? ==> !AllStored(old(table.values), table.len, ids)
    ensures forall k :: k in table.values && k !in old(table.values) ==> fresh(table.values[k])
  {
    vals := [];
    err := None;
    var i := 0;
    while i < |ids|
      invariant 0 <= i <= |ids| && |vals| == i
      invariant forall j :: 0 <= j < i ==> ids[j] in table.values && vals[j] == table.values[ids[j]]
      invariant forall k :: k in old(table.values) ==> k in table.values && table.values[k] == old(table.values[k])
      invariant AllStored(old(table.values), table.len, ids) ==> table.values == old(table.values)
      invariant forall k :: k in table.values && k !in old(table.values) ==> fresh(table.values[k])
    {
      var r := table.Get(ids[i]);
      if r.Err? {
        err := Some(r.error);
        return;
      }
      vals := vals + [r.value];
      i := i + 1;
    }
  }

  /**
   * `for val in vals: table.add(val)`, stopping at the first `ValueError`.
   * When it returns normally every value is owned by the table, numbered, and
   * stored (or equal to the value stored) at its id.
   */
  method AddAll(table: ValueTable, vals: seq<Value>) returns (r: Result<(), PyError>)
    modifies table, table.lazy, vals
    ensures table.raw == old(table.raw)
    ensures r.Err? ==> r.error == ValueError
    ensures r.Ok? ==> forall i :: 0 <= i < |vals| ==>
      vals[i].table == table && vals[i].id.Some? && vals[i].id.value in table.values
    ensures old(table.Bounded()) ==> table.Bounded()
    ensures old(table.Bounded()) && old(AllFit(table.values, vals)) ==> r.Ok?
  {
    ghost var fit := table.Bounded() && AllFit(table.values, vals);
    var i := 0;
    while i < |vals|
      invariant 0 <= i <= |vals|
      invariant table.raw == old(table.raw)
      invariant old(table.Bounded()) ==> table.Bounded()
      invariant forall j :: 0 <= j < i ==>
        vals[j].table == table && vals[j].id.Some? && vals[j].id.value in table.values
      invariant fit ==> forall j :: i <= j < |vals| ==> Fits(table.values, vals[j].id, vals[j])
    {
      ghost var before := table.values;
      ghost var n := table.len;
      var a := table.Add(vals[i]);
      if a.Err? {
        return Err(a.error);
      }
      if fit {
        forall j | i < j < |vals|
          ensures Fits(table.values, vals[j].id, vals[j])
        {
          if vals[j] != vals[i] && vals[j].id.Some? {
            assert vals[j].id.value < n;
          }
        }
      }
      i := i + 1;
    }
    return Ok(());
  }

  /** `v`, numbered `id`, would be accepted by `add` as it stands: it has no id yet, or it is the value stored at its id. */
  predicate Fits(slots: map<int, Value>, id: Option<int>, v: Value)
  {
    id.None? || (id.value in slots && slots[id.value] == v)
  }

  /** Every value of `vals` fits `slots`. */
  predicate AllFit(slots: map<int, Value>, vals: seq<Value>)
    reads vals
  {
    forall i :: 0 <= i < |vals| ==> Fits(slots, vals[i].id, vals[i])
  }

  /**
   * `for val in vals: f.value_table.add(val)` guarded by `if f is not None`,
   * as the value setters and `_set_parent` do it. A function without a value
   * table raises `AttributeError` at the first value.
   */
  method AddTo(f: Function?, vals: seq<Value>) returns (r: Result<(), PyError>)
    modifies TableOf(f), TableLazy(f), if f == null then {} else set v | v in vals
    ensures f == null ==> r == Ok(())
    ensures f != null && f.table == null ==> r == if |vals| == 0 then Ok(()) else Err(AttributeError)
    ensures f != null && f.table != null ==> r.Err? ==> r.error == ValueError
    ensures f != null && r.Ok? ==> forall i :: 0 <= i < |vals| ==>
      vals[i].table == f.table && vals[i].id.Some? && vals[i].id.value in f.table.values
    ensures f != null && f.table != null ==>
      f.table.raw == old(f.table.raw) && (old(f.table.Bounded()) ==> f.table.Bounded())
    ensures f != null && f.table != null && old(f.table.Bounded()) && old(AllFit(f.table.values, vals)) ==> r.Ok?
  {
    if f == null || |vals| == 0 {
      return Ok(());
    }
    if f.table == null {
      return Err(AttributeError);
    }
    r := AddAll(f.table, vals);
  }

  /**
   * The lookups `func.value_table[id]` for each id in turn, as the lazy
   * getters do them against the function `f`. A function with no value
   * table (a declaration) raises `AttributeError` at the first lookup, so an
   * empty id list still resolves. `cached` is what the getter leaves in its
   * cache: the values resolved before any exception.
   */
  method ResolveIn(f: Function, ids: seq<int>) returns (cached: seq<Value>, r: Result<seq<Value>, PyError>)
    modifies TableOf(f)`values
    ensures r.Ok? ==> cached == r.value && |cached| == |ids|
    ensures f.table == null ==> cached == [] && r == if |ids| == 0 then Ok([]) else Err(AttributeError)
    ensures f.table != null ==> ResolvedAs(f.table.values, ids, cached)
    ensures f.table != null && AllStored(old(f.table.values), f.table.len, ids) ==>
      r.Ok? && f.table.values == old(f.table.values)
    ensures f.table != null && r.Err? ==> !AllStored(old(f.table.values), f.table.len, ids)
    ensures f.table != null ==> forall k :: k in old(f.table.values) ==>
      k in f.table.values && f.table.values[k] == old(f.table.values[k])
    ensures f.table != null ==> forall k :: k in f.table.values && k !in old(f.table.values) ==>
      fresh(f.table.values[k])
    ensures forall v :: v in cached ==> v in old(StoredIn(f)) || fresh(v)
    ensures forall v :: v in StoredIn(f) ==> v in old(StoredIn(f)) || fresh(v)
  {
    if f.table == null {
      cached := [];
      r := if |ids| == 0 then Ok([]) else Err(AttributeError);
      return;
    }
    var err;
    cached, err := Resolve(f.table, ids);
    r := if err.Some? then Err(err.value) else Ok(cached);
    ghost var t := f.table;
    assert t == old(f.table);
    ghost var before := old(t.values);
    assert old(StoredIn(f)) == set k | k in before :: before[k];
    assert forall k :: k in old(t.values) ==> k in t.values && t.values[k] == old(t.values[k]);
    assert forall k :: k in t.values && k !in old(t.values) ==> fresh(t.values[k]);
    forall v | v in cached
      ensures v in old(StoredIn(f)) || fresh(v)
    {
      var i :| 0 <= i < |cached| && cached[i] == v;
      assert ids[i] in t.values && v == t.values[ids[i]];
      var key := ids[i];
      if key in before {
        assert v == before[key];
        assert before[key] in (set k | k in before :: before[k]);
      }
    }
    forall v | v in StoredIn(f)
      ensures v in old(StoredIn(f)) || fresh(v)
    {
      var k :| k in t.values && t.values[k] == v;
      if k in before {
        assert v == before[k];
        assert before[k] in (set k | k in before :: before[k]);
      }
    }
  }

  /** The values stored in `f`'s value table, when it has one. */
  function StoredIn(f: Function?): set<Value>
    reads f, TableOf(f)
  {
    if f != null && f.table != null then set k | k in f.table.values :: f.table.values[k] else {}
  }

  /** The dirty flag of `f`'s value table, when it has one. */
  function TableLazy(f: Function?): set<PyLazy.LazyUpdate>
    reads f
  {
    if f != null && f.table != null then {f.table.lazy} else {}
  }

  /**
   * `[Value._read_from_buffer(r) for r in readers]`: a fresh value with the
   * decoded type and no id per reader, or the first decoding exception.
   */
  method ReadValues(readers: seq<PyType.TypeReader>) returns (r: Result<seq<Value>, PyError>)
    ensures r.Ok? <==> forall i :: 0 <= i < |readers| ==> PyType.ReadType(readers[i]).Ok?
    ensures r.Ok? ==> |r.value| == |readers| && forall i :: 0 <= i < |readers| ==>
      fresh(r.value[i]) && r.value[i].ty == PyType.ReadType(readers[i]).value &&
      r.value[i].id == None && r.value[i].table == null
    ensures r.Err? ==>
              exists i :: 0 <= i < |readers| && PyType.ReadType(readers[i]) == Err(r.error) &&
                          forall j :: 0 <= j < i ==> PyType.ReadType(readers[j]).Ok?
  {
    var vals: seq<Value> := [];
    for i := 0 to |readers|
      invariant |vals| == i
      invariant forall j :: 0 <= j < i ==>
        PyType.ReadType(readers[j]).Ok? && fresh(vals[j]) && vals[j].ty == PyType.ReadType(readers[j]).value &&
        vals[j].id == None && vals[j].table == null
    {
      var ty := PyType.ReadType(readers[i]);
      if ty.Err? {
        return Err(ty.error);
      }
      var v := new PyValue.Value(ty.value);
      vals := vals + [v];
    }
    return Ok(vals);
  }

  /** `[v.type for v in vals]`. */
  function TypesOf(vals: seq<Value>): (ts: seq<PyType.JeffType>)
    ensures |ts| == |vals| && forall i :: 0 <= i < |vals| ==> ts[i] == vals[i].ty
  {
    seq(|vals|, i requires 0 <= i < |vals| => vals[i].ty)
  }

  // ---------------------------------------------------------------------------
  // Parents and the function a region or op belongs to.
  // ---------------------------------------------------------------------------

  /** Where a region hangs: nowhere yet, directly under a function, or under a structured-control-flow op. */
  datatype Parent = NoParent | FuncParent(func: Function) | ScfParent(scf: Scf)

  /** The objects `FuncOf(p)` reads. */
  function ParentObjects(p: Parent): set<object>
    reads if p.ScfParent? then {p.scf} else {}
  {
    if p.ScfParent? then {p.scf} + (if p.scf.op != null then {p.scf.op} else {}) else {}
  }

  /**
   * `parent_func` of a region whose parent is `p`: the parent itself when it
   * is a function definition, the structured-control-flow op's `parent_func`
   * (the function of the operation owning it) when it is one, and none
   * otherwise.
   */
  function FuncOf(p: Parent): (f: Function?)
    reads ParentObjects(p)
  {
    match p
    case NoParent => null
    case FuncParent(g) => if g.kind == Definition then g else null
    case ScfParent(s) => s.ParentFunc()
  }

  /** The value table of `f`, when `f` is a function holding one. */
  function TableOf(f: Function?): set<ValueTable>
    reads f
  {
    if f != null && f.table != null then {f.table} else {}
  }

  // ---------------------------------------------------------------------------
  // Regions.
  // ---------------------------------------------------------------------------

  /**
   * A dataflow region: cached source and target values, the operation slots,
   * the backing buffer and the parent. Python keeps the operations in a dict
   * keyed by index. Every way of filling it (the `operations` setter,
   * `append_op`, `__setitem__`) keeps the keys `0 .. count-1` all present, so
   * the model keeps those slots as the list `ops`; the keys below zero that
   * `__setitem__` lets through are kept apart in `stray`. A region read from a
   * buffer has no dict at all: `ops` is `None` and its count comes from the
   * buffer.
   */
  class Region {
    var sources: Option<seq<Value>>
    var targets: Option<seq<Value>>
    var ops: Option<seq<JeffOp>>
    var stray: map<int, JeffOp>
    var bufferCount: nat
    var raw: Option<RegionReader>
    var parent: Parent
    const lazy: PyLazy.LazyUpdate

    /** `__len__`: the operation count. */
    function Count(): nat
      reads this
    {
      if ops.Some? then |ops.value| else bufferCount
    }

    /** `parent_func`. */
    function ParentFunc(): (f: Function?)
      reads this, ParentObjects(parent)
    {
      FuncOf(parent)
    }

    /** The operations whose function `_set_parent` updates: every value of the dict. */
    function OpObjects(): set<JeffOp>
      reads this
    {
      (if ops.Some? then set op | op in ops.value else {}) + stray.Values
    }

    /** The values the cached source and target lists hold. */
    function CachedValues(): set<Value>
      reads this
    {
      (if sources.Some? then set v | v in sources.value else {}) +
      (if targets.Some? then set v | v in targets.value else {})
    }

    /**
     * `Region(sources, targets, operations)`: a detached, dirty region with
     * the given lists; operation `i` is at slot `i`. Having no parent, the
     * `operations` setter assigns no function to the operations.
     */
    constructor(sources: seq<Value>, targets: seq<Value>, operations: seq<JeffOp>)
      ensures this.sources == Some(sources) && this.targets == Some(targets)
      ensures ops == Some(operations) && stray == map[] && raw == None && parent == NoParent
      ensures Count() == |operations|
      ensures forall i :: 0 <= i < |operations| ==> Get(i) == Ok(operations[i])
      ensures fresh(lazy) && lazy.dirty
    {
      this.sources := Some(sources);
      this.targets := Some(targets);
      ops := Some(operations);
      stray := map[];
      bufferCount := 0;
      raw := None;
      parent := NoParent;
      lazy := new PyLazy.LazyUpdate();
    }

    /**
     * `_read_from_buffer`: a clean, detached region with nothing cached, the
     * buffer's operation count, and no operation dict.
     */
    constructor FromBuffer(reader: RegionReader)
      ensures sources == None && targets == None && ops == None && stray == map[]
      ensures raw == Some(reader) && parent == NoParent
      ensures Count() == reader.operationCount
      ensures fresh(lazy) && !lazy.dirty
    {
      sources := None;
      targets := None;
      ops := None;
      stray := map[];
      bufferCount := reader.operationCount;
      raw := Some(reader);
      parent := NoParent;
      var l := new PyLazy.LazyUpdate();
      l.MarkClean();
      lazy := l;
    }

    /**
     * `region[idx]`: `IndexError` outside `[0, count)`; `AttributeError` for a
     * region read from a buffer, which has no operation dict to look in; the
     * operation at slot `idx` otherwise. Since the slots below the count are
     * all filled, the lazy read of a missing slot never happens.
     */
    function Get(idx: int): (r: Result<JeffOp, PyError>)
      reads this
      ensures r == Err(IndexError) <==> idx < 0 || idx >= Count()
      ensures r.Ok? <==> 0 <= idx < Count() && ops.Some?
      ensures r.Err? ==> r.error in {IndexError, AttributeError}
      ensures r.Ok? ==> r.value == ops.value[idx]
    {
      if idx < 0 || idx >= Count() then Err(IndexError)
      else if ops.None? then Err(AttributeError)
      else Ok(ops.value[idx])
    }

    /**
     * `__iter__` and the `operations` getter (`list(self)`): `self[0]`, ...,
     * `self[count-1]` in order, collected into a new list, or the first
     * exception one of them raises.
     */
    method Operations() returns (r: Result<seq<JeffOp>, PyError>)
      ensures r.Ok? <==> forall i :: 0 <= i < Count() ==> Get(i).Ok?
      ensures r.Ok? ==> |r.value| == Count() && forall i :: 0 <= i < Count() ==> r.value[i] == Get(i).value
      ensures r.Err? ==> exists i :: 0 <= i < Count() && Get(i) == Err(r.error) &&
                                     forall j :: 0 <= j < i ==> Get(j).Ok?
    {
      var list: seq<JeffOp> := [];
      var i := 0;
      while i < Count()
        invariant 0 <= i <= Count() && |list| == i
        invariant forall j :: 0 <= j < i ==> Get(j).Ok? && list[j] == Get(j).value
      {
        var op := Get(i);
        if op.Err? {
          return Err(op.error);
        }
        list := list + [op.value];
        i := i + 1;
      }
      return Ok(list);
    }

    /**
     * The `operations` setter: when the region belongs to a function, every
     * operation is assigned to it; the slots become exactly the list (earlier
     * stray keys are dropped with the old dict) and the region is dirty.
     */
    method SetOperations(operations: seq<JeffOp>)
      modifies this, lazy, operations
      ensures ops == Some(operations) && stray == map[] && Count() == |operations|
      ensures forall i :: 0 <= i < |operations| ==> Get(i) == Ok(operations[i])
      ensures sources == old(sources) && targets == old(targets) && raw == old(raw) && parent == old(parent)
      ensures lazy.dirty
      ensures forall op :: op in operations ==>
        op.func == if old(ParentFunc()) != null then old(ParentFunc()) else old(op.func)
    {
      var func := ParentFunc();
      if func != null {
        var i := 0;
        while i < |operations|
          modifies operations
          invariant 0 <= i <= |operations|
          invariant forall op :: op in operations[..i] ==> op.func == func
          invariant forall op :: op in operations && op !in operations[..i] ==> op.func == old(op.func)
        {
          operations[i].func := func;
          assert operations[..i + 1] == operations[..i] + [operations[i]];
          i := i + 1;
        }
        assert operations[..i] == operations;
      }
      ops := Some(operations);
      stray := map[];
      lazy.MarkDirty();
    }

    /**
     * `append_op`: the op joins the region's function, if any. A region with
     * an operation dict stores the op at the old count, returns that index,
     * grows by one, leaves every earlier slot alone and becomes dirty; a
     * region read from a buffer raises `AttributeError` and keeps its slots.
     */
    method AppendOp(op: JeffOp) returns (r: Result<int, PyError>)
      modifies this, lazy, op
      ensures op.func == if old(ParentFunc()) != null then old(ParentFunc()) else old(op.func)
      ensures r.Err? <==> old(ops).None?
      ensures r.Err? ==> r.error == AttributeError && ops == old(ops) && lazy.dirty == old(lazy.dirty)
      ensures r.Ok? ==> r.value == old(Count()) && Count() == old(Count()) + 1 && Get(r.value) == Ok(op)
      ensures r.Ok? ==> forall i :: 0 <= i < old(Count()) ==> Get(i) == old(Get(i))
      ensures r.Ok? ==> lazy.dirty
      ensures stray == old(stray) && bufferCount == old(bufferCount) && raw == old(raw)
      ensures sources == old(sources) && targets == old(targets) && parent == old(parent)
    {
      var func := ParentFunc();
      if func != null {
        op.func := func;
      }
      if ops.None? {
        return Err(AttributeError);
      }
      var idx := |ops.value|;
      ops := Some(ops.value + [op]);
      lazy.MarkDirty();
      return Ok(idx);
    }

    /**
     * `region[idx] = op`: `IndexError` when `idx >= count`, changing nothing.
     * Otherwise the op joins the region's function, if any; a region read
     * from a buffer then raises `AttributeError`; an index in range replaces
     * only that slot; a negative index is not refused but lands in a key that
     * `region[idx]` never reads back. The count never changes.
     */
    method Set(idx: int, op: JeffOp) returns (r: Result<(), PyError>)
      modifies this, lazy, op
      ensures idx >= old(Count()) ==> r == Err(IndexError) && op.func == old(op.func) && lazy.dirty == old(lazy.dirty)
      ensures idx < old(Count()) ==>
        op.func == if old(ParentFunc()) != null then old(ParentFunc()) else old(op.func)
      ensures idx < old(Count()) && old(ops).None? ==> r == Err(AttributeError) && lazy.dirty == old(lazy.dirty)
      ensures idx < old(Count()) && old(ops).Some? ==> r == Ok(()) && lazy.dirty
      ensures r.Err? ==> ops == old(ops) && stray == old(stray)
      ensures r.Ok? && idx >= 0 ==> ops == Some(old(ops).value[idx := op]) && stray == old(stray)
      ensures r.Ok? && idx < 0 ==> ops == old(ops) && stray == old(stray)[idx := op]
      ensures Count() == old(Count())
      ensures forall i :: 0 <= i < Count() && i != idx ==> Get(i) == old(Get(i))
      ensures r.Ok? && idx >= 0 ==> Get(idx) == Ok(op)
      ensures r.Ok? && idx < 0 ==> Get(idx) == Err(IndexError)
      ensures bufferCount == old(bufferCount) && raw == old(raw)
      ensures sources == old(sources) && targets == old(targets) && parent == old(parent)
    {
      if idx >= Count() {
        return Err(IndexError);
      }
      var func := ParentFunc();
      if func != null {
        op.func := func;
      }
      if ops.None? {
        return Err(AttributeError);
      }
      if idx >= 0 {
        ops := Some(ops.value[idx := op]);
      } else {
        stray := stray[idx := op];
      }
      lazy.MarkDirty();
      return Ok(());
    }

    /**
     * `subregions_bfs` under the loop condition `loop`, run until it stops or
     * has yielded `fuel` regions: the region itself first, then the regions
     * its operations hold, breadth-first.
     */
    method SubregionsBfs(fuel: nat, loop: Loop) returns (yielded: seq<Region>, end: WalkEnd)
      ensures (yielded, end) == Bfs([this], fuel, loop)
      ensures loop == AsWritten && Count() == 0 ==> yielded == [] && end == Finished
      ensures (loop == Intended || Count() > 0) && fuel > 0 ==> |yielded| > 0 && yielded[0] == this
    {
      yielded, end := Walk([this], fuel, loop);
    }

    /**
     * The `subregions_bfs` loop from the deque `start`, yielding at most
     * `fuel` regions; the regions each yielded region queues are the ones
     * `Children` lists.
     */
    static method Walk(start: seq<Region>, fuel: nat, loop: Loop) returns (yielded: seq<Region>, end: WalkEnd)
      ensures (yielded, end) == Bfs(start, fuel, loop)
    {
      var queue := start;
      var f := fuel;
      yielded := [];
      ghost var whole := Bfs(start, fuel, loop);
      assert yielded + whole.0 == whole.0;
      while true
        invariant whole == (yielded + Bfs(queue, f, loop).0, Bfs(queue, f, loop).1)
        decreases f
      {
        var stop := StopBefore(queue, f, loop);
        if stop.Some? {
          assert yielded + [] == yielded;
          return yielded, stop.value;
        }
        var rg := queue[0];
        var kids := OpsChildren(rg, 0);
        BfsStep(yielded, queue, f, loop);
        yielded := yielded + [rg];
        if kids.Err? {
          return yielded, kids.error;
        }
        queue := queue[1..] + kids.value;
        f := f - 1;
      }
    }

    /** `for op in region: match op.op_type: ...`, collecting the regions to queue in order. */
    method Children() returns (r: Result<seq<Region>, WalkEnd>)
      ensures r == OpsChildren(this, 0)
    {
      var acc: seq<Region> := [];
      var i := 0;
      assert OpsChildren(this, 0).Ok? ==> acc + OpsChildren(this, 0).value == OpsChildren(this, 0).value;
      while i < Count()
        invariant 0 <= i <= Count()
        invariant OpsChildren(this, 0) ==
          if OpsChildren(this, i).Err? then OpsChildren(this, i) else Ok(acc + OpsChildren(this, i).value)
        decreases Count() - i
      {
        var op := Get(i);
        if op.Err? {
          return Err(Raised(op.error));
        }
        ghost var rest := OpsChildren(this, i + 1);
        if op.value.opType.ScfOp? {
          var here := ScfChildren(op.value.opType.scf);
          if here.Err? {
            return here;
          }
          assert rest.Ok? ==> acc + (here.value + rest.value) == (acc + here.value) + rest.value;
          acc := acc + here.value;
        } else {
          assert rest.Ok? ==> OpsChildren(this, i) == Ok([] + rest.value) && [] + rest.value == rest.value;
        }
        i := i + 1;
      }
      assert acc + [] == acc;
      return Ok(acc);
    }

    /** Values a getter may hand back under the parent function `f`: the cached lists and `f`'s table. */
    function Known(f: Function?): set<Value>
      reads this, f, TableOf(f)
    {
      CachedValues() + StoredIn(f)
    }

    /**
     * The `sources` getter. The cached list if there is one. Otherwise
     * `ValueError` without a parent function or without a buffer; otherwise
     * the buffer's source ids are looked up in the parent function's value
     * table, in order, and cached, the cache keeping the prefix resolved
     * before a lookup raises.
     */
    method Sources() returns (r: Result<seq<Value>, PyError>)
      modifies this`sources, TableOf(FuncOf(parent))`values
      ensures old(sources).Some? ==> r == Ok(old(sources).value) && sources == old(sources) && unchanged(TableOf(FuncOf(parent)))
      ensures old(sources).None? && (FuncOf(parent) == null || raw.None?) ==>
        r == Err(ValueError) && sources == None
      ensures r.Ok? ==> sources == Some(r.value)
      ensures old(sources).None? && r.Ok? ==>
        |r.value| == |raw.value.sources| && FuncOf(parent) != null &&
        (FuncOf(parent).table != null ==> ResolvedAs(FuncOf(parent).table.values, raw.value.sources, r.value))
      ensures (old(sources).None? && FuncOf(parent) != null && raw.Some? && FuncOf(parent).table != null &&
               AllStored(old(FuncOf(parent).table.values), FuncOf(parent).table.len, raw.value.sources)) ==> r.Ok?
      ensures r.Ok? ==> forall v :: v in r.value ==> v in old(Known(FuncOf(parent))) || fresh(v)
      ensures forall v :: v in Known(FuncOf(parent)) ==> v in old(Known(FuncOf(parent))) || fresh(v)
    {
      if sources.Some? {
        return Ok(sources.value);
      }
      var f := FuncOf(parent);
      if f == null || raw.None? {
        return Err(ValueError);
      }
      var cached;
      cached, r := ResolveIn(f, raw.value.sources);
      sources := Some(cached);
    }

    /** The `targets` getter, the same as `Sources` on the target ids. */
    method Targets() returns (r: Result<seq<Value>, PyError>)
      modifies this`targets, TableOf(FuncOf(parent))`values
      ensures old(targets).Some? ==> r == Ok(old(targets).value) && targets == old(targets) && unchanged(TableOf(FuncOf(parent)))
      ensures old(targets).None? && (FuncOf(parent) == null || raw.None?) ==>
        r == Err(ValueError) && targets == None
      ensures r.Ok? ==> targets == Some(r.value)
      ensures old(targets).None? && r.Ok? ==>
        |r.value| == |raw.value.targets| && FuncOf(parent) != null &&
        (FuncOf(parent).table != null ==> ResolvedAs(FuncOf(parent).table.values, raw.value.targets, r.value))
      ensures (old(targets).None? && FuncOf(parent) != null && raw.Some? && FuncOf(parent).table != null &&
               AllStored(old(FuncOf(parent).table.values), FuncOf(parent).table.len, raw.value.targets)) ==> r.Ok?
      ensures r.Ok? ==> forall v :: v in r.value ==> v in old(Known(FuncOf(parent))) || fresh(v)
      ensures forall v :: v in Known(FuncOf(parent)) ==> v in old(Known(FuncOf(parent))) || fresh(v)
    {
      if targets.Some? {
        return Ok(targets.value);
      }
      var f := FuncOf(parent);
      if f == null || raw.None? {
        return Err(ValueError);
      }
      var cached;
      cached, r := ResolveIn(f, raw.value.targets);
      targets := Some(cached);
    }

    /**
     * The `sources` setter: when the region belongs to a function, every
     * value is first added to its value table (the first exception
     * propagates, leaving the list unset); then the list is stored and the
     * region is dirty.
     */
    method SetSources(vals: seq<Value>) returns (r: Result<(), PyError>)
      modifies this`sources, lazy, TableOf(FuncOf(parent)), TableLazy(FuncOf(parent))
      modifies if FuncOf(parent) == null then {} else set v | v in vals
      ensures r.Err? ==> sources == old(sources)
      ensures r.Ok? ==> sources == Some(vals) && lazy.dirty
      ensures old(FuncOf(parent)) == null ==> r.Ok?
      ensures old(FuncOf(parent)) != null && old(FuncOf(parent)).table == null ==> (r.Ok? <==> |vals| == 0)
      ensures old(FuncOf(parent)) != null && r.Ok? ==> forall i :: 0 <= i < |vals| ==>
        vals[i].table == old(FuncOf(parent)).table && vals[i].id.Some? && vals[i].id.value in vals[i].table.values
    {
      r := AddTo(FuncOf(parent), vals);
      if r.Err? {
        return;
      }
      sources := Some(vals);
      lazy.MarkDirty();
    }

    /** The `targets` setter, the same as `SetSources` for the target list. */
    method SetTargets(vals: seq<Value>) returns (r: Result<(), PyError>)
      modifies this`targets, lazy, TableOf(FuncOf(parent)), TableLazy(FuncOf(parent))
      modifies if FuncOf(parent) == null then {} else set v | v in vals
      ensures r.Err? ==> targets == old(targets)
      ensures r.Ok? ==> targets == Some(vals) && lazy.dirty
      ensures old(FuncOf(parent)) == null ==> r.Ok?
      ensures old(FuncOf(parent)) != null && old(FuncOf(parent)).table == null ==> (r.Ok? <==> |vals| == 0)
      ensures old(FuncOf(parent)) != null && r.Ok? ==> forall i :: 0 <= i < |vals| ==>
        vals[i].table == old(FuncOf(parent)).table && vals[i].id.Some? && vals[i].id.value in vals[i].table.values
    {
      r := AddTo(FuncOf(parent), vals);
      if r.Err? {
        return;
      }
      targets := Some(vals);
      lazy.MarkDirty();
    }

    /** `for op in self._operations.values(): op._func = func`, over the slots and the stray keys. */
    method AttachOps(func: Function)
      requires ops.Some?
      modifies OpObjects()`func
      ensures forall op :: op in old(OpObjects()) ==> op.func == func
      ensures old(FuncOf(parent)) == func ==> FuncOf(parent) == func
    {
      var list := ops.value;
      var i := 0;
      while i < |list|
        modifies list`func
        invariant 0 <= i <= |list|
        invariant forall op :: op in list[..i] ==> op.func == func
      {
        list[i].func := func;
        assert list[..i + 1] == list[..i] + [list[i]];
        i := i + 1;
      }
      assert list[..i] == list;
      var rest := stray.Values;
      while rest != {}
        modifies stray.Values`func
        invariant rest <= stray.Values
        invariant forall op :: op in list ==> op.func == func
        invariant forall op :: op in stray.Values && op !in rest ==> op.func == func
        decreases rest
      {
        var op :| op in rest;
        op.func := func;
        rest := rest - {op};
      }
    }

    /**
     * `_set_parent(parent)`: the parent is set. When the region then belongs
     * to a function definition, every operation in the dict joins it (a
     * region read from a buffer has no dict and raises `AttributeError`), and
     * every source and then every target value, read through the getters, is
     * added to the function's value table; a getter's or `add`'s exception
     * propagates, and so does the `AttributeError` of a function with no value
     * table once there is a value to add. The dirty flag is not touched.
     */
    method SetParent(p: Parent) returns (r: Result<(), PyError>)
      modifies this`parent, this`sources, this`targets, OpObjects()`func
      modifies TableOf(FuncOf(p)), TableLazy(FuncOf(p)), Known(FuncOf(p))
      ensures parent == p && ops == old(ops) && stray == old(stray) && raw == old(raw)
      ensures old(FuncOf(p)) == null ==> r == Ok(()) && sources == old(sources) && targets == old(targets)
      ensures old(FuncOf(p)) != null && ops.None? ==>
        r == Err(AttributeError) && sources == old(sources) && targets == old(targets)
      ensures old(FuncOf(p)) != null && ops.Some? ==> forall op :: op in old(OpObjects()) ==> op.func == old(FuncOf(p))
      ensures old(FuncOf(p)) != null && r.Ok? ==> sources.Some? && targets.Some?
      ensures old(FuncOf(p)) != null && r.Ok? && |sources.value| + |targets.value| > 0 ==>
        old(FuncOf(p)).table != null
      ensures old(FuncOf(p)) != null && r.Ok? ==> forall v :: v in sources.value + targets.value ==>
        v.table == old(FuncOf(p)).table && v.id.Some? && v.id.value in v.table.values
      ensures old(FuncOf(p)) != null && ops.Some? && old(sources).Some? && old(targets).Some? ==>
        sources == old(sources) && targets == old(targets)
      ensures (old(FuncOf(p)) != null && ops.Some? && old(sources).Some? && old(targets).Some? &&
               old(FuncOf(p).table) == null) ==>
        r == if |old(sources).value| + |old(targets).value| == 0 then Ok(()) else Err(AttributeError)
      ensures (old(FuncOf(p)) != null && ops.Some? && old(sources).Some? && old(targets).Some? &&
               old(FuncOf(p).table) != null && r.Err?) ==> r.error == ValueError
      ensures (old(FuncOf(p)) != null && ops.Some? && old(sources).Some? && old(targets).Some? &&
               old(FuncOf(p).table) != null && old(FuncOf(p).table.Bounded()) &&
               old(AllFit(FuncOf(p).table.values, sources.value + targets.value))) ==> r.Ok?
    {
      var func := FuncOf(p);
      parent := p;
      if func == null {
        return Ok(());
      }
      if ops.None? {
        return Err(AttributeError);
      }
      r := Join(func);
    }

    /** `_set_parent` once the region's function is known to be `func`: the ops, then the values. */
    method Join(func: Function) returns (r: Result<(), PyError>)
      requires FuncOf(parent) == func && ops.Some?
      modifies this`sources, this`targets, OpObjects()`func, TableOf(func), TableLazy(func), Known(func)
      ensures forall op :: op in old(OpObjects()) ==> op.func == func
      ensures r.Ok? ==> sources.Some? && targets.Some?
      ensures r.Ok? && |sources.value| + |targets.value| > 0 ==> func.table != null
      ensures r.Ok? ==> forall v :: v in sources.value + targets.value ==>
        v.table == func.table && v.id.Some? && v.id.value in v.table.values
      ensures old(sources).Some? && old(targets).Some? ==> sources == old(sources) && targets == old(targets)
      ensures old(sources).Some? && old(targets).Some? && old(func.table) == null ==>
        r == if |old(sources).value| + |old(targets).value| == 0 then Ok(()) else Err(AttributeError)
      ensures old(sources).Some? && old(targets).Some? && old(func.table) != null && r.Err? ==> r.error == ValueError
      ensures (old(sources).Some? && old(targets).Some? && old(func.table) != null && old(func.table.Bounded()) &&
               old(AllFit(func.table.values, sources.value + targets.value))) ==> r.Ok?
    {
      ghost var fits := sources.Some? && targets.Some? && func.table != null &&
        AllFit(func.table.values, sources.value + targets.value);
      AttachOps(func);
      assert sources == old(sources) && targets == old(targets) && func.table == old(func.table);
      assert func.table != null ==> func.table.values == old(func.table.values);
      assert fits ==> AllFit(func.table.values, sources.value + targets.value);
      r := Register(func);
    }

    /**
     * The second half of `_set_parent`, once the region's function is
     * `func`: every source and then every target value is added to its
     * value table.
     */
    method Register(func: Function) returns (r: Result<(), PyError>)
      requires FuncOf(parent) == func
      modifies this`sources, this`targets, TableOf(func), TableLazy(func), Known(func)
      ensures r.Ok? ==> sources.Some? && targets.Some?
      ensures r.Ok? && |sources.value| + |targets.value| > 0 ==> func.table != null
      ensures r.Ok? ==> forall v :: v in sources.value + targets.value ==>
        v.table == func.table && v.id.Some? && v.id.value in v.table.values
      ensures old(sources).Some? && old(targets).Some? ==> sources == old(sources) && targets == old(targets)
      ensures old(sources).Some? && old(targets).Some? && old(func.table) == null ==>
        r == if |old(sources).value| + |old(targets).value| == 0 then Ok(()) else Err(AttributeError)
      ensures old(sources).Some? && old(targets).Some? && old(func.table) != null && r.Err? ==> r.error == ValueError
      ensures (old(sources).Some? && old(targets).Some? && old(func.table) != null && old(func.table.Bounded()) &&
               old(AllFit(func.table.values, sources.value + targets.value))) ==> r.Ok?
    {
      var e := Endpoints(func);
      if e.Err? {
        return Err(e.error);
      }
      r := AddTo(func, e.value);
    }

    /** The `sources` getter and then the `targets` getter, under the function `func`. */
    method Endpoints(func: Function) returns (r: Result<seq<Value>, PyError>)
      requires FuncOf(parent) == func
      modifies this`sources, this`targets, TableOf(func)`values
      ensures r.Ok? ==> sources.Some? && targets.Some? && r.value == sources.value + targets.value
      ensures r.Ok? ==> forall v :: v in r.value ==> v in old(Known(func)) || fresh(v)
      ensures old(sources).Some? && old(targets).Some? ==>
        r == Ok(old(sources).value + old(targets).value) && sources == old(sources) && targets == old(targets) &&
        unchanged(TableOf(func))
    {
      ghost var known := Known(func);
      var s := Sources();
      assert FuncOf(parent) == func;
      if s.Err? {
        return Err(s.error);
      }
      assert forall v :: v in s.value ==> v in known || fresh(v);
      ghost var known' := Known(func);
      assert forall v :: v in known' ==> v in known || fresh(v);
      var t := Targets();
      if t.Err? {
        return Err(t.error);
      }
      assert forall v :: v in t.value ==> v in known' || fresh(v);
      return Ok(s.value + t.value);
    }
  }

  // ---------------------------------------------------------------------------
  // Structured control flow.
  // ---------------------------------------------------------------------------

  /** `rg` is what `Region._read_from_buffer(reader)` made of it and nothing has been read or attached since. */
  predicate Unread(rg: Region, reader: RegionReader)
    reads rg
  {
    rg.raw == Some(reader) && rg.sources.None? && rg.targets.None? && rg.ops.None? &&
    rg.stray == map[] && rg.Count() == reader.operationCount
  }

  /** `[Region._read_from_buffer(r) for r in readers]`: a fresh, unread, detached region per reader. */
  method ReadRegions(readers: seq<RegionReader>) returns (rs: seq<Region>)
    ensures |rs| == |readers|
    ensures forall i :: 0 <= i < |rs| ==>
      fresh(rs[i]) && Unread(rs[i], readers[i]) && rs[i].parent == NoParent && !rs[i].lazy.dirty
  {
    rs := [];
    var i := 0;
    while i < |readers|
      invariant 0 <= i <= |readers| && |rs| == i
      invariant forall j :: 0 <= j < i ==>
        fresh(rs[j]) && Unread(rs[j], readers[j]) && rs[j].parent == NoParent && !rs[j].lazy.dirty
    {
      var rg := new Region.FromBuffer(readers[i]);
      rs := rs + [rg];
      i := i + 1;
    }
  }

  /** `for r in rs: r._parent = p`. */
  method ParentAll(rs: seq<Region>, p: Parent)
    modifies rs`parent
    ensures forall rg :: rg in rs ==> rg.parent == p
  {
    var i := 0;
    while i < |rs|
      modifies rs`parent
      invariant 0 <= i <= |rs|
      invariant forall rg :: rg in rs[..i] ==> rg.parent == p
    {
      rs[i].parent := p;
      assert rs[..i + 1] == rs[..i] + [rs[i]];
      i := i + 1;
    }
    assert rs[..i] == rs;
  }

  /** A switch's cached default: not loaded yet (`None`), known absent (`False`), or a region. */
  datatype DefaultSlot = Unloaded | Absent | Present(region: Region)

  /** What distinguishes the four `Scf` subclasses, with the regions each holds. */
  datatype ScfShape =
    | Switch(branches: Option<seq<Region>>, default: DefaultSlot)
    | For(body: Region)
    | While(condition: Region, body: Region)
    | DoWhile(body: Region, condition: Region)

  /** A structured-control-flow op type: its shape, backing buffer and owning op. */
  class Scf {
    var shape: ScfShape
    var raw: Option<ScfReader>
    var op: JeffOp?
    const lazy: PyLazy.LazyUpdate

    /**
     * `SwitchSCF(branches, default)`: the `branches` setter parents every
     * branch to the switch, and the `default` setter stores "absent" for no
     * default and otherwise parents the region to the switch, which has no
     * owning op yet and so no function to attach it to. A new op type is dirty.
     */
    constructor Switch(branches: seq<Region>, default: Option<Region>)
      modifies branches`parent, (if default.Some? then {default.value} else {})`parent
      ensures shape == ScfShape.Switch(Some(branches), if default.Some? then Present(default.value) else Absent)
      ensures forall b :: b in branches ==> b.parent == ScfParent(this)
      ensures default.Some? ==> default.value.parent == ScfParent(this)
      ensures raw == None && op == null && fresh(lazy) && lazy.dirty
    {
      shape := ScfShape.Switch(Some(branches), if default.Some? then Present(default.value) else Absent);
      raw := None;
      op := null;
      lazy := new PyLazy.LazyUpdate();
      new;
      ParentAll(branches, ScfParent(this));
      if default.Some? {
        default.value.parent := ScfParent(this);
      }
    }

    /** `ForSCF(body)`: the body is parented to the loop (no function yet) and stored. */
    constructor For(body: Region)
      modifies body`parent
      ensures shape == ScfShape.For(body) && body.parent == ScfParent(this)
      ensures raw == None && op == null && fresh(lazy) && lazy.dirty
    {
      shape := ScfShape.For(body);
      raw := None;
      op := null;
      lazy := new PyLazy.LazyUpdate();
      new;
      body.parent := ScfParent(this);
    }

    /** `WhileSCF(condition, body)`: both regions are parented to the loop and stored. */
    constructor While(condition: Region, body: Region)
      modifies condition`parent, body`parent
      ensures shape == ScfShape.While(condition, body)
      ensures condition.parent == ScfParent(this) && body.parent == ScfParent(this)
      ensures raw == None && op == null && fresh(lazy) && lazy.dirty
    {
      shape := ScfShape.While(condition, body);
      raw := None;
      op := null;
      lazy := new PyLazy.LazyUpdate();
      new;
      condition.parent := ScfParent(this);
      body.parent := ScfParent(this);
    }

    /** `DoWhileSCF(body, condition)`: both regions are parented to the loop and stored. */
    constructor DoWhile(body: Region, condition: Region)
      modifies body`parent, condition`parent
      ensures shape == ScfShape.DoWhile(body, condition)
      ensures condition.parent == ScfParent(this) && body.parent == ScfParent(this)
      ensures raw == None && op == null && fresh(lazy) && lazy.dirty
    {
      shape := ScfShape.DoWhile(body, condition);
      raw := None;
      op := null;
      lazy := new PyLazy.LazyUpdate();
      new;
      body.parent := ScfParent(this);
      condition.parent := ScfParent(this);
    }

    /**
     * `_read_from_buffer`, dispatching on the union tag. A switch goes
     * through the `SwitchSCF` constructor, whose `branches` and `default`
     * setters first force-read each region; a region just read from a buffer
     * has no parent, so its `sources` getter raises `ValueError`, and only a
     * switch with no branches and no default can be read. A loop's regions
     * are read and parented to it. An unknown tag raises `ValueError`. The
     * op type keeps the buffer and is clean.
     */
    static method FromBuffer(reader: ScfReader) returns (r: Result<Scf, PyError>)
      ensures reader.OtherScf? ==> r == Err(ValueError)
      ensures reader.SwitchReader? ==>
        (r.Ok? <==> |reader.branches| == 0 && reader.default.None?)
      ensures r.Err? ==> r.error == ValueError
      ensures r.Ok? ==> fresh(r.value) && r.value.raw == Some(reader) && r.value.op == null
      ensures r.Ok? ==> fresh(r.value.lazy) && !r.value.lazy.dirty
      ensures r.Ok? && reader.SwitchReader? ==> r.value.shape == ScfShape.Switch(Some([]), Absent)
      ensures r.Ok? && reader.ForReader? ==>
        r.value.shape.For? && fresh(r.value.shape.body) && Unread(r.value.shape.body, reader.body) &&
        r.value.shape.body.parent == ScfParent(r.value)
      ensures reader.WhileReader? ==>
        r.Ok? && r.value.shape.While? && fresh(r.value.shape.condition) && fresh(r.value.shape.body) &&
        Unread(r.value.shape.condition, reader.condition) && Unread(r.value.shape.body, reader.body) &&
        r.value.shape.condition.parent == ScfParent(r.value) && r.value.shape.body.parent == ScfParent(r.value)
      ensures reader.DoWhileReader? ==>
        r.Ok? && r.value.shape.DoWhile? && fresh(r.value.shape.condition) && fresh(r.value.shape.body) &&
        Unread(r.value.shape.condition, reader.condition) && Unread(r.value.shape.body, reader.body) &&
        r.value.shape.condition.parent == ScfParent(r.value) && r.value.shape.body.parent == ScfParent(r.value)
      ensures reader.ForReader? ==> r.Ok?
    {
      var scf: Scf;
      if reader.SwitchReader? {
        if |reader.branches| > 0 || reader.default.Some? {
          return Err(ValueError);
        }
        scf := new Scf.Switch([], None);
      } else if reader.ForReader? {
        var b := new Region.FromBuffer(reader.body);
        scf := new Scf.For(b);
      } else if reader.WhileReader? {
        var c := new Region.FromBuffer(reader.condition);
        var b := new Region.FromBuffer(reader.body);
        scf := new Scf.While(c, b);
      } else if reader.DoWhileReader? {
        var b := new Region.FromBuffer(reader.body);
        var c := new Region.FromBuffer(reader.condition);
        scf := new Scf.DoWhile(b, c);
      } else {
        return Err(ValueError);
      }
      scf.raw := Some(reader);
      scf.lazy.MarkClean();
      return Ok(scf);
    }

    /**
     * The `SwitchSCF.branches` getter. The cached list if there is one;
     * otherwise `ValueError` without a buffer; otherwise a fresh region is
     * read for each encoded branch, the list is cached, and each branch is
     * parented to the switch with `_set_parent`. Under a function that
     * raises `AttributeError` at the first branch, which, read from a
     * buffer, has no operation dict.
     */
    method Branches() returns (r: Result<seq<Region>, PyError>)
      requires shape.Switch? && (raw.None? || raw.value.SwitchReader?)
      modifies this`shape
      ensures shape.Switch? && shape.default == old(shape.default)
      ensures old(shape.branches).Some? ==> r == Ok(old(shape.branches).value) && shape == old(shape)
      ensures old(shape.branches).None? && raw.None? ==> r == Err(ValueError) && shape == old(shape)
      ensures old(shape.branches).None? && raw.Some? ==>
        shape.branches.Some? && |shape.branches.value| == |raw.value.branches| &&
        forall i :: 0 <= i < |raw.value.branches| ==>
          fresh(shape.branches.value[i]) && Unread(shape.branches.value[i], raw.value.branches[i])
      ensures old(shape.branches).None? && raw.Some? && ParentFunc() == null ==>
        r == Ok(shape.branches.value) && forall b :: b in shape.branches.value ==> b.parent == ScfParent(this)
      ensures old(shape.branches).None? && raw.Some? && ParentFunc() != null ==>
        r == if |raw.value.branches| == 0 then Ok([]) else Err(AttributeError)
    {
      if shape.branches.Some? {
        return Ok(shape.branches.value);
      }
      if raw.None? {
        return Err(ValueError);
      }
      var rs := ReadRegions(raw.value.branches);
      shape := shape.(branches := Some(rs));
      if ParentFunc() == null {
        ParentAll(rs, ScfParent(this));
        return Ok(rs);
      }
      if |rs| == 0 {
        return Ok([]);
      }
      rs[0].parent := ScfParent(this);
      return Err(AttributeError);
    }

    /**
     * The `SwitchSCF.default` getter over its three cache states. Unloaded:
     * `ValueError` without a buffer; a buffer without a default caches
     * "absent"; otherwise a fresh region is read, cached and parented to
     * the switch with `_set_parent` (which under a function raises
     * `AttributeError`, the region having no operation dict). Absent gives
     * none and a cached region gives itself.
     */
    method Default() returns (r: Result<Option<Region>, PyError>)
      requires shape.Switch? && (raw.None? || raw.value.SwitchReader?)
      modifies this`shape
      ensures shape.Switch? && shape.branches == old(shape.branches)
      ensures old(shape.default).Absent? ==> r == Ok(None) && shape == old(shape)
      ensures old(shape.default).Present? ==> r == Ok(Some(old(shape.default).region)) && shape == old(shape)
      ensures old(shape.default).Unloaded? && raw.None? ==> r == Err(ValueError) && shape == old(shape)
      ensures old(shape.default).Unloaded? && raw.Some? && raw.value.default.None? ==>
        r == Ok(None) && shape.default == Absent
      ensures old(shape.default).Unloaded? && raw.Some? && raw.value.default.Some? ==>
        shape.default.Present? && fresh(shape.default.region) &&
        Unread(shape.default.region, raw.value.default.value) &&
        shape.default.region.parent == ScfParent(this) &&
        r == if ParentFunc() == null then Ok(Some(shape.default.region)) else Err(AttributeError)
    {
      if shape.default.Absent? {
        return Ok(None);
      }
      if shape.default.Present? {
        return Ok(Some(shape.default.region));
      }
      if raw.None? {
        return Err(ValueError);
      }
      if raw.value.default.None? {
        shape := shape.(default := Absent);
        return Ok(None);
      }
      var rg := new Region.FromBuffer(raw.value.default.value);
      shape := shape.(default := Present(rg));
      rg.parent := ScfParent(this);
      if ParentFunc() != null {
        return Err(AttributeError);
      }
      return Ok(Some(rg));
    }

    /**
     * The `SwitchSCF.branches` setter: every branch is parented to the
     * switch, the list is stored and the switch is dirty.
     */
    method SetBranches(branches: seq<Region>)
      requires shape.Switch?
      modifies this`shape, lazy, branches`parent
      ensures shape == old(shape).(branches := Some(branches)) && lazy.dirty
      ensures forall b :: b in branches ==> b.parent == ScfParent(this)
    {
      ParentAll(branches, ScfParent(this));
      shape := shape.(branches := Some(branches));
      lazy.MarkDirty();
    }

    /** The `SwitchSCF.default` setter given `None`: the slot becomes "absent" and the switch is dirty. */
    method ClearDefault()
      requires shape.Switch?
      modifies this`shape, lazy
      ensures shape == old(shape).(default := Absent) && lazy.dirty
    {
      shape := shape.(default := Absent);
      lazy.MarkDirty();
    }

    /**
     * The `SwitchSCF.default` setter given a region: the region is parented
     * to the switch with `_set_parent` (whose exception propagates), then
     * stored, and the switch is dirty.
     */
    method SetDefault(rg: Region) returns (r: Result<(), PyError>)
      requires shape.Switch?
      modifies this`shape, lazy, rg`parent, rg`sources, rg`targets, rg.OpObjects()`func
      modifies TableOf(ParentFunc()), TableLazy(ParentFunc()), rg.Known(ParentFunc())
      ensures rg.parent == ScfParent(this)
      ensures r.Ok? ==> shape == old(shape).(default := Present(rg)) && lazy.dirty
      ensures r.Err? ==> shape == old(shape)
      ensures old(ParentFunc()) == null ==> r.Ok?
    {
      r := rg.SetParent(ScfParent(this));
      if r.Err? {
        return;
      }
      shape := shape.(default := Present(rg));
      lazy.MarkDirty();
    }

    /**
     * The loops' `body` setter: the region is parented to the loop with
     * `_set_parent` (whose exception propagates), then stored, and the loop
     * is dirty.
     */
    method SetBody(rg: Region) returns (r: Result<(), PyError>)
      requires !shape.Switch?
      modifies this`shape, lazy, rg`parent, rg`sources, rg`targets, rg.OpObjects()`func
      modifies TableOf(ParentFunc()), TableLazy(ParentFunc()), rg.Known(ParentFunc())
      ensures rg.parent == ScfParent(this)
      ensures r.Ok? ==> shape == old(shape).(body := rg) && lazy.dirty
      ensures r.Err? ==> shape == old(shape)
      ensures old(ParentFunc()) == null ==> r.Ok?
    {
      r := rg.SetParent(ScfParent(this));
      if r.Err? {
        return;
      }
      shape := shape.(body := rg);
      lazy.MarkDirty();
    }

    /** The `condition` setter of the while and do-while loops, the same as `SetBody`. */
    method SetCondition(rg: Region) returns (r: Result<(), PyError>)
      requires shape.While? || shape.DoWhile?
      modifies this`shape, lazy, rg`parent, rg`sources, rg`targets, rg.OpObjects()`func
      modifies TableOf(ParentFunc()), TableLazy(ParentFunc()), rg.Known(ParentFunc())
      ensures rg.parent == ScfParent(this)
      ensures r.Ok? ==> shape == old(shape).(condition := rg) && lazy.dirty
      ensures r.Err? ==> shape == old(shape)
      ensures old(ParentFunc()) == null ==> r.Ok?
    {
      r := rg.SetParent(ScfParent(this));
      if r.Err? {
        return;
      }
      shape := shape.(condition := rg);
      lazy.MarkDirty();
    }

    /** `parent_func`: the function of the owning op, or none without one. */
    function ParentFunc(): (f: Function?)
      reads this, op
      ensures op == null ==> f == null
    {
      if op == null then null else op.func
    }

    /** `op_kind`: always `SCF`. */
    function OpKind(): (k: PyKind.OpKind)
      ensures k == PyKind.Scf && k.Kind() == "scf"
    {
      PyKind.Scf
    }
  }

  // ---------------------------------------------------------------------------
  // Operations.
  // ---------------------------------------------------------------------------

  /** The op type an operation carries: a gate, a non-unitary qubit op, or a structured-control-flow op. */
  datatype OpType = GateOp(gate: PyGate.QubitGate) | NonUnitary(nonUnitary: PyNonUnitary.NonUnitaryOp) | ScfOp(scf: Scf)

  /** A generic operation: cached inputs and outputs, its op type, the buffer and the owning function. */
  class JeffOp {
    var raw: Option<OpReader>
    var func: Function?
    var inputs: Option<seq<Value>>
    var outputs: Option<seq<Value>>
    var opType: OpType
    const lazy: PyLazy.LazyUpdate

    /**
     * `JeffOp(op_type, inputs, outputs)`: links the op type back to this op,
     * stores both lists, and is dirty. The back link matters for a
     * structured-control-flow op type, whose regions find their function
     * through it.
     */
    constructor(opType: OpType, inputs: seq<Value>, outputs: seq<Value>)
      modifies if opType.ScfOp? then {opType.scf} else {}
      ensures this.opType == opType && this.inputs == Some(inputs) && this.outputs == Some(outputs)
      ensures opType.ScfOp? ==> opType.scf.op == this && opType.scf.shape == old(opType.scf.shape)
      ensures opType.ScfOp? ==> opType.scf.raw == old(opType.scf.raw)
      ensures raw == None && func == null && fresh(lazy) && lazy.dirty
    {
      this.opType := opType;
      this.inputs := Some(inputs);
      this.outputs := Some(outputs);
      raw := None;
      func := null;
      lazy := new PyLazy.LazyUpdate();
      new;
      if opType.ScfOp? {
        opType.scf.op := this;
      }
    }

    /**
     * The `inputs` getter. The cached list if there is one; otherwise
     * `ValueError` without a function or without a buffer; otherwise the
     * buffer's input ids are looked up in the function's value table, in
     * order, and cached, the cache keeping the prefix resolved before a
     * lookup raises.
     */
    method Inputs() returns (r: Result<seq<Value>, PyError>)
      modifies this`inputs, TableOf(func)`values
      ensures old(inputs).Some? ==> r == Ok(old(inputs).value) && inputs == old(inputs)
      ensures old(inputs).None? && (func == null || raw.None?) ==> r == Err(ValueError) && inputs == None
      ensures r.Ok? ==> inputs == Some(r.value)
      ensures old(inputs).None? && r.Ok? ==>
        |r.value| == |raw.value.inputs| && func != null &&
        (func.table != null ==> ResolvedAs(func.table.values, raw.value.inputs, r.value))
      ensures (old(inputs).None? && func != null && raw.Some? && func.table != null &&
               AllStored(old(func.table.values), func.table.len, raw.value.inputs)) ==> r.Ok?
      ensures r.Ok? ==> forall v :: v in r.value ==> v in old(CachedValues() + StoredIn(func)) || fresh(v)
    {
      if inputs.Some? {
        return Ok(inputs.value);
      }
      if func == null || raw.None? {
        return Err(ValueError);
      }
      var cached;
      cached, r := ResolveIn(func, raw.value.inputs);
      inputs := Some(cached);
    }

    /** The `outputs` getter, the same as `Inputs` on the output ids. */
    method Outputs() returns (r: Result<seq<Value>, PyError>)
      modifies this`outputs, TableOf(func)`values
      ensures old(outputs).Some? ==> r == Ok(old(outputs).value) && outputs == old(outputs)
      ensures old(outputs).None? && (func == null || raw.None?) ==> r == Err(ValueError) && outputs == None
      ensures r.Ok? ==> outputs == Some(r.value)
      ensures old(outputs).None? && r.Ok? ==>
        |r.value| == |raw.value.outputs| && func != null &&
        (func.table != null ==> ResolvedAs(func.table.values, raw.value.outputs, r.value))
      ensures (old(outputs).None? && func != null && raw.Some? && func.table != null &&
               AllStored(old(func.table.values), func.table.len, raw.value.outputs)) ==> r.Ok?
      ensures r.Ok? ==> forall v :: v in r.value ==> v in old(CachedValues() + StoredIn(func)) || fresh(v)
    {
      if outputs.Some? {
        return Ok(outputs.value);
      }
      if func == null || raw.None? {
        return Err(ValueError);
      }
      var cached;
      cached, r := ResolveIn(func, raw.value.outputs);
      outputs := Some(cached);
    }

    /** The values the cached input and output lists hold. */
    function CachedValues(): set<Value>
      reads this
    {
      (if inputs.Some? then set v | v in inputs.value else {}) +
      (if outputs.Some? then set v | v in outputs.value else {})
    }

    /**
     * The `inputs` setter: an op attached to a function first adds every
     * value to its value table (the first exception propagates, leaving the
     * list unset); then the list is stored and the op is dirty.
     */
    method SetInputs(vals: seq<Value>) returns (r: Result<(), PyError>)
      modifies this`inputs, lazy, TableOf(func), TableLazy(func), if func == null then {} else set v | v in vals
      ensures r.Err? ==> inputs == old(inputs)
      ensures r.Ok? ==> inputs == Some(vals) && lazy.dirty
      ensures func == null ==> r.Ok?
      ensures func != null && func.table == null ==> (r.Ok? <==> |vals| == 0)
      ensures func != null && r.Ok? ==> forall i :: 0 <= i < |vals| ==>
        vals[i].table == func.table && vals[i].id.Some? && vals[i].id.value in vals[i].table.values
    {
      r := AddTo(func, vals);
      if r.Err? {
        return;
      }
      inputs := Some(vals);
      lazy.MarkDirty();
    }

    /** The `outputs` setter, the same as `SetInputs` for the output list. */
    method SetOutputs(vals: seq<Value>) returns (r: Result<(), PyError>)
      modifies this`outputs, lazy, TableOf(func), TableLazy(func), if func == null then {} else set v | v in vals
      ensures r.Err? ==> outputs == old(outputs)
      ensures r.Ok? ==> outputs == Some(vals) && lazy.dirty
      ensures func == null ==> r.Ok?
      ensures func != null && func.table == null ==> (r.Ok? <==> |vals| == 0)
      ensures func != null && r.Ok? ==> forall i :: 0 <= i < |vals| ==>
        vals[i].table == func.table && vals[i].id.Some? && vals[i].id.value in vals[i].table.values
    {
      r := AddTo(func, vals);
      if r.Err? {
        return;
      }
      outputs := Some(vals);
      lazy.MarkDirty();
    }

    /** The `op_type` setter: the new op type is linked back to this op, stored, and the op is dirty. */
    method SetOpType(t: OpType)
      modifies this`opType, lazy, if t.ScfOp? then {t.scf} else {}
      ensures opType == t && lazy.dirty
      ensures t.ScfOp? ==> t.scf.op == this && t.scf.shape == old(t.scf.shape) && t.scf.raw == old(t.scf.raw)
    {
      if t.ScfOp? {
        t.scf.op := this;
      }
      opType := t;
      lazy.MarkDirty();
    }

    /** `kind`: the op type's `op_kind`, one per kind of op type. */
    function Kind(): (k: PyKind.OpKind)
      reads this
      ensures opType.GateOp? <==> k == PyKind.QubitGate
      ensures opType.NonUnitary? <==> k == PyKind.Qubit
      ensures opType.ScfOp? <==> k == PyKind.Scf
    {
      match opType
      case GateOp(_) => PyKind.QubitGate
      case NonUnitary(n) => n.OpKind()
      case ScfOp(s) => s.OpKind()
    }

    /**
     * `get_value(idx)`: `ValueError` without a function; otherwise the
     * lookup `value_table[idx]` in the function's table (`AttributeError`
     * when it has none).
     */
    method GetValue(idx: int) returns (r: Result<Value, PyError>)
      modifies TableOf(func)`values
      ensures func == null ==> r == Err(ValueError)
      ensures func != null && func.table == null ==> r == Err(AttributeError)
      ensures func != null && func.table != null ==>
        (r.Err? && r.error == IndexError <== (idx < 0 || idx >= func.table.len))
      ensures func != null && func.table != null && 0 <= idx < func.table.len && idx in old(func.table.values) ==>
        r == Ok(old(func.table.values)[idx]) && func.table.values == old(func.table.values)
      ensures func != null && func.table != null && r.Ok? ==>
        idx in func.table.values && r.value == func.table.values[idx]
    {
      if func == null {
        return Err(ValueError);
      }
      if func.table == null {
        return Err(AttributeError);
      }
      r := func.table.Get(idx);
    }

    /**
     * `_write_to_buffer`: reads the inputs through the getter and writes each
     * value's id in position, then the same for the outputs; a value with no
     * id cannot be stored in the id list and raises `TypeError`. Then it
     * dispatches on the kind: a gate or a structured-control-flow op type
     * writes itself, with outcome `payload` (that encoding is not part of
     * this model), and on success the op is clean; any other kind (the
     * non-unitary qubit ops) raises `ValueError`.
     */
    method Write(payload: Result<(), PyError>) returns (r: Result<OpRecord, PyError>)
      modifies this`inputs, this`outputs, TableOf(func)`values, lazy
      ensures r.Ok? ==> inputs.Some? && outputs.Some? && HaveIds(inputs.value) && HaveIds(outputs.value)
      ensures r.Ok? ==> r.value == OpRecord(PyValue.IdsOf(inputs.value), PyValue.IdsOf(outputs.value), Kind().Kind())
      ensures r.Ok? ==> !opType.NonUnitary? && payload.Ok? && !lazy.dirty
      ensures old(inputs).Some? && old(outputs).Some? ==>
        (r.Ok? <==> HaveIds(old(inputs).value) && HaveIds(old(outputs).value) && !opType.NonUnitary? && payload.Ok?)
      ensures old(inputs).Some? && !HaveIds(old(inputs).value) ==> r == Err(TypeError)
      ensures (old(inputs).Some? && old(outputs).Some? && HaveIds(old(inputs).value) && HaveIds(old(outputs).value) &&
               opType.NonUnitary?) ==> r == Err(ValueError)
      ensures (old(inputs).Some? && old(outputs).Some? && HaveIds(old(inputs).value) && HaveIds(old(outputs).value) &&
               !opType.NonUnitary? && payload.Err?) ==> r == Err(payload.error)
      ensures r.Err? ==> lazy.dirty == old(lazy.dirty)
    {
      var ids := WriteIds();
      if ids.Ok? {
        var done := WriteKind(payload);
        r := if done.Ok? then Ok(OpRecord(PyValue.IdsOf(ids.value.0), PyValue.IdsOf(ids.value.1), Kind().Kind()))
             else Err(done.error);
      } else {
        r := Err(ids.error);
      }
    }

    /**
     * The dispatch of `_write_to_buffer` once the ids are written: a gate or
     * a structured-control-flow op type writes itself with outcome `payload`
     * and the op is then clean; a non-unitary op raises `ValueError`.
     */
    method WriteKind(payload: Result<(), PyError>) returns (r: Result<(), PyError>)
      modifies lazy
      ensures r.Ok? <==> !opType.NonUnitary? && payload.Ok?
      ensures opType.NonUnitary? ==> r == Err(ValueError)
      ensures !opType.NonUnitary? && payload.Err? ==> r == Err(payload.error)
      ensures r.Ok? ==> !lazy.dirty
      ensures r.Err? ==> lazy.dirty == old(lazy.dirty)
    {
      if opType.NonUnitary? {
        return Err(ValueError);
      }
      if payload.Err? {
        return Err(payload.error);
      }
      lazy.MarkClean();
      return Ok(());
    }

    /**
     * The id lists of `_write_to_buffer`: the inputs are read and each id
     * stored in position, then the outputs; a value with no id raises
     * `TypeError` where it is stored.
     */
    method WriteIds() returns (r: Result<(seq<Value>, seq<Value>), PyError>)
      modifies this`inputs, this`outputs, TableOf(func)`values
      ensures r.Ok? ==> inputs == Some(r.value.0) && outputs == Some(r.value.1)
      ensures r.Ok? ==> HaveIds(r.value.0) && HaveIds(r.value.1)
      ensures old(inputs).Some? && old(outputs).Some? ==>
        (r.Ok? <==> HaveIds(old(inputs).value) && HaveIds(old(outputs).value)) &&
        (r.Ok? ==> r.value == (old(inputs).value, old(outputs).value))
      ensures old(inputs).Some? && !HaveIds(old(inputs).value) ==> r == Err(TypeError)
      ensures old(inputs).Some? && old(outputs).Some? && r.Err? ==> r.error == TypeError
    {
      var ins := Inputs();
      if ins.Err? {
        return Err(ins.error);
      }
      if !HaveIds(ins.value) {
        return Err(TypeError);
      }
      var outs := Outputs();
      if outs.Err? {
        return Err(outs.error);
      }
      if !HaveIds(outs.value) {
        return Err(TypeError);
      }
      return Ok((ins.value, outs.value));
    }
  }

  /** Every value of `vals` carries an id. */
  predicate HaveIds(vals: seq<Value>)
    reads vals
  {
    forall i :: 0 <= i < |vals| ==> vals[i].id.Some?
  }

  /** What `_write_to_buffer` puts in an op record: the ids in position and the instruction group. */
  datatype OpRecord = OpRecord(inputs: seq<Option<int>>, outputs: seq<Option<int>>, group: string)

  // ---------------------------------------------------------------------------
  // The breadth-first walk over nested regions.
  // ---------------------------------------------------------------------------

  /**
   * How `subregions_bfs` stops: the loop condition meets a region with no
   * operations (regions are falsy when empty), an exception escapes (the
   * empty deque's `IndexError` among them), the walk reaches a switch whose
   * branches or default are still to be read from its buffer, or the fuel
   * runs out.
   */
  datatype WalkEnd = Finished | Raised(error: PyError) | NotRead | OutOfFuel

  /**
   * The loop condition of `subregions_bfs`. `AsWritten` is
   * `while region := queue.popleft()`: popping an empty deque raises
   * `IndexError`, and a region with no operations is falsy and ends the
   * walk unyielded. `Intended` runs while the deque is non-empty and
   * yields every region it pops.
   */
  datatype Loop = AsWritten | Intended

  /**
   * The regions one op type queues, in order: a switch's branches and then
   * its default when there is one with operations, a for loop's body, and a
   * while or do-while loop's condition and then its body.
   */
  function ScfChildren(s: Scf): (r: Result<seq<Region>, WalkEnd>)
    reads *
  {
    match s.shape
    case Switch(branches, default) =>
      if branches.None? || default.Unloaded? then Err(if s.raw.None? then Raised(ValueError) else NotRead)
      else Ok(branches.value + if default.Present? && default.region.Count() > 0 then [default.region] else [])
    case For(body) => Ok([body])
    case While(condition, body) => Ok([condition, body])
    case DoWhile(body, condition) => Ok([condition, body])
  }

  /** The regions the ops `i ..` of `rg` queue, read through `rg[i]`, stopping at the first exception. */
  function OpsChildren(rg: Region, i: nat): (r: Result<seq<Region>, WalkEnd>)
    reads *
    decreases rg.Count() - i
  {
    if i >= rg.Count() then Ok([])
    else match rg.Get(i)
      case Err(e) => Err(Raised(e))
      case Ok(op) =>
        var here := if op.opType.ScfOp? then ScfChildren(op.opType.scf) else Ok([]);
        if here.Err? then here
        else
          var rest := OpsChildren(rg, i + 1);
          if rest.Err? then rest else Ok(here.value + rest.value)
  }

  /**
   * How the walk from the deque `queue` stops before yielding anything, if
   * it does: as written, popping an empty deque raises `IndexError` and an
   * empty head ends it; as intended, an empty deque ends it; with no fuel
   * left it runs out.
   */
  function StopBefore(queue: seq<Region>, fuel: nat, loop: Loop): (stop: Option<WalkEnd>)
    reads queue
    ensures stop.None? <==> |queue| > 0 && fuel > 0 && (loop == AsWritten ==> queue[0].Count() > 0)
    ensures |queue| == 0 ==> stop == Some(if loop == AsWritten then Raised(IndexError) else Finished)
  {
    if |queue| == 0 then Some(if loop == AsWritten then Raised(IndexError) else Finished)
    else if loop == AsWritten && queue[0].Count() == 0 then Some(Finished)
    else if fuel == 0 then Some(OutOfFuel)
    else None
  }

  /**
   * `subregions_bfs` from the deque `queue` under the loop condition
   * `loop`, yielding at most `fuel` regions: the regions yielded and how the
   * walk stops. As written, the head is popped (`IndexError` when there is
   * none) and an empty head ends the walk without being yielded; as
   * intended, an empty deque ends the walk. Otherwise the head is yielded
   * and its ops' regions are queued.
   */
  function Bfs(queue: seq<Region>, fuel: nat, loop: Loop): (r: (seq<Region>, WalkEnd))
    reads *
    decreases fuel
  {
    var stop := StopBefore(queue, fuel, loop);
    if stop.Some? then ([], stop.value)
    else
      var kids := OpsChildren(queue[0], 0);
      if kids.Err? then ([queue[0]], kids.error)
      else
        var rest := Bfs(queue[1..] + kids.value, fuel - 1, loop);
        ([queue[0]] + rest.0, rest.1)
  }

  /**
   * One step of the walk after the regions `done`: the head is yielded, and
   * then either its ops fail or the walk goes on with their regions queued.
   */
  lemma BfsStep(done: seq<Region>, queue: seq<Region>, fuel: nat, loop: Loop)
    requires StopBefore(queue, fuel, loop).None?
    ensures OpsChildren(queue[0], 0).Err? ==>
      (done + Bfs(queue, fuel, loop).0, Bfs(queue, fuel, loop).1) == (done + [queue[0]], OpsChildren(queue[0], 0).error)
    ensures OpsChildren(queue[0], 0).Ok? ==>
      (done + Bfs(queue, fuel, loop).0, Bfs(queue, fuel, loop).1) ==
        (done + [queue[0]] + Bfs(queue[1..] + OpsChildren(queue[0], 0).value, fuel - 1, loop).0,
         Bfs(queue[1..] + OpsChildren(queue[0], 0).value, fuel - 1, loop).1)
  {
    var kids := OpsChildren(queue[0], 0);
    if kids.Ok? {
      var rest := Bfs(queue[1..] + kids.value, fuel - 1, loop);
      assert done + ([queue[0]] + rest.0) == done + [queue[0]] + rest.0;
    }
  }

  /**
   * A region the walk passes through: its ops' regions can all be found,
   * and as written it also needs operations.
   */
  predicate Walkable(rg: Region, loop: Loop)
    reads *
  {
    (loop == Intended || rg.Count() > 0) && OpsChildren(rg, 0).Ok?
  }

  /**
   * Breadth-first order: every region already in the deque is yielded, in
   * deque order, before any region queued behind it, as long as those
   * regions can be walked and the fuel lasts.
   */
  lemma {:induction false} BfsYieldsQueueFirst(p: seq<Region>, q: seq<Region>, fuel: nat, loop: Loop)
    requires forall i :: 0 <= i < |p| ==> Walkable(p[i], loop)
    requires fuel >= |p|
    ensures |Bfs(p + q, fuel, loop).0| >= |p| && Bfs(p + q, fuel, loop).0[..|p|] == p
  {
    if |p| > 0 {
      var kids := OpsChildren(p[0], 0).value;
      assert (p + q)[0] == p[0];
      assert (p + q)[1..] + kids == p[1..] + (q + kids);
      BfsYieldsQueueFirst(p[1..], q + kids, fuel - 1, loop);
    }
  }

  /** The ops `i ..` of a region holding only gates and non-unitary ops queue nothing. */
  lemma {:induction false} FlatOpsChildren(rg: Region, i: nat)
    requires rg.ops.Some?
    requires forall j :: 0 <= j < |rg.ops.value| ==> !rg.ops.value[j].opType.ScfOp?
    ensures OpsChildren(rg, i) == Ok([])
    decreases rg.Count() - i
  {
    if i < rg.Count() {
      FlatOpsChildren(rg, i + 1);
      assert rg.Get(i) == Ok(rg.ops.value[i]);
      assert !rg.ops.value[i].opType.ScfOp?;
      assert OpsChildren(rg, i + 1) == Ok([]);
      var none: seq<Region> := [];
      assert none + none == none;
      assert OpsChildren(rg, i) == Ok(none + none);
    }
  }

  /**
   * The walk never ends by running out of regions normally: from a region
   * with operations but no structured-control-flow op it yields that region
   * and then raises `IndexError` on the empty deque.
   */
  lemma FlatRegionRaises(rg: Region, fuel: nat)
    requires rg.ops.Some? && |rg.ops.value| > 0 && fuel > 0
    requires forall j :: 0 <= j < |rg.ops.value| ==> !rg.ops.value[j].opType.ScfOp?
    ensures Bfs([rg], fuel, AsWritten) == ([rg], Raised(IndexError))
  {
    FlatOpsChildren(rg, 0);
    var none: seq<Region> := [];
    assert [rg][1..] + none == none;
    assert Bfs(none, fuel - 1, AsWritten) == (none, Raised(IndexError));
    assert [rg] + none == [rg];
  }

  /**
   * Under the intended loop condition the same walk, and the walk from a
   * region with no operations at all, yields the region and finishes.
   */
  lemma FlatRegionFinishes(rg: Region, fuel: nat)
    requires rg.ops.Some? && fuel > 0
    requires forall j :: 0 <= j < |rg.ops.value| ==> !rg.ops.value[j].opType.ScfOp?
    ensures Bfs([rg], fuel, Intended) == ([rg], Finished)
  {
    FlatOpsChildren(rg, 0);
    var none: seq<Region> := [];
    assert [rg][1..] + none == none;
    assert Bfs(none, fuel - 1, Intended) == (none, Finished);
    assert [rg] + none == [rg];
  }

  /**
   * A region whose one operation is a while loop yields itself, then the
   * loop's condition, then its body, when those can be walked.
   */
  lemma WhileLoopOrder(rg: Region, op: JeffOp, fuel: nat, loop: Loop)
    requires rg.ops == Some([op]) && op.opType.ScfOp? && op.opType.scf.shape.While?
    requires Walkable(op.opType.scf.shape.condition, loop) && Walkable(op.opType.scf.shape.body, loop)
    requires fuel >= 3
    ensures |Bfs([rg], fuel, loop).0| >= 3
    ensures Bfs([rg], fuel, loop).0[..3] == [rg, op.opType.scf.shape.condition, op.opType.scf.shape.body]
  {
    var c := op.opType.scf.shape.condition;
    var b := op.opType.scf.shape.body;
    assert rg.Get(0) == Ok(op);
    var none: seq<Region> := [];
    assert OpsChildren(rg, 1) == Ok(none);
    assert ScfChildren(op.opType.scf) == Ok([c, b]);
    assert [c, b] + none == [c, b];
    assert OpsChildren(rg, 0) == Ok([c, b]);
    BfsYieldsQueueFirst([c, b], [], fuel - 1, loop);
    assert [rg][1..] + [c, b] == [c, b] + [];
  }

  // ---------------------------------------------------------------------------
  // Collecting a value table from a region.
  // ---------------------------------------------------------------------------

  /**
   * A value list as `_collect_from_region` reads it through a getter: the
   * cached list; with nothing cached, the getter's `ValueError` when there is
   * no function or no buffer to read from, and otherwise `NotRead` (a read
   * through the function's value table, which a program under construction
   * does not need).
   */
  function Listed(cached: Option<seq<Value>>, unreadable: bool): (r: Result<seq<Value>, WalkEnd>)
    ensures r.Ok? <==> cached.Some?
    ensures r.Ok? ==> r.value == cached.value
    ensures cached.None? ==> r.error == if unreadable then Raised(ValueError) else NotRead
  {
    if cached.Some? then Ok(cached.value)
    else Err(if unreadable then Raised(ValueError) else NotRead)
  }

  /** `op.inputs + op.outputs` for the ops `i ..` of `rg`, read through `rg[i]`, in order. */
  function OpAppearances(rg: Region, i: nat): (r: Result<seq<Value>, WalkEnd>)
    reads *
    decreases rg.Count() - i
  {
    if i >= rg.Count() then Ok([])
    else match rg.Get(i)
      case Err(e) => Err(Raised(e))
      case Ok(op) =>
        var unreadable := op.func == null || op.raw.None?;
        var ins := Listed(op.inputs, unreadable);
        if ins.Err? then ins
        else
          var outs := Listed(op.outputs, unreadable);
          if outs.Err? then outs
          else
            var rest := OpAppearances(rg, i + 1);
            if rest.Err? then rest else Ok(ins.value + outs.value + rest.value)
  }

  /**
   * The values `_collect_from_region` hands to `add_value` for the regions
   * `rs`, in order: per region its sources, its targets, and then each op's
   * inputs and outputs; the first getter exception stops it.
   */
  function Appearances(rs: seq<Region>): (r: Result<seq<Value>, WalkEnd>)
    reads *
  {
    if |rs| == 0 then Ok([])
    else
      var rg := rs[0];
      var unreadable := FuncOf(rg.parent) == null || rg.raw.None?;
      var srcs := Listed(rg.sources, unreadable);
      if srcs.Err? then srcs
      else
        var tgts := Listed(rg.targets, unreadable);
        if tgts.Err? then tgts
        else
          var ops := OpAppearances(rg, 0);
          if ops.Err? then ops
          else
            var rest := Appearances(rs[1..]);
            if rest.Err? then rest else Ok(srcs.value + tgts.value + ops.value + rest.value)
  }

  /** What the walk from `region` hands to `add_value`, or what stops it first. */
  function Gathered(region: Region, fuel: nat, loop: Loop): (r: Result<seq<Value>, WalkEnd>)
    reads *
  {
    Appearances(Bfs([region], fuel, loop).0)
  }

  /** The values `Gathered` lists (none when it stops early). */
  function CollectedValues(region: Region, fuel: nat, loop: Loop): (vals: set<Value>)
    reads *
  {
    var found := Gathered(region, fuel, loop);
    if found.Ok? then set v | v in found.value else {}
  }

  /**
   * `ValueTable._collect_from_region(region)`: the values of every region
   * the walk yields are gathered and numbered into a new table (see
   * `PyValue.ValueTable.Collect`). The walk ends only through an exception
   * or at a region with no operations; a getter exception while gathering
   * a yielded region comes first, then the walk's own, and only a walk that
   * finishes normally produces a table. Gathering reads cached lists and
   * leaves the regions and ops as they are, so walking first and gathering
   * afterwards sees what the interleaved generator sees.
   */
  method CollectFromRegion(region: Region, fuel: nat, loop: Loop) returns (r: Result<PyValue.ValueTable, WalkEnd>)
    modifies CollectedValues(region, fuel, loop)
    ensures r.Ok? <==> old(Gathered(region, fuel, loop)).Ok? && old(Bfs([region], fuel, loop)).1 == Finished
    ensures r.Err? && old(Gathered(region, fuel, loop)).Ok? ==> r.error == old(Bfs([region], fuel, loop)).1
    ensures r.Err? && old(Gathered(region, fuel, loop)).Err? ==> r.error == old(Gathered(region, fuel, loop)).error
    ensures r.Ok? ==> fresh(r.value) && fresh(r.value.lazy) && r.value.raw == None
    ensures r.Ok? ==> forall v :: v in old(CollectedValues(region, fuel, loop)) ==> v.table == r.value
    ensures r.Ok? ==> r.value.Numbered(
      PyValue.Keyed(old(Gathered(region, fuel, loop)).value, old(PyValue.IdsOf(Gathered(region, fuel, loop).value))),
      PyValue.Queued(old(Gathered(region, fuel, loop)).value, old(PyValue.IdsOf(Gathered(region, fuel, loop).value))))
    ensures r.Ok? ==> forall k :: k in r.value.values ==> r.value.values[k] in old(Gathered(region, fuel, loop)).value
    ensures r.Ok? ==> forall i ::
      (0 <= i < |old(Gathered(region, fuel, loop)).value| && old(Gathered(region, fuel, loop).value[i].id).None?) ==>
      old(Gathered(region, fuel, loop)).value[i].id.Some? &&
      old(Gathered(region, fuel, loop)).value[i].id.value in r.value.values &&
      r.value.values[old(Gathered(region, fuel, loop)).value[i].id.value] == old(Gathered(region, fuel, loop)).value[i]
  {
    var found, end := WalkAndGather(region, fuel, loop);
    if found.Err? {
      return Err(found.error);
    }
    if end != Finished {
      return Err(end);
    }
    var vals := found.value;
    assert (set v | v in vals) == CollectedValues(region, fuel, loop);
    assert vals == old(Gathered(region, fuel, loop)).value;
    assert PyValue.IdsOf(vals) == old(PyValue.IdsOf(Gathered(region, fuel, loop).value));
    assert forall i :: 0 <= i < |vals| ==> vals[i].id == old(Gathered(region, fuel, loop).value[i].id);
    var table := PyValue.ValueTable.Collect(vals);
    return Ok(table);
  }

  /** The `for region in region.subregions_bfs()` loop of `_collect_from_region`: what it gathers and how the walk ends. */
  method WalkAndGather(region: Region, fuel: nat, loop: Loop) returns (found: Result<seq<Value>, WalkEnd>, end: WalkEnd)
    ensures found == Gathered(region, fuel, loop) && end == Bfs([region], fuel, loop).1
  {
    var yielded;
    yielded, end := region.SubregionsBfs(fuel, loop);
    found := Appearances(yielded);
  }

  /** `_collect_from_region` gets through: every yielded region is gathered and the walk finishes. */
  predicate Collects(region: Region, fuel: nat, loop: Loop)
    reads *
  {
    Gathered(region, fuel, loop).Ok? && Bfs([region], fuel, loop).1 == Finished
  }

  /**
   * The walk yields `region` first (as written, only when it has
   * operations), so what is gathered starts with its sources and then its
   * targets.
   */
  lemma GatheredStartsWith(region: Region, fuel: nat, loop: Loop)
    requires (loop == Intended || region.Count() > 0) && fuel > 0 && Gathered(region, fuel, loop).Ok?
    ensures region.sources.Some? && region.targets.Some?
    ensures region.sources.value + region.targets.value <= Gathered(region, fuel, loop).value
  {
    var walk := Bfs([region], fuel, loop).0;
    assert walk[0] == region;
    var unreadable := FuncOf(region.parent) == null || region.raw.None?;
    var srcs := Listed(region.sources, unreadable);
    var tgts := Listed(region.targets, unreadable);
    assert srcs.Ok? && tgts.Ok?;
  }

  // ---------------------------------------------------------------------------
  // Functions and the module.
  // ---------------------------------------------------------------------------

  /** Which `Function` subclass an object is. */
  datatype FunctionKind = Definition | Declaration

  /**
   * A function definition (a body region and its value table) or declaration
   * (cached input and output values), with its cached name, buffer and module.
   */
  class Function {
    const kind: FunctionKind
    var name: Option<string>
    var raw: Option<FunctionReader>
    var owner: Module?
    var body: Region?
    var table: PyValue.ValueTable?
    var inputs: Option<seq<Value>>
    var outputs: Option<seq<Value>>
    const lazy: PyLazy.LazyUpdate

    /** `FunctionDecl(name, inputs, outputs)`: caches all three and is dirty. */
    constructor Declare(name: string, inputs: seq<Value>, outputs: seq<Value>)
      ensures kind == Declaration && this.name == Some(name)
      ensures this.inputs == Some(inputs) && this.outputs == Some(outputs)
      ensures raw == None && owner == null && body == null && table == null
      ensures fresh(lazy) && lazy.dirty
    {
      kind := Declaration;
      this.name := Some(name);
      this.inputs := Some(inputs);
      this.outputs := Some(outputs);
      raw := None;
      owner := null;
      body := null;
      table := null;
      lazy := new PyLazy.LazyUpdate();
    }

    /**
     * A `FunctionDef` object before `__init__` has assigned anything: no
     * name, body or value table, and the class-level dirty flag.
     */
    constructor Blank()
      ensures kind == Definition && name == None && raw == None && owner == null
      ensures body == null && table == null && inputs == None && outputs == None
      ensures fresh(lazy) && lazy.dirty
    {
      kind := Definition;
      name := None;
      raw := None;
      owner := null;
      body := null;
      table := null;
      inputs := None;
      outputs := None;
      lazy := new PyLazy.LazyUpdate();
    }

    /** `is_definition`. */
    predicate IsDefinition()
    {
      kind == Definition
    }

    /** `is_declaration`: a function is exactly one of the two. */
    predicate IsDeclaration()
      ensures IsDeclaration() <==> !IsDefinition()
    {
      kind == Declaration
    }

    /** The string table of the owning module, when there is one. */
    function OwnerStrings(): set<PyStringTable.StringTable>
      reads this
    {
      if owner == null then {} else {owner.strings}
    }

    /**
     * The `name` getter: the cached name; without one, `ValueError` when there
     * is no module or no buffer, and otherwise the buffer's string index
     * looked up in the module's string table (its exception propagates) and
     * cached.
     */
    method Name() returns (r: Result<string, PyError>)
      modifies this`name, OwnerStrings()`strings, OwnerStrings()`reverse
      ensures old(name).Some? ==> r == Ok(old(name).value) && name == old(name)
      ensures old(name).None? && (owner == null || raw.None?) ==> r == Err(ValueError) && name == None
      ensures old(name).None? && owner != null && raw.Some? ==>
        r == old(owner.strings.Peek(raw.value.name)) && name == (if r.Ok? then Some(r.value) else None)
      ensures owner != null && old(owner.strings.Valid()) ==> owner.strings.Valid()
      ensures owner != null ==> forall n :: n in old(owner.strings.reverse) ==> n in owner.strings.reverse
    {
      if name.Some? {
        return Ok(name.value);
      }
      if owner == null || raw.None? {
        return Err(ValueError);
      }
      r := owner.strings.Get(raw.value.name);
      if r.Ok? {
        name := Some(r.value);
      }
    }

    /** The `name` setter: caches the name and marks the function dirty. */
    method SetName(n: string)
      modifies this`name, lazy
      ensures name == Some(n) && lazy.dirty
    {
      name := Some(n);
      lazy.MarkDirty();
    }

    /** The `value_table` setter of a definition: replaces the table and marks the function dirty. */
    method SetTable(t: PyValue.ValueTable)
      requires kind == Definition
      modifies this`table, lazy
      ensures table == t && lazy.dirty
    {
      table := t;
      lazy.MarkDirty();
    }

    /**
     * The `body` setter of a definition: every operation the body lists
     * (`body.operations`, whose exception propagates) is attached to this
     * function, the body's parent becomes this function, and the new body
     * is stored and the function dirty. Unlike `_set_parent`, no value is
     * added to the value table.
     */
    method SetBody(rg: Region) returns (r: Result<(), PyError>)
      requires kind == Definition
      modifies this`body, lazy, rg`parent, rg.OpObjects()`func
      ensures r.Err? <==> rg.ops.None? && rg.Count() > 0
      ensures r.Err? ==> r.error == AttributeError && body == old(body) && rg.parent == old(rg.parent)
      ensures r.Ok? ==> body == rg && rg.parent == FuncParent(this) && lazy.dirty
      ensures r.Ok? ==> forall i :: 0 <= i < rg.Count() ==> rg.Get(i).value.func == this
    {
      var listed := rg.Operations();
      if listed.Err? {
        assert rg.ops.None? && rg.Count() > 0;
        return Err(listed.error);
      }
      assert rg.Count() > 0 ==> rg.Get(0).Ok?;
      var list := listed.value;
      assert rg.ops.Some? ==> list == rg.ops.value;
      for i := 0 to |list|
        modifies rg.OpObjects()`func
        invariant forall j :: 0 <= j < i ==> list[j].func == this
      {
        list[i].func := this;
      }
      rg.parent := FuncParent(this);
      body := rg;
      lazy.MarkDirty();
      return Ok(());
    }

    /** `len(f)` of a definition: the body's operation count. */
    function Len(): (r: Result<nat, PyError>)
      requires kind == Definition
      reads this, body
      ensures r.Ok? <==> body != null
      ensures r.Err? ==> r.error == AttributeError
      ensures r.Ok? ==> r.value == body.Count()
    {
      if body == null then Err(AttributeError) else Ok(body.Count())
    }

    /** `f[idx]` of a definition: the body's operation `idx`. */
    function Get(idx: int): (r: Result<JeffOp, PyError>)
      requires kind == Definition
      reads this, body
      ensures body == null ==> r == Err(AttributeError)
      ensures body != null ==> (r == Err(IndexError) <==> idx < 0 || idx >= Len().value)
      ensures body != null && body.ops.Some? ==> (r.Ok? <==> 0 <= idx < Len().value)
      ensures r.Ok? ==> body != null && body.ops.Some? && r.value == body.ops.value[idx]
    {
      if body == null then Err(AttributeError) else body.Get(idx)
    }

    /**
     * The `inputs` getter of a declaration: the cached list, or the values
     * read from the buffer's declaration and cached; no buffer is an
     * `AttributeError`, and so is a buffer that does not hold a declaration.
     */
    method DeclInputs() returns (r: Result<seq<Value>, PyError>)
      requires kind == Declaration
      modifies this`inputs
      ensures old(inputs).Some? ==> r == Ok(old(inputs).value) && inputs == old(inputs)
      ensures old(inputs).None? && (raw.None? || !raw.value.body.DeclarationReader?) ==>
        r == Err(AttributeError) && inputs == None
      ensures old(inputs).None? && raw.Some? && raw.value.body.DeclarationReader? ==>
        (r.Ok? <==> forall i :: 0 <= i < |raw.value.body.inputs| ==> PyType.ReadType(raw.value.body.inputs[i]).Ok?) &&
        (r.Ok? ==> |r.value| == |raw.value.body.inputs| &&
                   forall i :: 0 <= i < |r.value| ==> r.value[i].ty == PyType.ReadType(raw.value.body.inputs[i]).value)
      ensures r.Ok? ==> inputs == Some(r.value)
      ensures r.Err? ==> inputs == None
    {
      if inputs.Some? {
        return Ok(inputs.value);
      }
      if raw.None? || !raw.value.body.DeclarationReader? {
        return Err(AttributeError);
      }
      r := ReadValues(raw.value.body.inputs);
      if r.Ok? {
        inputs := Some(r.value);
      }
    }

    /** The `outputs` getter of a declaration, the same as `DeclInputs` for the output list. */
    method DeclOutputs() returns (r: Result<seq<Value>, PyError>)
      requires kind == Declaration
      modifies this`outputs
      ensures old(outputs).Some? ==> r == Ok(old(outputs).value) && outputs == old(outputs)
      ensures old(outputs).None? && (raw.None? || !raw.value.body.DeclarationReader?) ==>
        r == Err(AttributeError) && outputs == None
      ensures old(outputs).None? && raw.Some? && raw.value.body.DeclarationReader? ==>
        (r.Ok? <==> forall i :: 0 <= i < |raw.value.body.outputs| ==> PyType.ReadType(raw.value.body.outputs[i]).Ok?) &&
        (r.Ok? ==> |r.value| == |raw.value.body.outputs| &&
                   forall i :: 0 <= i < |r.value| ==> r.value[i].ty == PyType.ReadType(raw.value.body.outputs[i]).value)
      ensures r.Ok? ==> outputs == Some(r.value)
      ensures r.Err? ==> outputs == None
    {
      if outputs.Some? {
        return Ok(outputs.value);
      }
      if raw.None? || !raw.value.body.DeclarationReader? {
        return Err(AttributeError);
      }
      r := ReadValues(raw.value.body.outputs);
      if r.Ok? {
        outputs := Some(r.value);
      }
    }

    /** The `inputs` setter of a declaration: caches the list and marks the function dirty. */
    method SetDeclInputs(vals: seq<Value>)
      requires kind == Declaration
      modifies this`inputs, lazy
      ensures inputs == Some(vals) && lazy.dirty
    {
      inputs := Some(vals);
      lazy.MarkDirty();
    }

    /** The `outputs` setter of a declaration: caches the list and marks the function dirty. */
    method SetDeclOutputs(vals: seq<Value>)
      requires kind == Declaration
      modifies this`outputs, lazy
      ensures outputs == Some(vals) && lazy.dirty
    {
      outputs := Some(vals);
      lazy.MarkDirty();
    }

    /**
     * `function_type`: the types of a definition's body sources and targets
     * (read through the region getters), or of a declaration's inputs and
     * outputs; a definition without a body raises `AttributeError`. With the
     * lists cached nothing can go wrong and the signature is their types.
     */
    method Signature() returns (r: Result<(seq<PyType.JeffType>, seq<PyType.JeffType>), PyError>)
      modifies this`inputs, this`outputs
      modifies if body == null then {} else {body}, if body == null then {} else TableOf(FuncOf(body.parent))
      ensures kind == Definition && body == null ==> r == Err(AttributeError)
      ensures kind == Definition && body != null && r.Ok? ==>
        body.sources.Some? && body.targets.Some? && r.value == (TypesOf(body.sources.value), TypesOf(body.targets.value))
      ensures kind == Definition && body != null && old(body.sources).Some? && old(body.targets).Some? ==>
        r == Ok((TypesOf(old(body.sources).value), TypesOf(old(body.targets).value)))
      ensures kind == Declaration && r.Ok? ==>
        inputs.Some? && outputs.Some? && r.value == (TypesOf(inputs.value), TypesOf(outputs.value))
      ensures kind == Declaration && old(inputs).Some? && old(outputs).Some? ==>
        r == Ok((TypesOf(old(inputs).value), TypesOf(old(outputs).value)))
    {
      if kind == Definition {
        if body == null {
          return Err(AttributeError);
        }
        var s := body.Sources();
        if s.Err? {
          return Err(s.error);
        }
        var t := body.Targets();
        if t.Err? {
          return Err(t.error);
        }
        return Ok((TypesOf(s.value), TypesOf(t.value)));
      }
      var ins := DeclInputs();
      if ins.Err? {
        return Err(ins.error);
      }
      var outs := DeclOutputs();
      if outs.Err? {
        return Err(outs.error);
      }
      return Ok((TypesOf(ins.value), TypesOf(outs.value)));
    }

    /** The state `FunctionDef(name, body)` leaves behind when it returns. */
    predicate Defines(name: string, body: Region, ops: set<JeffOp>)
      reads this, lazy, body, ops
    {
      kind == Definition && this.name == Some(name) && this.body == body && table != null &&
      body.parent == FuncParent(this) && owner == null && raw == None && lazy.dirty &&
      (forall op :: op in ops ==> op.func == this)
    }

    /**
     * `FunctionDef(name, body)` as written: the value table is collected from
     * the body (its exceptions propagate), and then `body._set_parent(self)`
     * runs before `self._value_table` is assigned. Attaching the body adds
     * its sources and targets to `self.value_table`, an attribute the new
     * object does not have yet, so a body with any source or target raises
     * `AttributeError`; only a body with an empty signature gets through, and
     * then the name, body and table are stored and the function is dirty.
     */
    static method NewDefinition(name: string, body: Region, fuel: nat) returns (r: Result<Function, WalkEnd>)
      modifies CollectedValues(body, fuel, AsWritten), body`parent, body`sources, body`targets, body.OpObjects()`func
      modifies body.CachedValues()
      ensures old(Gathered(body, fuel, AsWritten)).Err? ==> r == Err(old(Gathered(body, fuel, AsWritten)).error)
      ensures old(Gathered(body, fuel, AsWritten)).Ok? && old(Bfs([body], fuel, AsWritten)).1 != Finished ==>
        r == Err(old(Bfs([body], fuel, AsWritten)).1)
      ensures old(Collects(body, fuel, AsWritten)) && body.ops.None? ==> r == Err(Raised(AttributeError))
      ensures old(Collects(body, fuel, AsWritten)) && body.ops.Some? && old(body.sources).Some? && old(body.targets).Some? ==>
        (r.Ok? <==> |old(body.sources).value| + |old(body.targets).value| == 0) &&
        (r.Err? ==> r.error == Raised(AttributeError))
      ensures r.Ok? ==> fresh(r.value) && fresh(r.value.table) && r.value.Defines(name, body, old(body.OpObjects()))
    {
      var collected := CollectFromRegion(body, fuel, AsWritten);
      if collected.Err? {
        return Err(collected.error);
      }
      var f := Attach(name, body, null, collected.value);
      if f.Err? {
        return Err(Raised(f.error));
      }
      return Ok(f.value);
    }

    /**
     * `FunctionDef(name, body)` with the value table assigned before the body
     * is attached. The sources and targets are then added to the collected
     * table; a body whose signature values had no id yet is always accepted
     * (collecting numbered them, or the table is empty), and every source
     * and target ends up registered in the new function's table.
     */
    static method NewDefinitionCorrected(name: string, body: Region, fuel: nat) returns (r: Result<Function, WalkEnd>)
      modifies CollectedValues(body, fuel, Intended), body`parent, body`sources, body`targets, body.OpObjects()`func
      modifies body.CachedValues()
      ensures old(Gathered(body, fuel, Intended)).Err? ==> r == Err(old(Gathered(body, fuel, Intended)).error)
      ensures old(Gathered(body, fuel, Intended)).Ok? && old(Bfs([body], fuel, Intended)).1 != Finished ==>
        r == Err(old(Bfs([body], fuel, Intended)).1)
      ensures old(Collects(body, fuel, Intended)) && body.ops.None? ==> r == Err(Raised(AttributeError))
      ensures old(Collects(body, fuel, Intended)) && body.ops.Some? && old(body.sources).Some? && old(body.targets).Some? ==>
        (r.Err? ==> r.error == Raised(ValueError)) &&
        (old(Unnumbered(body.sources.value + body.targets.value)) ==> r.Ok?)
      ensures r.Ok? ==> fresh(r.value) && fresh(r.value.table) && r.value.Defines(name, body, old(body.OpObjects()))
      ensures r.Ok? ==> body.sources.Some? && body.targets.Some? &&
                        forall v :: v in body.sources.value + body.targets.value ==>
                          v.table == r.value.table && v.id.Some? && v.id.value in r.value.table.values
    {
      var collected := CollectForBody(body, fuel);
      if collected.Err? {
        return Err(collected.error);
      }
      var table := collected.value;
      var f := Attach(name, body, table, table);
      if f.Err? {
        return Err(Raised(f.error));
      }
      return Ok(f.value);
    }

    /**
     * `ValueTable._collect_from_region(body)` as the first step of
     * `FunctionDef.__init__`: when the body's signature values had no id,
     * each of them fits the collected table, being among the first values
     * gathered.
     */
    static method CollectForBody(body: Region, fuel: nat) returns (r: Result<PyValue.ValueTable, WalkEnd>)
      modifies CollectedValues(body, fuel, Intended)
      ensures r.Ok? <==> old(Collects(body, fuel, Intended))
      ensures old(Gathered(body, fuel, Intended)).Err? ==> r == Err(old(Gathered(body, fuel, Intended)).error)
      ensures old(Gathered(body, fuel, Intended)).Ok? && old(Bfs([body], fuel, Intended)).1 != Finished ==>
        r == Err(old(Bfs([body], fuel, Intended)).1)
      ensures r.Ok? ==> fresh(r.value) && fresh(r.value.lazy) && r.value.raw == None && r.value.Bounded()
      ensures r.Ok? ==> forall k :: k in r.value.values ==> r.value.values[k] in old(CollectedValues(body, fuel, Intended))
      ensures r.Ok? && body.ops.Some? && body.sources.Some? && body.targets.Some? &&
              old(Unnumbered(body.sources.value + body.targets.value)) ==>
        AllFit(r.value.values, body.sources.value + body.targets.value)
    {
      ghost var cached := body.ops.Some? && body.sources.Some? && body.targets.Some?;
      ghost var unnumbered := cached && Unnumbered(body.sources.value + body.targets.value);
      ghost var sig := if cached then body.sources.value + body.targets.value else [];
      ghost var gathered := Gathered(body, fuel, Intended);
      if gathered.Ok? && fuel > 0 {
        GatheredStartsWith(body, fuel, Intended);
      }
      r := CollectFromRegion(body, fuel, Intended);
      if r.Err? {
        return;
      }
      var table := r.value;
      assert fuel > 0;
      if unnumbered {
        forall i | 0 <= i < |sig|
          ensures Fits(table.values, sig[i].id, sig[i])
        {
          assert sig[i] == gathered.value[i];
        }
      }
    }

    /**
     * The rest of `FunctionDef.__init__` once the table is collected: a new
     * function whose value table is `early` while `body._set_parent` runs
     * (`null` where the attribute does not exist yet), and `table` once the
     * name, body and table are stored.
     */
    static method Attach(name: string, body: Region, early: PyValue.ValueTable?, table: PyValue.ValueTable)
      returns (r: Result<Function, PyError>)
      modifies body`parent, body`sources, body`targets, body.OpObjects()`func, body.CachedValues()
      modifies if early == null then {} else {early, early.lazy} + set k | k in early.values :: early.values[k]
      ensures body.ops.None? ==> r == Err(AttributeError)
      ensures body.ops.Some? && old(body.sources).Some? && old(body.targets).Some? && early == null ==>
        (r.Ok? <==> |old(body.sources).value| + |old(body.targets).value| == 0) &&
        (r.Err? ==> r.error == AttributeError)
      ensures body.ops.Some? && old(body.sources).Some? && old(body.targets).Some? && early != null ==>
        (r.Err? ==> r.error == ValueError) &&
        (old(early.Bounded()) && old(AllFit(early.values, body.sources.value + body.targets.value)) ==> r.Ok?)
      ensures r.Ok? ==> fresh(r.value) && r.value.table == table && r.value.Defines(name, body, old(body.OpObjects()))
      ensures r.Ok? && early == table ==>
                body.sources.Some? && body.targets.Some? &&
                forall v :: v in body.sources.value + body.targets.value ==>
                  v.table == table && v.id.Some? && v.id.value in table.values
    {
      var f, attached := Hook(body, early);
      if attached.Err? {
        return Err(attached.error);
      }
      f.Fill(name, body, table);
      return Ok(f);
    }

    /** A blank function holding `early` as its value table, and `body._set_parent` run on it. */
    static method Hook(body: Region, early: PyValue.ValueTable?) returns (f: Function, r: Result<(), PyError>)
      modifies body`parent, body`sources, body`targets, body.OpObjects()`func, body.CachedValues()
      modifies if early == null then {} else {early, early.lazy} + set k | k in early.values :: early.values[k]
      ensures fresh(f) && fresh(f.lazy) && f.kind == Definition && f.owner == null && f.raw == None
      ensures body.ops == old(body.ops) && body.parent == FuncParent(f)
      ensures body.ops.Some? ==> forall op :: op in old(body.OpObjects()) ==> op.func == f
      ensures body.ops.None? ==> r == Err(AttributeError)
      ensures body.ops.Some? && old(body.sources).Some? && old(body.targets).Some? && early == null ==>
        (r.Ok? <==> |old(body.sources).value| + |old(body.targets).value| == 0) &&
        (r.Err? ==> r.error == AttributeError)
      ensures body.ops.Some? && old(body.sources).Some? && old(body.targets).Some? && early != null ==>
        (r.Err? ==> r.error == ValueError) &&
        (old(early.Bounded()) && old(AllFit(early.values, body.sources.value + body.targets.value)) ==> r.Ok?)
      ensures r.Ok? ==>
                body.sources.Some? && body.targets.Some? &&
                forall v :: v in body.sources.value + body.targets.value ==>
                  v.table == early && early != null && v.id.Some? && v.id.value in early.values
    {
      f := new Function.Blank();
      f.table := early;
      assert FuncOf(FuncParent(f)) == f && TableOf(f) == if early == null then {} else {early};
      r := body.SetParent(FuncParent(f));
    }

    /** The assignments closing `FunctionDef.__init__`: name, body and table, and the dirty flag. */
    method Fill(name: string, body: Region, table: PyValue.ValueTable)
      modifies this, lazy
      ensures this.name == Some(name) && this.body == body && this.table == table && lazy.dirty
      ensures owner == old(owner) && raw == old(raw) && inputs == old(inputs) && outputs == old(outputs)
    {
      this.name := Some(name);
      this.body := body;
      this.table := table;
      lazy.MarkDirty();
    }
  }

  /** What is gathered from a walk that yields just `rg`: its signature and then its ops' values. */
  lemma GatheredSingle(rg: Region, fuel: nat, loop: Loop)
    requires Bfs([rg], fuel, loop).0 == [rg]
    requires rg.sources.Some? && rg.targets.Some? && OpAppearances(rg, 0).Ok?
    ensures Gathered(rg, fuel, loop) == Ok(rg.sources.value + rg.targets.value + OpAppearances(rg, 0).value)
  {
    assert [rg][1..] == [];
    var none: seq<Value> := [];
    assert Appearances([]) == Ok(none);
    assert rg.sources.value + rg.targets.value + OpAppearances(rg, 0).value + none ==
      rg.sources.value + rg.targets.value + OpAppearances(rg, 0).value;
  }

  /** A region whose one operation has both lists cached lists its inputs and then its outputs. */
  lemma OneOpAppearances(rg: Region, op: JeffOp)
    requires rg.Count() == 1 && rg.Get(0) == Ok(op) && op.inputs.Some? && op.outputs.Some?
    ensures OpAppearances(rg, 0) == Ok(op.inputs.value + op.outputs.value)
  {
    var none: seq<Value> := [];
    assert OpAppearances(rg, 1) == Ok(none);
    assert op.inputs.value + op.outputs.value + none == op.inputs.value + op.outputs.value;
  }

  /**
   * `FunctionDef("f", Region([Value(QubitType())], [], []))` as written: the
   * empty body collects an empty table, and attaching its one source raises.
   */
  method AsWrittenRejectsSignature() returns (r: Result<Function, WalkEnd>)
    ensures r == Err(Raised(AttributeError))
  {
    var q := new PyValue.Value(PyType.QubitType);
    var body := new Region([q], [], []);
    assert Bfs([body], 1, AsWritten) == ([], Finished);
    r := Function.NewDefinition("f", body, 1);
  }

  /**
   * The same call with the table assigned first and the intended walk
   * defines the function: the body is yielded and its source numbered 0.
   */
  method CorrectedAcceptsSignature() returns (r: Result<Function, WalkEnd>)
    ensures r.Ok? && r.value.name == Some("f")
  {
    var q := new PyValue.Value(PyType.QubitType);
    var body := new Region([q], [], []);
    FlatRegionFinishes(body, 1);
    GatheredSingle(body, 1, Intended);
    r := Function.NewDefinitionCorrected("f", body, 1);
  }

  /** `Region([a], [b], [JeffOp(H, [a], [b])])` with new values `a` and `b`, neither of them numbered. */
  method NewGateBody() returns (body: Region, op: JeffOp, a: Value, b: Value)
    ensures fresh(body) && fresh(op) && fresh(a) && fresh(b)
    ensures body.ops == Some([op]) && body.sources == Some([a]) && body.targets == Some([b]) && body.stray == map[]
    ensures !op.opType.ScfOp? && op.inputs == Some([a]) && op.outputs == Some([b])
    ensures a.id.None? && b.id.None?
  {
    a := new PyValue.Value(PyType.QubitType);
    b := new PyValue.Value(PyType.QubitType);
    var h := new PyGate.QubitGate.Plain(PyGate.WellKnown(PyGate.H));
    op := new JeffOp(GateOp(h), [a], [b]);
    body := new Region([a], [b], [op]);
  }

  /**
   * The walks from a region holding one gate or non-unitary op: both yield
   * the region and gather its signature and then the op's values; as
   * written the walk then raises `IndexError`, as intended it finishes.
   */
  lemma OneOpWalks(body: Region, op: JeffOp)
    requires body.ops == Some([op]) && !op.opType.ScfOp?
    requires body.sources.Some? && body.targets.Some? && op.inputs.Some? && op.outputs.Some?
    ensures Bfs([body], 1, AsWritten) == ([body], Raised(IndexError))
    ensures Bfs([body], 1, Intended) == ([body], Finished)
    ensures Gathered(body, 1, AsWritten) == Gathered(body, 1, Intended) ==
      Ok(body.sources.value + body.targets.value + (op.inputs.value + op.outputs.value))
  {
    FlatRegionRaises(body, 1);
    FlatRegionFinishes(body, 1);
    OneOpAppearances(body, op);
    GatheredSingle(body, 1, AsWritten);
    GatheredSingle(body, 1, Intended);
  }

  /**
   * `FunctionDef("f", Region([a], [b], [JeffOp(H, [a], [b])]))` as written:
   * the walk yields the body and then pops the empty deque, so the
   * constructor raises `IndexError`.
   */
  method AsWrittenRejectsGateBody() returns (r: Result<Function, WalkEnd>)
    ensures r == Err(Raised(IndexError))
  {
    var body, op, a, b := NewGateBody();
    OneOpWalks(body, op);
    assert CollectedValues(body, 1, AsWritten) == {a, b};
    r := Function.NewDefinition("f", body, 1);
  }

  /** The same body with the table assigned first and the intended walk defines the function. */
  method CorrectedAcceptsGateBody() returns (r: Result<Function, WalkEnd>)
    ensures r.Ok? && r.value.name == Some("f")
  {
    var body, op, a, b := NewGateBody();
    OneOpWalks(body, op);
    assert CollectedValues(body, 1, Intended) == {a, b};
    assert Unnumbered(body.sources.value + body.targets.value);
    r := Function.NewDefinitionCorrected("f", body, 1);
  }

  // ---------------------------------------------------------------------------
  // Strings a function definition uses.
  // ---------------------------------------------------------------------------

  /** The custom gate name an op contributes to the string table, if any. */
  function GateName(op: JeffOp): (names: seq<string>)
    reads op, if op.opType.GateOp? then {op.opType.gate} else {}
    ensures |names| <= 1
    ensures |names| == 1 <==> op.opType.GateOp? && op.opType.gate.shape.Custom?
    ensures |names| == 1 ==> names[0] == op.opType.gate.shape.name
  {
    if op.opType.GateOp? && op.opType.gate.shape.Custom? then [op.opType.gate.shape.name] else []
  }

  /**
   * Looping `for op in rg` over ops `0 .. n-1`: the custom gate names met,
   * in order, and the `rg[i]` exception that stopped the loop, if any.
   */
  function OpNames(rg: Region, n: nat): (r: (seq<string>, Option<WalkEnd>))
    reads *
  {
    if n == 0 then ([], None)
    else
      var before := OpNames(rg, n - 1);
      if before.1.Some? then before
      else match rg.Get(n - 1)
        case Err(e) => (before.0, Some(Raised(e)))
        case Ok(op) => (before.0 + GateName(op), None)
  }

  /** `OpNames` over every op of each region of `rs` in turn, stopping at the first exception. */
  function RegionNames(rs: seq<Region>): (r: (seq<string>, Option<WalkEnd>))
    reads *
  {
    if |rs| == 0 then ([], None)
    else
      var before := RegionNames(rs[..|rs| - 1]);
      if before.1.Some? then before
      else
        var last := rs[|rs| - 1];
        var own := OpNames(last, last.Count());
        (before.0 + own.0, own.1)
  }

  /** Every custom gate of a region whose ops are all gates is named, in op order. */
  lemma {:induction false} GateRegionNames(rg: Region, n: nat)
    requires rg.ops.Some? && n <= |rg.ops.value|
    requires forall j :: 0 <= j < n ==> rg.ops.value[j].opType.GateOp?
    ensures OpNames(rg, n).1 == None
    ensures forall j :: 0 <= j < n && rg.ops.value[j].opType.gate.shape.Custom? ==>
      rg.ops.value[j].opType.gate.shape.name in OpNames(rg, n).0
  {
    if n > 0 {
      GateRegionNames(rg, n - 1);
      assert rg.Get(n - 1) == Ok(rg.ops.value[n - 1]);
    }
  }

  /** `strings.insert(n)` for each `n` of `names` in turn; names already present stay where they are. */
  method InsertAll(strings: PyStringTable.StringTable, names: seq<string>)
    modifies strings, strings.lazy
    ensures forall n :: n in names ==> n in strings.reverse
    ensures forall n :: n in old(strings.reverse) ==> n in strings.reverse && strings.reverse[n] == old(strings.reverse[n])
    ensures old(strings.Valid()) ==> strings.Valid()
  {
    for i := 0 to |names|
      invariant forall j :: 0 <= j < i ==> names[j] in strings.reverse
      invariant forall n :: n in old(strings.reverse) ==> n in strings.reverse && strings.reverse[n] == old(strings.reverse[n])
      invariant old(strings.Valid()) ==> strings.Valid()
    {
      var _ := strings.Insert(names[i]);
    }
  }

  /** What the walk from `f`'s body yields for `_update_with_function`: the names met and how it ended. */
  function WalkNames(f: Function, fuel: nat): (r: (seq<string>, Option<WalkEnd>))
    reads *
  {
    if f.body == null then ([], None)
    else
      var walk := Bfs([f.body], fuel, AsWritten);
      var found := RegionNames(walk.0);
      if found.1.Some? then found
      else if walk.1 != Finished then (found.0, Some(walk.1))
      else (found.0, None)
  }

  /**
   * `StringTable._update_with_function(f)` on the table `strings`: the
   * function's name (read through the `name` getter) is inserted, and then
   * the name of every custom gate in every region the walk from the body
   * yields, region by region and op by op. A getter's exception stops it,
   * then the walk's own end (the `IndexError` of an exhausted walk
   * included); the names inserted before stay inserted. Walking and listing
   * the names changes nothing, so it is done first.
   */
  method UpdateWithFunction(strings: PyStringTable.StringTable, f: Function, fuel: nat) returns (r: Result<(), WalkEnd>)
    requires f.kind == Definition
    modifies strings, strings.lazy, f`name, f.OwnerStrings()
    ensures old(f.name).None? && (f.owner == null || f.raw.None?) ==> r == Err(Raised(ValueError))
    ensures old(f.name).Some? && f.body == null ==> r == Err(Raised(AttributeError))
    ensures old(f.name).Some? && f.body != null ==>
      r == if old(WalkNames(f, fuel)).1.Some? then Err(old(WalkNames(f, fuel)).1.value) else Ok(())
    ensures old(f.name).Some? ==> f.name == old(f.name) && f.name.value in strings.reverse
    ensures old(f.name).Some? && f.body != null ==> forall n :: n in old(WalkNames(f, fuel)).0 ==> n in strings.reverse
    ensures old(strings.Valid()) ==> strings.Valid()
  {
    var walk := ListNames(f, fuel);
    r := UpdateWithWalk(strings, f, walk);
  }

  /** `WalkNames(f, fuel)`, computed by walking the body. */
  method ListNames(f: Function, fuel: nat) returns (walk: (seq<string>, Option<WalkEnd>))
    ensures walk == WalkNames(f, fuel)
  {
    if f.body == null {
      return ([], None);
    }
    var yielded, end := f.body.SubregionsBfs(fuel, AsWritten);
    var found := RegionNames(yielded);
    if found.1.Some? {
      return found;
    }
    if end != Finished {
      return (found.0, Some(end));
    }
    return (found.0, None);
  }

  /**
   * `_update_with_function(f)` once the walk is listed as `walk`: the name,
   * then the listed gate names, then the walk's exception if it had one.
   */
  method UpdateWithWalk(strings: PyStringTable.StringTable, f: Function, walk: (seq<string>, Option<WalkEnd>))
    returns (r: Result<(), WalkEnd>)
    requires f.kind == Definition
    modifies strings, strings.lazy, f`name, f.OwnerStrings()
    ensures old(f.name).None? && (f.owner == null || f.raw.None?) ==> r == Err(Raised(ValueError))
    ensures old(f.name).Some? && f.body == null ==> r == Err(Raised(AttributeError))
    ensures old(f.name).Some? && f.body != null ==> r == if walk.1.Some? then Err(walk.1.value) else Ok(())
    ensures r.Ok? ==> f.body != null && walk.1.None?
    ensures old(f.name).Some? ==> f.name == old(f.name)
    ensures old(f.name).Some? || r.Ok? ==> f.name.Some? && f.name.value in strings.reverse
    ensures r.Ok? || (old(f.name).Some? && f.body != null) ==> forall n :: n in walk.0 ==> n in strings.reverse
    ensures forall n :: n in old(strings.reverse) ==> n in strings.reverse
    ensures old(strings.Valid()) ==> strings.Valid()
  {
    var name := f.Name();
    if name.Err? {
      return Err(Raised(name.error));
    }
    var _ := strings.Insert(name.value);
    if f.body == null {
      return Err(Raised(AttributeError));
    }
    InsertAll(strings, walk.0);
    if walk.1.Some? {
      return Err(walk.1.value);
    }
    return Ok(());
  }

  /** No value of `vals` has an id yet. */
  predicate Unnumbered(vals: seq<Value>)
    reads vals
  {
    forall i :: 0 <= i < |vals| ==> vals[i].id.None?
  }

  /** A module: function slots, header fields, its string table and the buffer. */
  class Module {
    var functions: Option<seq<Function>>
    var bufferCount: nat
    var entrypoint: int
    var version: int
    var tool: string
    var toolVersion: string
    const strings: PyStringTable.StringTable
    var raw: Option<ModuleReader>
    const lazy: PyLazy.LazyUpdate

    /**
     * `Module._read_from_buffer`: the header fields and the function count
     * come from the buffer, the string table reads lazily from it, there is no
     * function dict, and the module is clean.
     */
    constructor FromBuffer(reader: ModuleReader)
      ensures functions == None && Count() == |reader.functions|
      ensures entrypoint == reader.entrypoint && version == reader.version
      ensures tool == reader.tool && toolVersion == reader.toolVersion
      ensures fresh(strings) && strings.strings == map[] && strings.len == |reader.strings|
      ensures strings.raw == Some(reader.strings)
      ensures raw == Some(reader) && fresh(lazy) && !lazy.dirty
    {
      functions := None;
      bufferCount := |reader.functions|;
      entrypoint := reader.entrypoint;
      version := reader.version;
      tool := reader.tool;
      toolVersion := reader.toolVersion;
      strings := new PyStringTable.StringTable.FromBuffer(reader.strings);
      raw := Some(reader);
      var l := new PyLazy.LazyUpdate();
      l.MarkClean();
      lazy := l;
    }

    /** `__len__`: the function count. */
    function Count(): nat
      reads this
    {
      if functions.Some? then |functions.value| else bufferCount
    }

    /** A module object before `__init__` has assigned anything but its new, empty string table. */
    constructor Blank()
      ensures functions == None && bufferCount == 0 && raw == None
      ensures fresh(strings) && fresh(strings.lazy) && strings.strings == map[] && strings.reverse == map[]
      ensures strings.len == 0 && strings.raw == None && strings.Valid()
      ensures fresh(lazy) && lazy.dirty
    {
      functions := None;
      bufferCount := 0;
      entrypoint := 0;
      version := 0;
      tool := "";
      toolVersion := "";
      strings := new PyStringTable.StringTable([]);
      raw := None;
      lazy := new PyLazy.LazyUpdate();
    }

    /**
     * `Module(functions, entrypoint=.., version=.., tool=.., tool_version=..)`.
     * Both tool fields fall back to "jeff-py" and the package version "0.1.0"
     * as soon as either is missing. Every function is owned by the module and
     * every definition's strings are interned, once by the constructor's own
     * loop and once more by the `functions` setter; an exception from
     * `_update_with_function` propagates. The entrypoint is stored as given,
     * with no check against the function count.
     */
    static method New(fs: seq<Function>, entrypoint: int, version: int, tool: Option<string>,
                      toolVersion: Option<string>, fuel: nat)
      returns (r: Result<Module, WalkEnd>)
      modifies Members(fs)`owner, Members(fs)`name
      ensures r.Ok? ==> fresh(r.value) && r.value.functions == Some(fs) && r.value.Count() == |fs|
      ensures r.Ok? ==> r.value.entrypoint == entrypoint && r.value.version == version
      ensures r.Ok? ==> r.value.tool == (if tool.None? || toolVersion.None? then "jeff-py" else tool.value)
      ensures r.Ok? ==> r.value.toolVersion == (if tool.None? || toolVersion.None? then "0.1.0" else toolVersion.value)
      ensures r.Ok? ==> r.value.raw == None && r.value.lazy.dirty && r.value.strings.Valid()
      ensures r.Ok? ==> forall i :: 0 <= i < |fs| ==> fs[i].owner == r.value
      ensures r.Ok? ==> forall i :: 0 <= i < |fs| && fs[i].kind == Definition ==> Interned(r.value.strings, fs[i], old(WalkNames(fs[i], fuel)))
      ensures (forall i :: 0 <= i < |fs| && fs[i].kind == Definition ==> old(fs[i].name).Some?) ==>
        (r.Ok? <==> forall i :: 0 <= i < |fs| && fs[i].kind == Definition ==> fs[i].body != null && old(WalkNames(fs[i], fuel)).1.None?)
    {
      var walks := ListAll(fs, fuel);
      r := Build(fs, walks, entrypoint, version, tool, toolVersion);
    }

    /** The constructor once each function's walk is listed in `walks`. */
    static method Build(fs: seq<Function>, walks: seq<(seq<string>, Option<WalkEnd>)>, entrypoint: int, version: int,
                        tool: Option<string>, toolVersion: Option<string>)
      returns (r: Result<Module, WalkEnd>)
      requires |walks| == |fs|
      modifies Members(fs)`owner, Members(fs)`name
      ensures r.Ok? ==> fresh(r.value) && r.value.functions == Some(fs) && r.value.Count() == |fs|
      ensures r.Ok? ==> r.value.entrypoint == entrypoint && r.value.version == version
      ensures r.Ok? ==> r.value.tool == (if tool.None? || toolVersion.None? then "jeff-py" else tool.value)
      ensures r.Ok? ==> r.value.toolVersion == (if tool.None? || toolVersion.None? then "0.1.0" else toolVersion.value)
      ensures r.Ok? ==> r.value.raw == None && r.value.lazy.dirty && r.value.strings.Valid()
      ensures r.Ok? ==> forall i :: 0 <= i < |fs| ==> fs[i].owner == r.value
      ensures r.Ok? ==> forall i :: 0 <= i < |fs| && fs[i].kind == Definition ==> Interned(r.value.strings, fs[i], walks[i])
      ensures (forall i :: 0 <= i < |fs| && fs[i].kind == Definition ==> old(fs[i].name).Some?) ==>
        (r.Ok? <==> forall i :: 0 <= i < |fs| && fs[i].kind == Definition ==> fs[i].body != null && walks[i].1.None?)
    {
      var m := new Module.Blank();
      ghost var named := forall i :: 0 <= i < |fs| && fs[i].kind == Definition ==> fs[i].name.Some?;
      var first := m.AdoptAll(fs, walks);
      if first.Err? {
        return Err(first.error);
      }
      assert forall i :: 0 <= i < |fs| && fs[i].kind == Definition ==> fs[i].name.Some?;
      var second := m.AssignFunctions(fs, walks);
      if second.Err? {
        assert !named;
        return Err(second.error);
      }
      m.Header(entrypoint, version, tool, toolVersion);
      return Ok(m);
    }

    /**
     * The rest of `__init__`: the entrypoint and version as given, the tool
     * fields defaulted as a pair, and the module marked dirty.
     */
    method Header(entry: int, ver: int, toolName: Option<string>, toolVer: Option<string>)
      modifies this`entrypoint, this`version, this`tool, this`toolVersion, lazy
      ensures lazy.dirty
      ensures entrypoint == entry && version == ver
      ensures tool == (if toolName.None? || toolVer.None? then "jeff-py" else toolName.value)
      ensures toolVersion == (if toolName.None? || toolVer.None? then "0.1.0" else toolVer.value)
    {
      entrypoint := entry;
      version := ver;
      if toolName.None? || toolVer.None? {
        tool := "jeff-py";
        toolVersion := "0.1.0";
      } else {
        tool := toolName.value;
        toolVersion := toolVer.value;
      }
      lazy.MarkDirty();
    }

    /** `WalkNames` of each function in turn. */
    static method ListAll(fs: seq<Function>, fuel: nat) returns (walks: seq<(seq<string>, Option<WalkEnd>)>)
      ensures |walks| == |fs| && forall i :: 0 <= i < |fs| ==> walks[i] == WalkNames(fs[i], fuel)
    {
      walks := [];
      for i := 0 to |fs|
        invariant |walks| == i && forall j :: 0 <= j < i ==> walks[j] == WalkNames(fs[j], fuel)
      {
        var w := ListNames(fs[i], fuel);
        walks := walks + [w];
      }
    }

    /**
     * The `functions` setter: every function is owned by this module and each
     * definition's strings are interned (the first exception propagates and
     * leaves the slots as they were); then the slots hold the list, the count
     * is its length and the module is dirty.
     */
    method SetFunctions(fs: seq<Function>, fuel: nat) returns (r: Result<(), WalkEnd>)
      modifies this, lazy, strings, strings.lazy, Members(fs)`owner, Members(fs)`name
      ensures r.Ok? ==> functions == Some(fs) && Count() == |fs| && lazy.dirty
      ensures r.Err? ==> functions == old(functions) && Count() == old(Count())
      ensures entrypoint == old(entrypoint) && version == old(version) && raw == old(raw)
      ensures tool == old(tool) && toolVersion == old(toolVersion)
      ensures r.Ok? ==> forall i :: 0 <= i < |fs| ==> fs[i].owner == this
      ensures r.Ok? ==> forall i :: 0 <= i < |fs| && fs[i].kind == Definition ==> Interned(strings, fs[i], old(WalkNames(fs[i], fuel)))
      ensures old(strings.Valid()) ==> strings.Valid()
      ensures (forall i :: 0 <= i < |fs| && fs[i].kind == Definition ==> old(fs[i].name).Some?) ==>
        (r.Ok? <==> forall i :: 0 <= i < |fs| && fs[i].kind == Definition ==> fs[i].body != null && old(WalkNames(fs[i], fuel)).1.None?)
    {
      var walks := ListAll(fs, fuel);
      r := AssignFunctions(fs, walks);
    }

    /** The `functions` setter once each function's walk is listed in `walks`. */
    method AssignFunctions(fs: seq<Function>, walks: seq<(seq<string>, Option<WalkEnd>)>) returns (r: Result<(), WalkEnd>)
      requires |walks| == |fs|
      modifies this, lazy, strings, strings.lazy, Members(fs)`owner, Members(fs)`name
      ensures r.Ok? ==> functions == Some(fs) && Count() == |fs| && lazy.dirty
      ensures r.Err? ==> functions == old(functions) && Count() == old(Count())
      ensures entrypoint == old(entrypoint) && version == old(version) && raw == old(raw)
      ensures tool == old(tool) && toolVersion == old(toolVersion)
      ensures r.Ok? ==> forall i :: 0 <= i < |fs| ==> fs[i].owner == this
      ensures r.Ok? ==> forall i :: 0 <= i < |fs| && fs[i].kind == Definition ==> Interned(strings, fs[i], walks[i])
      ensures old(strings.Valid()) ==> strings.Valid()
      ensures (forall i :: 0 <= i < |fs| && fs[i].kind == Definition ==> old(fs[i].name).Some?) ==>
        (r.Ok? <==> forall i :: 0 <= i < |fs| && fs[i].kind == Definition ==> fs[i].body != null && walks[i].1.None?)
    {
      r := AdoptAll(fs, walks);
      if r.Err? {
        return;
      }
      functions := Some(fs);
      bufferCount := |fs|;
      lazy.MarkDirty();
    }

    /**
     * The loop shared by the constructor and the `functions` setter: each
     * function in turn is owned by this module and, if it is a definition,
     * has its strings interned; the first exception stops the loop.
     */
    method AdoptAll(fs: seq<Function>, walks: seq<(seq<string>, Option<WalkEnd>)>) returns (r: Result<(), WalkEnd>)
      requires |walks| == |fs|
      modifies strings, strings.lazy, Members(fs)`owner, Members(fs)`name
      ensures r.Ok? ==> forall i :: 0 <= i < |fs| ==> fs[i].owner == this
      ensures r.Ok? ==> forall i :: 0 <= i < |fs| && fs[i].kind == Definition ==> Interned(strings, fs[i], walks[i])
      ensures old(strings.Valid()) ==> strings.Valid()
      ensures (forall i :: 0 <= i < |fs| && fs[i].kind == Definition ==> old(fs[i].name).Some?) ==>
        (r.Ok? <==> forall i :: 0 <= i < |fs| && fs[i].kind == Definition ==> fs[i].body != null && walks[i].1.None?)
      ensures forall f :: f in fs && old(f.name).Some? ==> f.name == old(f.name)
    {
      for i := 0 to |fs|
        modifies strings, strings.lazy, Members(fs)`owner, Members(fs)`name
        invariant forall j :: 0 <= j < i ==> fs[j].owner == this
        invariant forall j :: 0 <= j < i && fs[j].kind == Definition ==> Interned(strings, fs[j], walks[j])
        invariant forall j :: 0 <= j < i && fs[j].kind == Definition ==> fs[j].body != null && walks[j].1.None?
        invariant old(strings.Valid()) ==> strings.Valid()
        invariant forall f :: f in fs && old(f.name).Some? ==> f.name == old(f.name)
      {
        var step := AdoptNext(fs, walks, i);
        if step.Err? {
          return step;
        }
      }
      return Ok(());
    }

    /** Turn `i` of that loop, with the functions before it already adopted. */
    method AdoptNext(fs: seq<Function>, walks: seq<(seq<string>, Option<WalkEnd>)>, i: nat) returns (r: Result<(), WalkEnd>)
      requires |walks| == |fs| && i < |fs|
      requires forall j :: 0 <= j < i && fs[j].kind == Definition ==> Interned(strings, fs[j], walks[j])
      modifies {fs[i]}`owner, {fs[i]}`name, strings, strings.lazy
      ensures fs[i].owner == this
      ensures forall j :: 0 <= j < i && fs[j].kind == Definition ==> Interned(strings, fs[j], walks[j])
      ensures fs[i].kind == Definition && r.Ok? ==> Interned(strings, fs[i], walks[i]) && fs[i].body != null && walks[i].1.None?
      ensures r.Err? ==> fs[i].kind == Definition && (old(fs[i].name).Some? ==> fs[i].body == null || walks[i].1.Some?)
      ensures old(fs[i].name).Some? ==> fs[i].name == old(fs[i].name)
      ensures old(strings.Valid()) ==> strings.Valid()
    {
      r := Adopt(fs[i], walks[i]);
    }

    /** One turn of that loop: `func._module = self` and, for a definition, `_update_with_function(func)`. */
    method Adopt(f: Function, walk: (seq<string>, Option<WalkEnd>)) returns (r: Result<(), WalkEnd>)
      modifies f`owner, f`name, strings, strings.lazy
      ensures f.owner == this
      ensures f.kind == Declaration ==> r == Ok(()) && f.name == old(f.name)
      ensures old(f.name).Some? ==> f.name == old(f.name)
      ensures f.kind == Definition && old(f.name).Some? ==>
        r == if f.body == null then Err(Raised(AttributeError)) else if walk.1.Some? then Err(walk.1.value) else Ok(())
      ensures f.kind == Definition && r.Ok? ==> Interned(strings, f, walk) && f.body != null && walk.1.None?
      ensures forall n :: n in old(strings.reverse) ==> n in strings.reverse
      ensures old(strings.Valid()) ==> strings.Valid()
    {
      f.owner := this;
      if f.kind == Declaration {
        return Ok(());
      }
      r := UpdateWithWalk(strings, f, walk);
    }

    /**
     * `self[idx]`: `IndexError` outside `[0, len)`; a module read from a
     * buffer has no function dict and raises `AttributeError`; otherwise the
     * function in the slot. (A dict, once assigned, fills every slot, so the
     * "incomplete module" `ValueError` cannot arise.)
     */
    function Get(idx: int): (r: Result<Function, PyError>)
      reads this
      ensures r == Err(IndexError) <==> idx < 0 || idx >= Count()
      ensures r.Ok? <==> 0 <= idx < Count() && functions.Some?
      ensures r.Err? ==> r.error in {IndexError, AttributeError}
      ensures r.Ok? ==> r.value == functions.value[idx]
    {
      if idx < 0 || idx >= Count() then Err(IndexError)
      else if functions.None? then Err(AttributeError)
      else Ok(functions.value[idx])
    }

    /**
     * `self[idx] = func`: `IndexError` outside `[0, len)` with nothing
     * changed; otherwise the function is owned by this module and replaces
     * only slot `idx`, the count unchanged and the module dirty. A module
     * read from a buffer has no dict: the function is owned by it and then
     * `AttributeError` is raised.
     */
    method Set(idx: int, f: Function) returns (r: Result<(), PyError>)
      modifies this`functions, lazy, f`owner
      ensures (idx < 0 || idx >= old(Count())) ==> r == Err(IndexError) && f.owner == old(f.owner)
      ensures 0 <= idx < old(Count()) ==> f.owner == this
      ensures 0 <= idx < old(Count()) && old(functions).None? ==> r == Err(AttributeError)
      ensures 0 <= idx < old(Count()) && old(functions).Some? ==>
        r == Ok(()) && functions == Some(old(functions).value[idx := f]) && lazy.dirty
      ensures r.Err? ==> functions == old(functions)
      ensures Count() == old(Count())
      ensures forall j :: j != idx ==> Get(j) == old(Get(j))
    {
      if idx < 0 || idx >= Count() {
        return Err(IndexError);
      }
      f.owner := this;
      if functions.None? {
        return Err(AttributeError);
      }
      functions := Some(functions.value[idx := f]);
      lazy.MarkDirty();
      return Ok(());
    }

    /** `__iter__` and the `functions` getter (`list(self)`): `self[0]`, ..., `self[len-1]`, or the first exception. */
    method Functions() returns (r: Result<seq<Function>, PyError>)
      ensures r.Ok? <==> forall i :: 0 <= i < Count() ==> Get(i).Ok?
      ensures r.Ok? ==> |r.value| == Count() && forall i :: 0 <= i < Count() ==> r.value[i] == Get(i).value
      ensures r.Err? ==> exists i :: 0 <= i < Count() && Get(i) == Err(r.error) &&
                                     forall j :: 0 <= j < i ==> Get(j).Ok?
    {
      var list: seq<Function> := [];
      var i := 0;
      while i < Count()
        invariant 0 <= i <= Count() && |list| == i
        invariant forall j :: 0 <= j < i ==> Get(j).Ok? && list[j] == Get(j).value
      {
        var g := Get(i);
        if g.Err? {
          return Err(g.error);
        }
        list := list + [g.value];
        i := i + 1;
      }
      return Ok(list);
    }

    /**
     * `refresh`: a clean module is left alone; a dirty one is written out,
     * with outcome `payload` (that encoding is not part of this model), and
     * is clean afterwards only when the write succeeds. A write that raises
     * (a non-unitary op's `ValueError`, say) leaves the module dirty.
     */
    method Refresh(payload: Result<(), PyError>) returns (r: Result<(), PyError>)
      modifies lazy
      ensures !old(lazy.dirty) ==> r == Ok(()) && !lazy.dirty
      ensures old(lazy.dirty) ==> r == payload
      ensures r.Ok? <==> !lazy.dirty
    {
      if !lazy.dirty {
        return Ok(());
      }
      if payload.Ok? {
        lazy.MarkClean();
      }
      return payload;
    }
  }

  /** The functions of a list, as a set of objects. */
  function Members(fs: seq<Function>): set<Function>
  {
    set f | f in fs
  }

  /** `f`'s name and every listed gate name are in the string table. */
  predicate Interned(strings: PyStringTable.StringTable, f: Function, walk: (seq<string>, Option<WalkEnd>))
    reads strings, f
  {
    f.name.Some? && f.name.value in strings.reverse && forall n :: n in walk.0 ==> n in strings.reverse
  }
}
