// impl/py/src/jeff/value.py: program values and the per-function value table.
module PyValue {
  import opened Wrappers
  import opened PyErrors
  import PyType
  import PyLazy

  /** The least id at or above `from` that `keys` does not hold. */
  function FreeFrom(keys: set<int>, from: int): (r: int)
    ensures r >= from && r !in keys
    ensures forall i :: from <= i < r ==> i in keys
    decreases |keys|
  {
    if from !in keys then from
    else
      var r := FreeFrom(keys - {from}, from + 1);
      assert forall i :: from <= i < r ==> i in keys by {
        forall i | from <= i < r
          ensures i in keys
        {
          if i != from {
            assert i in keys - {from};
          }
        }
      }
      r
  }

  /** The first `n` non-negative ids that `keys` does not hold, from zero upwards. */
  function FreeList(keys: set<int>, n: nat): (f: seq<int>)
    ensures |f| == n
    ensures forall j :: 0 <= j < n ==> f[j] >= 0 && f[j] !in keys
  {
    if n == 0 then []
    else
      var p := FreeList(keys, n - 1);
      p + [FreeFrom(keys, if n == 1 then 0 else p[n - 2] + 1)]
  }

  /** A shorter list of free ids is a prefix of a longer one. */
  lemma {:induction false} FreeListPrefix(keys: set<int>, m: nat, n: nat)
    requires m <= n
    ensures FreeList(keys, n)[..m] == FreeList(keys, m)
  {
    if m < n {
      FreeListPrefix(keys, m, n - 1);
      assert FreeList(keys, n)[..n - 1] == FreeList(keys, n - 1);
    }
  }

  /**
   * `free` lists free ids one after another: each is the least id not in
   * `keys`, at or above zero for the first and above its predecessor for the
   * others.
   */
  ghost predicate FreeChain(keys: set<int>, free: seq<int>)
  {
    (|free| > 0 ==> free[0] == FreeFrom(keys, 0)) &&
    forall a :: 0 < a < |free| ==> free[a] == FreeFrom(keys, free[a - 1] + 1)
  }

  /** The list of free ids is such a chain. */
  lemma {:induction false} FreeListChain(keys: set<int>, n: nat)
    ensures FreeChain(keys, FreeList(keys, n))
  {
    if n > 0 {
      FreeListChain(keys, n - 1);
      var p := FreeList(keys, n - 1);
      var f := FreeList(keys, n);
      assert f == p + [FreeFrom(keys, if n == 1 then 0 else p[n - 2] + 1)];
      forall a | 0 < a < n
        ensures f[a] == FreeFrom(keys, f[a - 1] + 1)
      {
        if a < n - 1 {
          assert f[a] == p[a] && f[a - 1] == p[a - 1];
        }
      }
    }
  }

  /** Free ids are handed out in strictly increasing order. */
  lemma {:induction false} FreeListIncreasing(keys: set<int>, n: nat)
    ensures StrictlyIncreasing(FreeList(keys, n))
  {
    if n > 1 {
      FreeListIncreasing(keys, n - 1);
      var p := FreeList(keys, n - 1);
      assert FreeList(keys, n) == p + [FreeFrom(keys, p[n - 2] + 1)];
    }
  }

  /** No free id is skipped: every free id up to the last one handed out is in the list. */
  lemma {:induction false} FreeListFillsGaps(keys: set<int>, n: nat, i: int)
    requires n > 0 && 0 <= i <= FreeList(keys, n)[n - 1] && i !in keys
    ensures i in FreeList(keys, n)
  {
    var p := FreeList(keys, n - 1);
    assert FreeList(keys, n) == p + [FreeFrom(keys, if n == 1 then 0 else p[n - 2] + 1)];
    if n > 1 && i <= p[n - 2] {
      FreeListFillsGaps(keys, n - 1, i);
    }
  }

  /** Skipping an id already held does not change the next free one. */
  lemma FreeFromSkip(keys: set<int>, from: int)
    requires from in keys
    ensures FreeFrom(keys, from + 1) == FreeFrom(keys, from)
  {
  }

  /**
   * The `while` loop of `_collect_from_region` as written, abstracted to the ids
   * it stores: `keys` are the ids already held by values, `taken` the ids still
   * to pop, `queued` how many values still wait for an id, and `id` the next id
   * to visit.
   */
  function StoredAsWritten(keys: set<int>, taken: seq<int>, queued: nat, id: int): (stored: set<int>)
    decreases |taken|, queued, if queued > 0 then FreeFrom(keys, id) - id else 0
  {
    if queued == 0 && |taken| == 0 then {}
    else
      var here: set<int> := if id in keys || queued > 0 then {id} else {};
      var rest := if id !in keys && queued > 0 then queued - 1 else queued;
      if rest == 0 && |taken| > 0 then here + StoredAsWritten(keys, taken[1..], 0, taken[0])
      else here + StoredAsWritten(keys, taken, rest, id + 1)
  }

  /** As written, values already numbered 0 and 1, with nothing queued, store only id 0. */
  lemma AsWrittenDropsLastKey()
    ensures StoredAsWritten({0, 1}, [0, 1], 0, 0) == {0}
  {
    assert StoredAsWritten({0, 1}, [], 0, 1) == {};
    assert StoredAsWritten({0, 1}, [1], 0, 0) == {0};
  }

  /** As written, a value numbered 5 next to one queued value is never stored. */
  lemma AsWrittenDropsKeyAfterQueue()
    ensures StoredAsWritten({5}, [5], 1, 0) == {0}
  {
    assert StoredAsWritten({5}, [], 0, 5) == {};
  }

  predicate StrictlyIncreasing(r: seq<int>)
  {
    forall i, j :: 0 <= i < j < |r| ==> r[i] < r[j]
  }

  /** `x` put into its place in the increasing sequence `r`, unless it is there already. */
  function InsertSorted(x: int, r: seq<int>): (t: seq<int>)
    requires StrictlyIncreasing(r)
    ensures StrictlyIncreasing(t)
    ensures forall k :: k in t <==> k == x || k in r
  {
    if |r| == 0 then [x]
    else if x < r[0] then [x] + r
    else if x == r[0] then r
    else
      var t := InsertSorted(x, r[1..]);
      assert t[0] in t;
      assert forall k :: k in r[1..] ==> r[0] < k;
      [r[0]] + t
  }

  /** `sorted(...)` of the distinct ids in `xs`: each once, in increasing order. */
  function SortedIds(xs: seq<int>): (r: seq<int>)
    ensures StrictlyIncreasing(r)
    ensures forall k :: k in r <==> k in xs
  {
    if |xs| == 0 then [] else InsertSorted(xs[|xs| - 1], SortedIds(xs[..|xs| - 1]))
  }

  /**
   * A program value: its type, its id in the value table (`None` until one is
   * assigned) and the table that defines it.
   */
  class Value {
    const ty: PyType.JeffType
    var id: Option<int>
    var table: ValueTable?

    /** `Value(type)`: no id and no table yet. */
    constructor(ty: PyType.JeffType)
      ensures this.ty == ty && id == None && table == null
    {
      this.ty := ty;
      id := None;
      table := null;
    }
  }

  /** The generated dataclass `__eq__`: type, id and defining table all agree. */
  predicate SameValue(a: Value, b: Value)
    reads a, b
  {
    a.ty == b.ty && a.id == b.id && a.table == b.table
  }

  /** The ids of `vals`, in order. */
  function IdsOf(vals: seq<Value>): (ids: seq<Option<int>>)
    reads vals
    ensures |ids| == |vals| && forall i :: 0 <= i < |vals| ==> ids[i] == vals[i].id
  {
    if |vals| == 0 then [] else IdsOf(vals[..|vals| - 1]) + [vals[|vals| - 1].id]
  }

  /**
   * `value_dict` after `add_value` has seen `vals` (whose ids were `ids`): each
   * id present maps to the last value seen with it.
   */
  function Keyed(vals: seq<Value>, ids: seq<Option<int>>): (m: map<int, Value>)
    requires |ids| == |vals|
    ensures forall k :: k in m <==> Some(k) in ids
    ensures forall k :: k in m ==> m[k] in vals
  {
    if |vals| == 0 then map[]
    else
      var n := |vals| - 1;
      var m := Keyed(vals[..n], ids[..n]);
      assert ids == ids[..n] + [ids[n]];
      match ids[n]
      case None => m
      case Some(k) => m[k := vals[n]]
  }

  /** `unordered_values` after `add_value` has seen `vals`: those without an id, in order. */
  function Queued(vals: seq<Value>, ids: seq<Option<int>>): (q: seq<Value>)
    requires |ids| == |vals|
    ensures |q| <= |vals|
    ensures forall v :: v in q ==> v in vals
    ensures forall i :: 0 <= i < |vals| && ids[i] == None ==> vals[i] in q
  {
    if |vals| == 0 then []
    else
      var n := |vals| - 1;
      var q := Queued(vals[..n], ids[..n]);
      assert forall i :: 0 <= i < n ==> vals[i] == vals[..n][i];
      if ids[n] == None then q + [vals[n]] else q
  }

  /** The ids present in `ids`, in order of appearance, repeats included. */
  function IdList(ids: seq<Option<int>>): (order: seq<int>)
  {
    if |ids| == 0 then []
    else
      var n := |ids| - 1;
      IdList(ids[..n]) + (if ids[n].Some? then [ids[n].value] else [])
  }

  /** `IdList` holds exactly the ids that are present. */
  lemma {:induction false} IdListHoldsIds(ids: seq<Option<int>>)
    ensures forall k :: k in IdList(ids) <==> Some(k) in ids
  {
    if |ids| > 0 {
      var n := |ids| - 1;
      IdListHoldsIds(ids[..n]);
      assert ids == ids[..n] + [ids[n]];
    }
  }

  /** What the bookkeeping of `add_value` has gathered once it has seen every value. */
  lemma Gathered(vals: seq<Value>, ids: seq<Option<int>>)
    requires |ids| == |vals| && forall i :: 0 <= i < |vals| ==> ids[i] == vals[i].id
    ensures forall k :: k in Keyed(vals, ids) ==> Keyed(vals, ids)[k].id == Some(k)
    ensures forall k :: k in IdList(ids) <==> k in Keyed(vals, ids)
    ensures forall v :: v in Queued(vals, ids) ==> v.id == None
  {
    KeyedByOwnId(vals, ids);
    QueuedWithoutId(vals, ids);
    IdListHoldsIds(ids);
  }

  /** Each value kept by id is kept under the id it carries. */
  lemma {:induction false} KeyedByOwnId(vals: seq<Value>, ids: seq<Option<int>>)
    requires |ids| == |vals| && forall i :: 0 <= i < |vals| ==> ids[i] == vals[i].id
    ensures forall k :: k in Keyed(vals, ids) ==> Keyed(vals, ids)[k].id == Some(k)
  {
    if |vals| > 0 {
      KeyedByOwnId(vals[..|vals| - 1], ids[..|vals| - 1]);
    }
  }

  /** Every queued value is one without an id. */
  lemma {:induction false} QueuedWithoutId(vals: seq<Value>, ids: seq<Option<int>>)
    requires |ids| == |vals| && forall i :: 0 <= i < |vals| ==> ids[i] == vals[i].id
    ensures forall v :: v in Queued(vals, ids) ==> v.id == None
  {
    if |vals| > 0 {
      QueuedWithoutId(vals[..|vals| - 1], ids[..|vals| - 1]);
    }
  }

  /**
   * A value table: a sparse map from id to value, a length, an optional
   * backing buffer of encoded value types and the dirty flag.
   */
  class ValueTable {
    var values: map<int, Value>
    var len: nat
    var raw: Option<seq<PyType.TypeReader>>
    const lazy: PyLazy.LazyUpdate

    /** Every stored id lies below the length. */
    predicate Bounded()
      reads this
    {
      Below(values, len)
    }

    /** The length is one past the highest stored id. */
    predicate Tight()
      reads this
    {
      TopStored(values, len)
    }

    /** Every id of `slots` lies below `n`. */
    static predicate Below(slots: map<int, Value>, n: nat)
    {
      forall k :: k in slots ==> k < n
    }

    /** `n` is zero or one past an id of `slots`. */
    static predicate TopStored(slots: map<int, Value>, n: nat)
    {
      n == 0 || n - 1 in slots
    }

    /** Every stored value is owned by this table and its id names a slot holding it. */
    predicate Clean()
      reads this, values.Values
    {
      forall k {:trigger k in values} :: k in values ==>
        (values[k].table == this && values[k].id.Some? &&
         values[k].id.value in values && values[values[k].id.value] == values[k])
    }

    /** `ValueTable(list)`: slot `i` holds `list[i]`; the values themselves are not touched. */
    constructor(list: seq<Value>)
      ensures values == map i | 0 <= i < |list| :: list[i]
      ensures len == |list| && raw == None
      ensures fresh(lazy) && lazy.dirty
      ensures Bounded()
    {
      values := map i | 0 <= i < |list| :: list[i];
      len := |list|;
      raw := None;
      lazy := new PyLazy.LazyUpdate();
    }

    /** `_read_from_buffer`: nothing is loaded; the length is the buffer's. */
    constructor FromBuffer(reader: seq<PyType.TypeReader>)
      ensures values == map[] && len == |reader| && raw == Some(reader)
      ensures fresh(lazy) && !lazy.dirty
      ensures Bounded()
    {
      values := map[];
      len := |reader|;
      raw := Some(reader);
      var l := new PyLazy.LazyUpdate();
      l.MarkClean();
      lazy := l;
    }

    /** `len(table)`. */
    function Len(): (n: nat)
      reads this
      ensures n == len
    {
      len
    }

    /**
     * `table.add(value)`: the value's table becomes this one. A value without
     * an id gets the old length as its id and is appended; a value whose id is
     * free is stored there and the length covers it; a value whose id is taken
     * returns that id if the stored value is equal and raises `ValueError`
     * otherwise, changing nothing else.
     */
    method Add(value: Value) returns (r: Result<int, PyError>)
      modifies this, lazy, value
      ensures value.table == this && raw == old(raw)
      ensures old(value.id).None? ==>
        r == Ok(old(len)) && value.id == Some(old(len)) &&
        values == old(values)[old(len) := value] && len == old(len) + 1 && lazy.dirty
      ensures old(value.id).Some? && old(value.id).value !in old(values) ==>
        value.id == old(value.id) && r == Ok(value.id.value) &&
        values == old(values)[value.id.value := value] &&
        len == (if value.id.value + 1 > old(len) then value.id.value + 1 else old(len)) && lazy.dirty
      ensures old(value.id).Some? && old(value.id).value in old(values) ==>
        value.id == old(value.id) && values == old(values) && len == old(len) &&
        lazy.dirty == old(lazy.dirty)
      ensures r.Err? <==>
        (old(value.id).Some? && old(value.id).value in old(values) &&
         !SameValue(values[old(value.id).value], value))
      ensures r.Err? ==> r.error == ValueError
      ensures r.Ok? ==> value.id == Some(r.value) && r.value in values && SameValue(values[r.value], value)
      ensures old(Bounded()) ==> Bounded()
    {
      value.table := this;
      if value.id.None? {
        var id := len;
        value.id := Some(id);
        values := values[id := value];
        len := len + 1;
        lazy.MarkDirty();
        return Ok(id);
      }
      var id := value.id.value;
      if id !in values {
        values := values[id := value];
        len := if len > id + 1 then len else id + 1;
        lazy.MarkDirty();
        return Ok(id);
      }
      if !SameValue(values[id], value) {
        return Err(ValueError);
      }
      return Ok(id);
    }

    /**
     * `table[index]`: `IndexError` outside `[0, len)`; the stored value; for a
     * hole, `ValueError` without a buffer, otherwise a new value read from the
     * buffer (its type errors propagate), numbered `index`, owned by this table
     * and cached. Past the buffer's end the buffer itself raises `IndexError`.
     */
    method Get(index: int) returns (r: Result<Value, PyError>)
      modifies this`values
      ensures index < 0 || index >= len ==> r == Err(IndexError) && values == old(values)
      ensures 0 <= index < len && index in old(values) ==> r == Ok(old(values)[index]) && values == old(values)
      ensures 0 <= index < len && index !in old(values) && raw.None? ==>
        r == Err(ValueError) && values == old(values)
      ensures 0 <= index < len && index !in old(values) && raw.Some? && index >= |raw.value| ==>
        r == Err(IndexError) && values == old(values)
      ensures (0 <= index < len && index !in old(values) && raw.Some? && index < |raw.value| &&
               PyType.ReadType(raw.value[index]).Err?) ==>
        r == Err(PyType.ReadType(raw.value[index]).error) && values == old(values)
      ensures (0 <= index < len && index !in old(values) && raw.Some? && index < |raw.value| &&
               PyType.ReadType(raw.value[index]).Ok?) ==>
        r.Ok? && fresh(r.value) && r.value.ty == PyType.ReadType(raw.value[index]).value &&
        r.value.id == Some(index) && r.value.table == this && values == old(values)[index := r.value]
      ensures old(Bounded()) ==> Bounded()
    {
      if index < 0 || index >= len {
        return Err(IndexError);
      }
      if index in values {
        return Ok(values[index]);
      }
      if raw.None? {
        return Err(ValueError);
      }
      if index >= |raw.value| {
        return Err(IndexError);
      }
      var ty := PyType.ReadType(raw.value[index]);
      if ty.Err? {
        return Err(ty.error);
      }
      var v := new Value(ty.value);
      v.id := Some(index);
      v.table := this;
      values := values[index := v];
      return Ok(v);
    }

    /**
     * `table[index] = value`: the value is numbered `index` and owned by this
     * table, the slot holds it, the length grows to cover `index`, and the
     * table becomes dirty. No bounds are checked.
     */
    method Set(index: int, value: Value)
      modifies this, lazy, value
      ensures value.id == Some(index) && value.table == this
      ensures values == old(values)[index := value]
      ensures len == if index >= old(len) then index + 1 else old(len)
      ensures raw == old(raw) && lazy.dirty
      ensures old(Bounded()) ==> Bounded()
      ensures old(Clean()) && (index in old(values) ==> old(values[index]) == value) ==> Clean()
    {
      value.id := Some(index);
      value.table := this;
      values := values[index := value];
      if index >= len {
        len := index + 1;
      }
      lazy.MarkDirty();
    }

    /**
     * The table that the id-assignment loop leaves for the numbered values
     * `keyed` and the values `queued` without an id: each numbered value is
     * stored at its id, the `j`-th queued value at the `j`-th free id, no other
     * id is stored, every stored value is owned by the table and names a slot
     * holding it, and the length is one past the highest id stored.
     */
    ghost predicate Numbered(keyed: map<int, Value>, queued: seq<Value>)
      reads this, values.Values, keyed.Values
    {
      Complete(values, keyed, queued) &&
      (forall k :: k in keyed ==> keyed[k].id == Some(k)) &&
      Clean() && Bounded() && Tight()
    }

    /**
     * The slots hold each numbered value at its id and the `j`-th queued value
     * at the `j`-th free id, and nothing else.
     */
    static ghost predicate Complete(slots: map<int, Value>, keyed: map<int, Value>, queued: seq<Value>)
    {
      var free := FreeList(keyed.Keys, |queued|);
      (forall k :: k in keyed ==> k in slots && slots[k] == keyed[k]) &&
      (forall j :: 0 <= j < |queued| ==> free[j] in slots && slots[free[j]] == queued[j]) &&
      (forall k :: k in slots <==> k in keyed || k in free)
    }

    /**
     * `_collect_from_region` once the values have been gathered: builds a new
     * table, records it as every value's table, keeps each numbered value at
     * its id and numbers the others in turn with the free ids from zero up
     * (`Numbered`, for the ids the values had on entry). A value without an id
     * that appears twice is queued twice and occupies two slots, as in the
     * source.
     */
    static method Collect(vals: seq<Value>) returns (table: ValueTable)
      modifies vals
      ensures fresh(table) && fresh(table.lazy) && table.raw == None
      ensures forall i :: 0 <= i < |vals| ==> vals[i].table == table
      ensures table.Numbered(Keyed(vals, old(IdsOf(vals))), Queued(vals, old(IdsOf(vals))))
      ensures forall k :: k in table.values ==> table.values[k] in vals
      ensures forall i :: 0 <= i < |vals| && old(vals[i].id).None? ==>
        vals[i].id.Some? && vals[i].id.value in table.values && table.values[vals[i].id.value] == vals[i]
    {
      table := new ValueTable([]);
      Adopt(vals, table);
      ghost var ids := IdsOf(vals);
      var keyed, queued, order := Gather(vals);
      table.AssignIds(keyed, queued, order, vals);
      CompleteFrom(table.values, Keyed(vals, ids), Queued(vals, ids), vals);
      forall i | 0 <= i < |vals| && ids[i].None?
        ensures vals[i].id.Some? && vals[i].id.value in table.values && table.values[vals[i].id.value] == vals[i]
      {
        table.QueuedStored(Keyed(vals, ids), Queued(vals, ids), vals[i]);
      }
    }

    /** A queued value ends up numbered and stored at its own id. */
    lemma QueuedStored(keyed: map<int, Value>, queued: seq<Value>, v: Value)
      requires Numbered(keyed, queued) && v in queued
      ensures v.id.Some? && v.id.value in values && values[v.id.value] == v
    {
      var free := FreeList(keyed.Keys, |queued|);
      var j :| 0 <= j < |queued| && queued[j] == v;
      assert free[j] in values && values[free[j]] == v;
    }

    /** A table numbered from `keyed` and `queued` holds only values of `vals` when they do. */
    static lemma CompleteFrom(slots: map<int, Value>, keyed: map<int, Value>, queued: seq<Value>, vals: seq<Value>)
      requires Complete(slots, keyed, queued)
      requires forall k :: k in keyed ==> keyed[k] in vals
      requires forall v :: v in queued ==> v in vals
      ensures forall k :: k in slots ==> slots[k] in vals
    {
      var free := FreeList(keyed.Keys, |queued|);
      forall k | k in slots
        ensures slots[k] in vals
      {
        if k !in keyed {
          var j :| 0 <= j < |free| && free[j] == k;
          assert slots[free[j]] == queued[j];
        }
      }
    }

    /**
     * The bookkeeping of `add_value` over `vals`: values with an id are kept by
     * id (the last one wins), the others queued in order, and `order` lists the
     * ids met.
     */
    static method Gather(vals: seq<Value>) returns (keyed: map<int, Value>, queued: seq<Value>, order: seq<int>)
      ensures keyed == Keyed(vals, IdsOf(vals)) && queued == Queued(vals, IdsOf(vals))
      ensures forall k :: k in keyed ==> keyed[k].id == Some(k)
      ensures forall k :: k in order <==> k in keyed
      ensures forall v :: v in queued ==> v.id == None
    {
      ghost var ids := IdsOf(vals);
      keyed, queued, order := map[], [], [];
      for i := 0 to |vals|
        invariant keyed == Keyed(vals[..i], ids[..i]) && queued == Queued(vals[..i], ids[..i])
        invariant order == IdList(ids[..i])
      {
        GatherStep(vals, ids, i);
        var id := vals[i].id;
        assert id == ids[i];
        if id.None? {
          queued := queued + [vals[i]];
        } else {
          keyed := keyed[id.value := vals[i]];
          order := order + [id.value];
        }
      }
      assert vals[..|vals|] == vals && ids[..|vals|] == ids;
      Gathered(vals, ids);
    }

    /** The other half of `add_value`: every value's table becomes `table`; ids are untouched. */
    static method Adopt(vals: seq<Value>, table: ValueTable)
      modifies vals
      ensures forall i :: 0 <= i < |vals| ==> vals[i].table == table
      ensures forall v :: v in vals ==> v.id == old(v.id)
      ensures IdsOf(vals) == old(IdsOf(vals))
    {
      for i := 0 to |vals|
        invariant forall j :: 0 <= j < i ==> vals[j].table == table
        invariant forall v :: v in vals ==> v.id == old(v.id)
      {
        vals[i].table := table;
      }
    }

    /** `add_value` on one more value extends the id map or the queue by that value. */
    static lemma GatherStep(vals: seq<Value>, ids: seq<Option<int>>, i: nat)
      requires |ids| == |vals| && i < |vals|
      ensures Keyed(vals[..i + 1], ids[..i + 1]) ==
        if ids[i].None? then Keyed(vals[..i], ids[..i]) else Keyed(vals[..i], ids[..i])[ids[i].value := vals[i]]
      ensures Queued(vals[..i + 1], ids[..i + 1]) ==
        if ids[i].None? then Queued(vals[..i], ids[..i]) + [vals[i]] else Queued(vals[..i], ids[..i])
      ensures IdList(ids[..i + 1]) == IdList(ids[..i]) + (if ids[i].Some? then [ids[i].value] else [])
    {
      var vs, os := vals[..i + 1], ids[..i + 1];
      assert vs[..i] == vals[..i] && os[..i] == ids[..i];
      assert vs[i] == vals[i] && os[i] == ids[i];
    }

    /**
     * The free ids increase and are not numbered ids, and no queued value is
     * also a numbered one.
     */
    static ghost predicate Apart(keyed: map<int, Value>, queued: seq<Value>, free: seq<int>)
    {
      StrictlyIncreasing(free) &&
      (forall j :: 0 <= j < |free| ==> free[j] !in keyed) &&
      (forall k, j :: k in keyed && 0 <= j < |queued| ==> keyed[k] != queued[j])
    }

    /** The first `a` free ids, the ones handed out so far. */
    static ghost function Handed(free: seq<int>, a: nat): set<int>
      requires a <= |free|
    {
      set j | 0 <= j < a :: free[j]
    }

    /**
     * The slots `slots` (of length `n`) while the id-assignment loop runs, once
     * the first `a` queued values have been numbered with the first `a` ids in
     * `free`: numbered values sit where their ids say, the `j`-th queued value
     * sits at `free[j]`, no other id is stored, and the length is one past the
     * highest stored id.
     */
    static ghost predicate Placed(slots: map<int, Value>, n: nat, keyed: map<int, Value>, queued: seq<Value>,
                                  free: seq<int>, a: nat)
    {
      a <= |queued| && |free| == |queued| && Apart(keyed, queued, free) &&
      (forall k :: k in keyed && k in slots ==> slots[k] == keyed[k]) &&
      (forall j :: 0 <= j < a ==> free[j] in slots && slots[free[j]] == queued[j]) &&
      slots.Keys <= keyed.Keys + Handed(free, a) &&
      Below(slots, n) && TopStored(slots, n)
    }

    /** Storing a numbered value at its own id keeps the slots placed. */
    static lemma PlaceNumbered(slots: map<int, Value>, n: nat, keyed: map<int, Value>, queued: seq<Value>,
                               free: seq<int>, a: nat, id: int)
      requires Placed(slots, n, keyed, queued, free, a) && id in keyed
      ensures Placed(slots[id := keyed[id]], if id >= n then id + 1 else n, keyed, queued, free, a)
    {
      var slots' := slots[id := keyed[id]];
      forall j | 0 <= j < a
        ensures free[j] in slots' && slots'[free[j]] == queued[j]
      {
        assert free[j] != id;
      }
    }

    /** Storing the next queued value at the next free id places one more queued value. */
    static lemma PlaceFree(slots: map<int, Value>, n: nat, keyed: map<int, Value>, queued: seq<Value>,
                           free: seq<int>, a: nat)
      requires Placed(slots, n, keyed, queued, free, a) && a < |queued| && free[a] >= 0
      ensures free[a] !in slots
      ensures Placed(slots[free[a] := queued[a]], if free[a] >= n then free[a] + 1 else n,
                     keyed, queued, free, a + 1)
    {
      FreeIdUnused(keyed.Keys, slots.Keys, free, a);
      assert Handed(free, a + 1) == Handed(free, a) + {free[a]};
      var slots' := slots[free[a] := queued[a]];
      forall j | 0 <= j < a
        ensures free[j] in slots' && slots'[free[j]] == queued[j]
      {
        assert free[j] < free[a];
      }
      assert free[a] !in keyed;
      assert Below(slots', if free[a] >= n then free[a] + 1 else n);
    }

    /** The next free id to hand out is not stored yet. */
    static lemma FreeIdUnused(keys: set<int>, stored: set<int>, free: seq<int>, a: nat)
      requires a < |free| && StrictlyIncreasing(free) && free[a] !in keys
      requires stored <= keys + Handed(free, a)
      ensures free[a] !in stored
    {
      assert forall i :: 0 <= i < a ==> free[i] < free[a];
    }

    /**
     * What holds of the table while the id-assignment loop runs: its slots and
     * length are `Placed`, every numbered value carries its own id, and the
     * table is clean.
     */
    ghost predicate Assigning(keyed: map<int, Value>, queued: seq<Value>, free: seq<int>, a: nat)
      reads this, values.Values, keyed.Values
    {
      Placed(values, len, keyed, queued, free, a) &&
      (forall k :: k in keyed ==> keyed[k].id == Some(k)) &&
      Clean()
    }

    /** Every value of `owners` is owned by this table. */
    ghost predicate Owns(owners: seq<Value>)
      reads this, owners
    {
      forall i :: 0 <= i < |owners| ==> owners[i].table == this
    }

    /** Every numbered and every queued value is one of `owners`. */
    static ghost predicate Among(keyed: map<int, Value>, queued: seq<Value>, owners: seq<Value>)
    {
      (forall k :: k in keyed ==> keyed[k] in owners) &&
      (forall j :: 0 <= j < |queued| ==> queued[j] in owners)
    }

    /** Visiting a numbered id: its value is stored again. */
    method StoreNumbered(keyed: map<int, Value>, queued: seq<Value>, ghost free: seq<int>, ghost a: nat, id: int,
                         ghost owners: seq<Value>)
      requires id in keyed && Assigning(keyed, queued, free, a) && Owns(owners)
      modifies this, lazy, keyed[id]
      ensures Assigning(keyed, queued, free, a) && Owns(owners)
      ensures values.Keys == old(values.Keys) + {id} && raw == old(raw)
    {
      PlaceNumbered(values, len, keyed, queued, free, a, id);
      Set(id, keyed[id]);
    }

    /** Visiting a free id: the next queued value is numbered with it and stored. */
    method StoreFree(keyed: map<int, Value>, queued: seq<Value>, ghost free: seq<int>, ghost a: nat,
                     id: int, v: Value, ghost owners: seq<Value>)
      requires a < |queued| && v == queued[a] && Assigning(keyed, queued, free, a) && id == free[a] && id >= 0
      requires Owns(owners)
      modifies this, lazy, v
      ensures Assigning(keyed, queued, free, a + 1) && Owns(owners)
      ensures values.Keys == old(values.Keys) + {id} && raw == old(raw)
    {
      ghost var slots, n := values, len;
      PlaceFree(slots, n, keyed, queued, free, a);
      assert forall k :: k in keyed ==> keyed[k] != queued[a];
      SetUnused(keyed, id, v, owners);
      assert values == slots[free[a] := queued[a]] && len == if free[a] >= n then free[a] + 1 else n;
    }

    /** `table[id] = v` at an id not stored yet, `v` not numbered: the numbered values keep their ids. */
    method SetUnused(keyed: map<int, Value>, id: int, v: Value, ghost owners: seq<Value>)
      requires id !in values && Clean() && Owns(owners) && forall k :: k in keyed ==> keyed[k] != v
      requires forall k :: k in keyed ==> keyed[k].id == Some(k)
      modifies this, lazy, v
      ensures values == old(values)[id := v] && len == (if id >= old(len) then id + 1 else old(len))
      ensures raw == old(raw) && Clean() && Owns(owners)
      ensures forall k :: k in keyed ==> keyed[k].id == Some(k)
    {
      Set(id, v);
    }

    /**
     * Where the id-assignment loop stands between iterations: the ids still to
     * pop, the values still waiting (the last ones of `queued`), and, while
     * values wait, every numbered id still to pop and the next id to visit no
     * further than the next free id to hand out.
     */
    ghost predicate Walking(keys: set<int>, queued: seq<Value>, free: seq<int>, a: nat,
                            taken: seq<int>, waiting: seq<Value>, id: int)
    {
      FreeChain(keys, free) && |free| == |queued| && a <= |queued| && waiting == queued[a..] &&
      (forall t :: t in taken ==> t in keys) &&
      (|waiting| > 0 ==> id >= 0 && FreeFrom(keys, id) == free[a]) &&
      (|waiting| > 0 ==> forall k :: k in keys ==> k in taken)
    }

    /** Every numbered id is still to pop or already stored. */
    ghost predicate Covered(keys: set<int>, taken: seq<int>)
      reads this
    {
      forall k :: k in keys ==> k in taken || k in values
    }

    /**
     * One iteration of the corrected loop: once no value waits, jump to the next
     * numbered id; then store the value numbered `id`, or number the next
     * waiting value with it; then move on to the next id.
     */
    method Visit(keyed: map<int, Value>, queued: seq<Value>, ghost free: seq<int>, ghost a: nat,
                 taken: seq<int>, waiting: seq<Value>, id: int, ghost owners: seq<Value>)
      returns (taken': seq<int>, waiting': seq<Value>, id': int, ghost a': nat)
      requires Assigning(keyed, queued, free, a) && Covered(keyed.Keys, taken)
      requires Walking(keyed.Keys, queued, free, a, taken, waiting, id) && (|waiting| > 0 || |taken| > 0)
      requires Owns(owners) && Among(keyed, queued, owners)
      modifies this, lazy, owners
      ensures Assigning(keyed, queued, free, a') && Covered(keyed.Keys, taken') && Owns(owners)
      ensures Walking(keyed.Keys, queued, free, a', taken', waiting', id') && raw == old(raw)
      ensures |taken'| < |taken| || (|taken'| == |taken| && (|waiting'| < |waiting| ||
        (|waiting'| == |waiting| && |waiting| > 0 &&
         FreeFrom(keyed.Keys, id') - id' < FreeFrom(keyed.Keys, id) - id)))
    {
      var keys := keyed.Keys;
      taken', waiting', id', a' := taken, waiting, id, a;
      if |waiting'| == 0 {
        id' := taken'[0];
        taken' := taken'[1..];
      }
      if id' in keyed {
        VisitNumbered(keyed, queued, free, a', taken', waiting', id', owners);
      } else {
        VisitFree(keyed, queued, free, a', taken', waiting', id', owners);
        a' := a' + 1;
        waiting' := waiting'[1..];
      }
      id' := id' + 1;
    }

    /** `Visit` at a numbered id: its value is stored again, and the next free id stays where it was. */
    method VisitNumbered(keyed: map<int, Value>, queued: seq<Value>, ghost free: seq<int>, ghost a: nat,
                         ghost taken: seq<int>, ghost waiting: seq<Value>, id: int, ghost owners: seq<Value>)
      requires Assigning(keyed, queued, free, a) && Owns(owners) && Among(keyed, queued, owners)
      requires id in keyed && Walking(keyed.Keys, queued, free, a, taken, waiting, id)
      requires forall k :: k in keyed ==> k in taken || k == id || k in values
      modifies this, lazy, owners
      ensures Assigning(keyed, queued, free, a) && Covered(keyed.Keys, taken) && Owns(owners)
      ensures Walking(keyed.Keys, queued, free, a, taken, waiting, id + 1) && raw == old(raw)
      ensures |waiting| > 0 ==> FreeFrom(keyed.Keys, id + 1) == FreeFrom(keyed.Keys, id)
    {
      if |waiting| > 0 {
        FreeFromSkip(keyed.Keys, id);
      }
      StoreNumbered(keyed, queued, free, a, id, owners);
    }

    /** `Visit` at a free id: the next waiting value is numbered with it. */
    method VisitFree(keyed: map<int, Value>, queued: seq<Value>, ghost free: seq<int>, ghost a: nat,
                     ghost taken: seq<int>, waiting: seq<Value>, id: int, ghost owners: seq<Value>)
      requires Assigning(keyed, queued, free, a) && Owns(owners) && Among(keyed, queued, owners)
      requires id !in keyed && |waiting| > 0 && Walking(keyed.Keys, queued, free, a, taken, waiting, id)
      requires Covered(keyed.Keys, taken)
      modifies this, lazy, owners
      ensures Assigning(keyed, queued, free, a + 1) && Covered(keyed.Keys, taken) && Owns(owners)
      ensures Walking(keyed.Keys, queued, free, a + 1, taken, waiting[1..], id + 1) && raw == old(raw)
    {
      StoreFree(keyed, queued, free, a, id, waiting[0], owners);
    }

    /**
     * The id-assignment loop, with the last popped id visited: while values wait
     * for an id, walk the ids from zero, re-storing a numbered value where its
     * id is met and numbering the next waiting value at every free id; then
     * visit each remaining numbered id in increasing order. The `j`-th queued
     * value ends at the `j`-th free id, and nothing else is stored.
     */
    method AssignIds(keyed: map<int, Value>, queued: seq<Value>, order: seq<int>, ghost owners: seq<Value>)
      requires values == map[] && len == 0
      requires forall k :: k in order <==> k in keyed
      requires forall k :: k in keyed ==> keyed[k].id == Some(k)
      requires forall v :: v in queued ==> v.id == None
      requires Owns(owners) && Among(keyed, queued, owners)
      modifies this, lazy, owners
      ensures raw == old(raw) && Numbered(keyed, queued) && Owns(owners)
    {
      ghost var free := FreeList(keyed.Keys, |queued|);
      StartAssigning(keyed, queued, free);
      FreeListChain(keyed.Keys, |queued|);
      var taken := SortedIds(order);
      Walk(keyed, queued, free, taken, owners);
      AssignedAll(keyed, queued, free);
    }

    /**
     * The loop of `AssignIds`, from id zero with every numbered id to pop and
     * every queued value waiting, until nothing is left to pop or number.
     */
    method Walk(keyed: map<int, Value>, queued: seq<Value>, ghost free: seq<int>, taken: seq<int>,
                ghost owners: seq<Value>)
      requires Assigning(keyed, queued, free, 0) && Covered(keyed.Keys, taken)
      requires Walking(keyed.Keys, queued, free, 0, taken, queued, 0)
      requires Owns(owners) && Among(keyed, queued, owners)
      modifies this, lazy, owners
      ensures Assigning(keyed, queued, free, |queued|) && Covered(keyed.Keys, [])
      ensures raw == old(raw) && Owns(owners)
    {
      var keys := keyed.Keys;
      var taken := taken;
      var waiting := queued;
      var id: int := 0;
      ghost var a: nat := 0;
      while |waiting| > 0 || |taken| > 0
        invariant Assigning(keyed, queued, free, a) && Covered(keys, taken)
        invariant Walking(keys, queued, free, a, taken, waiting, id) && raw == old(raw) && Owns(owners)
        decreases |taken|, |waiting|, if |waiting| > 0 then FreeFrom(keys, id) - id else 0
      {
        taken, waiting, id, a := Visit(keyed, queued, free, a, taken, waiting, id, owners);
      }
    }

    /** An empty table is where the id-assignment loop starts. */
    lemma StartAssigning(keyed: map<int, Value>, queued: seq<Value>, free: seq<int>)
      requires values == map[] && len == 0 && free == FreeList(keyed.Keys, |queued|)
      requires forall k :: k in keyed ==> keyed[k].id == Some(k)
      requires forall v :: v in queued ==> v.id == None
      ensures Assigning(keyed, queued, free, 0)
    {
      FreeListIncreasing(keyed.Keys, |queued|);
      forall k, j | k in keyed && 0 <= j < |queued|
        ensures keyed[k] != queued[j]
      {
        assert queued[j] in queued;
      }
    }

    /** Once every queued value is numbered and every numbered id popped, the table is complete. */
    lemma AssignedAll(keyed: map<int, Value>, queued: seq<Value>, free: seq<int>)
      requires Assigning(keyed, queued, free, |queued|) && Covered(keyed.Keys, [])
      requires free == FreeList(keyed.Keys, |queued|)
      ensures Numbered(keyed, queued)
    {
      forall k | k in keyed
        ensures k in values
      {
        assert k in [] || k in values;
      }
      PlacedAll(values, len, keyed, queued);
    }

    /** Slots placed for every queued value, and holding every numbered id, are complete. */
    static lemma PlacedAll(slots: map<int, Value>, n: nat, keyed: map<int, Value>, queued: seq<Value>)
      requires Placed(slots, n, keyed, queued, FreeList(keyed.Keys, |queued|), |queued|)
      requires keyed.Keys <= slots.Keys
      ensures Complete(slots, keyed, queued)
    {
      var free := FreeList(keyed.Keys, |queued|);
      forall k | k in free
        ensures k in Handed(free, |queued|)
      {
        var j :| 0 <= j < |free| && free[j] == k;
      }
    }
  }
}
