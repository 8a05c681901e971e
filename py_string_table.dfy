// impl/py/src/jeff/string_table.py: the module's interning string table.
module PyStringTable {
  import opened Wrappers
  import opened PyErrors
  import PyLazy

  /** The position of the last occurrence of `s` in `list`. */
  function LastIndexOf(list: seq<string>, s: string): (i: nat)
    requires s in list
    ensures i < |list| && list[i] == s
    ensures forall j :: i < j < |list| ==> list[j] != s
  {
    if list[|list| - 1] == s then |list| - 1 else LastIndexOf(list[..|list| - 1], s)
  }

  /** Slot `index` holds some other string whose reverse entry points at `index`. */
  predicate StaleAfterSet(strings: map<int, string>, reverse: map<string, int>, index: int, s: string)
    requires index in strings
  {
    strings[index] != s && strings[index] in reverse && reverse[strings[index]] == index
  }

  /**
   * A sparse list of strings (`strings`, holes allowed) with a reverse map
   * from string to index, a length, an optional backing buffer of encoded
   * strings and the dirty flag.
   */
  class StringTable {
    var strings: map<int, string>
    var reverse: map<string, int>
    var len: nat
    var raw: Option<seq<string>>
    const lazy: PyLazy.LazyUpdate

    /** Every reverse entry points at a slot that holds that string. */
    predicate Consistent()
      reads this
    {
      forall s :: s in reverse ==> reverse[s] in strings && strings[reverse[s]] == s
    }

    /** The states that insertion and reading keep: consistent, with every slot in `[0, len)`. */
    predicate Valid()
      reads this
    {
      Consistent() && forall i :: i in strings ==> 0 <= i < len
    }

    /** `StringTable(list)`: slot `i` holds `list[i]`; the reverse map keeps the last index of each string. */
    constructor(list: seq<string>)
      ensures strings == map i | 0 <= i < |list| :: list[i]
      ensures forall s :: s in reverse <==> s in list
      ensures forall s :: s in reverse ==> reverse[s] == LastIndexOf(list, s)
      ensures len == |list| && raw == None
      ensures fresh(lazy) && lazy.dirty
      ensures Valid()
    {
      strings := map i | 0 <= i < |list| :: list[i];
      reverse := map s | s in list :: LastIndexOf(list, s);
      len := |list|;
      raw := None;
      lazy := new PyLazy.LazyUpdate();
    }

    /** `_read_from_buffer`: nothing is loaded; the length is the buffer's. */
    constructor FromBuffer(reader: seq<string>)
      ensures strings == map[] && reverse == map[]
      ensures len == |reader| && raw == Some(reader)
      ensures fresh(lazy) && !lazy.dirty
      ensures Valid()
    {
      strings := map[];
      reverse := map[];
      len := |reader|;
      raw := Some(reader);
      var l := new PyLazy.LazyUpdate();
      l.MarkClean();
      lazy := l;
    }

    /** `len(t)`. */
    function Len(): (n: nat)
      reads this
      ensures n == len
    {
      len
    }

    /** `t.index(s)`: the reverse map's entry, or `KeyError`. */
    function Index(s: string): (r: Result<int, PyError>)
      reads this
      ensures r.Err? <==> s !in reverse
      ensures r.Err? ==> r.error == KeyError
      ensures r.Ok? ==> r.value == reverse[s]
      ensures Consistent() && r.Ok? ==> r.value in strings && strings[r.value] == s
    {
      if s in reverse then Ok(reverse[s]) else Err(KeyError)
    }

    /**
     * What `t[index]` returns: `IndexError` outside `[0, len)`, the cached
     * string, `ValueError` for a hole with no buffer, or the buffer's entry
     * (past the buffer's end the buffer itself raises `IndexError`).
     */
    function Peek(index: int): (r: Result<string, PyError>)
      reads this
      ensures (index < 0 || index >= len) ==> r == Err(IndexError)
      ensures 0 <= index < len && index in strings ==> r == Ok(strings[index])
      ensures 0 <= index < len && index !in strings && raw.None? ==> r == Err(ValueError)
      ensures 0 <= index < len && index !in strings && raw.Some? ==>
        r == if index < |raw.value| then Ok(raw.value[index]) else Err(IndexError)
    {
      if index < 0 || index >= len then Err(IndexError)
      else if index in strings then Ok(strings[index])
      else if raw.None? then Err(ValueError)
      else if index < |raw.value| then Ok(raw.value[index])
      else Err(IndexError)
    }

    /** `t[index]`: returns `Peek(index)`, caching a string read from the buffer in both maps. */
    method Get(index: int) returns (r: Result<string, PyError>)
      modifies this`strings, this`reverse
      ensures r == old(Peek(index))
      ensures r.Ok? && index !in old(strings) ==>
        strings == old(strings)[index := r.value] && reverse == old(reverse)[r.value := index]
      ensures r.Err? || index in old(strings) ==> strings == old(strings) && reverse == old(reverse)
      ensures old(Valid()) ==> Valid()
    {
      r := Peek(index);
      if r.Ok? && index !in strings {
        strings := strings[index := r.value];
        reverse := reverse[r.value := index];
      }
    }

    /**
     * `t[index] = s`: both maps are updated, the length grows to cover
     * `index`, nothing else changes and the table becomes dirty. Overwriting
     * a slot that held another string leaves that string's reverse entry
     * pointing at the slot, so the table is then no longer consistent.
     */
    method Set(index: int, s: string)
      modifies this, lazy
      ensures strings == old(strings)[index := s]
      ensures reverse == old(reverse)[s := index]
      ensures len == if index >= old(len) then index + 1 else old(len)
      ensures raw == old(raw) && lazy.dirty
      ensures old(Valid()) && index >= 0 && (index in old(strings) ==> old(strings[index]) == s) ==> Valid()
      ensures index in old(strings) && StaleAfterSet(old(strings), old(reverse), index, s) ==> !Consistent()
    {
      ghost var stale := index in strings && StaleAfterSet(strings, reverse, index, s);
      ghost var t := if index in strings then strings[index] else s;
      strings := strings[index := s];
      reverse := reverse[s := index];
      if index >= len {
        len := index + 1;
      }
      lazy.MarkDirty();
      if stale {
        assert t in reverse && strings[reverse[t]] != t;
      }
    }

    /**
     * `t.insert(s)`: a string already in the reverse map returns its index and
     * changes nothing; a new one is stored at the old length, which grows by one.
     * Either way `s` is then in the reverse map at the returned index, so a
     * second insert of `s` returns the same index and changes nothing.
     */
    method Insert(s: string) returns (index: int)
      modifies this, lazy
      ensures s in old(reverse) ==> index == old(reverse[s])
      ensures s in old(reverse) ==>
        strings == old(strings) && reverse == old(reverse) && len == old(len) && lazy.dirty == old(lazy.dirty)
      ensures s !in old(reverse) ==>
        index == old(len) && strings == old(strings)[index := s] && reverse == old(reverse)[s := index]
      ensures s !in old(reverse) ==> len == old(len) + 1 && lazy.dirty
      ensures raw == old(raw)
      ensures s in reverse && reverse[s] == index
      ensures old(Valid()) ==> Valid() && Peek(index) == Ok(s) && Index(s) == Ok(index)
    {
      if s in reverse {
        index := reverse[s];
        return;
      }
      index := len;
      Set(index, s);
    }
  }
}
