// impl/py/src/jeff/capnp/__init__.py: the `LazyUpdate` dirty-flag protocol.
module PyLazy {
  /**
   * The dirty flag every buffer-backed object carries. Objects are dirty when
   * they are created; marking dirty and marking clean only set the flag.
   * Propagation to parent objects is done by the owners, not here.
   */
  class LazyUpdate {
    var dirty: bool

    /** A fresh object has no encoded data yet, so it starts dirty. */
    constructor()
      ensures dirty
    {
      dirty := true;
    }

    /** `_mark_dirty`. */
    method MarkDirty()
      modifies this
      ensures dirty
    {
      dirty := true;
    }

    /** `_mark_clean`: local only. */
    method MarkClean()
      modifies this
      ensures !dirty
    {
      dirty := false;
    }

    /** `is_dirty`. */
    function IsDirty(): (b: bool)
      reads this
      ensures b <==> dirty
    {
      dirty
    }
  }
}
