/**
 * A change-tracking cell (`sl::meta::dirty<T>` as the visualizer uses it):
 * a current value that can be read any number of times, and a pending flag
 * that lets a consumer take each change exactly once.
 */
module DirtyCell {
  import opened Wrappers

  datatype Dirty<T> = Dirty(value: Option<T>, pending: bool) {

    /** A pending change always carries a value. */
    predicate Valid() {
      pending ==> value.Some?
    }

    /** `set`: store the value and mark it pending. */
    function Set(v: T): (d: Dirty<T>)
      ensures d.Valid() && d.Get() == Some(v) && d.pending
    {
      Dirty(Some(v), true)
    }

    /** `get`: the current value, whether or not it was released; a pending change can always be read. */
    function Get(): (r: Option<T>)
      ensures Valid() && pending ==> r.Some?
    {
      value
    }

    /**
     * `release`: the value if a change is pending, else nothing; the cell
     * keeps its value and is no longer pending.
     */
    function Release(): (r: (Option<T>, Dirty<T>))
      requires Valid()
      ensures r.0.Some? <==> pending
      ensures r.0.Some? ==> r.0 == Get()
      ensures r.1.Valid() && !r.1.pending && r.1.Get() == Get()
    {
      (if pending then value else None, Dirty(value, false))
    }
  }

  /** A default-constructed cell (the reset `dirty<T>{}`): no value, nothing pending. */
  function Empty<T>(): (d: Dirty<T>)
    ensures d.Valid() && d.Get() == None && !d.pending
  {
    Dirty(None, false)
  }

  /** `set_if_ne`: `set` only when the stored value differs from `v`. */
  function SetIfNe<T(==)>(cell: Dirty<T>, v: T): (d: Dirty<T>)
    requires cell.Valid()
    ensures d.Valid() && d.Get() == Some(v)
    ensures cell.Get() == Some(v) ==> d == cell
    ensures cell.Get() != Some(v) ==> d == cell.Set(v)
  {
    if cell.value == Some(v) then cell else cell.Set(v)
  }

  /** A released value is taken once: releasing again yields nothing. */
  lemma ReleaseOnce<T>(cell: Dirty<T>)
    requires cell.Valid()
    ensures cell.Release().1.Release().0 == None
  {
  }

  /**
   * Debounce: after a change has been released, `set_if_ne` with the value
   * the cell already holds leaves nothing to release.
   */
  lemma SetSameAfterReleaseIsQuiet<T>(cell: Dirty<T>, v: T)
    requires cell.Valid() && cell.Get() == Some(v)
    ensures SetIfNe(cell.Release().1, v).Release().0 == None
  {
  }
}
