/** Values shared by every component: optional values, Python errors that the
    modelled code can raise, and Python's substring test `sub in s`. */
module Common {

  datatype Option<+T> = None | Some(value: T)

  /** The Python exceptions that the modelled code can raise on some input. */
  datatype PyError =
    | TypeError      // subscripting or taking len() of None
    | IndexError     // indexing past the end of a list, random.choice([])
    | StopIteration  // next() on an exhausted reader

  /** A value or the exception raised instead; usable with `:-`, which
      propagates the exception as Python does. */
  datatype Result<+T> = Ok(value: T) | Err(error: PyError) {
    predicate IsFailure() { Err? }

    function PropagateFailure<U>(): (r: Result<U>)
      requires Err?
    {
      Err(error)
    }

    function Extract(): (v: T)
      requires Ok?
    {
      value
    }
  }

  /** How a call that returns nothing ended: normally, or with an exception. */
  datatype Status = Done | Raised(error: PyError)

  /** The element of `m` at `k`, as `dict.get(k)` returns it. */
  function Get<K, V>(m: map<K, V>, k: K): (r: Option<V>)
    ensures r.Some? <==> k in m
    ensures r.Some? ==> r.value == m[k]
  {
    if k in m then Some(m[k]) else None
  }

  /** `sub` occurs in `s` starting at index `i`. */
  predicate OccursAt(sub: string, s: string, i: int)
  {
    0 <= i && i + |sub| <= |s| && s[i..i + |sub|] == sub
  }

  /** `sub in s` for Python strings: `sub` occurs contiguously in `s`. */
  predicate IsSubstring(sub: string, s: string)
  {
    exists i | 0 <= i <= |s| - |sub| :: OccursAt(sub, s, i)
  }

  lemma {:induction false} SubstringOfExtension(sub: string, pre: string, post: string)
    ensures IsSubstring(sub, pre + sub + post)
  {
    var s := pre + sub + post;
    assert s[|pre|..|pre| + |sub|] == sub;
    assert OccursAt(sub, s, |pre|);
  }
}
