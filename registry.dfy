/**
 * The storage shape the mesh and material managers share: each id maps to
 * the raw asset and its device-side runtime data, which is built lazily,
 * at most once, by the `*_or_init` operations.
 */
module Registries {
  import opened Wrappers

  datatype Entry<T, R> = Entry(raw: T, runtime: Option<R>)

  /** The runtime data stored under `id`: none for an unknown id or before it was built. */
  function RuntimeOf<T, R>(entries: map<nat, Entry<T, R>>, id: nat): (r: Option<R>)
    ensures id !in entries ==> r.None?
    ensures id in entries ==> r == entries[id].runtime
  {
    if id in entries then entries[id].runtime else None
  }

  /** The raw asset stored under `id`, or none for an unknown id. */
  function RawOf<T, R>(entries: map<nat, Entry<T, R>>, id: nat): (r: Option<T>)
    ensures r.Some? <==> id in entries
    ensures r.Some? ==> r.value == entries[id].raw
  {
    if id in entries then Some(entries[id].raw) else None
  }

  /**
   * The `get_runtime_*_or_init` step: an unknown id gives none and changes
   * nothing; stored runtime data is returned unchanged; otherwise `init` of
   * the raw asset is stored and returned. The new table and the answer are
   * returned as a pair.
   */
  function OrInit<T, R>(entries: map<nat, Entry<T, R>>, id: nat, init: T -> R): (res: (map<nat, Entry<T, R>>, Option<R>))
    ensures res.0.Keys == entries.Keys
    ensures res.1.Some? <==> id in entries
    ensures id !in entries ==> res.0 == entries
    ensures id in entries && entries[id].runtime.Some? ==> res == (entries, entries[id].runtime)
    ensures id in entries && entries[id].runtime.None? ==>
      res.1 == Some(init(entries[id].raw)) && res.0 == entries[id := Entry(entries[id].raw, res.1)]
    ensures forall k | k in entries :: res.0[k].raw == entries[k].raw
    ensures forall k | k in entries && k != id :: res.0[k] == entries[k]
    ensures RuntimeOf(res.0, id) == res.1
  {
    if id !in entries then (entries, None)
    else
      match entries[id].runtime
      case Some(_) => (entries, entries[id].runtime)
      case None =>
        var built := Some(init(entries[id].raw));
        (entries[id := Entry(entries[id].raw, built)], built)
  }

  /** A second `or_init` on the same id changes nothing and gives the same answer. */
  lemma OrInitIdempotent<T, R>(entries: map<nat, Entry<T, R>>, id: nat, init: T -> R)
    ensures var (after, r) := OrInit(entries, id, init);
            OrInit(after, id, init) == (after, r)
  {
  }

  /** Once built, runtime data stays the same whatever `init` a later call would use. */
  lemma OrInitKeepsBuilt<T, R>(entries: map<nat, Entry<T, R>>, id: nat, init: T -> R, other: T -> R)
    ensures var (after, r) := OrInit(entries, id, init);
            OrInit(after, id, other).1 == r
  {
  }
}
