/** What the components see of their data-fetching library: the state of a
    query, and which cached queries a successful mutation invalidates. */
module Queries {
  import opened Wrappers

  /** A query's state: not enabled, in flight, failed with the thrown
      error's message, or resolved with data. */
  datatype Query<T> = Idle | Pending | Failed(message: string) | Done(data: T)

  /** The state of an enabled query once its fetch function has settled. */
  function Settled<T>(r: Result<T>): Query<T> {
    match r
    case Ok(v) => Done(v)
    case Err(m) => Failed(m)
  }

  /** A cache key, such as `['load', id]`. */
  type QueryKey = seq<string>

  /** What one `invalidateQueries` call matches: the queries under one key,
      or every query (the call passed an array where the library expects a
      filter object, so no key filter applies). */
  datatype CacheFilter = Key(key: QueryKey) | AnyQuery

  /** `invalidateQueries({ queryKey: k })` marks every cached query whose key
      starts with `k`; the filter-less call marks every query. */
  predicate Matches(f: CacheFilter, key: QueryKey) {
    match f
    case AnyQuery => true
    case Key(k) => k <= key
  }

  /** Whether any of a mutation's invalidations marks the query `key`. */
  predicate Invalidated(fs: set<CacheFilter>, key: QueryKey) {
    exists f :: f in fs && Matches(f, key)
  }

  /** How a mutation ended: its data and the cache filters its `onSuccess`
      invalidated, or the thrown error's message (shown as a toast). */
  datatype Mutation<T> = Succeeded(data: T, invalidated: set<CacheFilter>) | Errored(message: string)

  /** How far one fetch of an enabled query has got: still in flight, or
      settled, with the data service failing when `outage` is present. */
  datatype Fetch = Fetch(settled: bool, outage: Option<string>)

  /** A query's state, given whether it is enabled, how far its fetch has got
      and what its fetch function returns once settled. */
  function Run<T>(enabled: bool, f: Fetch, result: Result<T>): (q: Query<T>)
    ensures q.Done? ==> enabled && f.settled && result == Ok(q.data)
    ensures q.Failed? ==> enabled && f.settled && result == Err(q.message)
    ensures q.Idle? <==> !enabled
  {
    if !enabled then Idle
    else if !f.settled then Pending
    else Settled(result)
  }
}
