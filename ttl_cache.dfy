/** The timestamped cache entries both client-side caches keep in a `Map`, and their
    freshness rule. */
module TtlCache {
  import opened Wrappers

  /** Five minutes in milliseconds (`5 * 60 * 1000`). */
  const Ttl: int := 5 * 60 * 1000

  datatype Entry<T> = Entry(data: T, timestamp: int)

  /** `cached && now - cached.timestamp < CACHE_TTL`: an entry answers only while strictly
      younger than the time-to-live. */
  function Lookup<T>(cache: map<string, Entry<T>>, key: string, now: int): (r: Option<T>)
    ensures r.Some? <==> key in cache && now - cache[key].timestamp < Ttl
    ensures r.Some? ==> r.value == cache[key].data
  {
    if key in cache && now - cache[key].timestamp < Ttl then Some(cache[key].data) else None
  }

  /** `cache.set(key, {data, timestamp})`. */
  function Store<T>(cache: map<string, Entry<T>>, key: string, data: T, timestamp: int): (c: map<string, Entry<T>>)
    ensures key in c && c[key] == Entry(data, timestamp)
    ensures c.Keys == cache.Keys + {key}
    ensures forall k :: k in cache && k != key ==> c[k] == cache[k]
  {
    cache[key := Entry(data, timestamp)]
  }

  /** A stored entry answers a later lookup for its key exactly while that lookup comes less
      than one time-to-live after the stored timestamp; at exactly the time-to-live it misses. */
  lemma StoredEntryAnswersWithinTtl<T>(cache: map<string, Entry<T>>, key: string, data: T, t: int, later: int)
    ensures Lookup(Store(cache, key, data, t), key, later) == (if later - t < Ttl then Some(data) else None)
  {
  }

  /** Storing under one key does not change what any other key answers. */
  lemma StoreKeepsOtherKeys<T>(cache: map<string, Entry<T>>, key: string, data: T, t: int, other: string, now: int)
    requires other != key
    ensures Lookup(Store(cache, key, data, t), other, now) == Lookup(cache, other, now)
  {
  }
}
