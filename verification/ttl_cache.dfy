/**
 A time-to-live cache: a map from keys to values, each stamped with the
 instant at which it expires. The wall clock is not part of the model; every
 operation that reads the clock takes the current instant `now` as a parameter,
 measured in nanoseconds on a monotonic timeline.
 */
module TtlCache {
  import opened Wrappers

  /** The cache key: the path and the query string of a GET request, compared
      structurally (field by field, character by character). */
  datatype Request = Request(path: string, query_string: string)

  /** Builds a key from a path and a query string exactly as received: no
      normalisation, decoding or reordering of query parameters. */
  function NewRequest(path: string, query_string: string): (r: Request)
    ensures r.path == path && r.query_string == query_string
  {
    Request(path, query_string)
  }

  /** What the map stores for a key: the value and its expiry instant. */
  datatype Entry<V> = Entry(value: V, expires: nat)

  /** A cache whose every entry lives for the same fixed `ttl`. */
  datatype Cache<K, V> = Cache(ttl: nat, entries: map<K, Entry<V>>)

  /** True when `k` has an entry that has not yet expired at `now`. */
  predicate Live<K, V>(c: Cache<K, V>, k: K, now: nat)
  {
    k in c.entries && now < c.entries[k].expires
  }

  /** A new cache with no entries and the given time-to-live. */
  function New<K, V>(ttl: nat): (c: Cache<K, V>)
    ensures c.ttl == ttl
    ensures c.entries == map[]
  {
    Cache(ttl, map[])
  }

  /** Stores `v` under `k`, expiring `ttl` after `now`; any previous entry for
      `k` is replaced in full and every other key keeps its entry. */
  function Insert<K, V>(c: Cache<K, V>, k: K, v: V, now: nat): (c': Cache<K, V>)
    ensures c'.ttl == c.ttl
    ensures c'.entries.Keys == c.entries.Keys + {k}
    ensures c'.entries[k] == Entry(v, now + c.ttl)
    ensures forall k' :: k' in c.entries && k' != k ==> c'.entries[k'] == c.entries[k']
  {
    Cache(c.ttl, c.entries[k := Entry(v, now + c.ttl)])
  }

  /** Looks `k` up at instant `now`. An entry counts only while its expiry is
      strictly later than `now`; an expired entry reads as absent but stays in
      the map (the cache is not an output of this function). */
  function Get<K, V>(c: Cache<K, V>, k: K, now: nat): (r: Option<V>)
    ensures r.Some? <==> Live(c, k, now)
    ensures r.Some? ==> r.value == c.entries[k].value
  {
    if k in c.entries then
      var e := c.entries[k];
      if e.expires > now then Some(e.value) else None
    else
      None
  }

  /** Two keys are the same key exactly when both fields agree. */
  lemma KeyEquality(a: Request, b: Request)
    ensures a == b <==> (a.path == b.path && a.query_string == b.query_string)
  {
  }

  /** A fresh cache reads every key as absent at every instant. */
  lemma NewIsEmpty<K, V>(ttl: nat, k: K, now: nat)
    ensures Get(New<K, V>(ttl), k, now) == None
  {
  }

  /** A missing key reads as absent at every instant. */
  lemma GetMissing<K, V>(c: Cache<K, V>, k: K, now: nat)
    requires k !in c.entries
    ensures Get(c, k, now) == None
  {
  }

  /** Insert-then-get round trip: a value stored at `t` is returned by every
      lookup during the `ttl` that follows, including one at `t` itself. */
  lemma GetWithinTtl<K, V>(c: Cache<K, V>, k: K, v: V, t: nat, now: nat)
    requires t <= now < t + c.ttl
    ensures Get(Insert(c, k, v, t), k, now) == Some(v)
  {
  }

  /** Once `ttl` has elapsed since the insert (expiry equal to `now`
      included), the entry reads as absent, although it is still stored. */
  lemma GetAfterTtl<K, V>(c: Cache<K, V>, k: K, v: V, t: nat, now: nat)
    requires now >= t + c.ttl
    ensures Get(Insert(c, k, v, t), k, now) == None
    ensures k in Insert(c, k, v, t).entries
  {
  }

  /** With a zero ttl, nothing ever reads back, not even at the insert instant. */
  lemma ZeroTtlNeverHits<K, V>(c: Cache<K, V>, k: K, v: V, t: nat, now: nat)
    requires c.ttl == 0 && now >= t
    ensures Get(Insert(c, k, v, t), k, now) == None
  {
  }

  /** Inserting under one key does not change what any other key reads. */
  lemma InsertFrame<K, V>(c: Cache<K, V>, k: K, v: V, t: nat, k': K, now: nat)
    requires k' != k
    ensures Get(Insert(c, k, v, t), k', now) == Get(c, k', now)
  {
  }

  /** Keys that differ only in their query string never collide: storing one
      leaves lookups of the other as they were. */
  lemma QueriesDoNotCollide<V>(c: Cache<Request, V>, path: string, q1: string, q2: string,
                               v: V, t: nat, now: nat)
    requires q1 != q2
    ensures Get(Insert(c, NewRequest(path, q1), v, t), NewRequest(path, q2), now)
         == Get(c, NewRequest(path, q2), now)
  {
    InsertFrame(c, NewRequest(path, q1), v, t, NewRequest(path, q2), now);
  }

  /** A later insert for the same key wins, whatever was stored before. */
  lemma LastInsertWins<K, V>(c: Cache<K, V>, k: K, v1: V, t1: nat, v2: V, t2: nat)
    ensures Insert(Insert(c, k, v1, t1), k, v2, t2) == Insert(c, k, v2, t2)
  {
  }

  /** With a ttl of 30 s, "hello" stored at t0 is read back 10 s later and
      reads as absent 31 s later, while still being stored. */
  lemma ThirtySecondExample(c: Cache<Request, string>, k: Request, t0: nat)
    requires c.ttl == 30 * 1_000_000_000
    ensures Get(Insert(c, k, "hello", t0), k, t0 + 10 * 1_000_000_000) == Some("hello")
    ensures Get(Insert(c, k, "hello", t0), k, t0 + 31 * 1_000_000_000) == None
    ensures k in Insert(c, k, "hello", t0).entries
  {
  }
}
