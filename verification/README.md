# TTL cache and forwarding policy of a caching reverse proxy

This project models the core of a small caching reverse proxy written in Rust.
The proxy accepts GET requests, forwards each to a fixed origin over HTTPS, and
keeps successful (status 200) bodies in a time-to-live cache so that the same
request within the ttl is answered without contacting the origin.

Two pieces are modelled, both as pure functions over immutable values:

- **The TTL cache** (`src/cache.rs`, module `TtlCache` in `ttl_cache.dfy`). The
  key `Request` is a datatype over the path and the query string, with Dafny's
  structural equality standing for the derived `Eq`/`Hash`. `Cache<K, V>` holds
  the fixed `ttl` and a `map<K, Entry<V>>`; an `Entry` pairs the value with its
  expiry instant. The wall clock is replaced by an explicit `now: nat`
  (nanoseconds on a monotonic timeline). `Insert` stamps `now + ttl` and
  overwrites; `Get` returns the value only while the expiry is strictly later
  than `now`, and, being a function of the cache, never removes anything.
- **The per-request forwarding decision** (`handle_request` in `src/main.rs`,
  modules `Url` in `url.dfy` and `Forwarding` in `forwarding.dfy`). `Handle`
  builds the key, builds the upstream URL, consults the cache at the lookup
  instant, and on a miss uses the origin's answer, which is an input
  (`Upstream`: a reply with status and body, or a transport failure). It
  returns the outcome for the client, the cache afterwards, and the URL
  fetched, if any. `Run` serves a sequence of requests one after another,
  which is how the shared cache evolves when requests are taken in some
  sequential order.

The partner of URL construction is a parser (`ParseUpstreamUrl`, built on
`SplitAtQuery`, which splits at the first `?`); the round trip shows the
upstream URL determines the key whenever the path has no `?`, and a concrete
lemma shows why that restriction is needed. The partner of the forwarding
step is a trace invariant: every cache entry is either from the initial
cache or is the 200 body of an earlier request for the same key, so non-200
replies never populate the cache.

A failed send or body read is not turned into an error response: the
handler calls `.unwrap()` on it (src/main.rs:55, 60, 75) and ends without
responding. This is modelled as `Outcome.Abort` with the cache unchanged.
`remove_expired` (src/cache.rs:57-59) is `todo!()` and is not modelled.

## Model

| member | source | states |
|---|---|---|
| TtlCache.NewRequest | src/cache.rs:16-19 | the key holds the path and query string exactly as given, with no normalisation |
| TtlCache.KeyEquality | src/cache.rs:7-14 | two keys are equal if and only if both the path and the query string are equal |
| TtlCache.QueriesDoNotCollide | src/cache.rs:7-14 | keys differing only in the query string never collide: storing one leaves every lookup of the other unchanged |
| TtlCache.New | src/cache.rs:31-36 | a new cache stores the given ttl and has no entries |
| TtlCache.NewIsEmpty | src/cache.rs:31-36 | a new cache reads every key as absent at every instant |
| TtlCache.Insert | src/cache.rs:39-42 | after an insert at `now` the key maps to exactly the value with expiry `now + ttl`, the ttl is unchanged, the key set grows by the key only, and every other key keeps its entry |
| TtlCache.LastInsertWins | src/cache.rs:39-42 | a second insert for a key replaces value and expiry in full, as if the first never happened |
| TtlCache.InsertFrame | src/cache.rs:41 | an insert under one key leaves every other key's lookup unchanged |
| TtlCache.Get | src/cache.rs:46-54 | a lookup returns a value exactly when the key has an entry whose expiry is strictly later than `now`, and then it is that entry's value |
| TtlCache.GetMissing | src/cache.rs:47 | a key with no entry reads as absent |
| TtlCache.GetWithinTtl | src/cache.rs:39-54 | insert-then-get round trip: a value stored at `t` is read back at every instant in `[t, t + ttl)` |
| TtlCache.GetAfterTtl | src/cache.rs:48-52 | from `t + ttl` on (the expiry instant included) the entry reads as absent yet is still stored |
| TtlCache.ZeroTtlNeverHits | src/cache.rs:48-52 | with ttl zero nothing inserted is ever read back, because the comparison is strict |
| TtlCache.ThirtySecondExample | src/cache.rs:39-54 | with a 30 s ttl a value is read back 10 s after insertion and is absent but still stored 31 s after |
| Url.UpstreamUrl | src/main.rs:25-36 | the URL is `https://` + origin + path, followed by `?` + query only when the query string is non-empty |
| Url.UrlRoundTrip | src/main.rs:25-36 | parsing the upstream URL of a key whose path has no `?` gives back that key |
| Url.UrlInjective | src/main.rs:25-36 | two keys whose paths have no `?` and that share an upstream URL are the same key |
| Url.UrlCollisionWithQueryInPath | src/main.rs:25-36 | a `?` inside a path lets two different keys share one upstream URL |
| Url.ExampleUrls | src/main.rs:25-36 | `/foo` with no query gives `https://example.com/foo` (no trailing `?`); with `a=1` it gives `https://example.com/foo?a=1` |
| Forwarding.StartupCache | src/main.rs:105-113 | the proxy starts with an empty cache whose ttl is 30 seconds |
| Forwarding.Handle | src/main.rs:19-77 | a live entry is served with 200 and its body, no fetch, cache unchanged; a miss fetches the upstream URL exactly once; a 200 reply is stored with expiry `storeAt + ttl` and returned with 200; any other status is passed through with its body and the cache is unchanged; a transport failure aborts with the cache unchanged; the ttl never changes |
| Forwarding.Run | src/main.rs:117-121 | serving any sequence of requests keeps the ttl and never removes a key |
| Forwarding.RunProvenance | src/main.rs:58-77 | after any sequence of requests every entry is either untouched from the initial cache or the 200 body, with matching expiry, of one of the requests for that key |
| Forwarding.OnlyOkBodiesAreCached | src/main.rs:58-77 | starting empty, every cached body is one the origin answered with status 200 for that key |
| Forwarding.StoredThenHit | src/main.rs:41-68 | after a miss stores a 200 body, the identical request within the ttl is answered from the cache with that body and no fetch |
| Forwarding.NonOkThenRefetch | src/main.rs:41-77 | after a non-200 reply is passed through, the identical request arriving later misses again and re-fetches the same URL |
| Forwarding.NotFoundPassesThrough | src/main.rs:70-77 | a 404 with its body reaches the client verbatim and leaves no entry for the key |

## Left out

- `Cache::remove_expired` (src/cache.rs:57-59): its body is `todo!()`, so the code defines no behaviour to model.
- Locking and concurrent handlers (`Arc<Mutex<…>>`, src/main.rs:14, 41, 65, 105-113): each request is one sequential step over the cache; interleavings of concurrent requests are represented only by the order of `Run`'s sequence, and lock poisoning is not modelled.
- `Instant::now()`: replaced by the explicit instants `lookupAt` and `storeAt`; the model does not require `storeAt >= lookupAt`, which a monotonic clock would supply.
- Instant arithmetic overflow: `Instant + Duration` panics on overflow in Rust; instants here are unbounded naturals.
- The actix-web server, routing, the `awc` client and all HTTP I/O (src/main.rs:49-55, 117-125): the origin's answer is an input of `Handle`; response headers are neither forwarded nor cached by the source and are not modelled.
- The `.unwrap()` calls on the send and on reading the body (src/main.rs:55, 60, 75): a failure of either is the single `TransportFailure` input, and the resulting panic is `Outcome.Abort` with no change to the cache.
- Argument parsing, the panic on a wrong argument count, port parsing and `println!` logging (src/main.rs:38, 42, 62, 72, 85-100): process bootstrap and console output.
