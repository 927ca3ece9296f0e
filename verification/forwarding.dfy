/**
 The per-request forwarding decision of the proxy, as a pure step over the
 cache. The network is an input: `upstream` is what the origin answers if it
 is asked, and the answer is used only on a cache miss. The two clock readings
 of a request are inputs too: `lookupAt` when the cache is consulted and
 `storeAt` when a fetched body is stored.
 */
module Forwarding {
  import opened Wrappers
  import opened TtlCache
  import opened Url

  newtype byte = x: int | 0 <= x < 256

  /** A response body, as raw bytes. */
  type Bytes = seq<byte>

  /** An HTTP status code; the range is that of a three-digit status. */
  type Status = s: int | 100 <= s < 1000 witness 200

  const OK: Status := 200

  /** The proxy's time-to-live: 30 seconds, in nanoseconds. */
  const ProxyTtl: nat := 30 * 1_000_000_000

  type ProxyCache = Cache<Request, Bytes>

  /** What the origin does when asked: a reply with a status and a body, or a
      failure to connect or to read the body. */
  datatype Upstream = Reply(status: Status, body: Bytes) | TransportFailure

  /** What the client gets: a response, or an aborted handler (the source
      unwraps the transport result, so a transport failure ends the handler
      without a response). */
  datatype Outcome = Respond(status: Status, body: Bytes) | Abort

  /** The result of one request: the outcome, the cache afterwards, and the
      URL fetched from the origin, if any. */
  datatype Step = Step(outcome: Outcome, cache: ProxyCache, fetched: Option<string>)

  /** The cache the proxy starts with: empty, with the 30-second ttl. */
  function StartupCache(): (c: ProxyCache)
    ensures c.ttl == 30_000_000_000
    ensures c.entries == map[]
  {
    New(ProxyTtl)
  }

  /** Handles one GET request for `path` and `query_string` against `origin`.
      A live entry is served with status 200 and nothing is fetched; otherwise
      the origin is asked exactly once, a 200 reply is stored and returned, any
      other status is passed through with its body and not stored, and a
      transport failure aborts without touching the cache. */
  function Handle(cache: ProxyCache, origin: string, path: string, query_string: string,
                  lookupAt: nat, storeAt: nat, upstream: Upstream): (s: Step)
    ensures s.cache.ttl == cache.ttl
    ensures s.fetched.None? <==> Live(cache, Request(path, query_string), lookupAt)
    ensures s.fetched.Some? ==> s.fetched.value == UpstreamUrl(origin, Request(path, query_string))
    ensures Live(cache, Request(path, query_string), lookupAt) ==>
              && s.outcome == Respond(OK, cache.entries[Request(path, query_string)].value)
              && s.cache == cache
    ensures !Live(cache, Request(path, query_string), lookupAt) && upstream.Reply? && upstream.status == OK ==>
              && s.outcome == Respond(OK, upstream.body)
              && s.cache.entries == cache.entries[Request(path, query_string) := Entry(upstream.body, storeAt + cache.ttl)]
    ensures !Live(cache, Request(path, query_string), lookupAt) && upstream.Reply? && upstream.status != OK ==>
              && s.outcome == Respond(upstream.status, upstream.body)
              && s.cache == cache
    ensures !Live(cache, Request(path, query_string), lookupAt) && upstream.TransportFailure? ==>
              && s.outcome == Abort
              && s.cache == cache
  {
    var key := NewRequest(path, query_string);
    var url := UpstreamUrl(origin, key);
    match Get(cache, key, lookupAt)
    case Some(body) => Step(Respond(OK, body), cache, None)
    case None =>
      match upstream
      case TransportFailure => Step(Abort, cache, Some(url))
      case Reply(status, body) =>
        if status == OK then Step(Respond(OK, body), Insert(cache, key, body, storeAt), Some(url))
        else Step(Respond(status, body), cache, Some(url))
  }

  /** One inbound request together with its clock readings and what the origin
      would answer. */
  datatype Arrival = Arrival(path: string, query_string: string, lookupAt: nat, storeAt: nat,
                             upstream: Upstream)

  /** Handle applied to one arrival. */
  function Serve(c: ProxyCache, origin: string, a: Arrival): (s: Step)
  {
    Handle(c, origin, a.path, a.query_string, a.lookupAt, a.storeAt, a.upstream)
  }

  /** The cache after serving `arrivals` one after another. */
  function Run(c: ProxyCache, origin: string, arrivals: seq<Arrival>): (c': ProxyCache)
    ensures c'.ttl == c.ttl
    ensures c'.entries.Keys >= c.entries.Keys
    decreases |arrivals|
  {
    if |arrivals| == 0 then c
    else Run(Serve(c, origin, arrivals[0]).cache, origin, arrivals[1..])
  }

  /** Arrival `a` is the one that stored entry `e` under key `k`: it asked for
      `k`, the origin answered 200 with `e`'s value, and `e` expires `ttl`
      after the arrival's store instant. */
  predicate StoredBy(a: Arrival, k: Request, e: Entry<Bytes>, ttl: nat)
  {
    && Request(a.path, a.query_string) == k
    && a.upstream == Reply(OK, e.value)
    && e.expires == a.storeAt + ttl
  }

  /** Where every entry comes from: after any sequence of requests, each entry
      is either one the cache already held, untouched, or the 200 body of one
      of the requests for that same key. */
  lemma {:induction false} RunProvenance(c: ProxyCache, origin: string, arrivals: seq<Arrival>)
    ensures var c' := Run(c, origin, arrivals);
      forall k :: k in c'.entries ==>
        || (k in c.entries && c'.entries[k] == c.entries[k])
        || (exists i :: 0 <= i < |arrivals| && StoredBy(arrivals[i], k, c'.entries[k], c.ttl))
    decreases |arrivals|
  {
    if |arrivals| > 0 {
      var c1 := Serve(c, origin, arrivals[0]).cache;
      var rest := arrivals[1..];
      var c' := Run(c, origin, arrivals);
      assert c' == Run(c1, origin, rest);
      RunProvenance(c1, origin, rest);
      forall k | k in c'.entries
        ensures || (k in c.entries && c'.entries[k] == c.entries[k])
                || (exists i :: 0 <= i < |arrivals| && StoredBy(arrivals[i], k, c'.entries[k], c.ttl))
      {
        if k in c1.entries && c'.entries[k] == c1.entries[k] {
          if !(k in c.entries && c1.entries[k] == c.entries[k]) {
            assert StoredBy(arrivals[0], k, c'.entries[k], c.ttl);
          }
        } else {
          var i :| 0 <= i < |rest| && StoredBy(rest[i], k, c'.entries[k], c1.ttl);
          assert arrivals[i + 1] == rest[i];
        }
      }
    }
  }

  /** Non-200 replies never populate the cache: starting from an empty cache,
      every entry holds a body the origin answered with status 200 for that
      very key. */
  lemma OnlyOkBodiesAreCached(ttl: nat, origin: string, arrivals: seq<Arrival>)
    ensures var c' := Run(New(ttl), origin, arrivals);
      forall k :: k in c'.entries ==>
        exists i :: 0 <= i < |arrivals| && StoredBy(arrivals[i], k, c'.entries[k], ttl)
  {
    RunProvenance(New(ttl), origin, arrivals);
  }

  /** A stored 200 body is served from the cache, without a fetch, to the
      identical request at any instant within the ttl after it was stored. */
  lemma StoredThenHit(cache: ProxyCache, origin: string, path: string, query_string: string,
                      lookupAt: nat, storeAt: nat, body: Bytes,
                      now: nat, later: nat, upstream: Upstream)
    requires !Live(cache, Request(path, query_string), lookupAt)
    requires storeAt <= now < storeAt + cache.ttl
    ensures var s1 := Handle(cache, origin, path, query_string, lookupAt, storeAt, Reply(OK, body));
            var s2 := Handle(s1.cache, origin, path, query_string, now, later, upstream);
            && s2.outcome == Respond(OK, body)
            && s2.fetched == None
            && s2.cache == s1.cache
  {
  }

  /** An entry that reads as absent stays absent at every later instant. */
  lemma MissStaysMiss(cache: ProxyCache, k: Request, t1: nat, t2: nat)
    requires !Live(cache, k, t1) && t1 <= t2
    ensures !Live(cache, k, t2)
  {
  }

  /** After a non-200 reply, the identical request arriving later misses again
      and re-fetches the same URL. */
  lemma NonOkThenRefetch(cache: ProxyCache, origin: string, path: string, query_string: string,
                         lookupAt: nat, storeAt: nat, status: Status, body: Bytes,
                         now: nat, later: nat, upstream: Upstream)
    requires !Live(cache, Request(path, query_string), lookupAt)
    requires status != OK
    requires lookupAt <= now
    ensures var s1 := Handle(cache, origin, path, query_string, lookupAt, storeAt, Reply(status, body));
            var s2 := Handle(s1.cache, origin, path, query_string, now, later, upstream);
            && s1.outcome == Respond(status, body)
            && s2.fetched == Some(UpstreamUrl(origin, Request(path, query_string)))
  {
    MissStaysMiss(cache, Request(path, query_string), lookupAt, now);
  }

  /** A 404 from the origin reaches the client with its status and body, and
      a key that had no entry still has none afterwards. */
  lemma NotFoundPassesThrough(cache: ProxyCache, origin: string, path: string, query_string: string,
                              lookupAt: nat, storeAt: nat, body: Bytes)
    requires Request(path, query_string) !in cache.entries
    ensures var s := Handle(cache, origin, path, query_string, lookupAt, storeAt, Reply(404, body));
            && s.outcome == Respond(404, body)
            && Request(path, query_string) !in s.cache.entries
  {
  }
}
