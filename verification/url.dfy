/**
 The upstream URL a request is forwarded to: the HTTPS scheme, the origin
 host, the request path, and the query string after a `?` only when there is
 one. A parser for such URLs is the partner that shows the construction loses
 nothing: the key can be read back from the URL.
 */
module Url {
  import opened Wrappers
  import opened TtlCache

  /** The fixed scheme prefix of every upstream URL. */
  const Scheme: string := "https://"

  /** The URL the proxy fetches for key `r` from host `origin`. */
  function UpstreamUrl(origin: string, r: Request): (url: string)
    ensures r.query_string == [] ==> url == Scheme + origin + r.path
    ensures r.query_string != [] ==> url == Scheme + origin + r.path + "?" + r.query_string
  {
    var base := Scheme + origin + r.path;
    if r.query_string != "" then base + "?" + r.query_string else base
  }

  /** Splits `s` at its first `?`: the part before it, and the part after it
      when there is one. */
  function SplitAtQuery(s: string): (r: (string, Option<string>))
    ensures '?' !in r.0
    ensures r.1.None? ==> r.0 == s
    ensures r.1.Some? ==> s == r.0 + "?" + r.1.value
    decreases |s|
  {
    if |s| == 0 then ("", None)
    else if s[0] == '?' then ("", Some(s[1..]))
    else
      var (p, q) := SplitAtQuery(s[1..]);
      ([s[0]] + p, q)
  }

  /** Reads the key back from an upstream URL for `origin`; None when the URL
      does not start with the scheme and the origin. A bare trailing `?`
      reads as an empty query string. */
  function ParseUpstreamUrl(origin: string, url: string): (r: Option<Request>)
    ensures r.Some? ==> '?' !in r.value.path
    ensures r.Some? ==> url == Scheme + origin + r.value.path
                        || url == Scheme + origin + r.value.path + "?" + r.value.query_string
  {
    var prefix := Scheme + origin;
    if |url| >= |prefix| && url[..|prefix|] == prefix then
      var rest := url[|prefix|..];
      assert url == prefix + rest;
      var (p, q) := SplitAtQuery(rest);
      Some(Request(p, match q case Some(v) => v case None => ""))
    else
      None
  }

  /** A string with no `?` followed by `?` is split exactly there, whatever
      comes after. */
  lemma {:induction false} SplitAtFirstQuery(p: string, q: string)
    requires '?' !in p
    ensures SplitAtQuery(p + "?" + q) == (p, Some(q))
    decreases |p|
  {
    var s := p + "?" + q;
    if |p| == 0 {
      assert s[0] == '?' && s[1..] == q;
    } else {
      assert s[0] == p[0] && p[0] != '?';
      assert s[1..] == p[1..] + "?" + q;
      SplitAtFirstQuery(p[1..], q);
      assert [p[0]] + p[1..] == p;
    }
  }

  /** A string with no `?` is not split at all. */
  lemma SplitWithoutQuery(p: string)
    requires '?' !in p
    ensures SplitAtQuery(p) == (p, None)
  {
  }

  /** Round trip: parsing the upstream URL of a key gives the key back, for
      every key whose path has no `?` (the path of a request never does: the
      query string is split off before it). */
  lemma UrlRoundTrip(origin: string, r: Request)
    requires '?' !in r.path
    ensures ParseUpstreamUrl(origin, UpstreamUrl(origin, r)) == Some(r)
  {
    var prefix := Scheme + origin;
    var url := UpstreamUrl(origin, r);
    if r.query_string == "" {
      assert url == prefix + r.path;
      assert url[|prefix|..] == r.path;
      SplitWithoutQuery(r.path);
    } else {
      assert url == prefix + (r.path + "?" + r.query_string);
      assert url[|prefix|..] == r.path + "?" + r.query_string;
      SplitAtFirstQuery(r.path, r.query_string);
    }
  }

  /** Distinct keys are fetched from distinct URLs (for paths without `?`):
      no two cache entries ever stand for the same upstream resource. */
  lemma UrlInjective(origin: string, a: Request, b: Request)
    requires '?' !in a.path && '?' !in b.path
    requires UpstreamUrl(origin, a) == UpstreamUrl(origin, b)
    ensures a == b
  {
    UrlRoundTrip(origin, a);
    UrlRoundTrip(origin, b);
  }

  /** Without the restriction on paths the URL would not identify the key:
      a `?` inside the path makes two different keys share one URL. */
  lemma UrlCollisionWithQueryInPath(origin: string)
    ensures Request("/a?b", "") != Request("/a", "b")
    ensures UpstreamUrl(origin, Request("/a?b", "")) == UpstreamUrl(origin, Request("/a", "b"))
  {
  }

  /** `/foo` with an empty query string gets no trailing `?`; `/foo` with
      query string `a=1` gets `?a=1` appended. */
  lemma ExampleUrls()
    ensures UpstreamUrl("example.com", Request("/foo", "")) == "https://example.com/foo"
    ensures UpstreamUrl("example.com", Request("/foo", "a=1")) == "https://example.com/foo?a=1"
  {
  }
}
