/**
 * The ingestion endpoint and request headers shared by the monitor's HTTP
 * transports: `sendChunk` points the configuration at
 * `<base URL>/ingest/entries` for the duration of one call, and every request
 * carries the same four headers.
 */
module Endpoint {

  const IngestPath := "/ingest/entries"

  /** True when no character of `s` is other than '/'. */
  predicate AllSlashes(s: string)
    decreases |s|
  {
    s == [] || (s[0] == '/' && AllSlashes(s[1..]))
  }

  /** A string of slashes has '/' at every position. */
  lemma {:induction false} AllSlashesAt(s: string, i: nat)
    requires AllSlashes(s) && i < |s|
    ensures s[i] == '/'
    decreases i
  {
    if i > 0 {
      AllSlashesAt(s[1..], i - 1);
    }
  }

  /** Two runs of slashes make one. */
  lemma {:induction false} AllSlashesAppend(a: string, b: string)
    requires AllSlashes(a) && AllSlashes(b)
    ensures AllSlashes(a + b)
    decreases |a|
  {
    if a == [] {
      assert a + b == b;
    } else {
      assert (a + b)[0] == a[0] && (a + b)[1..] == a[1..] + b;
      AllSlashesAppend(a[1..], b);
    }
  }

  /** `ltrim($s, '/')`: drops every leading '/'; what is left does not start with '/'. */
  function TrimStart(s: string): (r: string)
    ensures |r| <= |s|
    ensures r == [] || r[0] != '/'
    decreases |s|
  {
    if s != [] && s[0] == '/' then TrimStart(s[1..]) else s
  }

  /** `rtrim($s, '/')`: drops every trailing '/'; what is left does not end with '/'. */
  function TrimEnd(s: string): (r: string)
    ensures |r| <= |s|
    ensures r == [] || r[|r| - 1] != '/'
    decreases |s|
  {
    if s != [] && s[|s| - 1] == '/' then TrimEnd(s[..|s| - 1]) else s
  }

  /** `ltrim` keeps a suffix of its argument. */
  lemma {:induction false} TrimStartIsSuffix(s: string)
    ensures TrimStart(s) == s[|s| - |TrimStart(s)|..]
    decreases |s|
  {
    if s != [] && s[0] == '/' {
      TrimStartIsSuffix(s[1..]);
    }
  }

  /** `rtrim` keeps a prefix of its argument. */
  lemma {:induction false} TrimEndIsPrefix(s: string)
    ensures TrimEnd(s) == s[..|TrimEnd(s)|]
    decreases |s|
  {
    if s != [] && s[|s| - 1] == '/' {
      TrimEndIsPrefix(s[..|s| - 1]);
    }
  }

  /** What `ltrim` drops is slashes only. */
  lemma {:induction false} TrimStartDropsSlashes(s: string)
    ensures AllSlashes(s[..|s| - |TrimStart(s)|])
    decreases |s|
  {
    if s != [] && s[0] == '/' {
      var k := |s| - |TrimStart(s)|;
      TrimStartDropsSlashes(s[1..]);
      assert TrimStart(s) == TrimStart(s[1..]);
      assert s[..k][0] == '/' && s[..k][1..] == s[1..][..k - 1];
    } else {
      assert s[..0] == [];
    }
  }

  /** What `rtrim` drops is slashes only. */
  lemma {:induction false} TrimEndDropsSlashes(s: string)
    ensures AllSlashes(s[|TrimEnd(s)|..])
    decreases |s|
  {
    if s != [] && s[|s| - 1] == '/' {
      var u := s[..|s| - 1];
      var n := |TrimEnd(s)|;
      TrimEndDropsSlashes(u);
      TrimEndIsPrefix(u);
      assert TrimEnd(s) == TrimEnd(u);
      assert AllSlashes("/") by {
        assert "/"[1..] == [];
      }
      AllSlashesAppend(u[n..], "/");
      assert s[n..] == u[n..] + "/";
    } else {
      assert s[|s|..] == [];
    }
  }

  /** `trim($s, '/')`: drops every leading and every trailing '/'; what is left has a '/' at neither end. */
  function Trim(s: string): (r: string)
    ensures |r| <= |s|
    ensures r == [] || (r[0] != '/' && r[|r| - 1] != '/')
  {
    var t := TrimStart(s);
    TrimEndIsPrefix(t);
    assert TrimEnd(t) == [] || TrimEnd(t)[0] == t[0];
    TrimEnd(t)
  }

  /** `trim` keeps the run of `s` that starts right after its leading slashes. */
  lemma TrimInnerRun(s: string)
    ensures var r, k := Trim(s), |s| - |TrimStart(s)|;
      k + |r| <= |s| && s[k..k + |r|] == r
  {
    var t := TrimStart(s);
    var r := TrimEnd(t);
    TrimStartIsSuffix(s);
    TrimEndIsPrefix(t);
    assert r == Trim(s);
    var k := |s| - |t|;
    assert s[k..k + |r|] == s[k..][..|r|];
  }

  /** A string that neither starts nor ends with '/' is left as it is. */
  lemma TrimUnslashed(s: string)
    requires s == [] || (s[0] != '/' && s[|s| - 1] != '/')
    ensures Trim(s) == s
  {
  }

  /** Nothing but slashes trims to nothing. */
  lemma {:induction false} TrimAllSlashes(s: string)
    requires AllSlashes(s)
    ensures TrimStart(s) == []
    decreases |s|
  {
    if s != [] {
      TrimAllSlashes(s[1..]);
    }
  }

  /** Slashes put in front make no difference to `ltrim`. */
  lemma {:induction false} TrimStartSkipsSlashes(p: string, s: string)
    requires AllSlashes(p)
    ensures TrimStart(p + s) == TrimStart(s)
    decreases |p|
  {
    if p == [] {
      assert p + s == s;
    } else {
      assert (p + s)[0] == '/' && (p + s)[1..] == p[1..] + s;
      TrimStartSkipsSlashes(p[1..], s);
    }
  }

  /** Trailing slashes survive `ltrim` unless everything before them is a slash too. */
  lemma {:induction false} TrimStartAppendSlashes(s: string, q: string)
    requires AllSlashes(q)
    ensures TrimStart(s + q) == if AllSlashes(s) then [] else TrimStart(s) + q
    decreases |s|
  {
    if s == [] {
      assert s + q == q;
      TrimAllSlashes(q);
    } else if s[0] == '/' {
      assert (s + q)[0] == '/' && (s + q)[1..] == s[1..] + q;
      TrimStartAppendSlashes(s[1..], q);
    } else {
      assert (s + q)[0] == s[0];
      assert !AllSlashes(s);
    }
  }

  /** A trailing '/' makes no difference to `rtrim`. */
  lemma TrimEndAppendSlash(s: string)
    ensures TrimEnd(s + "/") == TrimEnd(s)
  {
    assert (s + "/")[..|s|] == s;
  }

  /** Slashes put at the end make no difference to `rtrim`. */
  lemma {:induction false} TrimEndSkipsSlashes(s: string, q: string)
    requires AllSlashes(q)
    ensures TrimEnd(s + q) == TrimEnd(s)
    decreases |q|
  {
    if q == [] {
      assert s + q == s;
    } else {
      assert s + q == (s + "/") + q[1..];
      TrimEndSkipsSlashes(s + "/", q[1..]);
      TrimEndAppendSlash(s);
    }
  }

  /** Runs of slashes added around a string make no difference to what `trim` returns. */
  lemma TrimIgnoresOuterSlashes(p: string, s: string, q: string)
    requires AllSlashes(p) && AllSlashes(q)
    ensures Trim(p + s + q) == Trim(s)
  {
    assert p + s + q == p + (s + q);
    TrimStartSkipsSlashes(p, s + q);
    TrimStartAppendSlashes(s, q);
    if AllSlashes(s) {
      TrimAllSlashes(s);
    } else {
      TrimEndSkipsSlashes(TrimStart(s), q);
    }
  }

  /**
   * The URL `CurlTransport::sendChunk` sets for the call: the base URL
   * trimmed of '/' on both sides, then the path. It always ends in the path;
   * unless the base URL is made of slashes only, it starts with something
   * other than '/' and has no '//' where the path is joined on.
   */
  function CurlIngestUrl(url: string): (r: string)
    ensures |r| == |Trim(url)| + |IngestPath| && r[|r| - |IngestPath|..] == IngestPath
    ensures Trim(url) != [] ==> r[0] != '/' && r[|Trim(url)| - 1] != '/' && r[|Trim(url)|] == '/'
    ensures Trim(url) == [] ==> r == IngestPath
  {
    var t := Trim(url);
    var r := t + IngestPath;
    assert r[|r| - |IngestPath|..] == IngestPath;
    assert t != [] ==> r[0] == t[0] && r[|t| - 1] == t[|t| - 1];
    r
  }

  /** The URL `SyncTransport::sendChunk` sets for the call: the base URL as it is, then the path. */
  function SyncIngestUrl(url: string): (r: string)
    ensures |r| == |url| + |IngestPath|
    ensures r[..|url|] == url && r[|url|..] == IngestPath
  {
    url + IngestPath
  }

  /** A base URL made of slashes only, or empty, leaves just the path, which does start with '/'. */
  lemma CurlIngestUrlOfSlashes(url: string)
    requires AllSlashes(url)
    ensures CurlIngestUrl(url) == IngestPath
  {
    TrimAllSlashes(url);
  }

  /** For a base URL without a leading or trailing '/', the two transports agree: `url . '/ingest/entries'`. */
  lemma IngestUrlsAgreeOnUnslashed(url: string)
    requires url == [] || (url[0] != '/' && url[|url| - 1] != '/')
    ensures CurlIngestUrl(url) == SyncIngestUrl(url) == url + IngestPath
  {
    TrimUnslashed(url);
  }

  /** The trimmed endpoint does not depend on runs of slashes around the base URL. */
  lemma CurlIngestUrlIgnoresOuterSlashes(p: string, url: string, q: string)
    requires AllSlashes(p) && AllSlashes(q)
    ensures CurlIngestUrl(p + url + q) == CurlIngestUrl(url)
  {
    TrimIgnoresOuterSlashes(p, url, q);
  }

  /** The untrimmed endpoint keeps a trailing '/' of the base URL, giving '//ingest/entries'. */
  lemma SyncIngestUrlKeepsTrailingSlash(url: string)
    requires url != [] && url[|url| - 1] == '/'
    ensures var r := SyncIngestUrl(url);
      r[|url| - 1..] == "//ingest/entries" && r[..|url|] == url
  {
  }

  /** The headers every request carries: JSON both ways, the ingestion key and the client version. */
  function ApiHeaders(ingestionKey: string, version: string): (h: map<string, string>)
    ensures h.Keys == {"Content-Type", "Accept", "X-Monitor-Key", "X-Monitor-Version"}
    ensures h["Content-Type"] == "application/json" && h["Accept"] == "application/json"
    ensures h["X-Monitor-Key"] == ingestionKey && h["X-Monitor-Version"] == version
  {
    map[
      "Content-Type" := "application/json",
      "Accept" := "application/json",
      "X-Monitor-Key" := ingestionKey,
      "X-Monitor-Version" := version
    ]
  }
}
