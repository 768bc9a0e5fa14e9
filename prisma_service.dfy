/** The database URL augmentation done by `PrismaService`'s constructor:
    connection-pool parameters are appended unless the URL already sets a
    connection limit. */
module PrismaService {
  import opened Common
  import opened Js

  /** The four pool parameters, in the order they are appended. */
  const ConnectionParams: seq<string> :=
    ["connection_limit=20", "pool_timeout=20", "connect_timeout=10", "socket_timeout=60"]

  /** `parts.join(sep)` */
  function Join(parts: seq<string>, sep: string): string
  {
    if parts == [] then ""
    else if |parts| == 1 then parts[0]
    else parts[0] + sep + Join(parts[1..], sep)
  }

  /** The joined parameter list begins with the connection limit. */
  lemma JoinedParamsStartWithLimit()
    ensures StartsWith(Join(ConnectionParams, "&"), "connection_limit=20&")
    ensures Contains(Join(ConnectionParams, "&"), "connection_limit")
  {
    var j := Join(ConnectionParams, "&");
    var rest := Join(ConnectionParams[1..], "&");
    assert j == ConnectionParams[0] + "&" + rest;
    assert j[..20] == ConnectionParams[0] + "&";
    assert j[..16] == ConnectionParams[0][..16];
  }

  /** `process.env.DATABASE_URL || ''`: a missing or empty variable gives the empty URL. */
  function DatabaseUrl(env: Option<string>): (url: string)
    ensures env.Some? && env.value != "" ==> url == env.value
    ensures env.None? || env.value == "" ==> url == ""
  {
    if env.Some? && env.value != "" then env.value else ""
  }

  /** `enhancedUrl`: the URL with the pool parameters appended after `?` (or `&`
      when the URL already has a query string), unless it already mentions
      `connection_limit`. */
  function EnhancedUrl(databaseUrl: string): (r: string)
    ensures StartsWith(r, databaseUrl)
    ensures Contains(databaseUrl, "connection_limit") ==> r == databaseUrl
  {
    var hasParams := Contains(databaseUrl, "?");
    var needsParams := !Contains(databaseUrl, "connection_limit");
    if needsParams then databaseUrl + (if hasParams then "&" else "?") + Join(ConnectionParams, "&")
    else databaseUrl
  }

  /** Otherwise the result is the URL, a separator, and the four parameters joined
      by `&`; the separator is `&` exactly when the URL already contains `?`. */
  lemma EnhancedUrlAppends(url: string)
    requires !Contains(url, "connection_limit")
    ensures '?' in url ==> EnhancedUrl(url) == url + "&" + Join(ConnectionParams, "&")
    ensures '?' !in url ==> EnhancedUrl(url) == url + "?" + Join(ConnectionParams, "&")
  {
    JoinedParamsStartWithLimit();
    ContainsChar(url, '?');
  }

  /** An unset `DATABASE_URL` gives the parameters alone, after `?`. */
  lemma EnhancedUrlOfEmpty()
    ensures EnhancedUrl(DatabaseUrl(None)) == "?" + Join(ConnectionParams, "&")
    ensures StartsWith(EnhancedUrl(DatabaseUrl(None)), "?connection_limit=20&")
  {
    JoinedParamsStartWithLimit();
    assert !Contains("", "connection_limit");
    assert !Contains("", "?");
    var r := "?" + Join(ConnectionParams, "&");
    assert r[1..][..20] == Join(ConnectionParams, "&")[..20];
    assert r[..21] == "?" + Join(ConnectionParams, "&")[..20];
  }

  /** The result always sets `connection_limit`, so augmenting twice equals augmenting once. */
  lemma {:induction false} EnhancedUrlIdempotent(url: string)
    ensures Contains(EnhancedUrl(url), "connection_limit")
    ensures EnhancedUrl(EnhancedUrl(url)) == EnhancedUrl(url)
  {
    if !Contains(url, "connection_limit") {
      JoinedParamsStartWithLimit();
      var sep := if Contains(url, "?") then "&" else "?";
      ContainsAppend(url + sep, Join(ConnectionParams, "&"), "connection_limit");
      assert EnhancedUrl(url) == (url + sep) + Join(ConnectionParams, "&");
    }
  }
}
