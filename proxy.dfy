/** What the proxy library under `createProxyMiddleware` (http-proxy) adds to
    the options of api-gateway/index.js, lines 30-70. No `agent` is given, so
    every upstream request is sent with `connection: close` unless it asks for
    an upgrade. A DELETE without a length is sent with `content-length: 0`. The
    upstream path is the target's own path joined to the request's, with runs
    of `/` collapsed. After `onProxyRes`, the response's `connection` and
    `transfer-encoding` are adjusted for the client's HTTP version. */
module HttpProxy {
  import opened Text

  /** Header names are lower case, as Node presents them. */
  type Headers = map<string, string>

  // ----- the upstream path: `common.urlJoin` -----

  predicate NoDoubleSlash(s: string)
  {
    forall i :: 0 <= i < |s| - 1 ==> !(s[i] == '/' && s[i + 1] == '/')
  }

  /** `replace(/\/+/g, '/')`: every run of `/` becomes a single `/`. */
  function CollapseSlashes(s: string): (r: string)
    ensures NoDoubleSlash(r)
    ensures |r| <= |s|
    ensures |s| > 0 ==> |r| > 0 && r[0] == s[0]
    ensures forall c :: c !in s ==> c !in r
    decreases |s|
  {
    if |s| < 2 then s
    else if s[0] == '/' && s[1] == '/' then CollapseSlashes(s[1..])
    else [s[0]] + CollapseSlashes(s[1..])
  }

  /** A text without doubled slashes is left as it is, so collapsing twice is
      collapsing once. */
  lemma {:induction false} CollapseKeepsSingleSlashes(s: string)
    requires NoDoubleSlash(s)
    ensures CollapseSlashes(s) == s
    decreases |s|
  {
    if |s| >= 2 {
      CollapseKeepsSingleSlashes(s[1..]);
    }
  }

  /** A doubled `/` counts as one. */
  lemma {:induction false} DoubledSlashDropped(a: string, b: string)
    requires |a| > 0 && a[|a| - 1] == '/'
    ensures CollapseSlashes(a + "/" + b) == CollapseSlashes(a + b)
    decreases |a|
  {
    if |a| == 1 {
      assert (a + "/" + b)[1..] == a + b;
    } else {
      assert (a + "/" + b)[1..] == a[1..] + "/" + b;
      assert (a + b)[1..] == a[1..] + b;
      DoubledSlashDropped(a[1..], b);
    }
  }

  /** JavaScript's `s.replace(pat, rep)` with a string pattern: only the first
      occurrence is replaced. */
  function ReplaceFirst(s: string, pat: string, rep: string): (r: string)
    requires pat != ""
    decreases |s|
  {
    if |pat| <= |s| && s[..|pat|] == pat then rep + s[|pat|..]
    else if s == [] then s
    else [s[0]] + ReplaceFirst(s[1..], pat, rep)
  }

  /** A pattern using a character the text lacks replaces nothing. */
  lemma {:induction false} ReplaceAbsent(s: string, pat: string, rep: string, c: char)
    requires pat != "" && c in pat && c !in s
    ensures ReplaceFirst(s, pat, rep) == s
    decreases |s|
  {
    if s != [] {
      ReplaceAbsent(s[1..], pat, rep, c);
    }
  }

  /** The strings of `parts` that are not empty (`filter(Boolean)`). */
  function NonEmpty(parts: seq<string>): (r: seq<string>)
    ensures |r| <= |parts|
    ensures forall i :: 0 <= i < |r| ==> r[i] != ""
  {
    if parts == [] then []
    else (if parts[0] == "" then [] else [parts[0]]) + NonEmpty(parts[1..])
  }

  /** The path part of `urlJoin`: the target's path and the request's path
      joined by `/` (an empty one left out), runs of `/` collapsed, and the
      first `http:/` and `https:/` given their second slash back. */
  function JoinPaths(targetPath: string, path: string): string
  {
    var joined := CollapseSlashes(Join(NonEmpty([targetPath, path]), '/'));
    ReplaceFirst(ReplaceFirst(joined, "http:/", "http://"), "https:/", "https://")
  }

  /** `common.urlJoin(targetPath, path)`: the request's path is split at `?`;
      its first part is joined to the target's path and the rest is put back
      behind it. */
  function UrlJoin(targetPath: string, path: string): string
  {
    var segs := Split(path, '?');
    Join([JoinPaths(targetPath, segs[0])] + segs[1..], '?')
  }

  /** The query is passed on untouched: only the path before the first `?`
      is joined. */
  lemma UrlJoinKeepsQuery(targetPath: string, path: string)
    ensures var q := IndexOfAny(path, {'?'});
            UrlJoin(targetPath, path) == JoinPaths(targetPath, path[..q]) + path[q..]
  {
    SplitFirst(path, '?');
    JoinAfterFirst(JoinPaths(targetPath, Split(path, '?')[0]), path, '?');
  }

  /** Joined to a bare origin (whose path is `/`), a request path starting with
      `/` and holding no `:` goes out with its runs of `/` collapsed and
      nothing else changed. */
  lemma JoinToOrigin(path: string)
    requires |path| > 0 && path[0] == '/' && ':' !in path
    ensures JoinPaths("/", path) == CollapseSlashes(path)
  {
    NonEmptyPair("/", path);
    assert Join(["/", path], '/') == "/" + "/" + path;
    CollapseBehindSlash(path);
    ReplaceAbsent(CollapseSlashes(path), "http:/", "http://", ':');
    ReplaceAbsent(CollapseSlashes(path), "https:/", "https://", ':');
  }

  lemma NonEmptyPair(a: string, b: string)
    requires a != "" && b != ""
    ensures NonEmpty([a, b]) == [a, b]
  {
    assert [a, b][1..] == [b];
    assert NonEmpty([b]) == [b] + NonEmpty([]);
  }

  /** Slashes in front of a path starting with `/` collapse into its own. */
  lemma CollapseBehindSlash(path: string)
    requires |path| > 0 && path[0] == '/'
    ensures CollapseSlashes("/" + "/" + path) == CollapseSlashes(path)
  {
    var one := "/" + path;
    assert ("/" + "/" + path)[1..] == one;
    assert one[1..] == path;
    assert CollapseSlashes(one) == CollapseSlashes(path);
  }

  // ----- headers -----

  /** http-proxy's upgrade test, `/(^|,)\s*upgrade\s*($|,)/i`: one of the
      comma-separated entries is `upgrade`, in any ASCII case, with white
      space around it allowed. */
  predicate AsksUpgrade(connection: string)
  {
    exists j :: 0 <= j < |Split(connection, ',')| && Lower(Trim(Split(connection, ',')[j])) == "upgrade"
  }

  /** A header that is present and not empty (JavaScript truthiness of a string). */
  predicate HasValue(headers: Headers, name: string)
  {
    name in headers && headers[name] != ""
  }

  /** `deleteLength`: a DELETE or OPTIONS without a length gets
      `content-length: 0` and loses its `transfer-encoding`. */
  function DeleteLength(verb: string, headers: Headers): (h: Headers)
    ensures forall k :: k != "content-length" && k != "transfer-encoding"
              ==> (k in h <==> k in headers) && (k in headers ==> h[k] == headers[k])
    ensures NeedsLength(verb, headers) ==> "content-length" in h && h["content-length"] == "0" && "transfer-encoding" !in h
    ensures !NeedsLength(verb, headers) ==> h == headers
  {
    if NeedsLength(verb, headers) then headers["content-length" := "0"] - {"transfer-encoding"} else headers
  }

  predicate NeedsLength(verb: string, headers: Headers)
  {
    (verb == "DELETE" || verb == "OPTIONS") && !HasValue(headers, "content-length")
  }

  /** The value `setupOutgoing` leaves in `connection` when no agent is given. */
  function OutgoingConnection(headers: Headers): (c: string)
    ensures !("connection" in headers && AsksUpgrade(headers["connection"])) ==> c == "close"
    ensures "connection" in headers && AsksUpgrade(headers["connection"]) ==> c == headers["connection"]
  {
    if "connection" in headers && AsksUpgrade(headers["connection"]) then headers["connection"] else "close"
  }

  /** The request headers the proxy sends upstream, for a `host` value chosen
      by `changeOrigin`: `deleteLength` first, then `setupOutgoing` copies the
      headers, sets `connection: close` unless the request asks for an
      upgrade, and sets `host`. */
  function OutgoingHeaders(verb: string, headers: Headers, host: string): (h: Headers)
    ensures "host" in h && h["host"] == host
    ensures "connection" in h && h["connection"] == OutgoingConnection(headers)
    ensures forall k :: k != "host" && k != "connection" && k != "content-length" && k != "transfer-encoding"
              ==> (k in h <==> k in headers) && (k in headers ==> h[k] == headers[k])
    ensures NeedsLength(verb, headers) ==> "content-length" in h && h["content-length"] == "0" && "transfer-encoding" !in h
    ensures !NeedsLength(verb, headers) && host != "" ==> forall k :: k in headers && k != "host" && k != "connection" ==> k in h && h[k] == headers[k]
  {
    SetConnectionAndHost(DeleteLength(verb, headers), OutgoingConnection(headers), host)
  }

  /** `outgoing.headers` with `connection` and `host` put in. */
  function SetConnectionAndHost(incoming: Headers, connection: string, host: string): (h: Headers)
    ensures "host" in h && h["host"] == host
    ensures "connection" in h && h["connection"] == connection
    ensures forall k :: k != "host" && k != "connection"
              ==> (k in h <==> k in incoming) && (k in incoming ==> h[k] == incoming[k])
  {
    incoming["connection" := connection]["host" := host]
  }

  /** The response headers the client receives, after `onProxyRes`, from
      `removeChunked` and `setConnection`. For an HTTP/1.0 client,
      `transfer-encoding` goes and `connection` becomes the client's own
      `connection`, or `close`. For any other version but 2.0, a response
      without a `connection` gets the client's own, or `keep-alive`. */
  function ResponseHeaders(httpVersion: string, client: Headers, upstream: Headers): (h: Headers)
    ensures forall k :: k != "connection" && k != "transfer-encoding"
              ==> (k in h <==> k in upstream) && (k in upstream ==> h[k] == upstream[k])
    ensures httpVersion == "1.0" ==> "transfer-encoding" !in h
    ensures httpVersion != "1.0" ==> ("transfer-encoding" in h <==> "transfer-encoding" in upstream)
    ensures httpVersion != "1.0" && "transfer-encoding" in upstream ==> h["transfer-encoding"] == upstream["transfer-encoding"]
    ensures httpVersion == "1.0" ==> "connection" in h && h["connection"] == ClientConnection(client, "close")
    ensures httpVersion != "1.0" && httpVersion != "2.0" ==> "connection" in h
    ensures httpVersion != "1.0" && HasValue(upstream, "connection") ==> "connection" in h && h["connection"] == upstream["connection"]
    ensures (httpVersion != "1.0" && httpVersion != "2.0" && !HasValue(upstream, "connection"))
            ==> "connection" in h && h["connection"] == ClientConnection(client, "keep-alive")
    ensures httpVersion == "2.0" ==> h == upstream
  {
    if httpVersion == "1.0" then
      (upstream - {"transfer-encoding"})["connection" := ClientConnection(client, "close")]
    else if httpVersion != "2.0" && !HasValue(upstream, "connection") then
      upstream["connection" := ClientConnection(client, "keep-alive")]
    else upstream
  }

  /** `req.headers.connection || fallback` */
  function ClientConnection(client: Headers, fallback: string): string
  {
    if HasValue(client, "connection") then client["connection"] else fallback
  }

  /** A `connection` value with a single entry asks for an upgrade exactly
      when, trimmed, it is `upgrade` in some letter case; so `keep-alive`, or no
      header at all, is sent upstream as `close`. */
  lemma SingleEntryUpgrade(connection: string)
    requires ',' !in connection
    ensures AsksUpgrade(connection) <==> Lower(Trim(connection)) == "upgrade"
  {
    SplitWithoutSeparator(connection, ',');
    assert Split(connection, ',')[0] == connection;
  }
}
