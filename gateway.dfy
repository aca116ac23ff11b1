/** The request pipeline of the API gateway (api-gateway/index.js): CORS
    preflight, the `/health` probe, routing to the first matching mount, the
    proxied exchange with `changeOrigin` and `followRedirects: false`, the
    `Location` rewrite of `onProxyRes` and the error envelope of `onError`. */
module Gateway {
  import opened Wrappers
  import opened Text
  import opened WhatwgUrl
  import opened Routes
  import opened HttpProxy

  /** An inbound request as Node presents it: method, request target (path and
      query), HTTP version (`"1.1"`), headers under lower-case names, whether
      the connection is TLS, body. */
  datatype Request = Request(httpMethod: string, url: string, httpVersion: string, headers: Headers, encrypted: bool, body: seq<bv8>)

  /** What the proxy sends to an upstream: the base URL it connects to, and
      the method, path, headers and body of the request. */
  datatype UpstreamRequest = UpstreamRequest(target: string, httpMethod: string, path: string, headers: Headers, body: seq<bv8>)

  datatype UpstreamResponse = UpstreamResponse(status: int, headers: map<string, string>, body: seq<bv8>)

  /** The outcome of one proxied exchange: the upstream's response, or a
      transport error with its message. */
  datatype Exchange = Responded(response: UpstreamResponse) | Failed(message: string)

  /** What the client receives. */
  datatype Reply =
    | Json(status: int, fields: seq<(string, string)>)   // `res.status(status).json({...})`
    | Relayed(response: UpstreamResponse)                 // the upstream response, streamed back
    | Preflight                                           // `cors()` ends every OPTIONS request with 204
    | NotFound                                            // Express's final handler, 404

  /** `req.protocol` with Express's `trust proxy` off: only the socket counts. */
  function InboundProtocol(req: Request): Scheme
  {
    if req.encrypted then Https else Http
  }

  /** `req.headers.host`; assigning a missing header to `url.host` assigns the string "undefined". */
  function InboundHost(req: Request): string
  {
    if "host" in req.headers then req.headers["host"] else "undefined"
  }

  /** `app.get('/health', ...)`: GET (and HEAD, which Express routes to GET
      handlers) on `/health`, with an optional trailing slash, in any case. */
  predicate IsHealthCheck(req: Request)
  {
    && (req.httpMethod == "GET" || req.httpMethod == "HEAD")
    && (Lower(RequestPath(req.url)) == "/health" || Lower(RequestPath(req.url)) == "/health/")
  }

  function HealthReply(): Reply
  {
    Json(200, [("status", "ok"), ("service", "api-gateway")])
  }

  /** `onError`: every proxy failure becomes the same 500 envelope. */
  function ErrorReply(message: string): Reply
  {
    Json(500, [("error", "Proxy Error"), ("details", message)])
  }

  /** `changeOrigin: true`: the upstream sees its own host (and non-default port). */
  function TargetHost(target: string): string
  {
    match Parse(target)
    case Some(t) => t.hostname + PortSuffix(t.port)
    case None => target
  }

  /** `url.parse(u).path`: the text before the first `#`. */
  function BeforeFragment(u: string): (p: string)
    ensures |p| <= |u| && p == u[..|p|] && '#' !in p
    ensures '#' !in u ==> p == u
  {
    u[..IndexOfAny(u, {'#'})]
  }

  /** `url.parse(target).path`, which the proxy puts in front of every path:
      `/` for a bare origin. */
  function TargetPath(target: string): string
  {
    match Parse(target)
    case Some(t) => BeforeFragment(t.path)
    case None => ""
  }

  /** The request the proxy sends for a mount. It has the same method and
      body. Its path is the request target, rewritten by the mount, joined to
      the target's path. Its headers are the inbound ones with `host` set to
      the target's host (and non-default port), `connection: close` unless an
      upgrade is asked for, and `content-length: 0` on a DELETE without a
      length. */
  function Forward(m: Mount, target: string, req: Request): (f: UpstreamRequest)
    ensures f.target == target && f.httpMethod == req.httpMethod && f.body == req.body
    ensures f.path == UrlJoin(TargetPath(target), BeforeFragment(ForwardedUrl(m, req.url)))
    ensures "host" in f.headers && f.headers["host"] == TargetHost(target)
    ensures "connection" in f.headers && f.headers["connection"] == OutgoingConnection(req.headers)
    ensures forall k :: k != "host" && k != "connection" && k != "content-length" && k != "transfer-encoding"
              ==> (k in f.headers <==> k in req.headers) && (k in req.headers ==> f.headers[k] == req.headers[k])
    ensures NeedsLength(req.httpMethod, req.headers)
            ==> "content-length" in f.headers && f.headers["content-length"] == "0" && "transfer-encoding" !in f.headers
  {
    var path := UrlJoin(TargetPath(target), BeforeFragment(ForwardedUrl(m, req.url)));
    UpstreamRequest(target, req.httpMethod, path, OutgoingHeaders(req.httpMethod, req.headers, TargetHost(target)), req.body)
  }

  /** Proxied to a bare origin, a request target that starts with `/` and holds
      no `:` or `#` goes out with its path's runs of `/` collapsed and its
      query unchanged. */
  lemma OriginTargetPath(m: Mount, target: string, req: Request)
    requires TargetPath(target) == "/"
    requires var u := ForwardedUrl(m, req.url); |u| > 0 && u[0] == '/' && ':' !in u && '#' !in u
    ensures var u := ForwardedUrl(m, req.url);
            var q := IndexOfAny(u, {'?'});
            Forward(m, target, req).path == CollapseSlashes(u[..q]) + u[q..]
  {
    var u := ForwardedUrl(m, req.url);
    var q := IndexOfAny(u, {'?'});
    UrlJoinKeepsQuery("/", u);
    assert ':' !in u[..q];
    JoinToOrigin(u[..q]);
  }

  /** The `try` block of `onProxyRes`: a `Location` whose host name is the
      target's own is moved onto the inbound protocol and `Host`; any other
      value, and any value `new URL` rejects, is kept as it is. */
  function RewriteLocation(location: string, target: string, req: Request): (r: string)
    ensures r != location ==> && Parse(location).Some? && Parse(target).Some?
                              && Parse(location).value.hostname == Parse(target).value.hostname
    ensures r != location ==> Parse(r).Some? && Parse(r).value.scheme == InboundProtocol(req)
  {
    match (Parse(location), Parse(target))
    case (Some(l), Some(t)) =>
      if l.hostname == t.hostname then
        SettersKeepWellFormed(l, InboundProtocol(req), InboundHost(req));
        Serialize(SetHost(SetProtocol(l, InboundProtocol(req)), InboundHost(req)))
      else location
    case _ => location
  }

  /** `onProxyRes`: only a non-empty `location` header is ever touched; status,
      body and every other header pass through. */
  function OnProxyRes(resp: UpstreamResponse, target: string, req: Request): (r: UpstreamResponse)
    ensures r.status == resp.status && r.body == resp.body
    ensures r.headers.Keys == resp.headers.Keys
    ensures forall k :: k in resp.headers && k != "location" ==> r.headers[k] == resp.headers[k]
    ensures "location" in resp.headers && resp.headers["location"] != ""
            ==> r.headers["location"] == RewriteLocation(resp.headers["location"], target, req)
    ensures !("location" in resp.headers && resp.headers["location"] != "") ==> r == resp
  {
    if "location" in resp.headers && resp.headers["location"] != "" then
      resp.(headers := resp.headers["location" := RewriteLocation(resp.headers["location"], target, req)])
    else resp
  }

  /** What the client receives of an upstream response: `onProxyRes` first,
      then the proxy's own `connection` and `transfer-encoding` adjustments. */
  function Delivered(resp: UpstreamResponse, target: string, req: Request): (r: UpstreamResponse)
    ensures r.status == resp.status && r.body == resp.body
    ensures forall k :: k != "location" && k != "connection" && k != "transfer-encoding"
              ==> (k in r.headers <==> k in resp.headers) && (k in resp.headers ==> r.headers[k] == resp.headers[k])
    ensures HasValue(resp.headers, "location")
            ==> "location" in r.headers && r.headers["location"] == RewriteLocation(resp.headers["location"], target, req)
  {
    var proxied := OnProxyRes(resp, target, req);
    proxied.(headers := ResponseHeaders(req.httpVersion, req.headers, proxied.headers))
  }

  /** One request through the gateway. `upstream` stands for the network: it is
      asked at most once, and only for a routed request. */
  function Handle(env: Env, req: Request, upstream: UpstreamRequest -> Exchange): (r: Reply)
    ensures r == Preflight <==> req.httpMethod == "OPTIONS"
    ensures r == NotFound <==> req.httpMethod != "OPTIONS" && !IsHealthCheck(req) && Resolve(Table, RequestPath(req.url)).None?
    ensures r.Relayed? ==> && Resolve(Table, RequestPath(req.url)).Some?
                           && upstream(ProxiedAs(env, req, Resolve(Table, RequestPath(req.url)).value)).Responded?
    ensures r.Json? ==> r.status == 200 || r.status == 500
  {
    if req.httpMethod == "OPTIONS" then Preflight
    else if IsHealthCheck(req) then HealthReply()
    else match Resolve(Table, RequestPath(req.url))
      case None => NotFound
      case Some(i) =>
        var target := TargetOf(env, Table[i].service);
        match upstream(Forward(Table[i], target, req))
        case Responded(resp) => Relayed(Delivered(resp, target, req))
        case Failed(message) => ErrorReply(message)
  }

  /** The request a routed request is proxied as. */
  function ProxiedAs(env: Env, req: Request, i: nat): UpstreamRequest
    requires i < |Table|
  {
    Forward(Table[i], TargetOf(env, Table[i].service), req)
  }

  /** The health probe answers the same fixed body whatever the upstreams do. */
  lemma HealthNeverForwarded(env: Env, req: Request, upstream: UpstreamRequest -> Exchange)
    requires IsHealthCheck(req)
    ensures Handle(env, req, upstream) == Json(200, [("status", "ok"), ("service", "api-gateway")])
  {
  }

  /** Preflight and unrouted requests never reach an upstream either. */
  lemma UnroutedNeverForwarded(env: Env, req: Request, up1: UpstreamRequest -> Exchange, up2: UpstreamRequest -> Exchange)
    requires req.httpMethod == "OPTIONS" || IsHealthCheck(req) || Resolve(Table, RequestPath(req.url)).None?
    ensures Handle(env, req, up1) == Handle(env, req, up2)
    ensures Handle(env, req, up1) in {Preflight, HealthReply(), NotFound}
  {
  }

  /** A routed request is proxied once, to the target of the first matching
      mount; whatever the upstream answers is the client's answer, a redirect
      included (`followRedirects: false`), and every failure is the 500 envelope. */
  lemma RoutedRequestOutcome(env: Env, req: Request, upstream: UpstreamRequest -> Exchange, i: nat)
    requires req.httpMethod != "OPTIONS" && !IsHealthCheck(req)
    requires i < |Table| && MountMatches(Table[i], RequestPath(req.url))
    requires forall j :: 0 <= j < i ==> !MountMatches(Table[j], RequestPath(req.url))
    ensures Resolve(Table, RequestPath(req.url)) == Some(i)
    ensures var target := TargetOf(env, Table[i].service);
            match upstream(ProxiedAs(env, req, i))
            case Responded(resp) =>
              && Handle(env, req, upstream) == Relayed(Delivered(resp, target, req))
              && Handle(env, req, upstream).response.status == resp.status
              && Handle(env, req, upstream).response.body == resp.body
            case Failed(message) =>
              Handle(env, req, upstream) == Json(500, [("error", "Proxy Error"), ("details", message)])
  {
    ResolveFindsFirstMatch(Table, RequestPath(req.url), i);
  }

  /** A redirect from an upstream reaches the client as the same redirect. */
  lemma RedirectIsReturned(env: Env, req: Request, upstream: UpstreamRequest -> Exchange, i: nat)
    requires req.httpMethod != "OPTIONS" && !IsHealthCheck(req)
    requires Resolve(Table, RequestPath(req.url)) == Some(i)
    requires upstream(ProxiedAs(env, req, i)).Responded?
    requires 300 <= upstream(ProxiedAs(env, req, i)).response.status < 400
    ensures Handle(env, req, upstream).Relayed?
    ensures Handle(env, req, upstream).response.status == upstream(ProxiedAs(env, req, i)).response.status
    ensures Handle(env, req, upstream).response.body == upstream(ProxiedAs(env, req, i)).response.body
  {
  }

  /** With equal host names, the header becomes the parsed `Location` after
      the two setters, serialised again. */
  lemma SameHostLocationIsSetterResult(location: string, target: string, req: Request)
    requires Parse(location).Some? && Parse(target).Some?
    requires Parse(location).value.hostname == Parse(target).value.hostname
    ensures var moved := SetHost(SetProtocol(Parse(location).value, InboundProtocol(req)), InboundHost(req));
            && WellFormed(moved)
            && RewriteLocation(location, target, req) == Serialize(moved)
            && Parse(RewriteLocation(location, target, req)) == Some(moved)
  {
    var l := Parse(location).value;
    var withProtocol := SetProtocol(l, InboundProtocol(req));
    SettersKeepWellFormed(l, InboundProtocol(req), InboundHost(req));
    SettersKeepWellFormed(withProtocol, InboundProtocol(req), InboundHost(req));
  }

  /** Same host: the rewritten `Location` is the old URL with the inbound
      protocol and the inbound `Host` (a host without port keeps the old port,
      dropped when it is the new protocol's default), same userinfo and the same
      path, query and fragment, and it parses back to exactly that URL. */
  lemma SameHostLocationRewritten(location: string, target: string, req: Request, host: string)
    requires Parse(location).Some? && Parse(target).Some?
    requires Parse(location).value.hostname == Parse(target).value.hostname
    requires "host" in req.headers && req.headers["host"] == host && ValidHost(host)
    ensures var l := Parse(location).value;
            var s := InboundProtocol(req);
            var expected := Url(s, l.userinfo, Lower(host), if l.port == Some(DefaultPort(s)) then None else l.port, l.path);
            && RewriteLocation(location, target, req) == Serialize(expected)
            && Parse(RewriteLocation(location, target, req)) == Some(expected)
  {
    var l := Parse(location).value;
    SameHostLocationIsSetterResult(location, target, req);
    SetHostWithoutPort(SetProtocol(l, InboundProtocol(req)), host);
  }

  /** Same host, `Host` carrying a port: that port replaces the old one. */
  lemma SameHostLocationTakesInboundPort(location: string, target: string, req: Request, host: string, port: nat)
    requires Parse(location).Some? && Parse(target).Some?
    requires Parse(location).value.hostname == Parse(target).value.hostname
    requires ValidHost(host) && port <= MaxPort
    requires "host" in req.headers && req.headers["host"] == host + ":" + NatToDigits(port)
    ensures var l := Parse(location).value;
            var s := InboundProtocol(req);
            var expected := Url(s, l.userinfo, Lower(host), if port == DefaultPort(s) then None else Some(port), l.path);
            && RewriteLocation(location, target, req) == Serialize(expected)
            && Parse(RewriteLocation(location, target, req)) == Some(expected)
  {
    var l := Parse(location).value;
    SameHostLocationIsSetterResult(location, target, req);
    SetHostWithPort(SetProtocol(l, InboundProtocol(req)), host, port);
  }

  /** Another host, or a value `new URL` rejects: the header is kept byte for byte. */
  lemma OtherLocationsUntouched(location: string, target: string, req: Request)
    requires Parse(location).None? || Parse(target).None?
             || Parse(location).value.hostname != Parse(target).value.hostname
    ensures RewriteLocation(location, target, req) == location
  {
  }

  /** A relative `Location` has no scheme, so `new URL` throws and it is kept. */
  lemma RelativeLocationUntouched(path: string, target: string, req: Request)
    requires |path| > 0 && path[0] == '/' && ':' !in path
    ensures RewriteLocation(path, target, req) == path
  {
    assert IndexOfAny(path, {':'}) == |path|;
  }

  /** The thread service's default base URL is a bare `https` origin, so the
      proxy sends its host name as `Host` and redirects are compared against it. */
  lemma DefaultThreadTarget()
    ensures Parse(DefaultUrl(Threads)) == Some(Url(Https, None, "threads.inf326.nursoft.dev", None, "/"))
    ensures TargetHost(DefaultUrl(Threads)) == "threads.inf326.nursoft.dev"
  {
    ThreadHostIsValid();
    DefaultThreadUrlIsOrigin();
    ParseOrigin(Https, "threads.inf326.nursoft.dev");
  }

  lemma ThreadHostIsValid()
    ensures ValidHost("threads.inf326.nursoft.dev") && HasNoUpper("threads.inf326.nursoft.dev")
  {
  }

  lemma DefaultThreadUrlIsOrigin()
    ensures DefaultUrl(Threads) == SchemeName(Https) + "://" + "threads.inf326.nursoft.dev"
  {
    var whole := SchemeName(Https) + "://" + "threads.inf326.nursoft.dev";
    forall i | 0 <= i < |whole| ensures whole[i] == DefaultUrl(Threads)[i] {
    }
  }

  /** `POST /v1/threads/threads/42` is served by the first thread mount. */
  lemma ThreadPostRouted(req: Request)
    requires req.url == "/v1/threads/threads/42"
    ensures Resolve(Table, RequestPath(req.url)) == Some(2)
  {
    RequestPathOfPlainPath(req.url);
    ThreadPathResolves();
  }

  /** With the default configuration that mount sends the request to the
      thread service as `/threads/threads/42` with `Host` set to the
      service's host name; method, body and the other headers are kept as
      `ForwardKeepsRequest` says for every request. */
  lemma ThreadPostForwarded(env: Env, req: Request)
    requires EnvName(Threads) !in env
    requires req.url == "/v1/threads/threads/42"
    ensures var f := ProxiedAs(env, req, 2);
            && f.target == "https://threads.inf326.nursoft.dev"
            && f.path == "/threads/threads/42"
            && f.headers["host"] == "threads.inf326.nursoft.dev"
  {
    ThreadPostPath(env, req);
    ThreadMountDefaults(env, req);
  }

  /** Whatever the request target, the first thread mount sends to the
      thread service's default origin with its host name as `Host`. */
  lemma ThreadMountDefaults(env: Env, req: Request)
    requires EnvName(Threads) !in env
    ensures ProxiedAs(env, req, 2).target == "https://threads.inf326.nursoft.dev"
    ensures ProxiedAs(env, req, 2).headers["host"] == "threads.inf326.nursoft.dev"
  {
    ThreadMountShape(2);
    var t := TargetOf(env, Table[2].service);
    DefaultThreadHost();
    DefaultUrlsSpelled();
    ForwardKeepsRequest(Table[2], t, req);
  }

  lemma DefaultThreadHost()
    ensures TargetHost(DefaultUrl(Threads)) == "threads.inf326.nursoft.dev"
  {
    DefaultThreadTarget();
  }

  /** What `Forward` keeps of the request, whatever the mount and target:
      method, body, `authorization`, and the target's host as `Host`; a
      request without `connection` is sent with `connection: close`. */
  lemma ForwardKeepsRequest(m: Mount, t: string, req: Request)
    ensures var f := Forward(m, t, req);
            && f.target == t && f.httpMethod == req.httpMethod && f.body == req.body
            && f.headers["host"] == TargetHost(t)
            && ("connection" !in req.headers ==> f.headers["connection"] == "close")
            && ("authorization" in req.headers ==> f.headers["authorization"] == req.headers["authorization"])
  {
  }

  lemma ThreadPostPath(env: Env, req: Request)
    requires EnvName(Threads) !in env
    requires req.url == "/v1/threads/threads/42"
    ensures ProxiedAs(env, req, 2).path == "/threads/threads/42"
  {
    ThreadPostUrl(req.url);
    var t := ThreadDefaults(env);
    ThreadPathPlain();
    PlainPathToOrigin(Table[2], t, req, "/threads/threads/42");
  }

  lemma DefaultUrlsSpelled()
    ensures DefaultUrl(Threads) == "https://threads.inf326.nursoft.dev"
    ensures DefaultUrl(Moderation) == "https://moderation.inf326.nur.dev"
  {
  }

  /** With no thread-service variable set, the thread mounts proxy to the
      bare default origin. */
  lemma ThreadDefaults(env: Env) returns (t: string)
    requires EnvName(Threads) !in env
    ensures t == TargetOf(env, Table[2].service) == DefaultUrl(Threads)
    ensures TargetPath(t) == "/" && TargetHost(t) == "threads.inf326.nursoft.dev"
  {
    ThreadMountShape(2);
    t := TargetOf(env, Table[2].service);
    DefaultThreadTarget();
    OriginHasRootPath(t, Url(Https, None, "threads.inf326.nursoft.dev", None, "/"));
  }

  /** A target that parses with path `/` puts `/` in front of every path. */
  lemma OriginHasRootPath(t: string, u: Url)
    requires Parse(t) == Some(u) && u.path == "/"
    ensures TargetPath(t) == "/"
  {
    assert IndexOfAny("/", {'#'}) == 1;
  }

  /** Proxied to a bare origin, a plain request path goes out unchanged. */
  lemma PlainPathToOrigin(m: Mount, target: string, req: Request, u: string)
    requires TargetPath(target) == "/" && ForwardedUrl(m, req.url) == u
    requires |u| > 0 && u[0] == '/' && PlainChars(u) && NoDoubleSlash(u)
    ensures Forward(m, target, req).path == u
  {
    PlainCharsFacts(u);
    OriginTargetPath(m, target, req);
    CollapseKeepsSingleSlashes(u);
    assert u[..|u|] == u && u[|u|..] == "";
  }

  /** Lower-case letters, digits and `/`: nothing the proxy treats specially. */
  predicate PlainChars(u: string)
  {
    forall i :: 0 <= i < |u| ==> 'a' <= u[i] <= 'z' || '0' <= u[i] <= '9' || u[i] == '/'
  }

  lemma PlainCharsFacts(u: string)
    requires PlainChars(u)
    ensures ':' !in u && '#' !in u && IndexOfAny(u, {'?'}) == |u|
  {
  }

  lemma ThreadPathPlain()
    ensures PlainChars("/threads/threads/42") && NoDoubleSlash("/threads/threads/42")
  {
  }

  lemma PingPathPlain()
    ensures PlainChars("/api/v1/ping") && NoDoubleSlash("/api/v1/ping")
  {
  }

  lemma DoubledPingPathPlain()
    ensures PlainChars("/api/v1/ping//x") && NoDoubleSlash("/api/v1/ping/x")
  {
  }

  lemma ThreadPostUrl(url: string)
    requires url == "/v1/threads/threads/42"
    ensures ForwardedUrl(Table[2], url) == "/threads/threads/42"
  {
    assert StartsWith(url, Table[2].prefixes[0]) by {
      ThreadMountShape(2);
      assert url[..|Table[2].prefixes[0]|] == Table[2].prefixes[0];
    }
    ThreadRewriteDropsV1(2, url);
  }

  /** The two together: the whole path of a thread request through the gateway. */
  lemma ThreadPostScenario(env: Env, req: Request)
    requires EnvName(Threads) !in env
    requires req.httpMethod == "POST" && req.url == "/v1/threads/threads/42"
    ensures Resolve(Table, RequestPath(req.url)) == Some(2)
    ensures var f := ProxiedAs(env, req, 2);
            && f.target == "https://threads.inf326.nursoft.dev"
            && f.httpMethod == "POST" && f.path == "/threads/threads/42"
            && f.headers["host"] == "threads.inf326.nursoft.dev"
  {
    ThreadPostRouted(req);
    ThreadPostForwarded(env, req);
    ForwardKeepsRequest(Table[2], TargetOf(env, Table[2].service), req);
  }

  /** `GET /api/v1/ping` is served by the moderation mount ... */
  lemma PingRouted(req: Request)
    requires req.url == "/api/v1/ping"
    ensures Resolve(Table, RequestPath(req.url)) == Some(10)
  {
    RequestPathOfPlainPath(req.url);
    PingPathResolves();
  }

  /** ... which, with the default configuration, sends it to the moderation
      service with its path unchanged and `Host` set to that service's name. */
  lemma PingForwarded(env: Env, req: Request)
    requires EnvName(Moderation) !in env
    requires req.url == "/api/v1/ping"
    ensures ProxiedAs(env, req, 10).target == "https://moderation.inf326.nur.dev"
    ensures ProxiedAs(env, req, 10).path == "/api/v1/ping"
    ensures ProxiedAs(env, req, 10).headers["host"] == "moderation.inf326.nur.dev"
  {
    var t := ModerationDefaults(env);
    DefaultUrlsSpelled();
    PingPathPlain();
    PlainPathToOrigin(Table[10], t, req, req.url);
  }

  /** A doubled slash in a request path reaches the upstream as one:
      `/api/v1/ping//x` is sent to the moderation service as `/api/v1/ping/x`. */
  lemma DoubledSlashCollapsed(env: Env, req: Request)
    requires EnvName(Moderation) !in env
    requires req.url == "/api/v1/ping//x"
    ensures ProxiedAs(env, req, 10).path == "/api/v1/ping/x"
  {
    var t := ModerationDefaults(env);
    var u := req.url;
    DoubledPingPathPlain();
    PlainCharsFacts(u);
    OriginTargetPath(Table[10], t, req);
    SlashRunInPing(u);
    assert u[..|u|] == u && u[|u|..] == "";
  }

  lemma SlashRunInPing(u: string)
    requires u == "/api/v1/ping//x"
    ensures CollapseSlashes(u) == "/api/v1/ping/x"
  {
    var a, b := "/api/v1/ping/", "x";
    assert u == a + "/" + b;
    DoubledSlashDropped(a, b);
    var v := "/api/v1/ping/x";
    assert a + b == v;
    DoubledPingPathPlain();
    CollapseKeepsSingleSlashes(v);
  }

  /** With no moderation variable set, the moderation mount proxies to the
      bare default origin and passes the request target through. */
  lemma ModerationDefaults(env: Env) returns (t: string)
    requires EnvName(Moderation) !in env
    ensures t == TargetOf(env, Table[10].service) == DefaultUrl(Moderation)
    ensures TargetPath(t) == "/" && TargetHost(t) == "moderation.inf326.nur.dev"
    ensures forall url :: ForwardedUrl(Table[10], url) == url
  {
    ModerationMount();
    t := TargetOf(env, Table[10].service);
    DefaultModerationTarget();
    OriginHasRootPath(t, Url(Https, None, "moderation.inf326.nur.dev", None, "/"));
  }

  lemma DefaultModerationTarget()
    ensures Parse(DefaultUrl(Moderation)) == Some(Url(Https, None, "moderation.inf326.nur.dev", None, "/"))
    ensures TargetHost(DefaultUrl(Moderation)) == "moderation.inf326.nur.dev"
  {
    ModerationHostIsValid();
    DefaultModerationUrlIsOrigin();
    ParseOrigin(Https, "moderation.inf326.nur.dev");
  }

  lemma ModerationHostIsValid()
    ensures ValidHost("moderation.inf326.nur.dev") && HasNoUpper("moderation.inf326.nur.dev")
  {
  }

  lemma DefaultModerationUrlIsOrigin()
    ensures DefaultUrl(Moderation) == SchemeName(Https) + "://" + "moderation.inf326.nur.dev"
  {
    var whole := SchemeName(Https) + "://" + "moderation.inf326.nur.dev";
    forall i | 0 <= i < |whole| ensures whole[i] == DefaultUrl(Moderation)[i] {
    }
  }
}
