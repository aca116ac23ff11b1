/** The gateway's route table (api-gateway/index.js): the upstream base URLs and
    the ordered list of `app.use` mounts, each proxying to one upstream, six of
    them with an anchored `pathRewrite`. */
module Routes {
  import opened Wrappers
  import opened Text

  datatype Service = Users | Channels | Threads | Messages | Files | Moderation | Presence | Search | WikiBot | ProgBot

  /** The environment variable that overrides a service's base URL. */
  function EnvName(s: Service): string
  {
    match s
    case Users => "USERS_SERVICE_URL"
    case Channels => "CHANNELS_SERVICE_URL"
    case Threads => "THREADS_SERVICE_URL"
    case Messages => "MESSAGES_SERVICE_URL"
    case Files => "FILES_SERVICE_URL"
    case Moderation => "MODERATION_SERVICE_URL"
    case Presence => "PRESENCE_SERVICE_URL"
    case Search => "SEARCH_SERVICE_URL"
    case WikiBot => "WIKI_BOT_SERVICE_URL"
    case ProgBot => "PROG_BOT_SERVICE_URL"
  }

  /** The base URL used when the variable is unset. */
  function DefaultUrl(s: Service): string
  {
    match s
    case Users => "https://users.inf326.nursoft.dev"
    case Channels => "https://channel-api.inf326.nur.dev"
    case Threads => "https://threads.inf326.nursoft.dev"
    case Messages => "https://messages-service.kroder.dev"
    case Files => "http://file-service-134-199-176-197.nip.io"
    case Moderation => "https://moderation.inf326.nur.dev"
    case Presence => "https://presence-134-199-176-197.nip.io"
    case Search => "https://searchservice.inf326.nursoft.dev"
    case WikiBot => "http://wikipedia-chatbot-134-199-176-197.nip.io"
    case ProgBot => "https://chatbotprogra.inf326.nursoft.dev"
  }

  /** The process environment, read once at start-up. */
  type Env = map<string, string>

  /** `process.env.X || default`: the variable's value unless it is unset or empty. */
  function TargetOf(env: Env, s: Service): (t: string)
    ensures t != ""
    ensures t == DefaultUrl(s) || (EnvName(s) in env && t == env[EnvName(s)])
    ensures EnvName(s) !in env || env[EnvName(s)] == "" ==> t == DefaultUrl(s)
    ensures EnvName(s) in env && env[EnvName(s)] != "" ==> t == env[EnvName(s)]
  {
    var name := EnvName(s);
    if name in env && env[name] != "" then env[name] else DefaultUrl(s)
  }

  /** `pathRewrite: { '^pattern': replacement }` */
  datatype PathRewrite = PathRewrite(pattern: string, replacement: string)

  /** One `app.use(prefixes, createProxyMiddleware(...))` registration. */
  datatype Mount = Mount(prefixes: seq<string>, service: Service, rewrite: Option<PathRewrite>)

  /** The mounts in declaration order (api-gateway/index.js, lines 73 to 147). */
  const Table: seq<Mount> := [
    Mount(["/v1/users", "/v1/auth"], Users, None),
    Mount(["/v1/channels", "/v1/members"], Channels, None),
    Mount(["/v1/threads/threads"], Threads, Some(PathRewrite("/v1/threads/threads", "/threads/threads"))),
    Mount(["/v1/threads/channel"], Threads, Some(PathRewrite("/v1/threads/channel", "/threads/channel"))),
    Mount(["/v1/threads/health"], Threads, Some(PathRewrite("/v1/threads/health", "/threads/health"))),
    Mount(["/v1/threads/admin"], Threads, Some(PathRewrite("/v1/threads/admin", "/threads/admin"))),
    Mount(["/v1/threads/moderation"], Threads, Some(PathRewrite("/v1/threads/moderation", "/threads/moderation"))),
    Mount(["/v1/threads/message"], Threads, Some(PathRewrite("/v1/threads/message", "/threads/message"))),
    Mount(["/threads"], Messages, None),
    Mount(["/v1/files"], Files, None),
    Mount(["/api/v1/moderation", "/api/v1/blacklist", "/api/v1/admin", "/api/v1/ping", "/api/v1/health"], Moderation, None),
    Mount(["/api/v1.0.0/presence"], Presence, None),
    Mount(["/api/message", "/api/files", "/api/channel", "/api/threads", "/api/healthz", "/api/livez"], Search, None),
    Mount(["/chat-wikipedia"], WikiBot, None),
    Mount(["/chat"], ProgBot, None)
  ]

  /** The path Express matches mounts against: the request target up to its query. */
  function RequestPath(url: string): (p: string)
    ensures |p| <= |url| && p == url[..|p|] && '?' !in p
  {
    url[..IndexOfAny(url, {'?', '#'})]
  }

  /** Express mounts a prefix on a path when the path starts with it, ignoring
      ASCII case, and the prefix ends a path segment there. */
  predicate PrefixMatches(prefix: string, path: string)
  {
    && |prefix| <= |path|
    && Lower(path[..|prefix|]) == Lower(prefix)
    && (|path| == |prefix| || path[|prefix|] == '/')
  }

  predicate MountMatches(m: Mount, path: string)
  {
    exists i :: 0 <= i < |m.prefixes| && PrefixMatches(m.prefixes[i], path)
  }

  /** The first mount at index `k` or later that matches `path`. */
  function ResolveFrom(table: seq<Mount>, path: string, k: nat): (r: Option<nat>)
    requires k <= |table|
    ensures r.Some? ==> k <= r.value < |table| && MountMatches(table[r.value], path)
    ensures r.Some? ==> forall j :: k <= j < r.value ==> !MountMatches(table[j], path)
    ensures r.None? <==> forall j :: k <= j < |table| ==> !MountMatches(table[j], path)
    decreases |table| - k
  {
    if k == |table| then None
    else if MountMatches(table[k], path) then Some(k)
    else ResolveFrom(table, path, k + 1)
  }

  /** Express's router: the first mount in declaration order that matches handles
      the request (the proxy never passes it on). */
  function Resolve(table: seq<Mount>, path: string): (r: Option<nat>)
    ensures r.Some? ==> r.value < |table| && MountMatches(table[r.value], path)
    ensures r.Some? ==> forall j :: 0 <= j < r.value ==> !MountMatches(table[j], path)
    ensures r.None? <==> forall j :: 0 <= j < |table| ==> !MountMatches(table[j], path)
  {
    ResolveFrom(table, path, 0)
  }

  /** Conversely, the first matching mount is the one `Resolve` returns. */
  lemma ResolveFindsFirstMatch(table: seq<Mount>, path: string, i: nat)
    requires i < |table| && MountMatches(table[i], path)
    requires forall j :: 0 <= j < i ==> !MountMatches(table[j], path)
    ensures Resolve(table, path) == Some(i)
  {
  }

  /** Once an earlier mount matches, mounts declared after the table never matter. */
  lemma {:induction false} LaterMountsNeverConsulted(table: seq<Mount>, later: seq<Mount>, path: string, k: nat)
    requires k <= |table|
    requires ResolveFrom(table, path, k).Some?
    ensures ResolveFrom(table + later, path, k) == ResolveFrom(table, path, k)
    decreases |table| - k
  {
    assert (table + later)[k] == table[k];
    if !MountMatches(table[k], path) {
      LaterMountsNeverConsulted(table, later, path, k + 1);
    }
  }

  /** The upstream path: the whole request target (path and query) with the
      mount's anchored rewrite applied when its pattern starts the target. */
  function ForwardedUrl(m: Mount, url: string): (r: string)
    ensures m.rewrite.None? ==> r == url
    ensures m.rewrite.Some? && StartsWith(url, m.rewrite.value.pattern)
            ==> r == m.rewrite.value.replacement + url[|m.rewrite.value.pattern|..]
    ensures m.rewrite.Some? && !StartsWith(url, m.rewrite.value.pattern) ==> r == url
  {
    match m.rewrite
    case None => url
    case Some(PathRewrite(pattern, replacement)) =>
      if StartsWith(url, pattern) then replacement + url[|pattern|..] else url
  }

  /** The regular expression `^pattern` (no metacharacters in the table) is case-sensitive. */
  predicate StartsWith(s: string, prefix: string)
  {
    |prefix| <= |s| && s[..|prefix|] == prefix
  }

  /** Indices of the six thread-service mounts. */
  predicate IsThreadMount(i: nat)
  {
    2 <= i < 8
  }

  /** Each thread-service mount has one prefix `/v1/threads/<x>`, goes to the
      thread service and rewrites exactly that prefix to `/threads/<x>`. */
  lemma ThreadMountShape(i: nat)
    requires IsThreadMount(i)
    ensures |Table[i].prefixes| == 1 && Table[i].service == Threads
    ensures var p := Table[i].prefixes[0];
            && |p| > 12 && p[..12] == "/v1/threads/" && HasNoUpper(p)
            && Table[i].rewrite == Some(PathRewrite(p, p[3..]))
  {
    if i == 2 {
      ThreadPrefix(Table[2].prefixes[0]);
    } else if i == 3 {
      ThreadPrefix(Table[3].prefixes[0]);
    } else if i == 4 {
      ThreadPrefix(Table[4].prefixes[0]);
    } else if i == 5 {
      ThreadPrefix(Table[5].prefixes[0]);
    } else if i == 6 {
      ThreadPrefix(Table[6].prefixes[0]);
    } else {
      ThreadPrefix(Table[7].prefixes[0]);
    }
  }

  lemma ThreadPrefix(p: string)
    requires p in {"/v1/threads/threads", "/v1/threads/channel", "/v1/threads/health",
                   "/v1/threads/admin", "/v1/threads/moderation", "/v1/threads/message"}
    ensures |p| > 12 && p[..12] == "/v1/threads/" && HasNoUpper(p)
  {
  }

  /** On a thread mount, a request whose target starts with the prefix exactly
      as written is forwarded with only `/v1` removed from the front: the rest of
      the path and the query are untouched. */
  lemma ThreadRewriteDropsV1(i: nat, url: string)
    requires IsThreadMount(i)
    requires StartsWith(url, Table[i].prefixes[0])
    ensures var p := Table[i].prefixes[0];
            var r := ForwardedUrl(Table[i], url);
            && r == p[3..] + url[|p|..]
            && r == url[3..]
  {
    ThreadMountShape(i);
    var p := Table[i].prefixes[0];
    assert url[..|p|] == p;
    assert p[3..] + url[|p|..] == url[3..];
  }

  /** The mounts ignore case but the rewrite does not: a target that reaches a
      thread mount only through case folding (`/V1/...`) is forwarded whole,
      `/v1` prefix and all. */
  lemma CaseFoldedThreadPathNotRewritten(i: nat, url: string)
    requires IsThreadMount(i)
    requires |url| > 1 && url[1] == 'V'
    ensures ForwardedUrl(Table[i], url) == url
  {
    ThreadMountShape(i);
    var p := Table[i].prefixes[0];
    assert p[1] == "/v1/threads/"[1];
    if |p| <= |url| {
      assert url[..|p|][1] != p[1];
    }
  }

  lemma MixedCasePrefix(path: string)
    requires path == "/V1/threads/threads/1"
    ensures PrefixMatches(Table[2].prefixes[0], path)
  {
    var p := Table[2].prefixes[0];
    assert p == "/v1/threads/threads";
    LowerOfLower(p);
    forall j | 0 <= j < 19 ensures Lower(path[..19])[j] == p[j] {
    }
  }

  /** `/V1/threads/threads/1` is served by the first thread mount. */
  lemma MixedCaseThreadPath()
    ensures Resolve(Table, "/V1/threads/threads/1") == Some(2)
    ensures ForwardedUrl(Table[2], "/V1/threads/threads/1") == "/V1/threads/threads/1"
  {
    var path := "/V1/threads/threads/1";
    MountMissesAt(Table[0], path, 4);
    MountMissesAt(Table[1], path, 4);
    MixedCasePrefix(path);
    assert MountMatches(Table[2], path);
    ResolveFindsFirstMatch(Table, path, 2);
    CaseFoldedThreadPathNotRewritten(2, path);
  }

  /** Every mount other than the six thread mounts forwards the target unchanged. */
  lemma OtherMountsPassThrough(i: nat, url: string)
    requires i < |Table| && !IsThreadMount(i)
    ensures ForwardedUrl(Table[i], url) == url
  {
  }

  /** A mount none of whose prefixes agrees with the path at position `k`
      (ignoring ASCII case) does not match it. */
  lemma MountMissesAt(m: Mount, path: string, k: nat)
    requires k < |path|
    requires forall j :: 0 <= j < |m.prefixes| ==> k < |m.prefixes[j]| && LowerChar(m.prefixes[j][k]) != LowerChar(path[k])
    ensures !MountMatches(m, path)
  {
  }

  /** Every mount before the two chatbot mounts has prefixes whose second
      character is `v`, `t` or `a`, so none of them matches a path starting `/c`. */
  lemma EarlyMountsMissChatPaths(path: string)
    requires |path| > 1 && LowerChar(path[1]) == 'c'
    ensures forall i :: 0 <= i < 13 ==> !MountMatches(Table[i], path)
  {
    forall i | 0 <= i < 13 ensures !MountMatches(Table[i], path) {
      MountMissesAt(Table[i], path, 1);
    }
  }

  /** Mounts match on segment boundaries, so `/chat` does not capture
      `/chat-wikipedia/...`, which reaches the Wikipedia bot declared before it. */
  lemma WikipediaBotPath()
    ensures Resolve(Table, "/chat-wikipedia/ask") == Some(13)
  {
    var path := "/chat-wikipedia/ask";
    EarlyMountsMissChatPaths(path);
    assert path[..15] == Table[13].prefixes[0];
    assert path[15] == '/';
    assert PrefixMatches(Table[13].prefixes[0], path);
    assert MountMatches(Table[13], path);
    ResolveFindsFirstMatch(Table, path, 13);
  }

  /** `/chat/...` reaches the programming bot. */
  lemma ProgrammingBotPath()
    ensures Resolve(Table, "/chat/ask") == Some(14)
  {
    var path := "/chat/ask";
    EarlyMountsMissChatPaths(path);
    MountMissesAt(Table[13], path, 5);
    assert path[..5] == Table[14].prefixes[0];
    assert PrefixMatches(Table[14].prefixes[0], path);
    assert MountMatches(Table[14], path);
    ResolveFindsFirstMatch(Table, path, 14);
  }

  /** Mounts ignore case: `/CHAT` reaches the programming bot too. */
  lemma UpperCaseChatPath()
    ensures Resolve(Table, "/CHAT") == Some(14)
  {
    var path := "/CHAT";
    EarlyMountsMissChatPaths(path);
    assert !PrefixMatches(Table[13].prefixes[0], path);
    assert !MountMatches(Table[13], path);
    assert Lower(path) == Lower(Table[14].prefixes[0]);
    assert PrefixMatches(Table[14].prefixes[0], path);
    assert MountMatches(Table[14], path);
    ResolveFindsFirstMatch(Table, path, 14);
  }

  /** A path that merely starts with the characters `/chat` is not routed at all. */
  lemma ChatPrefixIsNotEnough()
    ensures Resolve(Table, "/chatbot") == None
  {
    EarlyMountsMissChatPaths("/chatbot");
    MountMissesAt(Table[13], "/chatbot", 5);
    assert !PrefixMatches(Table[14].prefixes[0], "/chatbot");
  }

  /** A request target without `?` or `#` is all path. */
  lemma RequestPathOfPlainPath(url: string)
    requires '?' !in url && '#' !in url
    ensures RequestPath(url) == url
  {
    assert IndexOfAny(url, {'?', '#'}) == |url|;
  }

  /** `/v1/threads/threads/42` is handled by the first thread mount. */
  lemma ThreadPathResolves()
    ensures Resolve(Table, "/v1/threads/threads/42") == Some(2)
  {
    var path := "/v1/threads/threads/42";
    MountMissesAt(Table[0], path, 4);
    MountMissesAt(Table[1], path, 4);
    assert path[..19] == Table[2].prefixes[0];
    assert PrefixMatches(Table[2].prefixes[0], path);
    assert MountMatches(Table[2], path);
    ResolveFindsFirstMatch(Table, path, 2);
  }

  /** The moderation mount forwards to the moderation service without a rewrite. */
  lemma ModerationMount()
    ensures Table[10].service == Moderation && Table[10].rewrite.None?
  {
  }

  /** `/api/v1/ping` is handled by the moderation mount. */
  lemma PingPathResolves()
    ensures Resolve(Table, "/api/v1/ping") == Some(10)
  {
    var path := "/api/v1/ping";
    forall j | 0 <= j < 10 ensures !MountMatches(Table[j], path) {
      MountMissesAt(Table[j], path, 1);
    }
    assert path[..12] == Table[10].prefixes[3];
    assert PrefixMatches(Table[10].prefixes[3], path);
    assert MountMatches(Table[10], path);
    ResolveFindsFirstMatch(Table, path, 10);
  }
}
