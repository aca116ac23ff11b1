# Campus chat: gateway routing, client retry policy, stores and dashboard logic

This project models, in Dafny, the sequential core of the campus chat system:

- **The API gateway** (`api-gateway/index.js`). It answers CORS preflights and
  the `/health` probe itself. Every other request goes to the first `app.use`
  mount whose prefix matches on a path-segment boundary, ignoring ASCII case.
  It is proxied to that mount's upstream with `changeOrigin`, with the path
  joining and header handling of the proxy library underneath
  (`http-proxy`). Redirects are not followed. A `Location` header pointing at the upstream's own host name is
  moved back onto the gateway's protocol and `Host`. Every proxy failure
  becomes one 500 JSON envelope. Modules: `Routes` (the service URLs and the
  ordered mount table), `WhatwgUrl` (the part of the WHATWG URL Standard the
  `Location` rewrite uses), `HttpProxy` (what the proxy library does to the
  path and headers) and `Gateway` (the request pipeline).
- **The client retry policy** (`campus-chat/src/app/queryClient.ts`). It
  decides whether a failed query or mutation is retried. Retry delays use
  capped exponential backoff. Module `RetryPolicy`.
- **The UI store and the session store** (`campus-chat/src/store/uiStore.ts`,
  `campus-chat/src/store/authStore.ts`). Each is a class whose methods update
  its fields. Each also has a pure `Apply` transition on a state value, which
  the lemmas reason about. Modules `UIStore` and `AuthStore`.
- **The dashboard hook** (`campus-chat/src/pages/dashboard/useDashboardLogic.ts`).
  It covers:
  - which channel and thread the query string selects, and how `updateRoute`
    rewrites the query string through `URLSearchParams.set`/`delete`;
  - the guards of `handleSendMessage` and `handleUpload`;
  - chat-command parsing, the bot reply and its prefix;
  - the `moderationNotes` and `channelPage` state.

  Module `DashboardLogic`.

Requests to upstreams and services are not performed. The gateway's
`upstream` is a function parameter. The dashboard's handlers return the list
of requests they would issue, and the services' answers come in as parameters
(`sentId`, `verdict`, `uploaded`, `ask`). `Text` and `Wrappers` hold shared
string helpers and `Option`.

The gateway code differs from a conventional proxy in these places:

- An unrouted request gets Express's default 404 page, not a JSON error envelope.
- Proxy errors are always 500. There is no 502/504 distinction.
- Hop-by-hop headers are not stripped. The proxy library only rewrites
  `connection` (to `close` upstream unless an upgrade is asked for) and, for
  HTTP/1.0 clients, drops `transfer-encoding`. Forwarded-protocol headers are
  not read (`req.protocol` comes from the socket alone).
- Runs of `/` in a request path are collapsed before it goes upstream, so
  `/api/v1/ping//x` reaches the moderation service as `/api/v1/ping/x`.
- A relative `Location` is kept as is rather than resolved.
- A thread path written with different letter case (`/V1/threads/threads/1`)
  still reaches its thread mount, which matches case-insensitively. But the
  case-sensitive `^/v1/threads/...` rewrite does not apply to it, so it is
  forwarded unchanged.
- A `Host` without a port keeps the `Location`'s old port, as the WHATWG
  `host` setter does.

## Model

| member | source | states |
|---|---|---|
| `Gateway.HealthNeverForwarded` | api-gateway/index.js:12-14 | a GET/HEAD on `/health` always gets `200 {status: "ok", service: "api-gateway"}`, whatever the upstreams would do |
| `Gateway.UnroutedNeverForwarded` | api-gateway/index.js:9-14 | preflights, health probes and requests no mount matches never reach an upstream and get a preflight, health or 404 reply |
| `Gateway.RoutedRequestOutcome` | api-gateway/index.js:30-70 | a routed request is proxied once to the first matching mount; the upstream's response (status included) is relayed through `onProxyRes`, and any failure is `500 {error: "Proxy Error", details: message}` |
| `Gateway.RedirectIsReturned` | api-gateway/index.js:33 | a 3xx from the upstream reaches the client with the same status and body (redirects are not followed) |
| `Gateway.Forward` | api-gateway/index.js:30-32 | the upstream request keeps method and body; its path is the mount-rewritten target, fragment cut, joined to the target's own path by `urlJoin`; `host` becomes the target's host (and non-default port), `connection` becomes `close` unless an upgrade is asked for, a DELETE/OPTIONS without a length gets `content-length: 0` and no `transfer-encoding`, and every other header is kept |
| `Gateway.ForwardKeepsRequest` | api-gateway/index.js:30-32 | for every mount and target: same method, body and `authorization`, the target's host as `Host`, and `connection: close` when the client sent no `connection` |
| `Gateway.OriginTargetPath` | api-gateway/index.js:30-32 | proxied to a bare origin, a target starting with `/` without `:` or `#` goes out with its path's runs of `/` collapsed and its query unchanged |
| `Gateway.RewriteLocation` | api-gateway/index.js:47-63 | a changed `Location` only ever comes from one that parsed, on the target's own host name, and the new one parses with the gateway's inbound protocol as scheme |
| `Gateway.Delivered` | api-gateway/index.js:43-65 | the client gets the upstream's status and body, the `onProxyRes` `Location`, and every header but `location`, `connection` and `transfer-encoding` unchanged |
| `Gateway.Handle` | api-gateway/index.js:9-70 | a preflight exactly for OPTIONS; 404 exactly when nothing else answers and no mount matches; a relayed response only from a routed request whose upstream answered; JSON replies are 200 or 500 |
| `Gateway.OnProxyRes` | api-gateway/index.js:43-65 | only a non-empty `location` header may change; status, body, header names and every other header are unchanged; without `location` the response is untouched |
| `Gateway.SameHostLocationIsSetterResult` | api-gateway/index.js:50-58 | with equal host names the new `Location` is the parsed URL after the protocol and host setters, well formed, and parses back to it |
| `Gateway.SameHostLocationRewritten` | api-gateway/index.js:54-58 | same host and a portless `Host`: inbound protocol, inbound host (lower-cased), same userinfo, path, query and fragment, the old port kept unless it is the new scheme's default |
| `Gateway.SameHostLocationTakesInboundPort` | api-gateway/index.js:55-57 | same host and `Host: h:p`: the new `Location` has host `h` and port `p` (omitted when `p` is the protocol's default) |
| `Gateway.OtherLocationsUntouched` | api-gateway/index.js:49-63 | a `Location` on another host name, or one the URL parser rejects, is kept byte for byte |
| `Gateway.RelativeLocationUntouched` | api-gateway/index.js:49-63 | a relative `Location` (a path without `:`) is kept byte for byte |
| `Gateway.DefaultThreadTarget` | api-gateway/index.js:20 | the thread service's default base URL parses to the `https` origin of `threads.inf326.nursoft.dev`, which is the `Host` the proxy sends |
| `Gateway.ThreadPostRouted` | api-gateway/index.js:79-84 | `/v1/threads/threads/42` is handled by the first thread mount |
| `Gateway.ThreadPostForwarded` | api-gateway/index.js:79-84 | with default settings that request goes to the thread service as `/threads/threads/42` with the service's `Host` |
| `Gateway.ThreadMountDefaults` | api-gateway/index.js:20 | with no `THREADS_SERVICE_URL`, the first thread mount sends every request to `https://threads.inf326.nursoft.dev` with that host name as `Host` |
| `Gateway.ThreadPostScenario` | api-gateway/index.js:79-84 | `POST /v1/threads/threads/42` end to end: routed to mount 2 and forwarded as `POST /threads/threads/42` to the thread service |
| `Gateway.PingRouted` | api-gateway/index.js:134 | `/api/v1/ping` is handled by the moderation mount |
| `Gateway.PingForwarded` | api-gateway/index.js:134 | with default settings it goes to the moderation service with its path unchanged and that service's `Host` |
| `Gateway.DoubledSlashCollapsed` | api-gateway/index.js:134 | `/api/v1/ping//x` is sent to the moderation service as `/api/v1/ping/x` |
| `Gateway.ModerationDefaults` | api-gateway/index.js:23 | with no `MODERATION_SERVICE_URL`, the moderation mount proxies to the bare default origin, whose path is `/`, and passes every target through |
| `Gateway.DefaultModerationTarget` | api-gateway/index.js:23 | the moderation service's default base URL parses to the `https` origin of `moderation.inf326.nur.dev`, which is the `Host` sent |
| `HttpProxy.CollapseSlashes` | api-gateway/index.js:30-32 | the collapsed path has no `//`, is no longer than the input, keeps its first character and gains no new characters |
| `HttpProxy.CollapseKeepsSingleSlashes` | api-gateway/index.js:30-32 | a path without `//` is left as it is, so collapsing is idempotent |
| `HttpProxy.DoubledSlashDropped` | api-gateway/index.js:30-32 | a doubled `/` collapses like a single one |
| `HttpProxy.ReplaceAbsent` | api-gateway/index.js:30-32 | a pattern using a character the text lacks replaces nothing |
| `HttpProxy.UrlJoinKeepsQuery` | api-gateway/index.js:30-32 | `urlJoin` changes only the part before the first `?`; the query is passed on untouched |
| `HttpProxy.JoinToOrigin` | api-gateway/index.js:30-32 | joined to the path `/` of a bare origin, a path starting with `/` and holding no `:` is only collapsed |
| `HttpProxy.DeleteLength` | api-gateway/index.js:30-32 | a DELETE or OPTIONS without a length gets `content-length: 0` and loses `transfer-encoding`; anything else is untouched |
| `HttpProxy.OutgoingConnection` | api-gateway/index.js:30-32 | `connection` stays as sent when it asks for an upgrade and is `close` otherwise |
| `HttpProxy.OutgoingHeaders` | api-gateway/index.js:30-32 | `host` and `connection` set, `deleteLength` applied, every other request header kept with its value |
| `HttpProxy.ResponseHeaders` | api-gateway/index.js:43-65 | for HTTP/1.0 clients `transfer-encoding` goes and `connection` is the client's own or `close`; for other versions but 2.0 a response without `connection` gets the client's own or `keep-alive`; all other headers are unchanged |
| `HttpProxy.SingleEntryUpgrade` | api-gateway/index.js:30-32 | a one-entry `connection` asks for an upgrade iff it is `upgrade` in some letter case, so `keep-alive` goes upstream as `close` |
| `Routes.TargetOf` | api-gateway/index.js:17-28 | a service's base URL is its environment variable when set and non-empty, else its fixed default; never empty |
| `Routes.Resolve` | api-gateway/index.js:73-147 | the chosen mount matches the path (segment boundary, ASCII case ignored) and no earlier mount does; no mount is chosen iff none matches |
| `Routes.ResolveFindsFirstMatch` | api-gateway/index.js:73-147 | conversely, the first matching mount is the one chosen |
| `Routes.LaterMountsNeverConsulted` | api-gateway/index.js:73-147 | once a mount matches, appending mounts after the table changes nothing |
| `Routes.ThreadMountShape` | api-gateway/index.js:79-124 | each of the six thread mounts has one prefix `/v1/threads/<x>`, goes to the thread service and rewrites that prefix to `/threads/<x>` |
| `Routes.ThreadRewriteDropsV1` | api-gateway/index.js:79-124 | on a thread mount only the leading `/v1` is removed: the rest of the path and the query are untouched |
| `Routes.OtherMountsPassThrough` | api-gateway/index.js:73-147 | every mount other than the thread mounts forwards the target unchanged |
| `Routes.WikipediaBotPath` | api-gateway/index.js:143-147 | `/chat-wikipedia/ask` reaches the Wikipedia bot, not the `/chat` mount |
| `Routes.ProgrammingBotPath` | api-gateway/index.js:146-147 | `/chat/ask` reaches the programming bot, past the `/chat-wikipedia` mount |
| `Routes.UpperCaseChatPath` | api-gateway/index.js:146-147 | mounts ignore case: `/CHAT` reaches the programming bot too |
| `Routes.ChatPrefixIsNotEnough` | api-gateway/index.js:146-147 | `/chatbot` matches no mount (prefixes end on a segment boundary) |
| `Routes.ThreadPathResolves` | api-gateway/index.js:73-84 | `/v1/threads/threads/42` resolves to the first thread mount |
| `Routes.PingPathResolves` | api-gateway/index.js:73-134 | `/api/v1/ping` resolves to the moderation mount |
| `Routes.ModerationMount` | api-gateway/index.js:134 | the moderation mount forwards to the moderation service without a path rewrite |
| `Routes.CaseFoldedThreadPathNotRewritten` | api-gateway/index.js:79-124 | a target reaching a thread mount only through case folding (`/V1/...`) is forwarded whole |
| `Routes.MixedCaseThreadPath` | api-gateway/index.js:79-84 | `/V1/threads/threads/1` resolves to the first thread mount and is forwarded unchanged, `/V1` included |
| `WhatwgUrl.Parse` | api-gateway/index.js:50-51 | every URL `new URL` accepts is well formed: valid lower-case host, port in range and not the default, path starting with `/` |
| `WhatwgUrl.SettersKeepWellFormed` | api-gateway/index.js:55-56 | both setters keep a URL well formed |
| `WhatwgUrl.SetHostWithoutPort` | api-gateway/index.js:56 | a valid host without port replaces the host name and keeps the port |
| `WhatwgUrl.SetHostWithPort` | api-gateway/index.js:56 | `host:port` replaces host and port (the default port is dropped) |
| `WhatwgUrl.Serialize` | api-gateway/index.js:57 | serialising a well-formed URL and parsing it again gives the same URL |
| `WhatwgUrl.SetHost` | api-gateway/index.js:56 | the `host` setter keeps scheme, credentials and path; an invalid host changes nothing; a valid one becomes the lower-cased host name, the port changes only when a `:` follows the host, and well-formedness is kept |
| `WhatwgUrl.Credentials` | api-gateway/index.js:50 | credentials are dropped exactly when the text before `@` is empty or `:`, and keep only characters of that text |
| `WhatwgUrl.CredentialsCanonical` | api-gateway/index.js:50-57 | credentials in the kept form are kept unchanged, so a serialised URL reads back with the same credentials |
| `WhatwgUrl.EmptyCredentialsDropped` | api-gateway/index.js:50-57 | `@host` and `:@host` keep no credentials, and `user:@host` keeps `user` without the `:` |
| `WhatwgUrl.ParseOrigin` | api-gateway/index.js:51 | `scheme://host` parses to that scheme and host with path `/` and no port |
| `RetryPolicy.QueryShouldRetry` | campus-chat/src/app/queryClient.ts:9-20 | a retried query has seen fewer than 3 failures and no 4xx other than 408; with fewer than 2 failures and no such 4xx it is always retried |
| `RetryPolicy.MutationShouldRetry` | campus-chat/src/app/queryClient.ts:28-35 | a retried mutation failed with 503 or 429 fewer than 2 times; under 2 failures, refusing means the status is neither |
| `RetryPolicy.QueryRetryBudget` | campus-chat/src/app/queryClient.ts:9-20 | a query's retry budget is 0 exactly for a 4xx other than 408, and at most 3 |
| `RetryPolicy.QueryRetryIsBudget` | campus-chat/src/app/queryClient.ts:9-20 | a query is retried iff fewer failures than the budget were seen: never for 4xx but 408, while `failureCount < 3` for 5xx, while `< 2` for 408, other statuses and network errors |
| `RetryPolicy.QueryGiveUpIsFinal` | campus-chat/src/app/queryClient.ts:9-20 | once a query is not retried, no later failure count retries it |
| `RetryPolicy.QueryRetryDelay` | campus-chat/src/app/queryClient.ts:21-24 | the query delay lies between 1000 and 30000 ms |
| `RetryPolicy.QueryDelaySchedule` | campus-chat/src/app/queryClient.ts:21-24 | query delays are 1, 2, 4, 8, 16 s and 30 s from the sixth attempt on |
| `RetryPolicy.MutationRetryBudget` | campus-chat/src/app/queryClient.ts:28-35 | a mutation's retry budget is positive exactly for 503 and 429, and at most 2 |
| `RetryPolicy.MutationRetryIsBudget` | campus-chat/src/app/queryClient.ts:28-35 | a mutation is retried iff its status is 503 or 429 and `failureCount < 2` |
| `RetryPolicy.RateLimitAndUnavailable` | campus-chat/src/app/queryClient.ts:9-35 | 429 is never retried as a query but twice as a mutation; 503 three times as a query, twice as a mutation |
| `RetryPolicy.MutationRetryDelay` | campus-chat/src/app/queryClient.ts:36-39 | the mutation delay lies between 2000 and 10000 ms |
| `RetryPolicy.MutationDelaySchedule` | campus-chat/src/app/queryClient.ts:36-39 | mutation delays are 2, 4, 8 s and 10 s from the fourth attempt on |
| `RetryPolicy.RetryDelaysMonotone` | campus-chat/src/app/queryClient.ts:21-39 | both delays never decrease as the attempt index grows |
| `RetryPolicy.WaitsBeforeGivingUp` | campus-chat/src/app/queryClient.ts:9-39 | total backoff before giving up: 7 s for a server error, 3 s for a network error or 408, none for other 4xx, 6 s for a 503 mutation |
| `UIStore.SetTyping` | campus-chat/src/store/uiStore.ts:45-54 | after the update `typingState[t][u] == b`; every other thread and every other user of `t` is unchanged |
| `UIStore.ClearTyping` | campus-chat/src/store/uiStore.ts:55-60 | thread `t` is removed, every other thread is unchanged, and an absent `t` changes nothing |
| `UIStore.Apply` | campus-chat/src/store/uiStore.ts:38-60 | each action changes only its own field of the state |
| `UIStore.ToggleTwice` | campus-chat/src/store/uiStore.ts:38-39 | toggling twice is the identity; toggling equals setting the opposite value |
| `UIStore.OpenThenClose` | campus-chat/src/store/uiStore.ts:42-43 | open then close gives the closed modal (`isOpen` false, no type, no data) whatever was opened |
| `UIStore.ClearThenSet` | campus-chat/src/store/uiStore.ts:45-60 | after clearing a thread and setting one user in it, its map is exactly `{u: b}` |
| `UIStore.ClearUndoesFirstSet` | campus-chat/src/store/uiStore.ts:45-60 | clearing is idempotent and undoes a set on a thread that had no entry |
| `UIStore.SetTypingOverwrites` | campus-chat/src/store/uiStore.ts:45-54 | setting the same user twice keeps only the second value |
| `UIStore.SetTypingCommutes` | campus-chat/src/store/uiStore.ts:45-54 | updates for different (thread, user) pairs commute |
| `UIStore.Store.constructor` | campus-chat/src/store/uiStore.ts:33-36 | sidebar open, chat panel, modal closed with no type, no one typing |
| `UIStore.Store.SetSidebarOpen` | campus-chat/src/store/uiStore.ts:38 | sets `sidebarOpen`, nothing else changes |
| `UIStore.Store.ToggleSidebar` | campus-chat/src/store/uiStore.ts:39 | negates `sidebarOpen`, nothing else changes |
| `UIStore.Store.SetActivePanel` | campus-chat/src/store/uiStore.ts:40 | sets `activePanel`, nothing else changes |
| `UIStore.Store.OpenModal` | campus-chat/src/store/uiStore.ts:42 | the modal is open with the given type and data |
| `UIStore.Store.CloseModal` | campus-chat/src/store/uiStore.ts:43 | the modal is closed with no type and no data |
| `UIStore.Store.SetTypingState` | campus-chat/src/store/uiStore.ts:45-54 | the typing map is updated as `SetTyping` says |
| `UIStore.Store.ClearTypingState` | campus-chat/src/store/uiStore.ts:55-60 | the thread leaves the typing map as `ClearTyping` says |
| `AuthStore.Apply` | campus-chat/src/store/authStore.ts:21-24 | each setter changes only its own field; logout empties token and user and keeps the loading flag |
| `AuthStore.LogoutIdempotent` | campus-chat/src/store/authStore.ts:24 | logout twice equals logout once, leaves no token or user, and commutes with the loading flag |
| `AuthStore.LogoutReturnsToInitial` | campus-chat/src/store/authStore.ts:18-24 | after logout the state is the initial one but for the loading flag |
| `AuthStore.LogoutForgetsHistory` | campus-chat/src/store/authStore.ts:21-24 | after any run of actions, a logout leaves no credentials and the same state as if no token or user had been there at the start |
| `AuthStore.Store.constructor` | campus-chat/src/store/authStore.ts:18-20 | no token, no user, not loading |
| `AuthStore.Store.SetToken` | campus-chat/src/store/authStore.ts:21 | sets the token only |
| `AuthStore.Store.SetUser` | campus-chat/src/store/authStore.ts:22 | sets the user only |
| `AuthStore.Store.SetIsLoadingProfile` | campus-chat/src/store/authStore.ts:23 | sets the loading flag only |
| `AuthStore.Store.Logout` | campus-chat/src/store/authStore.ts:24 | clears token and user, keeps the loading flag |
| `DashboardLogic.Get` | campus-chat/src/pages/dashboard/useDashboardLogic.ts:32-33 | `get` gives the first value of the name, or nothing when the name is absent |
| `DashboardLogic.DeleteParam` | campus-chat/src/pages/dashboard/useDashboardLogic.ts:104 | `delete` removes every value of the name and keeps every other name's values |
| `DashboardLogic.SetParamEffect` | campus-chat/src/pages/dashboard/useDashboardLogic.ts:96-101 | after `set` the name has exactly the new value, and the other pairs are the same pairs in the same order |
| `DashboardLogic.SearchParams.Set` | campus-chat/src/pages/dashboard/useDashboardLogic.ts:96 | updates the list in place as `set` does |
| `DashboardLogic.SearchParams.Delete` | campus-chat/src/pages/dashboard/useDashboardLogic.ts:104 | updates the list in place as `delete` does |
| `DashboardLogic.RouteParamsEffect` | campus-chat/src/pages/dashboard/useDashboardLogic.ts:94-105 | `channel` becomes the given id or keeps its values; `thread` becomes the given id or disappears; all other parameters are kept in order |
| `DashboardLogic.UpdateRoute` | campus-chat/src/pages/dashboard/useDashboardLogic.ts:90-108 | navigates (replacing history) to `/app` with that query string: `channel` and `thread` read back as asked, other parameters unchanged |
| `DashboardLogic.NavigationSelects` | campus-chat/src/pages/dashboard/useDashboardLogic.ts:90-108 | after `updateRoute` the selected channel is the given one (or the previous selection) and the selected thread is the given one or none |
| `DashboardLogic.FindThread` | campus-chat/src/pages/dashboard/useDashboardLogic.ts:37 | the first thread whose id is the selected one, or none when no thread has it |
| `DashboardLogic.ThreadIdForMessages` | campus-chat/src/pages/dashboard/useDashboardLogic.ts:37-40 | there is a thread id for messages exactly when a thread is selected; it is the listed thread's `uuid` when it has one, else the selected id |
| `DashboardLogic.SendAndUploadAgree` | campus-chat/src/pages/dashboard/useDashboardLogic.ts:37-40 | for a selected thread that is unlisted or has no `uuid`, messages go to the selected id and sending and uploading are allowed in exactly the same cases |
| `DashboardLogic.SendGuardAndThreadId` | campus-chat/src/pages/dashboard/useDashboardLogic.ts:110-144 | sending requires a selected thread, so messages then have a thread id; without a selected thread neither sending nor uploading is allowed |
| `DashboardLogic.FilesQueryImpliesUpload` | campus-chat/src/pages/dashboard/useDashboardLogic.ts:52 | whenever the shared-files query is enabled and a channel is chosen, an upload is allowed |
| `DashboardLogic.UploadRequests` | campus-chat/src/pages/dashboard/useDashboardLogic.ts:135-154 | nothing without a usable channel and thread; else the upload, then (if it succeeded) a `file` message `Archivo compartido: <name>` with the file's id, in the same thread |
| `DashboardLogic.ParseCommand` | campus-chat/src/pages/dashboard/useDashboardLogic.ts:157-158 | the command is the text before the first space (so it holds none) and the payload is never empty |
| `DashboardLogic.ParseCommandMeaning` | campus-chat/src/pages/dashboard/useDashboardLogic.ts:157-158 | the command is the text before the first space; the payload is the rest trimmed, or `Necesito información` when blank |
| `DashboardLogic.ParseNamedCommand` | campus-chat/src/pages/dashboard/useDashboardLogic.ts:157-158 | `name rest` parses to `name` and the trimmed `rest` (or the default question) |
| `DashboardLogic.BareCodeCommandExample` | campus-chat/src/pages/dashboard/useDashboardLogic.ts:158 | a bare `/code` asks the default question |
| `DashboardLogic.BotFor` | campus-chat/src/pages/dashboard/useDashboardLogic.ts:162-169 | only `/wiki` and `/code` name a bot |
| `DashboardLogic.ReplyPrefix` | campus-chat/src/pages/dashboard/useDashboardLogic.ts:174 | the prefix is the command without its first character, one shorter, its first character upper-cased (never a lower-case letter) and the rest unchanged; empty for a command shorter than two |
| `DashboardLogic.ReplyPrefixes` | campus-chat/src/pages/dashboard/useDashboardLogic.ts:174 | the prefixes are `Wiki` and `Code` |
| `DashboardLogic.CommandResponse` | campus-chat/src/pages/dashboard/useDashboardLogic.ts:169-181 | there is a non-empty reply exactly for the two bot commands |
| `DashboardLogic.CommandReplies` | campus-chat/src/pages/dashboard/useDashboardLogic.ts:162-184 | `/wiki` replies `Wiki: <answer>`, `/code` `Code: <answer>`, a failed bot call `Error: No se pudo procesar el comando <cmd>`, anything else nothing |
| `DashboardLogic.FullPageOffersMore` | campus-chat/src/pages/dashboard/useDashboardLogic.ts:217 | more channels are offered exactly after a page of 10; a shorter page offers none |
| `DashboardLogic.PrevPage` | campus-chat/src/pages/dashboard/useDashboardLogic.ts:216 | the previous page is at least 1, and one less when above 1 |
| `DashboardLogic.PagesStayPositive` | campus-chat/src/pages/dashboard/useDashboardLogic.ts:215-216 | going back undoes going forward and never leaves page 1 |
| `DashboardLogic.Dashboard.constructor` | campus-chat/src/pages/dashboard/useDashboardLogic.ts:25-26 | no moderation notes, page 1 |
| `DashboardLogic.Dashboard.NextChannelPage` | campus-chat/src/pages/dashboard/useDashboardLogic.ts:215 | the page grows by one |
| `DashboardLogic.Dashboard.PrevChannelPage` | campus-chat/src/pages/dashboard/useDashboardLogic.ts:216 | the page drops by one but never below 1 |
| `DashboardLogic.Dashboard.HandleSendMessage` | campus-chat/src/pages/dashboard/useDashboardLogic.ts:110-133 | nothing without a usable channel and thread; else the message to the messages' thread, then moderation with the user id (or `""`), and a rejection noted under the message id |
| `DashboardLogic.Dashboard.HandleCommand` | campus-chat/src/pages/dashboard/useDashboardLogic.ts:156-185 | a bot command asks its bot with the payload and sends the reply through the send handler; other commands do nothing |
| `DashboardLogic.OnTyping` | campus-chat/src/pages/dashboard/useDashboardLogic.ts:82-86 | with a thread, a typing user is set and a stopped one clears the thread; without one nothing changes |

## Left out

- Gateway I/O: byte streaming, sockets, CORS response headers, `dotenv` and `process.env` reads (the environment is a parameter), `app.listen` and console logging.
- Behaviour the gateway code does not have: timeouts, cancellation on client disconnect, 502/504, hop-by-hop header stripping, forwarded-protocol headers.
- The `HEAD` body omission and the 404 page's body; an unrouted request is only `NotFound`.
- WHATWG URL parsing outside absolute `http`/`https` URLs written with `//`. Not modelled: other schemes, backslashes, tab and newline removal, percent-encoding, dot segments, IDNA, IPv4 and IPv6 hosts. A non-ASCII host is treated as invalid.
- `Gateway.TargetHost`: a target URL that does not parse is used as the `Host` text itself; how the proxy library treats such a target is not modelled.
- The proxy library writes a target's explicitly given default port into `Host`; the model omits it, as the WHATWG serialisation does.
- `Gateway.Forward`: the request target is taken as `url.parse` gives its path, without `url.parse`'s escaping of spaces and quotes and its turning of `\` into `/`; an absolute-form target (`GET http://...`) is not modelled.
- `Gateway.TargetPath`: the target's path is read with the WHATWG subset above rather than Node's legacy `url.parse`; they agree on the service URLs of the table, whose path is `/`.
- `Gateway.Delivered`: the `x-powered-by` header Express adds and the `access-control-allow-origin` header `cors` adds are not modelled.
- Keep-alive agents: no agent is configured, so `connection: close` is always sent upstream; the pooling of connections is not modelled.
- Query-string percent-encoding in `URLSearchParams`; pairs are kept decoded.
- `DashboardLogic.BotFor`: `cmd in bots` is also true for names inherited from `Object.prototype`; only own keys are modelled, since commands reach the handler only when they start with `/`.
- `DashboardLogic.ReplyPrefix`: `toUpperCase` is modelled for ASCII letters only.
- The two React effects that pick a default channel and thread, `handleCreateChannel`, `handleCreateThread` and `presignDownload`. They are effects and prompts around network calls.
- Cache invalidation, telemetry and logging after uploads and commands, and the message and typing realtime socket.
- zustand's `persist` of the session store to local storage.
- Network results are parameters (`upstream`, `sentId`, `verdict`, `uploaded`, `ask`); a failed call is `None`, or `Failed` for the gateway.
