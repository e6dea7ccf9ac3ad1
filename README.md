# LumenPXY forwarding engine — a Dafny model

LumenPXY is a small HTTP forwarding proxy with a web dashboard. This project models the
proxy's core and proves properties of the model:

- **`ProxyServer`** (`proxy.ts`). It does five things:
  - classifies each plain HTTP request by its target;
  - forwards `/http://…` and `/https://…` targets to the origin;
  - rewrites HTML responses so their links go back through the proxy;
  - opens CONNECT tunnels to a fixed list of TLS ports;
  - keeps a registry of accepted sockets and a record of options.
- **The in-memory store `MemStorage`** (`storage.ts`). It holds connection records and the
  settings record.
- **Three pure helpers from the dashboard**: the relative-age text and status mappers of the
  activity log, the uptime text of the status panel, and the URL normalisation of the input
  form.

## Modules

| file | module | what it holds |
|---|---|---|
| `wrappers.dfy` | `Wrappers` | `Option` |
| `text.dfy` | `Text` | JavaScript string operations the core uses: `startsWith`, `indexOf`, `includes`, `replace` with a string pattern, decimal `toString` and `parseInt`, `Buffer.byteLength(…, 'utf8')`, `trim` |
| `dispatch.dfy` | `Dispatch` | the route of a request target |
| `options.dfy` | `Options` | `ProxyServerOptions`, its defaults, the shallow merge, the timeout fallback |
| `registry.dfy` | `Registry` | class `ProxyServer`: `activeConnections` and `options` |
| `rewrite.dfy` | `Rewrite` | `rewriteHtmlUrls`: the two global regular-expression passes written as scanners, and the `<base>` tag |
| `forward.dfy` | `Forward` | the outbound request; class `Exchange`, one proxied request driven by the origin's `response`/`data`/`end`/`error` events |
| `tunnel.dfy` | `Tunnel` | the CONNECT authority split and port policy; class `Tunnel`, driven by socket events, with a trace of every write, end, destroy, record and relayed chunk |
| `storage.dfy` | `Storage` | class `MemStorage` and the settings defaulting rules |
| `activity_log.dfy` | `ActivityLog` | `formatTimeAgo`, `getStatusVariant`, `getStatusColor` |
| `connection_status.dfy` | `ConnectionStatus` | `formatUptime` and the `N/A` guard |
| `proxy_interface.dfy` | `ProxyInterface` | URL normalisation of the form |

## How the events are modelled

- **I/O becomes parameters and traces.** The model performs no I/O. Each event handler of the
  source is a method whose arguments carry what the event delivers:
  - the status and headers of the origin's response;
  - a body chunk;
  - the current time;
  - the server's current options.
- **What the handlers do is appended to state.** An `Exchange` keeps:
  - the calls made on the client response (`writeHead`, piped chunks, `end`);
  - the records handed to `storage.createConnection`;
  - the request sent to the origin.

  A `Tunnel` keeps one ordered trace of actions on both sockets.
- **Library functions are parameters.** `new URL(…)` is a function parameter `parse`, where
  `None` means it threw. `new URL(path, base).href` is a function parameter `resolve`.
- **Times and ids are inputs.** `Date.now()` and `new Date()` are given times. `randomUUID()` is
  a caller-supplied fresh id.

## Behaviour of the code worth knowing

- **Options are read when an event fires.** `proxy.ts` reads the logging toggle and the
  timeout from `this.options` inside each handler (`proxy.ts:166`, `211`, `264`, `282`, `301`,
  `306`); it takes no snapshot when the connection is accepted. An `updateOptions` call
  (`proxy.ts:322-324`) made while a request is in flight therefore affects that request, and
  the event methods take the `ProxyServer` and read its current `options`.
- **Certificate checks are always off.** The outbound request sets `rejectUnauthorized: false`
  unconditionally (`proxy.ts:159`) and never reads `sslVerification`. `Forward.Outbound` states
  `!r.rejectUnauthorized` for every input.
- **Some options have no effect.** `proxy.ts` never reads `maxConnections`; `blockAds`,
  `autoConnect` and `sslVerification` are stored by `storage.ts` and read nowhere in the
  modelled code.
- **A tunnel socket error ends the peer outright.** The server socket's `error` handler ends
  the client (`proxy.ts:279-293`) and the client socket's handler ends the server
  (`proxy.ts:295-298`); the erroring socket itself is destroyed by the runtime. There is no
  half-close bookkeeping per direction.
- **Timeouts leave no record.** Each tunnel timeout destroys one socket and ends the other
  (`proxy.ts:301-309`); neither calls `storage.createConnection`.
- **The forwarded request has no timeout of its own.** `proxy.ts:146-160` sets none; only the
  accept-time timeout of `handleConnection` (`proxy.ts:41-43`) applies to its client socket.

## Model

| member | source | states |
|---|---|---|
| Dispatch.Classify | proxy.ts:47-143 | Exactly one route per target. A missing or empty target gives 400 "No URL provided". A target starting (case-sensitively) with `/http://` or `/https://` is forwarded, with `"/" + target == req.url`. Otherwise `/`, `/favicon.ico` or `/api/…` gives the info page. Anything else gives 400 "Please provide a full URL…". Each outcome is stated as an if-and-only-if. |
| Dispatch.EmbeddedAndInfoDisjoint | proxy.ts:58-61 | No target is both an embedded URL and an info path, so the order of the two tests does not matter. |
| Dispatch.ForwardedTargetStartsWithHttp | proxy.ts:58-60 | A forwarded request's target starts with `/http`, so the `req.url?.startsWith('/http')` test of the HTML branch always holds. The forwarded URL starts with `http://` or `https://`. The test is at line 180. |
| Options.Merge | proxy.ts:322-324 | `{...o, ...p}`: every key given in the patch, even as `undefined`, replaces the old value; every omitted key is kept. The constructor spreads its options over the defaults in the same way (lines 19-27). |
| Options.MergeThen | proxy.ts:322-324 | Two successive `updateOptions` calls equal one call with their key-by-key combination, the later call winning. |
| Options.MergeIdempotent | proxy.ts:322-324 | Repeating an update changes nothing further. |
| Options.MergeNoChanges | proxy.ts:19-27 | `new ProxyServer()` with no options has the defaults: logging on, timeout 10000, 5 connections, verification on. |
| Options.EffectiveTimeout | proxy.ts:41 | `connectionTimeout \|\| 10000`, which is always positive. A positive configured value is used as is; a missing value or 0 falls back to 10000. The tunnel's timeouts use the same expression (lines 301 and 306). |
| Registry.ProxyServer.constructor | proxy.ts:19-27 | Starts with no sockets and with the defaults overridden by the keys given. |
| Registry.ProxyServer.HandleConnection | proxy.ts:34-44 | An accepted socket joins the set, with nothing else changed. The installed idle timeout is the effective timeout. |
| Registry.ProxyServer.OnSocketClose | proxy.ts:36-38 | The socket's close event removes exactly that socket. |
| Registry.ProxyServer.UpdateOptions | proxy.ts:322-324 | The options become the shallow merge; the socket set is untouched. |
| Registry.ProxyServer.ActiveConnectionsCount | proxy.ts:326-328 | The count is the size of the set. |
| Registry.AcceptedUntilClosed | proxy.ts:34-44 | One run: sockets a and b are accepted, then b closes, then a. The count (`getActiveConnectionsCount`, lines 326-328) is 2, 1, 0, and with default options the installed timeout is 10000. |
| Registry.OpenUntilClosed | proxy.ts:34-44 | After any sequence of accept, close and update events, a socket is in the set iff the last event naming it accepted it, or no event names it and it was in the set before. |
| Registry.Replay | proxy.ts:34-44 | Running any sequence of events on a server leaves exactly the set `Members` computes from the old set and the events. |
| Rewrite.AttributeOpen | proxy.ts:342 | The case-insensitive `(href\|src\|action)=["']` prefix of a match: the index after the quote, with `=` before the quote and no quote or `/` earlier. Pass 2 opens the same way (line 354). |
| Rewrite.AbsoluteMatch | proxy.ts:341-342 | The length of the match of `/(href\|src\|action)=["']https?:\/\/[^"']+["']/i` at the start of the text. Opening and closing quotes need not agree. |
| Rewrite.RelativeMatch | proxy.ts:353-354 | The length of the match of `/(href\|src\|action)=["']\/[^"']*["']/i` at the start of the text. |
| Rewrite.RewriteAbsoluteShape | proxy.ts:341-350 | Pass 1 on one match. If the value's scheme is lower-case, the value becomes `http://localhost:8001/` + value and the rest of the match is unchanged; stripping that prefix gives back the original value. Otherwise, since the inner expression is case-sensitive, the match is returned unchanged. |
| Rewrite.StripPrefixed | proxy.ts:346 | Stripping the proxy prefix undoes adding it. |
| Rewrite.RewriteRelativeShape | proxy.ts:353-363 | Pass 2 on one match. A value starting with `//` is kept. Otherwise the value becomes `http://localhost:8001/` + `resolve(value)` and the rest of the match is unchanged. |
| Rewrite.AbsoluteNotRelative | proxy.ts:341-363 | At the start of a span pass 1 has replaced, whatever follows it, pass 2 finds no match, so pass 2 never rewrites a value again at the same attribute. |
| Rewrite.ReplaceAbsolute | proxy.ts:341-350 | Pass 1 over the whole text, each match handed to the replacer and the scan resumed after it. It never shortens the text, and text in which it matches nowhere is returned unchanged. |
| Rewrite.ReplaceRelative | proxy.ts:353-363 | Pass 2 over the whole text. Text in which it matches nowhere is returned unchanged. |
| Rewrite.InsertBaseTag | proxy.ts:365-371 | One `<base>` tag at most: right after the first `<head>`; failing that, after the first `<HEAD>`; otherwise none. The length grows by exactly the tag or not at all. |
| Rewrite.RewriteHtmlUrls | proxy.ts:334-374 | The three passes in order. A page in which neither attribute pass matches anywhere only receives the base tag, placed as `InsertBaseTag` states. |
| Rewrite.RewriteUnchanged | proxy.ts:334-374 | HTML with no matching attribute and no `<head>`/`<HEAD>` comes back unchanged. |
| Rewrite.UpperCaseSchemeKept | proxy.ts:341-348 | A match whose value starts with an upper-case `H` (`href="HTTP://x"`, say) matches the outer expression, which ignores case, but comes back unchanged, because the inner expression is case-sensitive. |
| Forward.Outbound | proxy.ts:146-160 | The outbound request has these fields: <br>• the `https` module iff the scheme is `https:`; <br>• the URL's port, else 443 for https and 80 otherwise; <br>• the path `pathname + search`; <br>• the inbound headers with `host` replaced by the target host and nothing else changed; <br>• `rejectUnauthorized` false. |
| Forward.StatusOrOk | proxy.ts:198 | `statusCode \|\| 200`: a missing or 0 status becomes 200; any other status is kept. The piped branch uses it too (line 203). |
| Forward.ContentType | proxy.ts:177 | `headers['content-type'] \|\| ''`: the header's value when present, the empty string otherwise. |
| Forward.IsHtml | proxy.ts:177-178 | A response is rewritten iff it has a `content-type` header containing `text/html`; a response without one is never rewritten. |
| Forward.RewrittenHeaders | proxy.ts:193-196 | The origin's headers with `content-length` set to a decimal string. That string parses back to the UTF-8 byte length of the rewritten body. Every other header is unchanged. |
| Forward.RecordedProtocolOfScheme | proxy.ts:170 | `protocol.replace(':', '')` records `http` or `https`. The `failed` record does the same (line 215). |
| Forward.Exchange.constructor | proxy.ts:46-160 | Rejected requests get `writeHead(400, text/plain)` then `end(message)`. The info page gets `writeHead(200, text/html)`. A target `new URL` rejects gets 400 "Invalid URL" and no record. Otherwise the outbound request is sent and nothing is written yet. The `Invalid URL` answer is the catch at lines 228-232. |
| Forward.Exchange.OnResponse | proxy.ts:162-206 | A `connected` record is added iff logging is on at that moment. HTML (`content-type` contains `text/html`) is buffered. Otherwise the status and headers are written verbatim and piping starts. |
| Forward.Exchange.OnData | proxy.ts:185-204 | A buffered chunk is appended to the body; a piped chunk is written unchanged. In both phases the text received grows by exactly the chunk; in any other phase nothing changes. |
| Forward.Exchange.OnEnd | proxy.ts:189-204 | A buffered body is answered with head then end: the rewritten body and the recomputed `content-length`. A piped body is ended, and the body written equals the body the origin sent. |
| Forward.Exchange.OnError | proxy.ts:208-225 | A `failed` record is added iff logging is on. A 502 "Bad Gateway…" is written iff no head was sent yet. Nothing is written afterwards. |
| Forward.CompletedResponseShape | proxy.ts:162-225 | Every completed response kept by an exchange has one head, first, then only body chunks, then the end. |
| Forward.PipeChunks | proxy.ts:185-204 | Piped chunks delivered one `data` event at a time are written in order, each unchanged, and the received text grows by their concatenation. |
| Forward.PipedChunks | proxy.ts:201-205 | For a non-HTML response delivered in any number of chunks: the head verbatim, then each chunk unchanged and in order, then the end; the body written equals the concatenation of the chunks. |
| Forward.PipedBody | proxy.ts:203-204 | A piped response carries exactly the concatenation of the origin's chunks. |
| Forward.HtmlExchange | proxy.ts:162-200 | For an HTML response delivered in two chunks: <br>• one `connected` record; <br>• head 200; <br>• the rewritten concatenation as the body; <br>• a `content-length` equal to its UTF-8 length. |
| Forward.PipedExchange | proxy.ts:201-205 | For a non-HTML response: the head verbatim, then each chunk unchanged, then the end. |
| Forward.ErrorAfterHead | proxy.ts:162-225 | An error after the head: no 502, and a `failed` record after the `connected` one for the same target. |
| Forward.ErrorWithoutLogging | proxy.ts:208-225 | With logging switched off, an error before any response gives a 502 and no record. Logging is switched off with `updateOptions` (lines 322-324). |
| Forward.InvalidUrl | proxy.ts:228-232 | A target `new URL` rejects gets 400 "Invalid URL", no record, and nothing sent. The thrower is `new URL` at line 146. |
| Tunnel.SplitTarget | proxy.ts:236 | The `url.parse` split of `http://authority`. The port is the digits after a final colon; the colon is removed even when no digits follow. |
| Tunnel.SplitJoin | proxy.ts:236 | `host:digits` splits into that host and those digits, for any host. |
| Tunnel.TargetPort | proxy.ts:237 | `parseInt(port \|\| '443')`: a missing or empty port gives 443; a digit string without leading zeros is the decimal representation of the port it gives. |
| Tunnel.PortOfAuthority | proxy.ts:236-237 | The port of `host:p` is `p`. |
| Tunnel.NoPortDefaults | proxy.ts:237 | A bare host uses port 443. |
| Tunnel.Admit | proxy.ts:236-252 | The port is refused iff it is not in {443, 8443, 993, 995}. 500 comes only when `net.connect` throws. Otherwise the target's host and port are dialled. The 500 answer is the catch at lines 311-315. |
| Tunnel.AdmitPolicy | proxy.ts:236-246 | A bare host is dialled on 443. `host:p` is dialled iff `p` is allowed, and refused otherwise. |
| Tunnel.Tunnel.constructor | proxy.ts:235-252 | A refused port gets only `403 Forbidden` and client end: no dial, no record. A throwing connect gets only `500 Connection Failed` and client end. Otherwise only the dial happens, with the effective timeout. The timeouts are installed at lines 300-309 and the catch is at lines 311-315. |
| Tunnel.Tunnel.OnConnect | proxy.ts:252-277 | The 200 "Connection Established / Proxy-agent: LumenPXY" reply, then the head bytes to the server, then a `connected` record (`https://host:port`, `https`) iff logging is on, then both relays. |
| Tunnel.Tunnel.OnServerData | proxy.ts:275 | While relaying and while neither socket is destroyed, origin bytes go to the client unchanged; otherwise nothing happens. |
| Tunnel.Tunnel.OnClientData | proxy.ts:276 | While relaying and while neither socket is destroyed, client bytes go to the origin unchanged; otherwise nothing happens. |
| Tunnel.Tunnel.OnServerError | proxy.ts:279-293 | A `failed` record iff logging is on, then the client is ended; the server socket is destroyed. |
| Tunnel.Tunnel.OnClientError | proxy.ts:295-298 | The server socket is ended; the client socket is destroyed. |
| Tunnel.Tunnel.OnServerTimeout | proxy.ts:301-304 | The server socket is destroyed and the client ended. |
| Tunnel.Tunnel.OnClientTimeout | proxy.ts:306-309 | The client socket is destroyed and the server ended. |
| Tunnel.RelayAfterHandshake | proxy.ts:252-277 | In every reachable tunnel, each relayed chunk comes after the 200 reply and after the head bytes, in that order. The head is the only thing the proxy itself writes to the server, right after the reply. |
| Tunnel.AtMostOneConnected | proxy.ts:263-272 | A tunnel emits at most one `connected` record. |
| Tunnel.RefusedPort | proxy.ts:240-246 | A disallowed port gets exactly the 403 and an end. |
| Tunnel.TunnelLifetime | proxy.ts:250-309 | The full trace of a tunnel to an allowed port, through relaying and a server timeout, ending with the server destroyed and the client ended. Data arriving on either side after the timeout is relayed neither way. |
| Storage.Stored | storage.ts:26-36 | The record copies url, status and protocol, under the given id and time. `userAgent` is null iff missing or empty; `responseTime` is null iff missing or 0. |
| Storage.SortNewestFirst | storage.ts:41-44 | The result is ordered by timestamp, newest first, and is a permutation of the input. |
| Storage.WithStatus | storage.ts:49 | Exactly the records with that status, and never more than the input. |
| Storage.SortThenFilter | storage.ts:41-51 | Filtering then sorting gives the same sequence as sorting then filtering. |
| Storage.SortKeepsIdsDistinct | storage.ts:41-44 | Sorting never duplicates an id. |
| Storage.UpdatedSettings | storage.ts:61-72 | The id is kept when one exists and is non-empty, else the id is fresh. `createdAt` is kept when settings exist. Each field is the input value if present, else its default (true, false, true, true, 10, 5), so `false` and 0 are kept. |
| Storage.UpdateFromNothingIsDefault | storage.ts:61-90 | An empty update into an empty store yields exactly `createDefaultSettings`'s record. |
| Storage.FalsyVersusNullish | storage.ts:35 | `\|\|` drops a response time of 0, while `??` keeps a timeout of 0 and a `false` flag. The `??` is at line 69. |
| Storage.MemStorage.constructor | storage.ts:21-24 | No records and no settings. |
| Storage.MemStorage.CreateConnection | storage.ts:26-39 | Exactly one new record is appended under a fresh id. Earlier records and the settings are unchanged. |
| Storage.MemStorage.GetConnections | storage.ts:41-45 | Every stored record exactly once (same multiset, no repeated id), newest first. |
| Storage.MemStorage.GetConnectionsByStatus | storage.ts:47-51 | Exactly the stored records with the status, in the order `getConnections` lists them, and never more. |
| Storage.MemStorage.ClearConnections | storage.ts:53-55 | No records remain; the settings are unchanged. |
| Storage.MemStorage.GetSettings | storage.ts:57-59 | Returns the settings slot as it stands: the last record stored, or none. |
| Storage.MemStorage.UpdateSettings | storage.ts:61-75 | Stores and returns the updated record; the records are unchanged. |
| Storage.MemStorage.CreateDefaultSettings | storage.ts:77-90 | Stores and returns the defaults under a fresh id, whatever was stored before. |
| Storage.SettingsSurviveClear | storage.ts:53-90 | After `createDefaultSettings`, an update keeps its id and `createdAt`. Clearing the records keeps the settings, and `getSettings` returns the last stored record. |
| ActivityLog.FormatTimeAgo | activity-log.tsx:16-27 | Below one minute, including negative differences, "Just now". Otherwise exactly one unit: days from one day on, else hours from one hour on, else minutes. The count is the floored quotient. |
| ActivityLog.CountInRange | activity-log.tsx:19-25 | The reported count is at least 1. Hours stay below 24 and minutes below 60. |
| ActivityLog.PhraseReadsBack | activity-log.tsx:23-25 | The text starts with the count in decimal, which parses back to the count. It ends in "s ago" iff the count exceeds 1. |
| ActivityLog.GetStatusVariant | activity-log.tsx:29-40 | connected, failed and disconnected map to default, destructive and secondary; every other status maps to outline. Each case is an if-and-only-if. |
| ActivityLog.GetStatusColor | activity-log.tsx:42-53 | The same statuses map to green, red and yellow; every other status maps to gray. |
| ActivityLog.VariantAndColourAgree | activity-log.tsx:29-53 | Two statuses share a badge variant iff they share a colour. |
| ConnectionStatus.Clock | connection-status.tsx:13-15 | Minutes and seconds are below 60, and `3600*h + 60*m + s == seconds`. |
| ConnectionStatus.FormatUptime | connection-status.tsx:12-24 | `"{h}h {m}m {s}s"` when there are hours; `"{m}m {s}s"` when there are minutes but no hours; otherwise `"{s}s"`. |
| ConnectionStatus.UnitsShown | connection-status.tsx:17-23 | Hours are shown iff the uptime is at least 3600 seconds. Minutes lead iff it is in [60, 3600). |
| ConnectionStatus.FormatUptimeInjective | connection-status.tsx:12-24 | Different uptimes give different texts. |
| ConnectionStatus.UptimeText | connection-status.tsx:98 | An absent or 0 uptime shows `N/A` and is never formatted. |
| ProxyInterface.Normalize | proxy-interface.tsx:20-30 | Blank input after trimming gives no URL and no callback. Trimmed input that already has `http://` or `https://` is passed as is. Otherwise the result is `protocol + "://" + trimmed`. The Browse button (lines 76-83) repeats these steps, so both paths share this one definition. |
| ProxyInterface.NormalizedHasScheme | proxy-interface.tsx:95-109 | With the radio group's two protocols, every URL passed on starts with `http://` or `https://`. The state starts at `https` (line 17), and the scheme is added at lines 24-26. |
| ProxyInterface.InitialProtocolIsHttps | proxy-interface.tsx:17-26 | With the initial protocol `https`, an input without a scheme is passed on as `https://` followed by the trimmed input. |
| ProxyInterface.NormalizeIdempotent | proxy-interface.tsx:24-26 | Normalising an emitted URL again, under either protocol, returns it unchanged. |

## Left out

- **Node networking** (`http`, `https`, `net`, `pipe`, backpressure, TLS, DNS, `listen`, `close`, `console` logging). These are replaced by abstract events and recorded actions. Relayed and piped data is opaque.
- **Interleaving between connections and the event loop.** One exchange or tunnel is modelled at a time. A second `response` event, or events after an exchange has finished, change nothing.
- Rewrite.RewriteAbsoluteShape, Rewrite.RewriteRelativeShape: the round trip (strip the prefix, get back the value) is proved per attribute, not for the whole page. On a contrived page such as `href="HTTP://a/src="/b"`, pass 1 leaves the `href` alone (its scheme is upper-case) and pass 2 then rewrites the `src="/b"` that sits inside the `href`'s value.
- **`$`-patterns in replacement strings** (`String.prototype.replace`). They are not expanded; the replacement is used literally.
- **WHATWG `URL` parsing and resolution.** `new URL`, `new URL(path, base).href` and `origin` are parameters. `resolve` is total, so the case where `new URL(path, base)` throws inside the rewriter is not modelled.
- Tunnel.SplitTarget: the legacy `url.parse` is reduced to the host/port split. Its lower-casing of the host, IPv6 brackets, and the treatment of `/`, `?`, `#`, `@` or invalid host characters in the authority are not modelled.
- **Byte-level decoding.** Bodies, chunks and headers are strings. UTF-8 decoding of a buffered body (`setEncoding('utf8')`), multi-valued headers (`set-cookie` arrays) and compressed bodies are not modelled.
- Options.ProxyServerOptions: numbers are naturals, so a negative or fractional `connectionTimeout` is not modelled.
- ConnectionStatus.FormatUptime: the uptime from `process.uptime()` is fractional. It is modelled as whole seconds; `Math.floor` on a fraction gives the same parts as the whole part. An uptime strictly between 0 and 1 is not modelled.
- **The text of the info page** (`proxy.ts:64-136`). It is a constant string, passed to `Forward.Exchange.constructor` as `page`.
- **`formatBytes`** (`connection-status.tsx:26-31`). It uses `Math.log` and floating-point rounding.
- **Enforcement of `maxConnections`, `blockAds`, `autoConnect` and `sslVerification`.** The source stores these but never enforces them.
- **Listener defaults of the accept-time timeout.** A CONNECT client socket also carries the timeout installed by `handleConnection` (`proxy.ts:41-43`), which destroys it. That listener is not part of `Tunnel`.
- **Glue and UI.** The Express routes (including the conversion of settings seconds to milliseconds), the fetch wrapper, React state and JSX rendering are not part of this model. `schema.ts` is used only for field names and defaults.
