/**
 * The forwarding half of `ProxyServer.handleHttpRequest`: the outbound request built from
 * the embedded URL, and the handling of the origin's response, which is either buffered and
 * rewritten (HTML) or passed through. One `Exchange` is one proxied request; its methods are
 * the events Node delivers (`response`, `data`, `end`, `error`), and its state records what
 * has been written to the client response `res`, what was handed to `storage.createConnection`
 * and what was sent to the origin.
 */
module Forward {
  import opened Wrappers
  import opened Text
  import opened Dispatch
  import opened Options
  import opened Rewrite
  import opened Registry
  import Storage

  /** Header fields by (lower-case) name. */
  type Headers = map<string, string>

  /** The parts of a parsed WHATWG `URL` the forwarder reads. */
  datatype Url = Url(
    protocol: string,   // "http:" or "https:", with the colon
    hostname: string,
    port: string,       // "" when the URL has none or it is the scheme's default
    pathname: string,
    search: string,
    host: string,       // hostname, plus ":" and the port when there is one
    origin: string)

  /** The options passed to `http.request` / `https.request`. */
  datatype OutboundRequest = OutboundRequest(
    secure: bool,        // the `https` module is used
    hostname: string,
    port: string,
    path: string,
    verb: string,       // `req.method`
    headers: Headers,
    rejectUnauthorized: bool)

  /** A call on the client response `res`. */
  datatype Write =
    | Head(status: nat, headers: Headers)   // res.writeHead
    | Body(data: string)                    // a chunk written, by the pipe
    | End(data: string)                     // res.end(data)

  const InvalidUrlMessage := "Bad Request: Invalid URL"
  const BadGatewayMessage := "Bad Gateway: Could not connect to target server"
  const TextPlain: Headers := map["Content-Type" := "text/plain"]
  const TextHtml: Headers := map["Content-Type" := "text/html"]

  predicate IsHttps(u: Url) {
    u.protocol == "https:"
  }

  /** The request the proxy sends to the origin for the URL `u`. */
  function Outbound(u: Url, verb: string, inbound: Headers): (r: OutboundRequest)
    ensures r.secure <==> IsHttps(u)
    ensures u.port != "" ==> r.port == u.port
    ensures u.port == "" ==> r.port == if IsHttps(u) then "443" else "80"
    ensures r.hostname == u.hostname && r.verb == verb
    ensures r.path == u.pathname + u.search
    ensures r.headers.Keys == inbound.Keys + {"host"} && r.headers["host"] == u.host
    ensures forall k :: k in inbound && k != "host" ==> r.headers[k] == inbound[k]
    ensures !r.rejectUnauthorized
  {
    OutboundRequest(
      IsHttps(u),
      u.hostname,
      if u.port != "" then u.port else if IsHttps(u) then "443" else "80",
      u.pathname + u.search,
      verb,
      inbound["host" := u.host],
      // certificate checks are off whatever `sslVerification` says
      false)
  }

  /** `proxyRes.statusCode || 200`. */
  function StatusOrOk(status: Option<nat>): (s: nat)
    ensures s > 0
    ensures status.Some? && status.value > 0 ==> s == status.value
    ensures status.None? || status.value == 0 ==> s == 200
  {
    if status.Some? && status.value != 0 then status.value else 200
  }

  /** `proxyRes.headers['content-type'] || ''`. */
  function ContentType(h: Headers): (t: string)
    ensures "content-type" in h ==> t == h["content-type"]
    ensures "content-type" !in h ==> t == ""
  {
    if "content-type" in h then h["content-type"] else ""
  }

  /** The response is HTML and will be rewritten; one without a `content-type` header never is. */
  predicate IsHtml(h: Headers): (b: bool)
    ensures b <==> "content-type" in h && Contains(h["content-type"], "text/html")
  {
    Contains(ContentType(h), "text/html")
  }

  /** The origin's headers with `content-length` set to the UTF-8 size of the rewritten body. */
  function RewrittenHeaders(h: Headers, body: string): (r: Headers)
    ensures r.Keys == h.Keys + {"content-length"}
    ensures forall k :: k in h && k != "content-length" ==> r[k] == h[k]
    ensures AllDigits(r["content-length"]) && ParseDecimal(r["content-length"]) == Utf8Length(body)
  {
    ParseNatToDecimal(Utf8Length(body));
    h["content-length" := NatToDecimal(Utf8Length(body))]
  }

  /** `targetUrl.protocol.replace(':', '')`. */
  function RecordedProtocol(u: Url): string {
    ReplaceFirst(u.protocol, ":", "")
  }

  lemma RecordedProtocolOfScheme(u: Url)
    requires u.protocol == "https:" || u.protocol == "http:"
    ensures RecordedProtocol(u) == if IsHttps(u) then "https" else "http"
  {
    var p := u.protocol;
    var k := |p| - 1;
    assert OccursAt(p, ":", k);
    forall j | 0 <= j < k
      ensures !OccursAt(p, ":", j)
    {
      assert p[j..j + 1][0] == p[j];
    }
    IndexOfIsFirst(p, ":", k);
    assert p[..k] + "" + p[k + 1..] == p[..k];
  }

  /** `path => new URL(path, u).href`, the resolution the rewriter applies. */
  function Resolver(resolve: (string, Url) -> string, u: Url): string -> string {
    p => resolve(p, u)
  }

  // ------------------------------------------------------------- the written response

  /** The data of the body writes, in order. */
  function BodyOf(w: seq<Write>): string {
    if w == [] then ""
    else BodyOf(w[..|w| - 1]) + (if w[|w| - 1].Head? then "" else w[|w| - 1].data)
  }

  /** A response is written as one head, first, then body chunks, with at most an end as the last call. */
  predicate WellFormed(w: seq<Write>) {
    (forall i :: 0 <= i < |w| ==> (w[i].Head? <==> i == 0))
    && (forall i :: 0 <= i < |w| - 1 ==> !w[i].End?)
  }

  predicate Ended(w: seq<Write>) {
    w != [] && w[|w| - 1].End?
  }

  /** A body write or the end, appended after the head of an open response, keeps it well formed. */
  lemma WellFormedAppend(w: seq<Write>, x: Write)
    requires WellFormed(w) && w != [] && !Ended(w) && !x.Head?
    ensures WellFormed(w + [x]) && BodyOf(w + [x]) == BodyOf(w) + x.data
  {
    assert (w + [x])[..|w + [x]| - 1] == w;
  }

  /** A head followed at once by the end is a complete, well-formed response. */
  lemma WellFormedReply(status: nat, headers: Headers, data: string)
    ensures WellFormed([Head(status, headers), End(data)]) && Ended([Head(status, headers), End(data)])
  {
  }

  predicate Connected(c: Storage.NewConnection) {
    c.status == "connected"
  }

  predicate Failed(c: Storage.NewConnection) {
    c.status == "failed"
  }

  datatype Phase =
    | Awaiting                                                // request sent, no response yet
    | Buffering(status: Option<nat>, headers: Headers, body: string)  // HTML being collected
    | Piping                                                  // head written, body streaming
    | Finished                                                // nothing more is written

  /** The records of one exchange: at most a `connected` one, then at most a `failed` one, all for its target. */
  ghost predicate RecordsAgree(records: seq<Storage.NewConnection>, target: string, phase: Phase) {
    (forall i :: 0 <= i < |records| ==> records[i].url == target)
    && |records| <= 2
    && (|records| == 2 ==> Connected(records[0]) && Failed(records[1]))
    && (forall i :: 0 <= i < |records| ==> Connected(records[i]) || Failed(records[i]))
    && (phase.Awaiting? ==> records == [])
    && (phase.Buffering? || phase.Piping? ==> forall i :: 0 <= i < |records| ==> Connected(records[i]))
  }

  /** What has been written to the client in each phase; `received` is the body the origin has delivered. */
  ghost predicate ResponseAgrees(response: seq<Write>, phase: Phase, received: string) {
    WellFormed(response)
    && (phase.Awaiting? ==> response == [])
    && (phase.Buffering? ==> response == [] && phase.body == received)
    && (phase.Piping? ==> response != [] && !Ended(response) && BodyOf(response) == received)
    && (phase.Finished? ==> response != [])
  }

  class Exchange {
    /** `targetUrlString`, the route's embedded URL ("" on the other routes). */
    const target: string
    /** The parsed target, when the request was forwarded. */
    const url: Option<Url>
    const userAgent: Option<string>
    const startTime: int
    /** `new URL(path, base).href`. */
    const resolve: (string, Url) -> string

    /** What has been sent to the origin: the request, whose body is the piped client body. */
    var request: Option<OutboundRequest>
    var response: seq<Write>
    var records: seq<Storage.NewConnection>
    var phase: Phase
    /** The body bytes the origin has delivered since its response head. */
    ghost var received: string

    /** `res.headersSent`. */
    function HeadersSent(): bool
      reads this
    {
      response != []
    }

    function Record(status: string, now: int): Storage.NewConnection
      requires url.Some?
    {
      Storage.NewConnection(target, status, RecordedProtocol(url.value), userAgent, Some(now - startTime))
    }

    ghost predicate Valid()
      reads this
    {
      (url.None? <==> request.None?)
      && (url.None? ==> phase.Finished? && records == [] && Ended(response))
      && RecordsAgree(records, target, phase)
      && ResponseAgrees(response, phase, received)
    }

    /**
     * `handleHttpRequest` up to the first event: the route is chosen; a rejected or
     * information request is answered at once, a forwarded one is parsed and sent.
     * `parse` is `new URL(…)` (`None` when it throws); `page` is the information page.
     */
    constructor (reqUrl: Option<string>, verb: string, inbound: Headers, now: int,
                 parse: string -> Option<Url>, resolve: (string, Url) -> string, page: string)
      ensures Valid()
      ensures records == []
      ensures Classify(reqUrl).Reject? ==>
                url.None? && response == [Head(400, TextPlain), End(Classify(reqUrl).message)]
      ensures Classify(reqUrl).InfoPage? ==> url.None? && response == [Head(200, TextHtml), End(page)]
      ensures Classify(reqUrl).Forward? && parse(Classify(reqUrl).target).None? ==>
                url.None? && response == [Head(400, TextPlain), End(InvalidUrlMessage)]
      ensures Classify(reqUrl).Forward? && parse(Classify(reqUrl).target).Some? ==>
                target == Classify(reqUrl).target && url == parse(target)
                && request == Some(Outbound(url.value, verb, inbound))
                && phase.Awaiting? && response == []
      ensures userAgent == (if "user-agent" in inbound then Some(inbound["user-agent"]) else None)
      ensures startTime == now && this.resolve == resolve
    {
      userAgent := if "user-agent" in inbound then Some(inbound["user-agent"]) else None;
      startTime := now;
      this.resolve := resolve;
      records := [];
      received := "";
      var route := Classify(reqUrl);
      match route {
        case Reject(message) =>
          target := "";
          url := None;
          request := None;
          response := [Head(400, TextPlain), End(message)];
          phase := Finished;
        case InfoPage =>
          target := "";
          url := None;
          request := None;
          response := [Head(200, TextHtml), End(page)];
          phase := Finished;
        case Forward(t) =>
          target := t;
          url := parse(t);
          if parse(t).None? {
            request := None;
            response := [Head(400, TextPlain), End(InvalidUrlMessage)];
            phase := Finished;
          } else {
            request := Some(Outbound(parse(t).value, verb, inbound));
            response := [];
            phase := Awaiting;
          }
      }
    }

    /**
     * The origin's `response` event: a `connected` record when logging is on, then either
     * buffering (HTML) or the head written verbatim and the body piped. The route always
     * passes the `req.url` test of the source (`Dispatch.ForwardedTargetStartsWithHttp`).
     */
    method OnResponse(server: ProxyServer, status: Option<nat>, headers: Headers, now: int)
      requires Valid()
      modifies this
      ensures Valid()
      ensures request == old(request)
      ensures old(phase).Awaiting? ==>
                records == old(records) + (if LoggingEnabled(server.options) then [Record("connected", now)] else [])
      ensures old(phase).Awaiting? ==> received == ""
      ensures old(phase).Awaiting? && IsHtml(headers) ==> phase == Buffering(status, headers, "") && response == []
      ensures old(phase).Awaiting? && !IsHtml(headers) ==>
                phase.Piping? && response == [Head(StatusOrOk(status), headers)]
      ensures !old(phase).Awaiting? ==>
                phase == old(phase) && response == old(response) && records == old(records)
    {
      if phase.Awaiting? {
        if LoggingEnabled(server.options) {
          records := records + [Record("connected", now)];
        }
        received := "";
        if IsHtml(headers) {
          phase := Buffering(status, headers, "");
        } else {
          response := [Head(StatusOrOk(status), headers)];
          phase := Piping;
        }
      }
    }

    /** A `data` event of the origin's body. */
    method OnData(chunk: string)
      requires Valid()
      modifies this
      ensures Valid()
      ensures request == old(request) && records == old(records)
      ensures old(phase).Buffering? ==>
                phase == old(phase).(body := old(phase).body + chunk) && response == old(response)
      ensures old(phase).Piping? ==> phase.Piping? && response == old(response) + [Body(chunk)]
      ensures !old(phase).Buffering? && !old(phase).Piping? ==> phase == old(phase) && response == old(response)
      ensures old(phase).Buffering? || old(phase).Piping? ==> received == old(received) + chunk
      ensures !old(phase).Buffering? && !old(phase).Piping? ==> received == old(received)
    {
      if phase.Buffering? {
        phase := phase.(body := phase.body + chunk);
        received := received + chunk;
      } else if phase.Piping? {
        WellFormedAppend(response, Body(chunk));
        response := response + [Body(chunk)];
        received := received + chunk;
      }
    }

    /**
     * The origin's `end` event: a buffered body is rewritten and sent with its length
     * recomputed; a piped body is ended.
     */
    method OnEnd()
      requires Valid()
      modifies this
      ensures Valid()
      ensures request == old(request) && records == old(records)
      ensures old(phase).Buffering? ==>
                var rewritten := RewriteHtmlUrls(old(phase).body, url.value.origin, Resolver(resolve, url.value));
                response == [Head(StatusOrOk(old(phase).status), RewrittenHeaders(old(phase).headers, rewritten)),
                             End(rewritten)]
      ensures old(phase).Piping? ==> response == old(response) + [End("")] && BodyOf(response) == received
      ensures old(phase).Buffering? || old(phase).Piping? ==> phase.Finished? && Ended(response)
      ensures !old(phase).Buffering? && !old(phase).Piping? ==> phase == old(phase) && response == old(response)
    {
      match phase {
        case Buffering(status, headers, body) =>
          var u := url.value;
          var rewritten := RewriteHtmlUrls(body, u.origin, Resolver(resolve, u));
          WellFormedReply(StatusOrOk(status), RewrittenHeaders(headers, rewritten), rewritten);
          response := [Head(StatusOrOk(status), RewrittenHeaders(headers, rewritten)), End(rewritten)];
          phase := Finished;
        case Piping =>
          WellFormedAppend(response, End(""));
          response := response + [End("")];
          phase := Finished;
        case _ =>
      }
    }

    /**
     * The outbound request's `error` event: a `failed` record when logging is on, and a 502
     * unless the head has already been written. Nothing is written afterwards.
     */
    method OnError(server: ProxyServer, now: int)
      requires Valid()
      modifies this
      ensures Valid()
      ensures request == old(request)
      ensures old(phase).Finished? ==> phase.Finished? && response == old(response) && records == old(records)
      ensures !old(phase).Finished? ==>
                records == old(records) + (if LoggingEnabled(server.options) then [Record("failed", now)] else [])
      ensures !old(phase).Finished? && old(response) == [] ==>
                response == [Head(502, TextPlain), End(BadGatewayMessage)]
      ensures old(response) != [] ==> response == old(response)
      ensures phase.Finished?
    {
      if !phase.Finished? {
        if LoggingEnabled(server.options) {
          records := records + [Record("failed", now)];
        }
        if response == [] {
          response := [Head(502, TextPlain), End(BadGatewayMessage)];
        }
        phase := Finished;
      }
    }
  }

  /** Every completed client response is well formed: exactly one head, first, and the end last. */
  lemma CompletedResponseShape(w: seq<Write>)
    requires WellFormed(w) && Ended(w)
    ensures w[0].Head? && w[|w| - 1].End? && |w| >= 2
    ensures forall i :: 1 <= i < |w| - 1 ==> w[i].Body?
  {
  }

  /**
   * An HTML response: one `connected` record (logging on), and the client receives the
   * rewritten concatenation of the chunks with a matching `content-length`.
   */
  method HtmlExchange(t: string, u: Url, parse: string -> Option<Url>, resolve: (string, Url) -> string,
                      headers: Headers, a: string, b: string)
    returns (response: seq<Write>, records: seq<Storage.NewConnection>)
    requires IsEmbeddedUrl("/" + t) && parse(t) == Some(u)
    requires IsHtml(headers)
    ensures |records| == 1 && Connected(records[0]) && records[0].url == t
    ensures |response| == 2 && response[0].Head? && response[0].status == 200
    ensures response[1] == End(RewriteHtmlUrls(a + b, u.origin, Resolver(resolve, u)))
    ensures "content-length" in response[0].headers
    ensures AllDigits(response[0].headers["content-length"])
    ensures ParseDecimal(response[0].headers["content-length"]) == Utf8Length(response[1].data)
  {
    var server := new ProxyServer(NoChanges);
    ClassifyEmbedded(t);
    var x := new Exchange(Some("/" + t), "GET", map[], 0, parse, resolve, "");
    assert x.url == Some(u) && x.phase.Awaiting?;
    x.OnResponse(server, None, headers, 5);
    assert x.phase == Buffering(None, headers, "");
    x.OnData(a);
    assert x.phase == Buffering(None, headers, a);
    x.OnData(b);
    assert x.phase == Buffering(None, headers, a + b);
    x.OnEnd();
    response, records := x.response, x.records;
  }

  /** A non-HTML response: the origin's status and headers verbatim, and the body unchanged. */
  method PipedExchange(t: string, u: Url, parse: string -> Option<Url>, resolve: (string, Url) -> string,
                       headers: Headers, a: string, b: string)
    returns (response: seq<Write>)
    requires IsEmbeddedUrl("/" + t) && parse(t) == Some(u)
    requires !IsHtml(headers)
    ensures response == [Head(404, headers), Body(a), Body(b), End("")]
  {
    var server := new ProxyServer(NoChanges);
    ClassifyEmbedded(t);
    var x := new Exchange(Some("/" + t), "GET", map[], 0, parse, resolve, "");
    assert x.phase.Awaiting?;
    x.OnResponse(server, Some(404), headers, 5);
    assert x.phase.Piping? && x.response == [Head(404, headers)];
    x.OnData(a);
    assert x.phase.Piping? && x.response == [Head(404, headers), Body(a)];
    x.OnData(b);
    assert x.phase.Piping? && x.response == [Head(404, headers), Body(a), Body(b)];
    x.OnEnd();
    response := x.response;
  }

  /** The body writes of a list of chunks. */
  function Chunks(cs: seq<string>): (w: seq<Write>)
    ensures |w| == |cs| && forall i :: 0 <= i < |cs| ==> w[i] == Body(cs[i])
  {
    if cs == [] then [] else Chunks(cs[..|cs| - 1]) + [Body(cs[|cs| - 1])]
  }

  function Concat(cs: seq<string>): string {
    if cs == [] then "" else Concat(cs[..|cs| - 1]) + cs[|cs| - 1]
  }

  /** The origin delivers the chunks `cs`, in order, to a piping exchange. */
  method PipeChunks(x: Exchange, cs: seq<string>)
    requires x.Valid() && x.phase.Piping?
    modifies x
    ensures x.Valid() && x.phase.Piping?
    ensures x.response == old(x.response) + Chunks(cs)
    ensures x.received == old(x.received) + Concat(cs)
    ensures x.records == old(x.records) && x.request == old(x.request)
    decreases |cs|
  {
    if cs != [] {
      ghost var response0, received0 := x.response, x.received;
      PipeChunks(x, cs[..|cs| - 1]);
      x.OnData(cs[|cs| - 1]);
      assert x.response == response0 + Chunks(cs[..|cs| - 1]) + [Body(cs[|cs| - 1])];
    }
  }

  /**
   * A non-HTML response delivered as any list of chunks: the client receives the head
   * verbatim, each chunk unchanged and in order, then the end, and the body it is written is
   * exactly what the origin sent.
   */
  method PipedChunks(t: string, u: Url, parse: string -> Option<Url>, resolve: (string, Url) -> string,
                     status: Option<nat>, headers: Headers, cs: seq<string>)
    returns (response: seq<Write>)
    requires IsEmbeddedUrl("/" + t) && parse(t) == Some(u)
    requires !IsHtml(headers)
    ensures response == [Head(StatusOrOk(status), headers)] + Chunks(cs) + [End("")]
    ensures BodyOf(response) == Concat(cs)
  {
    var server := new ProxyServer(NoChanges);
    ClassifyEmbedded(t);
    var x := new Exchange(Some("/" + t), "GET", map[], 0, parse, resolve, "");
    x.OnResponse(server, status, headers, 5);
    PipeChunks(x, cs);
    x.OnEnd();
    response := x.response;
    PipedBody(Head(StatusOrOk(status), headers), cs);
  }

  /** A head, the piped chunks and an empty end carry exactly the chunks' concatenation. */
  lemma {:induction false} PipedBody(head: Write, cs: seq<string>)
    requires head.Head?
    ensures BodyOf([head] + Chunks(cs) + [End("")]) == Concat(cs)
    decreases |cs|
  {
    var w := [head] + Chunks(cs);
    assert (w + [End("")])[..|w|] == w;
    PipedPrefix(head, cs);
  }

  lemma {:induction false} PipedPrefix(head: Write, cs: seq<string>)
    requires head.Head?
    ensures BodyOf([head] + Chunks(cs)) == Concat(cs)
    decreases |cs|
  {
    if cs == [] {
      assert [head] + Chunks(cs) == [head];
      assert [head][..0] == [];
    } else {
      var init := cs[..|cs| - 1];
      PipedPrefix(head, init);
      var w := [head] + Chunks(cs);
      assert w[..|w| - 1] == [head] + Chunks(init);
    }
  }

  /**
   * An error after a piped head has been written: the response is left as it was and a
   * `failed` record follows the `connected` one for the same target.
   */
  method ErrorAfterHead(t: string, u: Url, parse: string -> Option<Url>, resolve: (string, Url) -> string,
                        headers: Headers)
    returns (response: seq<Write>, records: seq<Storage.NewConnection>)
    requires IsEmbeddedUrl("/" + t) && parse(t) == Some(u)
    requires !IsHtml(headers)
    ensures response == [Head(200, headers)]
    ensures |records| == 2 && Connected(records[0]) && Failed(records[1])
    ensures records[0].url == t && records[1].url == t
  {
    var server := new ProxyServer(NoChanges);
    ClassifyEmbedded(t);
    var x := new Exchange(Some("/" + t), "GET", map[], 0, parse, resolve, "");
    x.OnResponse(server, None, headers, 5);
    x.OnError(server, 7);
    response, records := x.response, x.records;
  }

  /** An error before any response, with logging switched off: a 502 and no record. */
  method ErrorWithoutLogging(t: string, u: Url, parse: string -> Option<Url>, resolve: (string, Url) -> string)
    returns (response: seq<Write>, records: seq<Storage.NewConnection>)
    requires IsEmbeddedUrl("/" + t) && parse(t) == Some(u)
    ensures response == [Head(502, TextPlain), End(BadGatewayMessage)]
    ensures records == []
  {
    var server := new ProxyServer(NoChanges);
    server.UpdateOptions(NoChanges.(enableLogging := Given(Some(false))));
    ClassifyEmbedded(t);
    var x := new Exchange(Some("/" + t), "GET", map[], 0, parse, resolve, "");
    x.OnError(server, 3);
    response, records := x.response, x.records;
  }

  /** A target `new URL` rejects is answered with 400 and leaves no record. */
  method InvalidUrl(t: string, parse: string -> Option<Url>, resolve: (string, Url) -> string)
    returns (response: seq<Write>, records: seq<Storage.NewConnection>, sent: bool)
    requires IsEmbeddedUrl("/" + t) && parse(t).None?
    ensures response == [Head(400, TextPlain), End(InvalidUrlMessage)]
    ensures records == [] && !sent
  {
    ClassifyEmbedded(t);
    var x := new Exchange(Some("/" + t), "GET", map[], 0, parse, resolve, "");
    response, records, sent := x.response, x.records, x.request.Some?;
  }
}
