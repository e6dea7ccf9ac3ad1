/**
 * The classification at the top of `ProxyServer.handleHttpRequest`: every non-CONNECT request
 * is either rejected, forwarded to the absolute URL embedded in its path, or answered with the
 * static information page. (CONNECT requests never reach this handler: the HTTP server hands
 * them to `handleConnect`, see module Tunnel.)
 */
module Dispatch {
  import opened Wrappers
  import opened Text

  const NoUrlMessage := "Bad Request: No URL provided"
  const FullUrlMessage := "Bad Request: Please provide a full URL starting with /http:// or /https://"

  datatype Route =
    | Reject(message: string)   // 400, text/plain, `message` as the body
    | Forward(target: string)   // forward to the embedded absolute URL `target`
    | InfoPage                  // 200, text/html, the static information page

  /** The request target carries an absolute URL after its first character. */
  predicate IsEmbeddedUrl(t: string) {
    StartsWith(t, "/http://") || StartsWith(t, "/https://")
  }

  /** Targets answered with the information page. */
  predicate IsInfoPath(t: string) {
    t == "/" || t == "/favicon.ico" || StartsWith(t, "/api/")
  }

  /**
   * Route for a request whose target is `url` (`req.url`; `None` when absent). The empty
   * target is falsy in JavaScript and is treated like a missing one.
   */
  function Classify(url: Option<string>): (r: Route)
    ensures r == Reject(NoUrlMessage) <==> url.None? || url == Some("")
    ensures r.Forward? <==> url.Some? && IsEmbeddedUrl(url.value)
    ensures r.Forward? ==> url == Some("/" + r.target)
    ensures r == InfoPage <==> url.Some? && !IsEmbeddedUrl(url.value) && IsInfoPath(url.value)
    ensures r == Reject(FullUrlMessage) <==>
              url.Some? && url.value != "" && !IsEmbeddedUrl(url.value) && !IsInfoPath(url.value)
  {
    match url
    case None => Reject(NoUrlMessage)
    case Some(t) =>
      if t == "" then Reject(NoUrlMessage)
      else if IsEmbeddedUrl(t) then
        assert t[0] == '/' && t == [t[0]] + t[1..];
        Forward(t[1..])
      else if IsInfoPath(t) then InfoPage
      else Reject(FullUrlMessage)
  }

  /** No target is both an embedded URL and an information path, so the order of the tests is immaterial. */
  lemma EmbeddedAndInfoDisjoint(t: string)
    ensures !(IsEmbeddedUrl(t) && IsInfoPath(t))
  {
    if IsEmbeddedUrl(t) {
      assert t[1] == 'h';
    }
  }

  /**
   * A forwarded target still starts with "/http" in the original request, so the forwarder's
   * later `req.url?.startsWith('/http')` test always holds on this route.
   */
  lemma ForwardedTargetStartsWithHttp(url: Option<string>)
    requires Classify(url).Forward?
    ensures StartsWith(url.value, "/http")
    ensures StartsWith(Classify(url).target, "http://") || StartsWith(Classify(url).target, "https://")
  {
    var t := url.value;
    var u := Classify(url).target;
    assert t == "/" + u;
    if StartsWith(t, "/http://") {
      assert t[..5] == t[..8][..5];
      assert u[..7] == t[..8][1..];
    } else {
      assert t[..5] == t[..9][..5];
      assert u[..8] == t[..9][1..];
    }
  }

  /** A path made of a slash and an absolute URL is forwarded to that URL. */
  lemma ClassifyEmbedded(t: string)
    requires IsEmbeddedUrl("/" + t)
    ensures Classify(Some("/" + t)) == Forward(t)
  {
    assert ("/" + t)[1..] == t;
  }
}
