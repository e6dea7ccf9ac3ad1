/**
 * `ProxyServer.handleConnect`: a CONNECT request (section 9.3.6 of RFC 9110) opens a raw TCP
 * tunnel to an allowed port of the named host. The target authority is split as the legacy
 * `url.parse` does for `http://host:port`, the port is checked against a fixed allow-list,
 * and one `Tunnel` then records, in order, every write, end and destroy it performs on the
 * two sockets, the records it hands to `storage.createConnection`, and the relayed chunks.
 */
module Tunnel {
  import opened Wrappers
  import opened Text
  import opened Options
  import opened Registry
  import Storage

  const ForbiddenReply := "HTTP/1.1 403 Forbidden\r\n\r\n"
  const FailedReply := "HTTP/1.1 500 Connection Failed\r\n\r\n"
  const EstablishedReply := "HTTP/1.1 200 Connection Established\r\nProxy-agent: LumenPXY\r\n\r\n"
  const DefaultPort: nat := 443

  /** Ports a tunnel may be opened to: HTTPS, alternative HTTPS, IMAPS and POP3S. */
  predicate IsAllowedPort(p: nat) {
    p == 443 || p == 8443 || p == 993 || p == 995
  }

  // ------------------------------------------------------------- the target authority

  /** The length of the longest suffix of `s` made of decimal digits. */
  function DigitSuffix(s: string): (n: nat)
    ensures n <= |s| && forall i :: |s| - n <= i < |s| ==> IsDigit(s[i])
    ensures n < |s| ==> !IsDigit(s[|s| - n - 1])
  {
    if s == [] || !IsDigit(s[|s| - 1]) then 0 else DigitSuffix(s[..|s| - 1]) + 1
  }

  /** The `hostname` and `port` of `url.parse('http://' + authority)`. */
  datatype Target = Target(hostname: string, port: Option<string>)

  /**
   * The port is the digits after a final colon (the pattern `:[0-9]*$`); the colon is
   * removed from the host even when no digits follow it, and an empty port is no port.
   */
  function SplitTarget(a: string): (t: Target)
    ensures t.port.Some? ==> t.port.value != "" && AllDigits(t.port.value) && a == t.hostname + ":" + t.port.value
    ensures t.port.None? ==> a == t.hostname || a == t.hostname + ":"
  {
    var n := DigitSuffix(a);
    var k := |a| - n;
    if k > 0 && a[k - 1] == ':' then
      assert a == a[..k - 1] + ":" + a[k..];
      if n > 0 then Target(a[..k - 1], Some(a[k..])) else Target(a[..k - 1], None)
    else
      assert n > 0 ==> IsDigit(a[|a| - 1]) by {
        if n > 0 {
          assert a[|a| - 1] == a[k..][n - 1];
        }
      }
      Target(a, None)
  }

  /** `parseInt(port || '443')`. */
  function TargetPort(t: Target): (p: nat)
    requires t.port.Some? ==> AllDigits(t.port.value)
    ensures t.port.None? || t.port.value == "" ==> p == DefaultPort
    ensures t.port.Some? && t.port.value != "" && (|t.port.value| > 1 ==> t.port.value[0] != '0') ==>
              NatToDecimal(p) == t.port.value
  {
    if t.port.None? || t.port.value == "" then DefaultPort
    else
      DecimalOfParse(t.port.value);
      ParseDecimal(t.port.value)
  }

  lemma DigitSuffixAfter(p: string, d: string)
    requires AllDigits(d)
    requires p != [] && !IsDigit(p[|p| - 1])
    ensures DigitSuffix(p + d) == |d|
    decreases |d|
  {
    if d == [] {
      assert p + d == p;
    } else {
      var d' := d[..|d| - 1];
      DigitSuffixAfter(p, d');
      assert (p + d)[..|p + d| - 1] == p + d';
    }
  }

  /** An authority `host:digits` splits into that host and those digits, whatever the host holds. */
  lemma SplitJoin(h: string, d: string)
    requires d != [] && AllDigits(d)
    ensures SplitTarget(h + ":" + d) == Target(h, Some(d))
  {
    var a := h + ":" + d;
    DigitSuffixAfter(h + ":", d);
    assert a == (h + ":") + d;
    var k := |a| - |d|;
    assert a[k - 1] == ':';
    assert a[..k - 1] == h && a[k..] == d;
  }

  /** The port of `host:p` written in decimal is `p`. */
  lemma PortOfAuthority(h: string, p: nat)
    ensures SplitTarget(h + ":" + NatToDecimal(p)) == Target(h, Some(NatToDecimal(p)))
    ensures TargetPort(SplitTarget(h + ":" + NatToDecimal(p))) == p
  {
    SplitJoin(h, NatToDecimal(p));
    ParseNatToDecimal(p);
  }

  /** An authority without a colon names the host and the default port 443. */
  lemma NoPortDefaults(h: string)
    requires ':' !in h
    ensures SplitTarget(h) == Target(h, None)
    ensures TargetPort(SplitTarget(h)) == DefaultPort
  {
    var n := DigitSuffix(h);
    var k := |h| - n;
    if k > 0 {
      assert h[k - 1] in h;
    }
  }

  // ------------------------------------------------------------- the decision

  datatype Admission =
    | Refused                          // the port is not allowed: 403
    | ConnectFailed                    // `net.connect` threw: 500
    | Dial(hostname: string, port: nat)

  /**
   * What `handleConnect` does before any socket event: refuse a port outside the allow-list,
   * answer 500 when opening the outbound socket throws, and otherwise dial the target.
   */
  function Admit(authority: string, connectThrows: bool): (r: Admission)
    ensures r.Refused? <==> !IsAllowedPort(TargetPort(SplitTarget(authority)))
    ensures r.ConnectFailed? <==> IsAllowedPort(TargetPort(SplitTarget(authority))) && connectThrows
    ensures r.Dial? ==> r.hostname == SplitTarget(authority).hostname
                        && r.port == TargetPort(SplitTarget(authority)) && IsAllowedPort(r.port)
  {
    var t := SplitTarget(authority);
    var p := TargetPort(t);
    if !IsAllowedPort(p) then Refused
    else if connectThrows then ConnectFailed
    else Dial(t.hostname, p)
  }

  /** The port policy: a bare host goes to 443; an explicit port is used only when listed. */
  lemma AdmitPolicy(h: string, p: nat)
    requires ':' !in h
    ensures Admit(h, false) == Dial(h, 443)
    ensures Admit(h + ":" + NatToDecimal(p), false) ==
              if IsAllowedPort(p) then Dial(h, p) else Refused
  {
    NoPortDefaults(h);
    PortOfAuthority(h, p);
  }

  // ------------------------------------------------------------- the tunnel

  datatype Endpoint = Open | Ended | Destroyed

  /** `socket.end()`: only an open socket becomes ended. */
  function EndSocket(e: Endpoint): Endpoint {
    if e.Open? then Ended else e
  }

  datatype Action =
    | ServerConnect(hostname: string, port: nat)   // net.connect
    | ClientWrite(data: string)
    | ServerWrite(data: string)
    | ClientEnd
    | ServerEnd
    | ClientDestroy
    | ServerDestroy
    | Record(entry: Storage.NewConnection)       // storage.createConnection
    | StartRelay                                 // both pipes, with `end: false`
    | RelayToClient(data: string)
    | RelayToServer(data: string)

  predicate IsRelay(a: Action) {
    a.RelayToClient? || a.RelayToServer?
  }

  predicate IsConnectedRecord(a: Action) {
    a.Record? && a.entry.status == "connected"
  }

  /**
   * The ordering of a tunnel's trace. Once `relaying`, the 200 reply is at `e`, the head
   * bytes follow it at `e + 1`, a `connected` record may follow, and the relay starts at `r`;
   * no relayed chunk, server write, relay start or `connected` record appears anywhere else.
   */
  ghost predicate Ordered(trace: seq<Action>, head: string, relaying: bool, e: nat, r: nat) {
    (relaying ==>
       1 <= e && e + 1 < r < |trace|
       && trace[e] == ClientWrite(EstablishedReply)
       && trace[e + 1] == ServerWrite(head)
       && trace[r] == StartRelay
       && (r == e + 2 || r == e + 3))
    && (forall k :: 0 <= k < |trace| && IsRelay(trace[k]) ==> relaying && r < k)
    && (forall k :: 0 <= k < |trace| && trace[k].ServerWrite? ==> relaying && k == e + 1)
    && (forall k :: 0 <= k < |trace| && trace[k] == StartRelay ==> relaying && k == r)
    && (forall k :: 0 <= k < |trace| && IsConnectedRecord(trace[k]) ==> relaying && k == e + 2 && r == e + 3)
  }

  /** Ends, destroys and records other than `connected`: what the error and timeout events add. */
  predicate Neutral(a: Action) {
    a.ClientEnd? || a.ServerEnd? || a.ClientDestroy? || a.ServerDestroy?
    || (a.Record? && a.entry.status != "connected")
  }

  /** What `handleConnect` writes before any socket event keeps the trace ordered. */
  lemma OrderedSetup(trace: seq<Action>, head: string)
    requires forall i :: 0 <= i < |trace| ==> trace[i].ClientWrite? || trace[i].ServerConnect? || trace[i].ClientEnd?
    ensures Ordered(trace, head, false, 0, 0)
  {
  }

  lemma OrderedNeutral(trace: seq<Action>, head: string, relaying: bool, e: nat, r: nat, more: seq<Action>)
    requires Ordered(trace, head, relaying, e, r)
    requires forall i :: 0 <= i < |more| ==> Neutral(more[i])
    ensures Ordered(trace + more, head, relaying, e, r)
  {
    var t := trace + more;
    forall k | |trace| <= k < |t|
      ensures Neutral(t[k])
    {
      assert t[k] == more[k - |trace|];
    }
  }

  lemma OrderedRelay(trace: seq<Action>, head: string, e: nat, r: nat, a: Action)
    requires Ordered(trace, head, true, e, r) && IsRelay(a)
    ensures Ordered(trace + [a], head, true, e, r)
  {
  }

  lemma OrderedConnect(trace: seq<Action>, head: string, e0: nat, r0: nat, logged: seq<Action>)
    requires Ordered(trace, head, false, e0, r0) && |trace| >= 1
    requires logged == [] || (|logged| == 1 && IsConnectedRecord(logged[0]))
    ensures Ordered(trace + [ClientWrite(EstablishedReply), ServerWrite(head)] + logged + [StartRelay],
                    head, true, |trace|, |trace| + 2 + |logged|)
  {
    var n := |trace|;
    var t := trace + [ClientWrite(EstablishedReply), ServerWrite(head)] + logged + [StartRelay];
    assert t[n] == ClientWrite(EstablishedReply) && t[n + 1] == ServerWrite(head);
    assert t[n + 2 + |logged|] == StartRelay;
    assert forall k :: 0 <= k < n ==> t[k] == trace[k];
    assert logged != [] ==> t[n + 2] == logged[0];
  }

  /** A tunnel's invariant over its field values: a dialled tunnel's trace starts with the dial, and is ordered. */
  ghost predicate Consistent(dialled: bool, hostname: string, port: nat, head: string,
                             trace: seq<Action>, relaying: bool, e: nat, r: nat) {
    (dialled ==> |trace| >= 1 && trace[0] == ServerConnect(hostname, port) && IsAllowedPort(port))
    && (!dialled ==> !relaying)
    && Ordered(trace, head, relaying, e, r)
  }

  /** The connect callback keeps the invariant. */
  lemma ConsistentConnect(hostname: string, port: nat, head: string, trace: seq<Action>, e: nat, r: nat,
                          logged: seq<Action>)
    requires Consistent(true, hostname, port, head, trace, false, e, r)
    requires logged == [] || (|logged| == 1 && IsConnectedRecord(logged[0]))
    ensures Consistent(true, hostname, port, head,
                       trace + [ClientWrite(EstablishedReply), ServerWrite(head)] + logged + [StartRelay],
                       true, |trace|, |trace| + 2 + |logged|)
  {
    OrderedConnect(trace, head, e, r, logged);
  }

  class Tunnel {
    const hostname: string
    const port: nat
    const userAgent: Option<string>
    const startTime: int
    /** The bytes the client sent after its CONNECT head. */
    const head: string
    /** `net.connect` was called; the socket handlers below exist only then. */
    const dialled: bool
    /** The idle timeout set on both sockets, in milliseconds. */
    const timeout: nat

    var client: Endpoint
    var server: Endpoint
    var relaying: bool
    var trace: seq<Action>
    /** Where the 200 reply and the relay start are in the trace once connected. */
    ghost var establishedAt: nat
    ghost var relayAt: nat

    function TargetUrl(): string
    {
      "https://" + hostname + ":" + NatToDecimal(port)
    }

    function Record(status: string, now: int): Storage.NewConnection
    {
      Storage.NewConnection(TargetUrl(), status, "https", userAgent, Some(now - startTime))
    }

    ghost predicate Valid()
      reads this
    {
      Consistent(dialled, hostname, port, head, trace, relaying, establishedAt, relayAt)
    }

    /**
     * `handleConnect(req, clientSocket, head)` up to the first socket event. `authority` is
     * `req.url`; `connectThrows` says whether `net.connect` throws synchronously.
     */
    constructor (authority: string, userAgent: Option<string>, head: string, now: int,
                 proxy: ProxyServer, connectThrows: bool)
      ensures Valid()
      ensures Admit(authority, connectThrows).Refused? ==>
                !dialled && trace == [ClientWrite(ForbiddenReply), ClientEnd] && client == Ended
      ensures Admit(authority, connectThrows).ConnectFailed? ==>
                !dialled && trace == [ClientWrite(FailedReply), ClientEnd] && client == Ended
      ensures Admit(authority, connectThrows).Dial? ==>
                dialled && trace == [ServerConnect(hostname, port)] && client == Open && server == Open
                && Admit(authority, connectThrows) == Dial(hostname, port)
                && timeout == EffectiveTimeout(proxy.options)
      ensures !relaying && this.head == head && this.userAgent == userAgent && startTime == now
    {
      this.userAgent := userAgent;
      this.head := head;
      startTime := now;
      relaying := false;
      establishedAt, relayAt := 0, 0;
      server := Open;
      timeout := EffectiveTimeout(proxy.options);
      match Admit(authority, connectThrows) {
        case Refused =>
          hostname, port, dialled := "", 0, false;
          trace := [ClientWrite(ForbiddenReply), ClientEnd];
          client := Ended;
        case ConnectFailed =>
          hostname, port, dialled := "", 0, false;
          trace := [ClientWrite(FailedReply), ClientEnd];
          client := Ended;
        case Dial(h, p) =>
          hostname, port, dialled := h, p, true;
          trace := [ServerConnect(h, p)];
          client := Open;
      }
      new;
      OrderedSetup(trace, head);
    }

    /**
     * The connect callback: the 200 reply to the client, then the head bytes to the server,
     * then a `connected` record when logging is on, then both relays.
     */
    method OnConnect(proxy: ProxyServer, now: int)
      requires Valid()
      modifies this
      ensures Valid()
      ensures client == old(client) && server == old(server)
      ensures dialled && !old(relaying) && old(server) != Destroyed ==>
                relaying
                && trace == old(trace) + [ClientWrite(EstablishedReply), ServerWrite(head)]
                             + (if LoggingEnabled(proxy.options) then [Action.Record(Record("connected", now))] else [])
                             + [StartRelay]
      ensures !(dialled && !old(relaying) && old(server) != Destroyed) ==>
                relaying == old(relaying) && trace == old(trace)
    {
      if dialled && !relaying && server != Destroyed {
        var before := trace;
        var logged := if LoggingEnabled(proxy.options) then [Action.Record(Record("connected", now))] else [];
        ConsistentConnect(hostname, port, head, before, establishedAt, relayAt, logged);
        trace := trace + [ClientWrite(EstablishedReply), ServerWrite(head)] + logged + [StartRelay];
        establishedAt := |before|;
        relayAt := |before| + 2 + |logged|;
        relaying := true;
      }
    }

    /**
     * A chunk from the origin, copied to the client while relaying. A destroyed socket
     * delivers no data, and the pipe stops once its destination is destroyed.
     */
    method OnServerData(data: string)
      requires Valid()
      modifies this
      ensures Valid()
      ensures client == old(client) && server == old(server) && relaying == old(relaying)
      ensures relaying && server != Destroyed && client != Destroyed ==> trace == old(trace) + [RelayToClient(data)]
      ensures !(relaying && server != Destroyed && client != Destroyed) ==> trace == old(trace)
    {
      if relaying && server != Destroyed && client != Destroyed {
        OrderedRelay(trace, head, establishedAt, relayAt, RelayToClient(data));
        trace := trace + [RelayToClient(data)];
      }
    }

    /** A chunk from the client, copied to the origin while relaying and while both sockets are live. */
    method OnClientData(data: string)
      requires Valid()
      modifies this
      ensures Valid()
      ensures client == old(client) && server == old(server) && relaying == old(relaying)
      ensures relaying && client != Destroyed && server != Destroyed ==> trace == old(trace) + [RelayToServer(data)]
      ensures !(relaying && client != Destroyed && server != Destroyed) ==> trace == old(trace)
    {
      if relaying && client != Destroyed && server != Destroyed {
        OrderedRelay(trace, head, establishedAt, relayAt, RelayToServer(data));
        trace := trace + [RelayToServer(data)];
      }
    }

    /**
     * The server socket's `error` event: a `failed` record when logging is on, then the client
     * is ended. A socket that emits `error` is destroyed by the runtime right after.
     */
    method OnServerError(proxy: ProxyServer, now: int)
      requires Valid()
      modifies this
      ensures Valid()
      ensures relaying == old(relaying)
      ensures dialled ==>
                trace == old(trace)
                         + (if LoggingEnabled(proxy.options) then [Action.Record(Record("failed", now))] else [])
                         + [ClientEnd]
                && client == EndSocket(old(client)) && server == Destroyed
      ensures !dialled ==> trace == old(trace) && client == old(client) && server == old(server)
    {
      if dialled {
        server := Destroyed;
        var logged := if LoggingEnabled(proxy.options) then [Action.Record(Record("failed", now))] else [];
        OrderedNeutral(trace, head, relaying, establishedAt, relayAt, logged + [ClientEnd]);
        trace := trace + (logged + [ClientEnd]);
        client := EndSocket(client);
      }
    }

    /** The client socket's `error` event: the server is ended, and the client is destroyed by the runtime. */
    method OnClientError()
      requires Valid()
      modifies this
      ensures Valid()
      ensures relaying == old(relaying)
      ensures dialled ==>
                trace == old(trace) + [ServerEnd] && server == EndSocket(old(server)) && client == Destroyed
      ensures !dialled ==> trace == old(trace) && server == old(server) && client == old(client)
    {
      if dialled {
        client := Destroyed;
        OrderedNeutral(trace, head, relaying, establishedAt, relayAt, [ServerEnd]);
        trace := trace + [ServerEnd];
        server := EndSocket(server);
      }
    }

    /** The server socket's idle timeout: it is destroyed and the client ended. */
    method OnServerTimeout()
      requires Valid()
      modifies this
      ensures Valid()
      ensures relaying == old(relaying)
      ensures dialled ==>
                trace == old(trace) + [ServerDestroy, ClientEnd]
                && server == Destroyed && client == EndSocket(old(client))
      ensures !dialled ==> trace == old(trace) && server == old(server) && client == old(client)
    {
      if dialled {
        OrderedNeutral(trace, head, relaying, establishedAt, relayAt, [ServerDestroy, ClientEnd]);
        trace := trace + [ServerDestroy, ClientEnd];
        server := Destroyed;
        client := EndSocket(client);
      }
    }

    /** The client socket's idle timeout: it is destroyed and the server ended. */
    method OnClientTimeout()
      requires Valid()
      modifies this
      ensures Valid()
      ensures relaying == old(relaying)
      ensures dialled ==>
                trace == old(trace) + [ClientDestroy, ServerEnd]
                && client == Destroyed && server == EndSocket(old(server))
      ensures !dialled ==> trace == old(trace) && server == old(server) && client == old(client)
    {
      if dialled {
        OrderedNeutral(trace, head, relaying, establishedAt, relayAt, [ClientDestroy, ServerEnd]);
        trace := trace + [ClientDestroy, ServerEnd];
        client := Destroyed;
        server := EndSocket(server);
      }
    }
  }

  /**
   * In every reachable tunnel, anything relayed comes after the 200 reply to the client and
   * after the head bytes written to the server, in that order; the only bytes the proxy
   * itself writes to the server are the head, right after the 200 reply.
   */
  lemma RelayAfterHandshake(t: Tunnel)
    requires t.Valid()
    ensures forall k :: 0 <= k < |t.trace| && IsRelay(t.trace[k]) ==>
              exists i, j :: 0 < i < j < k && t.trace[i] == ClientWrite(EstablishedReply)
                                            && t.trace[j] == ServerWrite(t.head)
    ensures forall j :: 0 <= j < |t.trace| && t.trace[j].ServerWrite? ==>
              t.trace[j] == ServerWrite(t.head) && t.trace[j - 1] == ClientWrite(EstablishedReply)
  {
    forall k | 0 <= k < |t.trace| && IsRelay(t.trace[k])
      ensures exists i, j :: 0 < i < j < k && t.trace[i] == ClientWrite(EstablishedReply)
                                          && t.trace[j] == ServerWrite(t.head)
    {
      var i := t.establishedAt;
      assert 0 < i < i + 1 < k && t.trace[i] == ClientWrite(EstablishedReply) && t.trace[i + 1] == ServerWrite(t.head);
    }
  }

  /** At most one `connected` record, whatever events follow. */
  lemma AtMostOneConnected(t: Tunnel)
    requires t.Valid()
    ensures forall i, j :: 0 <= i < j < |t.trace| ==> !(IsConnectedRecord(t.trace[i]) && IsConnectedRecord(t.trace[j]))
  {
  }

  /**
   * A refused port: the client gets only the 403 and is ended; the origin is never dialled
   * and nothing is recorded.
   */
  method RefusedPort(authority: string, head: string) returns (trace: seq<Action>)
    requires !IsAllowedPort(TargetPort(SplitTarget(authority)))
    ensures trace == [ClientWrite(ForbiddenReply), ClientEnd]
  {
    var proxy := new ProxyServer(Options.NoChanges);
    var t := new Tunnel(authority, None, head, 0, proxy, false);
    trace := t.trace;
  }

  /**
   * A tunnel to an allowed `host:port` with logging on: dial, 200 reply, head to the server,
   * one `connected` record, relay start, relayed chunks both ways, then the server's timeout;
   * data arriving after it is relayed neither way.
   */
  method TunnelLifetime(host: string, port: nat, head: string, up: string, down: string, late: string)
    returns (trace: seq<Action>, client: Endpoint, server: Endpoint, timeout: nat)
    requires IsAllowedPort(port)
    ensures trace == [ServerConnect(host, port)]
                     + [ClientWrite(EstablishedReply), ServerWrite(head)]
                     + [Action.Record(Storage.NewConnection("https://" + host + ":" + NatToDecimal(port),
                                                            "connected", "https", None, Some(20)))]
                     + [StartRelay]
                     + [RelayToServer(up)]
                     + [RelayToClient(down)]
                     + [ServerDestroy, ClientEnd]
    ensures client == Ended && server == Destroyed && timeout == 10000
  {
    var proxy := new ProxyServer(Options.NoChanges);
    PortOfAuthority(host, port);
    var authority := host + ":" + NatToDecimal(port);
    var t := new Tunnel(authority, None, head, 100, proxy, false);
    var rec := Action.Record(Storage.NewConnection("https://" + host + ":" + NatToDecimal(port), "connected", "https", None, Some(20)));
    t.OnConnect(proxy, 120);
    assert t.trace == [ServerConnect(host, port)] + [ClientWrite(EstablishedReply), ServerWrite(head)] + [rec] + [StartRelay];
    t.OnClientData(up);
    t.OnServerData(down);
    t.OnServerTimeout();
    t.OnClientData(late);
    t.OnServerData(late);
    trace, client, server, timeout := t.trace, t.client, t.server, t.timeout;
  }
}
