/**
 * The state `ProxyServer` keeps across connections: the set of accepted sockets that have not
 * yet closed, and the current options. Sockets are identified by an abstract handle.
 */
module Registry {
  import opened Wrappers
  import opened Options

  /** An accepted client socket (its object identity). */
  type SocketId = nat

  class ProxyServer {
    var activeConnections: set<SocketId>
    var options: ProxyServerOptions

    /** `new ProxyServer(options)`: the defaults, overridden by every key the caller gives. */
    constructor (given: OptionsPatch)
      ensures activeConnections == {}
      ensures options == Merge(Defaults, given)
    {
      activeConnections := {};
      options := Merge(Defaults, given);
    }

    /**
     * `handleConnection`: a newly accepted socket joins the set. The result is the idle
     * timeout installed on it; when it fires the socket is destroyed, and its close event
     * (`OnSocketClose`) removes it again.
     */
    method HandleConnection(socket: SocketId) returns (timeout: nat)
      modifies this
      ensures activeConnections == old(activeConnections) + {socket}
      ensures options == old(options)
      ensures timeout == EffectiveTimeout(options) && timeout > 0
    {
      activeConnections := activeConnections + {socket};
      timeout := EffectiveTimeout(options);
    }

    /** The socket's `close` event. */
    method OnSocketClose(socket: SocketId)
      modifies this
      ensures activeConnections == old(activeConnections) - {socket}
      ensures options == old(options)
    {
      activeConnections := activeConnections - {socket};
    }

    /** `updateOptions`: a shallow merge; the registry is untouched. */
    method UpdateOptions(patch: OptionsPatch)
      modifies this
      ensures options == Merge(old(options), patch)
      ensures activeConnections == old(activeConnections)
    {
      options := Merge(options, patch);
    }

    /** `getActiveConnectionsCount`. */
    function ActiveConnectionsCount(): (n: nat)
      reads this
      ensures n == |activeConnections|
    {
      |activeConnections|
    }
  }

  /** An event the registry sees: a socket accepted, a socket's `close`, or `updateOptions`. */
  datatype Event = Accepted(socket: SocketId) | Closed(socket: SocketId) | Updated(patch: OptionsPatch)

  /** The set of open sockets after `events`, starting from `open`. */
  function Members(open: set<SocketId>, events: seq<Event>): set<SocketId>
    decreases |events|
  {
    if events == [] then open
    else
      var before := Members(open, events[..|events| - 1]);
      match events[|events| - 1]
      case Accepted(s) => before + {s}
      case Closed(s) => before - {s}
      case Updated(_) => before
  }

  /** The last event of `events` that names socket `s`. */
  function LastAbout(events: seq<Event>, s: SocketId): (r: Option<Event>)
    ensures r.Some? ==> r.value == Accepted(s) || r.value == Closed(s)
    decreases |events|
  {
    if events == [] then None
    else if events[|events| - 1] == Accepted(s) || events[|events| - 1] == Closed(s) then Some(events[|events| - 1])
    else LastAbout(events[..|events| - 1], s)
  }

  /**
   * A socket is open after a run of events exactly when the last event naming it accepted it,
   * or no event names it and it was open before: what other sockets and option updates do
   * never matters.
   */
  lemma {:induction false} OpenUntilClosed(open: set<SocketId>, events: seq<Event>, s: SocketId)
    ensures s in Members(open, events) <==>
              LastAbout(events, s) == Some(Accepted(s)) || (LastAbout(events, s).None? && s in open)
    decreases |events|
  {
    if events != [] {
      OpenUntilClosed(open, events[..|events| - 1], s);
    }
  }

  /** Feeds `events` to the server one by one, in order. */
  method Replay(server: ProxyServer, events: seq<Event>)
    modifies server
    ensures server.activeConnections == Members(old(server.activeConnections), events)
  {
    ghost var open := server.activeConnections;
    var i := 0;
    while i < |events|
      invariant 0 <= i <= |events|
      invariant server.activeConnections == Members(open, events[..i])
    {
      assert events[..i + 1][..i] == events[..i];
      match events[i] {
        case Accepted(s) => var _ := server.HandleConnection(s);
        case Closed(s) => server.OnSocketClose(s);
        case Updated(p) => server.UpdateOptions(p);
      }
      i := i + 1;
    }
    assert events[..|events|] == events;
  }

  /**
   * One run: two sockets accepted, the second closed, then the first; the count follows
   * each socket's own events, and with no options given the installed timeout is 10000.
   */
  method AcceptedUntilClosed(a: SocketId, b: SocketId) returns (during: nat, afterOther: nat, afterOwn: nat, timeout: nat)
    requires a != b
    ensures during == 2 && afterOther == 1 && afterOwn == 0
    ensures timeout == 10000
  {
    var server := new ProxyServer(NoChanges);
    timeout := server.HandleConnection(a);
    var _ := server.HandleConnection(b);
    during := server.ActiveConnectionsCount();
    server.OnSocketClose(b);
    afterOther := server.ActiveConnectionsCount();
    assert server.activeConnections == {a};
    server.OnSocketClose(a);
    afterOwn := server.ActiveConnectionsCount();
  }
}
