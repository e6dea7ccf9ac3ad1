/**
 * `MemStorage`: the in-memory store of connection records and of the single settings
 * record. The `Map` of records is kept as its entries in insertion order (the order in which
 * a JavaScript `Map` yields its values); each record's key is its id. Ids are supplied by the
 * caller as fresh values (`randomUUID`) and times as instants in milliseconds (`new Date()`).
 */
module Storage {
  import opened Wrappers

  type Id = string
  type Instant = int

  /** `InsertProxyConnection`: what callers hand to `createConnection`. */
  datatype NewConnection = NewConnection(
    url: string,
    status: string,
    protocol: string,
    userAgent: Option<string>,
    responseTime: Option<int>)

  /** `ProxyConnection`: a stored record (`None` is `null`). */
  datatype Connection = Connection(
    id: Id,
    url: string,
    status: string,
    protocol: string,
    timestamp: Instant,
    userAgent: Option<string>,
    responseTime: Option<int>)

  /** `InsertProxySettings`: every field may be missing or `null` (`None`). */
  datatype SettingsInput = SettingsInput(
    sslVerification: Option<bool>,
    autoConnect: Option<bool>,
    blockAds: Option<bool>,
    enableLogging: Option<bool>,
    connectionTimeout: Option<int>,
    maxConnections: Option<int>)

  /** `ProxySettings`; `connectionTimeout` is in seconds here. */
  datatype Settings = Settings(
    id: Id,
    sslVerification: bool,
    autoConnect: bool,
    blockAds: bool,
    enableLogging: bool,
    connectionTimeout: int,
    maxConnections: int,
    createdAt: Instant)

  const NoSettings := SettingsInput(None, None, None, None, None, None)

  /** `x || null` on an optional string: the empty string is falsy. */
  function OrNullText(x: Option<string>): Option<string> {
    if x.Some? && x.value != "" then x else None
  }

  /** `x || null` on an optional number: 0 is falsy. */
  function OrNullNumber(x: Option<int>): Option<int> {
    if x.Some? && x.value != 0 then x else None
  }

  /** The record `createConnection` builds from `input`. */
  function Stored(input: NewConnection, id: Id, now: Instant): (c: Connection)
    ensures c.id == id && c.timestamp == now
    ensures c.url == input.url && c.status == input.status && c.protocol == input.protocol
    ensures c.userAgent.Some? <==> input.userAgent.Some? && input.userAgent.value != ""
    ensures c.userAgent.Some? ==> c.userAgent == input.userAgent
    ensures c.responseTime.Some? <==> input.responseTime.Some? && input.responseTime.value != 0
    ensures c.responseTime.Some? ==> c.responseTime == input.responseTime
  {
    Connection(id, input.url, input.status, input.protocol, now,
               OrNullText(input.userAgent), OrNullNumber(input.responseTime))
  }

  // ---------------------------------------------------------------- ordering

  /** Newest first: timestamps never increase along the sequence. */
  predicate NewestFirst(s: seq<Connection>) {
    forall i, j :: 0 <= i < j < |s| ==> s[i].timestamp >= s[j].timestamp
  }

  predicate DistinctIds(s: seq<Connection>) {
    forall i, j :: 0 <= i < j < |s| ==> s[i].id != s[j].id
  }

  predicate HasId(s: seq<Connection>, id: Id) {
    exists i :: 0 <= i < |s| && s[i].id == id
  }

  /**
   * Places `c` before the first element that is not newer than it: the step of a stable
   * sort with the comparator `(a, b) => b.timestamp - a.timestamp` when `c` came first.
   */
  function Insert(c: Connection, sorted: seq<Connection>): (r: seq<Connection>)
    ensures multiset(r) == multiset(sorted) + multiset{c}
    ensures |r| == |sorted| + 1
    ensures forall x :: x in r ==> x == c || x in sorted
  {
    if sorted == [] || sorted[0].timestamp <= c.timestamp then [c] + sorted
    else
      assert sorted == [sorted[0]] + sorted[1..];
      [sorted[0]] + Insert(c, sorted[1..])
  }

  /** Inserting into a list that is newest first keeps it newest first. */
  lemma {:induction false} InsertSorted(c: Connection, sorted: seq<Connection>)
    requires NewestFirst(sorted)
    ensures NewestFirst(Insert(c, sorted))
    decreases |sorted|
  {
    if sorted == [] || sorted[0].timestamp <= c.timestamp {
      forall y | y in sorted
        ensures y.timestamp <= c.timestamp
      {
        var j :| 0 <= j < |sorted| && sorted[j] == y;
        assert sorted[0].timestamp >= sorted[j].timestamp;
      }
      PrependNewestStep(c, sorted);
    } else {
      var t := sorted[1..];
      InsertSorted(c, t);
      var rest := Insert(c, t);
      forall y | y in rest
        ensures y.timestamp <= sorted[0].timestamp
      {
        if y != c {
          var j :| 0 <= j < |t| && t[j] == y;
          assert sorted[j + 1] == y;
        }
      }
      PrependNewestStep(sorted[0], rest);
    }
  }

  lemma PrependNewest(x: Connection, s: seq<Connection>)
    ensures NewestFirst(s) && (forall y :: y in s ==> y.timestamp <= x.timestamp) ==> NewestFirst([x] + s)
  {
    if NewestFirst(s) && (forall y :: y in s ==> y.timestamp <= x.timestamp) {
      PrependNewestStep(x, s);
    }
  }

  lemma PrependNewestStep(x: Connection, s: seq<Connection>)
    requires NewestFirst(s)
    requires forall y :: y in s ==> y.timestamp <= x.timestamp
    ensures NewestFirst([x] + s)
  {
    forall i, j | 0 <= i < j < |[x] + s|
      ensures ([x] + s)[i].timestamp >= ([x] + s)[j].timestamp
    {
      if i > 0 {
        assert ([x] + s)[i] == s[i - 1];
      }
      assert ([x] + s)[j] == s[j - 1];
    }
  }

  /** The order `getConnections` returns: newest first, ties in insertion order. */
  function SortNewestFirst(s: seq<Connection>): (r: seq<Connection>)
    ensures NewestFirst(r)
    ensures multiset(r) == multiset(s)
  {
    if s == [] then []
    else
      assert s == [s[0]] + s[1..];
      InsertSorted(s[0], SortNewestFirst(s[1..]));
      Insert(s[0], SortNewestFirst(s[1..]))
  }

  /** `.filter((conn) => conn.status === status)`. */
  function WithStatus(s: seq<Connection>, status: string): (r: seq<Connection>)
    ensures |r| <= |s|
    ensures forall c :: c in r <==> c in s && c.status == status
  {
    if s == [] then []
    else
      assert s == [s[0]] + s[1..];
      (if s[0].status == status then [s[0]] else []) + WithStatus(s[1..], status)
  }

  lemma WithStatusCons(x: Connection, s: seq<Connection>, status: string)
    ensures WithStatus([x] + s, status) ==
            (if x.status == status then [x] else []) + WithStatus(s, status)
  {
    assert ([x] + s)[1..] == s;
  }

  /** Filtering keeps a list newest first. */
  lemma {:induction false} WithStatusSorted(t: seq<Connection>, status: string)
    requires NewestFirst(t)
    ensures NewestFirst(WithStatus(t, status))
    decreases |t|
  {
    if t != [] {
      WithStatusSorted(t[1..], status);
      var ft := WithStatus(t[1..], status);
      assert forall x :: x in ft ==> x in t[1..];
      if t[0].status == status {
        PrependNewest(t[0], ft);
      }
    }
  }

  lemma InsertAfter(c: Connection, x: Connection, t: seq<Connection>)
    requires NewestFirst([x] + t) && NewestFirst(t)
    requires x.timestamp > c.timestamp
    ensures Insert(c, [x] + t) == [x] + Insert(c, t)
  {
    assert ([x] + t)[1..] == t;
  }

  lemma InsertFront(c: Connection, t: seq<Connection>)
    requires t == [] || t[0].timestamp <= c.timestamp
    ensures Insert(c, t) == [c] + t
  {
  }

  /** The first record a filter keeps is no newer than the list's first. */
  lemma WithStatusHead(t: seq<Connection>, status: string)
    requires NewestFirst(t)
    requires WithStatus(t, status) != []
    ensures t != [] && WithStatus(t, status)[0].timestamp <= t[0].timestamp
  {
    var ft := WithStatus(t, status);
    assert ft[0] in ft;
    var k :| 0 <= k < |t| && t[k] == ft[0];
    if k > 0 {
      assert t[0].timestamp >= t[k].timestamp;
    }
  }

  lemma WithStatusInsertFirst(c: Connection, t: seq<Connection>, status: string)
    requires NewestFirst(t)
    requires t == [] || t[0].timestamp <= c.timestamp
    ensures WithStatus(Insert(c, t), status) ==
            if c.status == status then Insert(c, WithStatus(t, status)) else WithStatus(t, status)
  {
    var ft := WithStatus(t, status);
    InsertFront(c, t);
    WithStatusCons(c, t, status);
    if c.status == status {
      if ft != [] {
        WithStatusHead(t, status);
      }
      InsertFront(c, ft);
    }
  }

  /** One step of the commutation below, from the claim for the tail `t1`. */
  lemma WithStatusInsertLater(c: Connection, x: Connection, t1: seq<Connection>, status: string)
    requires NewestFirst([x] + t1) && NewestFirst(t1)
    requires x.timestamp > c.timestamp
    requires WithStatus(Insert(c, t1), status) ==
             if c.status == status then Insert(c, WithStatus(t1, status)) else WithStatus(t1, status)
    ensures WithStatus(Insert(c, [x] + t1), status) ==
            if c.status == status then Insert(c, WithStatus([x] + t1, status)) else WithStatus([x] + t1, status)
  {
    var a := Insert(c, t1);
    var ft1 := WithStatus(t1, status);
    InsertAfter(c, x, t1);
    WithStatusCons(x, a, status);
    WithStatusCons(x, t1, status);
    if x.status != status {
      assert [] + WithStatus(a, status) == WithStatus(a, status);
      assert [] + ft1 == ft1;
    } else if c.status == status {
      WithStatusSorted([x] + t1, status);
      WithStatusSorted(t1, status);
      InsertAfter(c, x, ft1);
    }
  }

  /** Inserting into a sorted list commutes with filtering it. */
  lemma {:induction false} WithStatusInsert(c: Connection, t: seq<Connection>, status: string)
    requires NewestFirst(t)
    ensures WithStatus(Insert(c, t), status) ==
            if c.status == status then Insert(c, WithStatus(t, status)) else WithStatus(t, status)
    decreases |t|
  {
    if t == [] || t[0].timestamp <= c.timestamp {
      WithStatusInsertFirst(c, t, status);
    } else {
      var t1 := t[1..];
      assert t == [t[0]] + t1;
      WithStatusInsert(c, t1, status);
      WithStatusInsertLater(c, t[0], t1, status);
    }
  }

  /**
   * Filtering then sorting (what `getConnectionsByStatus` does) gives the records
   * `getConnections` returns with that status, in the same order.
   */
  lemma {:induction false} SortThenFilter(s: seq<Connection>, status: string)
    ensures SortNewestFirst(WithStatus(s, status)) == WithStatus(SortNewestFirst(s), status)
    decreases |s|
  {
    if s != [] {
      var x, t := s[0], s[1..];
      SortThenFilter(t, status);
      WithStatusInsert(x, SortNewestFirst(t), status);
      FilterCons(s, status);
      if x.status == status {
        SortCons(x, WithStatus(t, status));
      }
    }
  }

  /** One unfolding of the filter at the head of a non-empty list. */
  lemma FilterCons(s: seq<Connection>, status: string)
    requires s != []
    ensures WithStatus(s, status) ==
            if s[0].status == status then [s[0]] + WithStatus(s[1..], status) else WithStatus(s[1..], status)
  {
  }

  /** One unfolding of the sort at the head of a list. */
  lemma SortCons(x: Connection, t: seq<Connection>)
    ensures SortNewestFirst([x] + t) == Insert(x, SortNewestFirst(t))
  {
    assert ([x] + t)[0] == x && ([x] + t)[1..] == t;
  }

  /** No id is repeated in the sorted list when none is in the input. */
  lemma {:induction false} SortKeepsIdsDistinct(s: seq<Connection>)
    requires DistinctIds(s)
    ensures DistinctIds(SortNewestFirst(s))
    decreases |s|
  {
    if s != [] {
      SortKeepsIdsDistinct(s[1..]);
      var t := SortNewestFirst(s[1..]);
      forall x | x in t
        ensures x.id != s[0].id
      {
        assert x in multiset(s[1..]);
        var j :| 0 <= j < |s[1..]| && s[1..][j] == x;
        assert s[j + 1] == x;
      }
      InsertKeepsIdsDistinct(s[0], t);
    }
  }

  lemma {:induction false} InsertKeepsIdsDistinct(c: Connection, t: seq<Connection>)
    requires NewestFirst(t) && DistinctIds(t)
    requires forall x :: x in t ==> x.id != c.id
    ensures DistinctIds(Insert(c, t))
    decreases |t|
  {
    if t != [] && t[0].timestamp > c.timestamp {
      InsertKeepsIdsDistinct(c, t[1..]);
      var rest := Insert(c, t[1..]);
      forall x | x in rest
        ensures x.id != t[0].id
      {
        assert x in multiset(rest);
        assert x == c || x in multiset(t[1..]);
      }
    }
  }

  // ---------------------------------------------------------------- settings

  /** The record `updateSettings` stores: absent (`null`/`undefined`) fields take their defaults, `false` and 0 are kept. */
  function UpdatedSettings(current: Option<Settings>, input: SettingsInput, freshId: Id, now: Instant): (r: Settings)
    ensures current.Some? && current.value.id != "" ==> r.id == current.value.id
    ensures current.None? || current.value.id == "" ==> r.id == freshId
    ensures r.createdAt == if current.Some? then current.value.createdAt else now
    ensures input.sslVerification.Some? ==> r.sslVerification == input.sslVerification.value
    ensures input.autoConnect.Some? ==> r.autoConnect == input.autoConnect.value
    ensures input.blockAds.Some? ==> r.blockAds == input.blockAds.value
    ensures input.enableLogging.Some? ==> r.enableLogging == input.enableLogging.value
    ensures input.connectionTimeout.Some? ==> r.connectionTimeout == input.connectionTimeout.value
    ensures input.maxConnections.Some? ==> r.maxConnections == input.maxConnections.value
    ensures input.sslVerification.None? ==> r.sslVerification
    ensures input.autoConnect.None? ==> !r.autoConnect
    ensures input.blockAds.None? ==> r.blockAds
    ensures input.enableLogging.None? ==> r.enableLogging
    ensures input.connectionTimeout.None? ==> r.connectionTimeout == 10
    ensures input.maxConnections.None? ==> r.maxConnections == 5
  {
    Settings(
      if current.Some? && current.value.id != "" then current.value.id else freshId,
      input.sslVerification.GetOr(true),
      input.autoConnect.GetOr(false),
      input.blockAds.GetOr(true),
      input.enableLogging.GetOr(true),
      input.connectionTimeout.GetOr(10),
      input.maxConnections.GetOr(5),
      // a stored `Date` is an object, so `createdAt || new Date()` keeps it
      if current.Some? then current.value.createdAt else now)
  }

  /** The record `createDefaultSettings` stores. */
  function DefaultSettings(freshId: Id, now: Instant): Settings {
    Settings(freshId, true, false, true, true, 10, 5, now)
  }

  /** Updating nothing into an empty store gives exactly the default record. */
  lemma UpdateFromNothingIsDefault(freshId: Id, now: Instant)
    ensures UpdatedSettings(None, NoSettings, freshId, now) == DefaultSettings(freshId, now)
  {
  }

  /**
   * The two defaulting rules differ on falsy values: `createConnection` (`||`) drops a
   * response time of 0, `updateSettings` (`??`) keeps a timeout of 0 and a `false` flag.
   */
  lemma FalsyVersusNullish(input: NewConnection, id: Id, now: Instant, current: Option<Settings>, s: SettingsInput, freshId: Id)
    requires input.responseTime == Some(0)
    requires s.connectionTimeout == Some(0) && s.enableLogging == Some(false)
    ensures Stored(input, id, now).responseTime.None?
    ensures UpdatedSettings(current, s, freshId, now).connectionTimeout == 0
    ensures !UpdatedSettings(current, s, freshId, now).enableLogging
  {
  }

  class MemStorage {
    /** The entries of the `Map`, in insertion order. */
    var connections: seq<Connection>
    var settings: Option<Settings>

    /** Keys of a `Map` are unique. */
    ghost predicate Valid()
      reads this
    {
      DistinctIds(connections)
    }

    constructor ()
      ensures Valid()
      ensures connections == [] && settings.None?
    {
      connections := [];
      settings := None;
    }

    /** `createConnection`: one new record under the fresh id; every earlier record is kept as it was. */
    method CreateConnection(input: NewConnection, id: Id, now: Instant) returns (c: Connection)
      requires Valid()
      requires !HasId(connections, id)
      modifies this
      ensures Valid()
      ensures c == Stored(input, id, now)
      ensures connections == old(connections) + [c]
      ensures settings == old(settings)
    {
      c := Stored(input, id, now);
      connections := connections + [c];
    }

    /** `getConnections`: every stored record exactly once, newest first. */
    function GetConnections(): (r: seq<Connection>)
      reads this
      requires Valid()
      ensures NewestFirst(r)
      ensures multiset(r) == multiset(connections)
      ensures DistinctIds(r)
    {
      SortKeepsIdsDistinct(connections);
      SortNewestFirst(connections)
    }

    /** `getConnectionsByStatus`: the records with that status, in the order `getConnections` gives them. */
    function GetConnectionsByStatus(status: string): (r: seq<Connection>)
      reads this
      requires Valid()
      ensures r == WithStatus(GetConnections(), status)
      ensures forall c :: c in r <==> c in connections && c.status == status
      ensures |r| <= |GetConnections()|
    {
      SortThenFilter(connections, status);
      assert forall c :: c in GetConnections() <==> c in multiset(connections);
      SortNewestFirst(WithStatus(connections, status))
    }

    /** `clearConnections`: no records remain; the settings are untouched. */
    method ClearConnections()
      requires Valid()
      modifies this
      ensures Valid()
      ensures connections == [] && settings == old(settings)
    {
      connections := [];
    }

    /** `getSettings`: the record last stored, if any. */
    function GetSettings(): (r: Option<Settings>)
      reads this
      ensures r == settings
    {
      settings
    }

    /** `updateSettings`. */
    method UpdateSettings(input: SettingsInput, freshId: Id, now: Instant) returns (r: Settings)
      requires Valid()
      modifies this
      ensures Valid()
      ensures r == UpdatedSettings(old(settings), input, freshId, now)
      ensures settings == Some(r) && connections == old(connections)
    {
      r := UpdatedSettings(settings, input, freshId, now);
      settings := Some(r);
    }

    /** `createDefaultSettings`: the defaults under a fresh id, whatever was stored before. */
    method CreateDefaultSettings(freshId: Id, now: Instant) returns (r: Settings)
      requires Valid()
      modifies this
      ensures Valid()
      ensures r == DefaultSettings(freshId, now)
      ensures settings == Some(r) && connections == old(connections)
    {
      r := DefaultSettings(freshId, now);
      settings := Some(r);
    }
  }

  /** What a client of the store observes: the last settings written are the ones read back, and clearing keeps them. */
  method SettingsSurviveClear(input: SettingsInput, id1: Id, id2: Id, t1: Instant, t2: Instant)
    returns (first: Settings, second: Settings, read: Option<Settings>)
    requires id1 != ""
    ensures first == DefaultSettings(id1, t1)
    ensures second.id == id1 && second.createdAt == t1
    ensures read == Some(second)
  {
    var store := new MemStorage();
    first := store.CreateDefaultSettings(id1, t1);
    second := store.UpdateSettings(input, id2, t2);
    store.ClearConnections();
    read := store.GetSettings();
  }
}
