/**
 * The connection registry (src/websocket/server.rs): organization id ->
 * application id -> the ordered list of live connection addresses. Each
 * method is one section run under the registry's lock.
 */
module Server {
  import opened Wrappers
  import opened ObjectIds
  import opened Connection

  type Registry = map<ObjectId, map<ObjectId, seq<Addr>>>

  /** The list registered for a scope; an absent organization or application reads as the empty list. */
  function Connections(m: Registry, org: ObjectId, app: ObjectId): seq<Addr>
  {
    if org in m && app in m[org] then m[org][app] else []
  }

  /** The lookup of `get_connection`: the element at index 0 of the scope's list. */
  function First(m: Registry, org: ObjectId, app: ObjectId): (conn: Option<Addr>)
    ensures conn.None? <==> Connections(m, org, app) == []
    ensures conn.Some? ==> conn.value == Connections(m, org, app)[0]
  {
    match Get(m, org)
    case None => None
    case Some(apps) =>
      match Get(apps, app)
      case None => None
      case Some(list) => if |list| == 0 then None else Some(list[0])
  }

  /** The registry after `add_connection`: `entry().or_default()` twice, then a push at the tail. */
  function Added(m: Registry, org: ObjectId, app: ObjectId, conn: Addr): (r: Registry)
    ensures r.Keys == m.Keys + {org}
    ensures r[org].Keys == (if org in m then m[org].Keys else {}) + {app}
    ensures Connections(r, org, app) == Connections(m, org, app) + [conn]
    ensures forall o :: o in m && o != org ==> r[o] == m[o]
    ensures org in m ==> forall a :: a in m[org] && a != app ==> r[org][a] == m[org][a]
    ensures forall o, a :: (o != org || a != app) ==> Connections(r, o, a) == Connections(m, o, a)
  {
    var apps: map<ObjectId, seq<Addr>> := if org in m then m[org] else map[];
    var list := if app in apps then apps[app] else [];
    m[org := apps[app := list + [conn]]]
  }

  /** The list left by `retain(|c| c != &conn)`: every element equal to `conn` dropped, the others kept in order. */
  function Without(list: seq<Addr>, conn: Addr): (r: seq<Addr>)
    ensures conn !in r
    ensures |r| <= |list|
  {
    if list == [] then []
    else (if list[0] == conn then [] else [list[0]]) + Without(list[1..], conn)
  }

  /** Every other connection survives the filter, as often as it occurred. */
  lemma {:induction false} WithoutKeepsOthers(list: seq<Addr>, conn: Addr)
    ensures multiset(Without(list, conn)) == multiset(list)[conn := 0]
  {
    if list != [] {
      assert list == [list[0]] + list[1..];
      WithoutKeepsOthers(list[1..], conn);
    }
  }

  /** Filtering distributes over concatenation, so the survivors keep their relative order. */
  lemma {:induction false} WithoutAppend(s: seq<Addr>, t: seq<Addr>, conn: Addr)
    ensures Without(s + t, conn) == Without(s, conn) + Without(t, conn)
  {
    if s == [] {
      assert s + t == t;
    } else {
      assert (s + t)[1..] == s[1..] + t;
      WithoutAppend(s[1..], t, conn);
    }
  }

  /** A list without `conn` is left exactly as it was. */
  lemma {:induction false} WithoutAbsent(list: seq<Addr>, conn: Addr)
    requires conn !in list
    ensures Without(list, conn) == list
  {
    if list != [] {
      WithoutAbsent(list[1..], conn);
    }
  }

  /** `Vec::retain`: one pass from the front, keeping each element that differs from `conn`. */
  method Retain(list: seq<Addr>, conn: Addr) returns (kept: seq<Addr>)
    ensures kept == Without(list, conn)
  {
    kept := [];
    var i := 0;
    while i < |list|
      invariant 0 <= i <= |list|
      invariant kept == Without(list[..i], conn)
    {
      assert list[..i + 1] == list[..i] + [list[i]];
      WithoutAppend(list[..i], [list[i]], conn);
      assert Without([list[i]], conn) == if list[i] == conn then [] else [list[i]];
      if list[i] != conn {
        kept := kept + [list[i]];
      }
      i := i + 1;
    }
    assert list[..i] == list;
  }

  /** The registry after `remove_connection`: only an existing list is filtered, and no key is ever deleted. */
  function Removed(m: Registry, org: ObjectId, app: ObjectId, conn: Addr): (r: Registry)
    ensures r.Keys == m.Keys
    ensures forall o :: o in m ==> r[o].Keys == m[o].Keys
    ensures Connections(r, org, app) == Without(Connections(m, org, app), conn)
    ensures forall o, a :: (o != org || a != app) ==> Connections(r, o, a) == Connections(m, o, a)
    ensures !(org in m && app in m[org]) ==> r == m
  {
    if org in m && app in m[org] then
      var apps: map<ObjectId, seq<Addr>> := m[org];
      m[org := apps[app := Without(apps[app], conn)]]
    else m
  }

  /** A fresh registry has no connection for any scope. */
  lemma EmptyRegistryHasNoConnection(org: ObjectId, app: ObjectId)
    ensures First(map[], org, app) == None
  {
  }

  /** A new connection becomes the one returned only when the scope had none; otherwise the first stays first. */
  lemma FirstAfterAdded(m: Registry, org: ObjectId, app: ObjectId, conn: Addr)
    ensures First(Added(m, org, app, conn), org, app)
         == if Connections(m, org, app) == [] then Some(conn) else First(m, org, app)
  {
  }

  /** Removing a connection that was just added, and was not there before, restores the scope's list; when the scope existed, the whole registry. */
  lemma {:induction false} RemoveUndoesAdd(m: Registry, org: ObjectId, app: ObjectId, conn: Addr)
    requires conn !in Connections(m, org, app)
    ensures Connections(Removed(Added(m, org, app, conn), org, app, conn), org, app) == Connections(m, org, app)
    ensures org in m && app in m[org] ==> Removed(Added(m, org, app, conn), org, app, conn) == m
  {
    var list := Connections(m, org, app);
    WithoutAppend(list, [conn], conn);
    WithoutAbsent(list, conn);
    assert Without([conn], conn) == [];
    if org in m && app in m[org] {
      var apps: map<ObjectId, seq<Addr>> := m[org];
      var added := Added(m, org, app, conn);
      assert added == m[org := apps[app := list + [conn]]];
      var addedApps: map<ObjectId, seq<Addr>> := added[org];
      var r := Removed(added, org, app, conn);
      assert r == added[org := addedApps[app := Without(list + [conn], conn)]];
      assert Without(list + [conn], conn) == list;
      assert addedApps == apps[app := list + [conn]];
      assert r[org] == addedApps[app := list];
      assert addedApps[app := list] == apps[app := list];
      assert apps[app := list] == apps;
    }
  }

  /** `WebSocketServer`: the shared registry under its lock. */
  class WebSocketServer {
    var connections: Registry

    /** `WebSocketServer::new`. */
    constructor ()
      ensures connections == map[]
    {
      connections := map[];
    }

    /** `add_connection`. */
    method AddConnection(org: ObjectId, app: ObjectId, conn: Addr)
      modifies this
      ensures connections == Added(old(connections), org, app, conn)
    {
      var apps: map<ObjectId, seq<Addr>> := if org in connections then connections[org] else map[];
      var list := if app in apps then apps[app] else [];
      connections := connections[org := apps[app := list + [conn]]];
    }

    /** `remove_connection`. */
    method RemoveConnection(org: ObjectId, app: ObjectId, conn: Addr)
      modifies this
      ensures connections == Removed(old(connections), org, app, conn)
    {
      if org in connections {
        var apps: map<ObjectId, seq<Addr>> := connections[org];
        if app in apps {
          var kept := Retain(apps[app], conn);
          connections := connections[org := apps[app := kept]];
        }
      }
    }

    /** `get_connection`: a read-only lookup of the first connection in scope. */
    method GetConnection(org: ObjectId, app: ObjectId) returns (conn: Option<Addr>)
      ensures conn == First(connections, org, app)
      ensures conn.None? <==> Connections(connections, org, app) == []
    {
      conn := None;
      if org in connections {
        var apps := connections[org];
        if app in apps && |apps[app]| > 0 {
          conn := Some(apps[app][0]);
        }
      }
    }

    /** `push_log_id`: one SendLogId to the first connection in scope, reporting whether there was one; the registry is only read. */
    method PushLogId(org: ObjectId, app: ObjectId, logId: ObjectId, outbox: Outbox) returns (pushed: bool)
      modifies outbox
      ensures pushed <==> First(connections, org, app).Some?
      ensures outbox.sent == old(outbox.sent)
        + (if pushed then [Envelope(First(connections, org, app).value, SendLogId(logId))] else [])
      ensures connections == old(connections)
    {
      var conn := GetConnection(org, app);
      if conn.Some? {
        outbox.DoSend(conn.value, SendLogId(logId));
        pushed := true;
      } else {
        pushed := false;
      }
    }
  }
}
