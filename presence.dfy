/** The presence registry `userSocketMap`: a plain JavaScript object from
    user id to socket id. `Object.keys` lists its keys in insertion order, so
    the object is modelled as an ordered map: `keys` is that order. */
module Presence {
  import opened JsValues

  datatype SocketMap = SocketMap(sockets: map<UserId, SocketId>, keys: seq<UserId>)

  /** The empty registry the server starts with. */
  const Empty := SocketMap(map[], [])

  predicate NoDup<T(==)>(s: seq<T>) {
    forall i, j :: 0 <= i < j < |s| ==> s[i] != s[j]
  }

  /** The registry invariant: `keys` lists every bound user exactly once, and
      only truthy user ids are ever bound. */
  predicate Consistent(m: SocketMap) {
    && NoDup(m.keys)
    && (forall u :: u in m.keys ==> u in m.sockets)
    && (forall u :: u in m.sockets ==> u in m.keys)
    && (forall u :: u in m.sockets ==> u != "")
  }

  /** `userSocketMap[userId]`, i.e. `getReceiverSocketId`. */
  function Get(m: SocketMap, u: UserId): (r: Option<SocketId>)
    ensures r.Some? <==> u in m.sockets
    ensures r.Some? ==> r.value == m.sockets[u]
  {
    if u in m.sockets then Some(m.sockets[u]) else None
  }

  /** `s` without the element `x`, keeping the order of the rest. */
  function Remove(s: seq<UserId>, x: UserId): (r: seq<UserId>)
    ensures forall y :: y in r <==> y in s && y != x
    ensures NoDup(s) ==> NoDup(r)
    ensures x !in s ==> r == s
    ensures |r| <= |s|
  {
    if s == [] then []
    else
      var rest := Remove(s[1..], x);
      if s[0] == x then rest
      else
        assert NoDup(s) ==> NoDup(s[1..]) && s[0] !in s[1..] by {
          if NoDup(s) {
            forall i, j | 0 <= i < j < |s[1..]| ensures s[1..][i] != s[1..][j] {
              assert s[1..][i] == s[i + 1] && s[1..][j] == s[j + 1];
            }
          }
        }
        [s[0]] + rest
  }

  /** `userSocketMap[u] = s`: a new key goes last, an existing key keeps its
      place and gets the new socket (last writer wins). */
  function Set(m: SocketMap, u: UserId, s: SocketId): (r: SocketMap)
    requires Consistent(m) && u != ""
    ensures Consistent(r)
    ensures Get(r, u) == Some(s)
    ensures forall v :: v != u ==> Get(r, v) == Get(m, v)
    ensures u in m.sockets ==> r.keys == m.keys
    ensures u !in m.sockets ==> r.keys == m.keys + [u]
  {
    var keys := if u in m.sockets then m.keys else m.keys + [u];
    assert u !in m.sockets ==> forall i :: 0 <= i < |m.keys| ==> keys[i] == m.keys[i] != u;
    SocketMap(m.sockets[u := s], keys)
  }

  /** `delete userSocketMap[k]`: the key leaves the map and the key order;
      deleting an absent key changes nothing. */
  function Delete(m: SocketMap, k: UserId): (r: SocketMap)
    requires Consistent(m)
    ensures Consistent(r)
    ensures Get(r, k) == None
    ensures forall v :: v != k ==> Get(r, v) == Get(m, v)
    ensures k !in m.sockets ==> r == m
  {
    SocketMap(m.sockets - {k}, Remove(m.keys, k))
  }

  /** The connection handler's registry step: bind the handshake userId to
      the new socket only when it is truthy. */
  function OnConnect(m: SocketMap, socket: SocketId, handshake: Option<UserId>): (r: SocketMap)
    requires Consistent(m)
    ensures Consistent(r)
    ensures !FalsyString(handshake) ==> Get(r, handshake.value) == Some(socket)
    ensures forall v :: v != PropertyKey(handshake) ==> Get(r, v) == Get(m, v)
    ensures FalsyString(handshake) ==> r == m
  {
    if FalsyString(handshake) then m else Set(m, handshake.value, socket)
  }

  /** The disconnect handler's registry step: delete by the userId captured
      at connect time, whatever socket that user is bound to now. A connection
      without a userId deletes the key "undefined". */
  function OnDisconnect(m: SocketMap, handshake: Option<UserId>): (r: SocketMap)
    requires Consistent(m)
    ensures Consistent(r)
    ensures Get(r, PropertyKey(handshake)) == None
    ensures forall v :: v != PropertyKey(handshake) ==> Get(r, v) == Get(m, v)
    ensures handshake == Some("") ==> r == m
  {
    Delete(m, PropertyKey(handshake))
  }

  /** One connection-lifecycle event, as the registry sees it. A disconnect
      carries the handshake userId of the connection that closes. */
  datatype Lifecycle =
    | Connected(socket: SocketId, handshake: Option<UserId>)
    | Disconnected(handshake: Option<UserId>)

  function Step(m: SocketMap, e: Lifecycle): (r: SocketMap)
    requires Consistent(m)
    ensures Consistent(r)
    ensures forall v :: !Names(e, v) ==> Get(r, v) == Get(m, v)
  {
    match e
    case Connected(s, h) => OnConnect(m, s, h)
    case Disconnected(h) => OnDisconnect(m, h)
  }

  /** The registry after a whole history of connects and disconnects. */
  function Replay(m: SocketMap, trace: seq<Lifecycle>): (r: SocketMap)
    requires Consistent(m)
    ensures Consistent(r)
    decreases |trace|
  {
    if trace == [] then m
    else Step(Replay(m, trace[..|trace| - 1]), trace[|trace| - 1])
  }

  /** Reference definition of who `u` is bound to after `trace`: the last
      event whose key is `u` decides (a truthy connect binds, a disconnect
      unbinds); with no such event the binding is `initial`. */
  function LastBinding(trace: seq<Lifecycle>, u: UserId, initial: Option<SocketId>): Option<SocketId>
    decreases |trace|
  {
    if trace == [] then initial
    else
      var e := trace[|trace| - 1];
      if e.Connected? && e.handshake == Some(u) && u != "" then Some(e.socket)
      else if e.Disconnected? && PropertyKey(e.handshake) == u then None
      else LastBinding(trace[..|trace| - 1], u, initial)
  }

  /** Replaying any history agrees with the reference definition. */
  lemma {:induction false} ReplayResolves(m: SocketMap, trace: seq<Lifecycle>, u: UserId)
    requires Consistent(m)
    ensures Get(Replay(m, trace), u) == LastBinding(trace, u, Get(m, u))
    decreases |trace|
  {
    if trace != [] {
      ReplayResolves(m, trace[..|trace| - 1], u);
    }
  }

  /** Whether a lifecycle event touches the registry key `u`. */
  predicate Names(e: Lifecycle, u: UserId) {
    (e.Connected? && e.handshake == Some(u)) || (e.Disconnected? && PropertyKey(e.handshake) == u)
  }

  /** In the reference definition, a truthy connect of `u` at position `i`
      decides `u`'s binding when no later event names `u`. */
  lemma {:induction false} LastBindingIsLastConnect(trace: seq<Lifecycle>, i: nat, u: UserId, initial: Option<SocketId>)
    requires u != "" && i < |trace| && trace[i].Connected? && trace[i].handshake == Some(u)
    requires forall j :: i < j < |trace| ==> !Names(trace[j], u)
    ensures LastBinding(trace, u, initial) == Some(trace[i].socket)
    decreases |trace|
  {
    var n := |trace|;
    if i < n - 1 {
      assert !Names(trace[n - 1], u);
      var prefix := trace[..n - 1];
      assert forall j :: i < j < |prefix| ==> prefix[j] == trace[j];
      LastBindingIsLastConnect(prefix, i, u, initial);
    }
  }

  /** Last writer wins: after a truthy connect of `u`, later events that do
      not name `u`'s key leave `u` bound to that connect's socket. */
  lemma {:induction false} LastWriterWins(m: SocketMap, trace: seq<Lifecycle>, i: nat, u: UserId)
    requires Consistent(m) && u != ""
    requires i < |trace| && trace[i].Connected? && trace[i].handshake == Some(u)
    requires forall j :: i < j < |trace| ==> !Names(trace[j], u)
    ensures Get(Replay(m, trace), u) == Some(trace[i].socket)
  {
    ReplayResolves(m, trace, u);
    LastBindingIsLastConnect(trace, i, u, Get(m, u));
  }

  /** The stale-disconnect behaviour: `u` reconnects on a new socket, then the
      OLD connection closes; the delete by userId drops the newer, still-live
      binding. */
  lemma StaleDisconnectDropsLiveBinding(m: SocketMap, u: UserId, oldSocket: SocketId, newSocket: SocketId)
    requires Consistent(m) && u != ""
    ensures Get(Replay(m, [Connected(oldSocket, Some(u)), Connected(newSocket, Some(u))]), u) == Some(newSocket)
    ensures Get(Replay(m, [Connected(oldSocket, Some(u)), Connected(newSocket, Some(u)), Disconnected(Some(u))]), u) == None
  {
  }
}
