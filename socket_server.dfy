/** The socket server: the presence registry, the log of everything it has
    emitted and the Emergency collection, changed in place by the connection
    handlers. Each handler runs as one atomic step; the database outcome and
    the clock are parameters. */
module SocketServer {
  import opened JsValues
  import opened EmergencyModel
  import opened Presence
  import opened Outbound
  import opened SosHandlers

  /** One accepted connection: its socket id and the handshake userId captured
      when it connected (the disconnect handler closes over it). */
  datatype Connection = Connection(socket: SocketId, userId: Option<UserId>)

  class Server {
    /** `userSocketMap` */
    var userSocketMap: SocketMap
    /** Every event sent, oldest first. */
    var emitted: seq<Emission>
    /** The Emergency collection, in insertion order. */
    var store: seq<Document>

    ghost predicate Valid()
      reads this
    {
      && Consistent(userSocketMap)
      && (forall i :: 0 <= i < |store| ==> WellFormed(store[i]))
      && (forall i :: 0 <= i < |emitted| && emitted[i].payload.OnlineUsers? ==> NoDup(emitted[i].payload.users))
    }

    constructor ()
      ensures Valid()
      ensures userSocketMap == Empty && emitted == [] && store == []
    {
      userSocketMap := Empty;
      emitted := [];
      store := [];
    }

    /** `getReceiverSocketId`: the socket the user is bound to, if any. */
    method GetReceiverSocketId(userId: UserId) returns (socket: Option<SocketId>)
      ensures socket.Some? <==> userId in userSocketMap.sockets
      ensures socket.Some? ==> socket.value == userSocketMap.sockets[userId]
    {
      socket := Get(userSocketMap, userId);
    }

    /** `Object.keys(userSocketMap)`: every bound user, each once. */
    method OnlineUserIds() returns (users: seq<UserId>)
      requires Valid()
      ensures users == userSocketMap.keys
      ensures NoDup(users)
      ensures forall u :: u in users <==> u in userSocketMap.sockets
    {
      users := userSocketMap.keys;
    }

    /** `io.emit("getOnlineUsers", Object.keys(userSocketMap))` */
    method BroadcastOnlineUsers()
      requires Valid()
      modifies this`emitted
      ensures Valid()
      ensures emitted == old(emitted) + [OnlineUsersBroadcast(userSocketMap.keys)]
    {
      var users := OnlineUserIds();
      emitted := emitted + [OnlineUsersBroadcast(users)];
    }

    /** `io.to(socket).emit(event, payload)` */
    method EmitTo(socket: SocketId, event: string, payload: Payload)
      requires Valid() && !payload.OnlineUsers?
      modifies this`emitted
      ensures Valid()
      ensures emitted == old(emitted) + [Emission(Socket(socket), event, payload)]
    {
      emitted := emitted + [Emission(Socket(socket), event, payload)];
    }

    /** `await new Emergency(draft).save()`: validate, then write; `dbOk`
        is the database's answer. */
    method Save(draft: Draft, dbOk: bool, now: int) returns (saved: bool)
      requires Valid()
      modifies this`store
      ensures Valid()
      ensures saved <==> SaveOutcome(draft, dbOk, now).Some?
      ensures store == old(store) + SaveOutcome(draft, dbOk, now).ToSeq()
    {
      if !Accepts(draft) || !dbOk {
        return false;
      }
      store := store + [ToDocument(draft, now)];
      saved := true;
    }

    /** The "connection" handler: bind a truthy handshake userId to the new
        socket (replacing any earlier socket for that user), then broadcast
        the online users. */
    method Connect(socket: SocketId, handshakeUserId: Option<UserId>) returns (conn: Connection)
      requires Valid()
      modifies this`userSocketMap, this`emitted
      ensures Valid()
      ensures conn == Connection(socket, handshakeUserId)
      ensures userSocketMap == OnConnect(old(userSocketMap), socket, handshakeUserId)
      ensures !FalsyString(handshakeUserId) ==> Get(userSocketMap, handshakeUserId.value) == Some(socket)
      ensures FalsyString(handshakeUserId) ==> userSocketMap == old(userSocketMap)
      ensures emitted == old(emitted) + [OnlineUsersBroadcast(userSocketMap.keys)]
      ensures store == old(store)
    {
      var userId := handshakeUserId;
      if !FalsyString(userId) {
        userSocketMap := Set(userSocketMap, userId.value, socket);
      }
      BroadcastOnlineUsers();
      conn := Connection(socket, userId);
    }

    /** The "disconnect" handler of `conn`: delete the entry under the userId
        captured at connect time (even if that user has since rebound to a
        newer socket), then broadcast the online users. */
    method Disconnect(conn: Connection)
      requires Valid()
      modifies this`userSocketMap, this`emitted
      ensures Valid()
      ensures userSocketMap == OnDisconnect(old(userSocketMap), conn.userId)
      ensures Get(userSocketMap, PropertyKey(conn.userId)) == None
      ensures forall v :: v != PropertyKey(conn.userId) ==> Get(userSocketMap, v) == Get(old(userSocketMap), v)
      ensures emitted == old(emitted) + [OnlineUsersBroadcast(userSocketMap.keys)]
      ensures store == old(store)
    {
      userSocketMap := Delete(userSocketMap, PropertyKey(conn.userId));
      BroadcastOnlineUsers();
    }

    /** The "sosStart" handler. */
    method SosStart(ev: SosStartEvent, dbOk: bool, now: int)
      requires Valid()
      modifies this`store, this`emitted
      ensures Valid()
      ensures userSocketMap == old(userSocketMap)
      ensures store == old(store) + SosStartEffect(old(userSocketMap), ev, dbOk, now).record.ToSeq()
      ensures emitted == old(emitted) + SosStartEffect(old(userSocketMap), ev, dbOk, now).delivery.ToSeq()
    {
      if FalsyString(ev.userId) || FalsyString(ev.receiverId) || FalsyString(ev.text) {
        return;
      }
      var address := MapsAddress;
      var newEmergency := Draft(ev.userId, ev.receiverId, ev.text, ev.latitude, ev.longitude,
                                Some(address), ev.timestamp, None);
      var saved := Save(newEmergency, dbOk, now);
      if !saved {
        return;
      }
      var payload := Alert(ev.userId.value, ev.receiverId.value, ev.latitude, ev.longitude,
                           address, ev.timestamp, ev.text.value);
      var receiverSocket := GetReceiverSocketId(ev.receiverId.value);
      if receiverSocket.Some? {
        EmitTo(receiverSocket.value, NewSos, payload);
      }
    }

    /** The "sosVoice" handler. */
    method SosVoice(ev: SosVoiceEvent, dbOk: bool, now: int)
      requires Valid()
      modifies this`store, this`emitted
      ensures Valid()
      ensures userSocketMap == old(userSocketMap)
      ensures store == old(store) + SosVoiceEffect(old(userSocketMap), ev, dbOk, now).record.ToSeq()
      ensures emitted == old(emitted) + SosVoiceEffect(old(userSocketMap), ev, dbOk, now).delivery.ToSeq()
    {
      if || FalsyString(ev.userId) || FalsyString(ev.receiverId) || FalsyObject(ev.audioBlob)
         || FalsyNumber(ev.latitude) || FalsyNumber(ev.longitude) {
        return;
      }
      var newEmergencyVoice := Draft(ev.userId, ev.receiverId, Some(VoiceText), ev.latitude, ev.longitude,
                                     None, None, ev.audioBlob);
      var saved := Save(newEmergencyVoice, dbOk, now);
      if !saved {
        return;
      }
      var receiverSocket := GetReceiverSocketId(ev.receiverId.value);
      if receiverSocket.Some? {
        EmitTo(receiverSocket.value, NewSosVoice,
               Voice(ev.userId.value, ev.audioBlob.value, ev.latitude.value, ev.longitude.value));
      }
    }

    /** The "sendLiveLocation" handler. */
    method SendLiveLocation(ev: LiveLocationEvent, dbOk: bool, now: int)
      requires Valid()
      modifies this`store, this`emitted
      ensures Valid()
      ensures userSocketMap == old(userSocketMap)
      ensures store == old(store) + LiveLocationEffect(old(userSocketMap), ev, dbOk, now).record.ToSeq()
      ensures emitted == old(emitted) + LiveLocationEffect(old(userSocketMap), ev, dbOk, now).delivery.ToSeq()
    {
      if FalsyString(ev.userId) || FalsyString(ev.receiverId) {
        return;
      }
      var address := MapsAddress;
      var payload := Alert(ev.userId.value, ev.receiverId.value, ev.latitude, ev.longitude,
                           address, ev.timestamp, LiveLocationAlertText);
      var newLiveLocation := Draft(ev.userId, ev.receiverId, Some(LiveLocationRecordText),
                                   ev.latitude, ev.longitude, Some(address), ev.timestamp, None);
      var saved := Save(newLiveLocation, dbOk, now);
      if !saved {
        return;
      }
      var receiverSocket := GetReceiverSocketId(ev.receiverId.value);
      if receiverSocket.Some? {
        EmitTo(receiverSocket.value, NewLiveLocation, payload);
      }
    }
  }

  /** Two users online; A sends an SOS to B: one record, one `newSOS` to B's socket. */
  method ReceiverOnlineScenario(c1: SocketId, c2: SocketId, a: UserId, b: UserId, now: int)
    requires a != "" && b != "" && a != b
  {
    var server := new Server();
    var connA := server.Connect(c1, Some(a));
    var connB := server.Connect(c2, Some(b));
    server.SosStart(SosStartEvent(Some(a), Some(b), Some(10), Some(20), Some(now), Some("test")), true, now);
    assert server.store == [Document(a, b, "test", 10, 20, Some(MapsAddress), now, None, now, now)];
    assert |server.emitted| == 3;
    assert server.emitted[2] == Emission(Socket(c2), NewSos, Alert(a, b, Some(10), Some(20), MapsAddress, Some(now), "test"));
  }

  /** Only A online; an SOS to B is stored and delivered to nobody. */
  method ReceiverOfflineScenario(c1: SocketId, a: UserId, b: UserId, now: int)
    requires a != "" && b != "" && a != b
  {
    var server := new Server();
    var connA := server.Connect(c1, Some(a));
    server.SosStart(SosStartEvent(Some(a), Some(b), Some(10), Some(20), Some(now), Some("test")), true, now);
    assert |server.store| == 1;
    assert |server.emitted| == 1 && server.emitted[0].event == GetOnlineUsers;
  }
}
