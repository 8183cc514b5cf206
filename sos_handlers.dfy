/** The three SOS event handlers as pure functions: given the registry as it
    stands when the handler runs, the event, the outcome of the database
    write and the clock, what is stored and what is delivered. Each follows
    one pipeline: validate with falsy checks (drop on failure), build an
    Emergency draft, save it, and only after a successful save look the
    receiver up and unicast to them once if they are bound. */
module SosHandlers {
  import opened JsValues
  import opened EmergencyModel
  import opened Presence
  import opened Outbound

  /** The display address `sosStart` and `sendLiveLocation` attach. */
  const MapsAddress := "Click to view on Google Maps"
  /** The text every voice record is stored with. */
  const VoiceText := "SOS voice message"
  /** The text a live-location record is stored with. */
  const LiveLocationRecordText := "SOS Live Location Update"
  /** The text a live-location update is delivered with. */
  const LiveLocationAlertText := "\U{1F6A8} SOS! User in danger. Live location update."

  datatype SosStartEvent = SosStartEvent(
    userId: Option<UserId>, receiverId: Option<UserId>,
    latitude: Option<Coord>, longitude: Option<Coord>,
    timestamp: Option<int>, text: Option<string>)

  datatype SosVoiceEvent = SosVoiceEvent(
    userId: Option<UserId>, receiverId: Option<UserId>, audioBlob: Option<Blob>,
    latitude: Option<Coord>, longitude: Option<Coord>)

  datatype LiveLocationEvent = LiveLocationEvent(
    userId: Option<UserId>, receiverId: Option<UserId>,
    latitude: Option<Coord>, longitude: Option<Coord>, timestamp: Option<int>)

  /** What one handler invocation does: at most one stored record and at most
      one unicast. */
  datatype Effect = Effect(record: Option<Document>, delivery: Option<Emission>)

  const NoEffect := Effect(None, None)

  /** `getReceiverSocketId(receiverId)` then `io.to(socket).emit(...)` when
      the receiver is bound. */
  function Unicast(presence: SocketMap, receiverId: UserId, event: string, payload: Payload): (r: Option<Emission>)
    ensures r.Some? <==> receiverId in presence.sockets
    ensures r.Some? ==> r.value.target == Socket(presence.sockets[receiverId])
    ensures r.Some? ==> r.value.event == event && r.value.payload == payload
  {
    match Get(presence, receiverId)
    case None => None
    case Some(socket) => Some(Emission(Socket(socket), event, payload))
  }

  /** The shared tail of every handler: save, and only on success deliver. */
  function SaveThenDeliver(presence: SocketMap, draft: Draft, receiverId: UserId, event: string,
                           payload: Payload, dbOk: bool, now: int): (e: Effect)
    ensures e.record == SaveOutcome(draft, dbOk, now)
    ensures e.record.None? ==> e.delivery.None?
    ensures e.record.Some? ==> e.delivery == Unicast(presence, receiverId, event, payload)
  {
    match SaveOutcome(draft, dbOk, now)
    case None => NoEffect
    case Some(doc) => Effect(Some(doc), Unicast(presence, receiverId, event, payload))
  }

  /** The check at the head of `sosStart`: passing it meets the store's
      rules for every string field, but says nothing of the coordinates. */
  predicate SosStartRejected(ev: SosStartEvent)
    ensures !SosStartRejected(ev) ==> RequiredString(ev.userId) && RequiredString(ev.receiverId) && RequiredString(ev.text)
    ensures ev.text == Some("") ==> SosStartRejected(ev)
  {
    FalsyString(ev.userId) || FalsyString(ev.receiverId) || FalsyString(ev.text)
  }

  /** `socket.on("sosStart", ...)`. */
  function SosStartEffect(presence: SocketMap, ev: SosStartEvent, dbOk: bool, now: int): (e: Effect)
    // a falsy userId, receiverId or text: nothing stored, nothing sent
    ensures SosStartRejected(ev) ==> e == NoEffect
    // stored exactly when validation passed, the store accepts it and the write succeeds
    ensures e.record.Some? <==> !SosStartRejected(ev) && ev.latitude.Some? && ev.longitude.Some? && dbOk
    // the record carries the event's fields, the fixed address, and a timestamp defaulted to now
    ensures e.record.Some? ==>
      e.record.value == Document(ev.userId.value, ev.receiverId.value, ev.text.value,
                                 ev.latitude.value, ev.longitude.value, Some(MapsAddress),
                                 ev.timestamp.GetOr(now), None, now, now)
    // delivered exactly when stored and the receiver is bound, to the receiver's socket only
    ensures e.delivery.Some? <==> e.record.Some? && ev.receiverId.value in presence.sockets
    ensures e.delivery.Some? ==>
      e.delivery.value == Emission(Socket(presence.sockets[ev.receiverId.value]), NewSos,
                                   Alert(ev.userId.value, ev.receiverId.value, ev.latitude, ev.longitude,
                                         MapsAddress, ev.timestamp, ev.text.value))
  {
    if SosStartRejected(ev) then NoEffect
    else
      var draft := Draft(ev.userId, ev.receiverId, ev.text, ev.latitude, ev.longitude,
                         Some(MapsAddress), ev.timestamp, None);
      var payload := Alert(ev.userId.value, ev.receiverId.value, ev.latitude, ev.longitude,
                           MapsAddress, ev.timestamp, ev.text.value);
      SaveThenDeliver(presence, draft, ev.receiverId.value, NewSos, payload, dbOk, now)
  }

  /** The check at the head of `sosVoice`: stricter than the store, since it
      also drops coordinates of 0. */
  predicate SosVoiceRejected(ev: SosVoiceEvent)
    ensures !SosVoiceRejected(ev) ==> RequiredString(ev.userId) && RequiredString(ev.receiverId)
    ensures !SosVoiceRejected(ev) ==> ev.audioBlob.Some? && RequiredNumber(ev.latitude) && RequiredNumber(ev.longitude)
    ensures ev.latitude == Some(0) || ev.longitude == Some(0) ==> SosVoiceRejected(ev)
  {
    || FalsyString(ev.userId) || FalsyString(ev.receiverId) || FalsyObject(ev.audioBlob)
    || FalsyNumber(ev.latitude) || FalsyNumber(ev.longitude)
  }

  /** `socket.on("sosVoice", ...)`. */
  function SosVoiceEffect(presence: SocketMap, ev: SosVoiceEvent, dbOk: bool, now: int): (e: Effect)
    // a missing field, or a coordinate of 0, drops the event
    ensures SosVoiceRejected(ev) ==> e == NoEffect
    ensures ev.latitude == Some(0) || ev.longitude == Some(0) ==> e == NoEffect
    // every event that passes validation is accepted by the store
    ensures e.record.Some? <==> !SosVoiceRejected(ev) && dbOk
    // fixed text, no address, the clip, and the timestamp always defaulted to now
    ensures e.record.Some? ==>
      e.record.value == Document(ev.userId.value, ev.receiverId.value, VoiceText,
                                 ev.latitude.value, ev.longitude.value, None,
                                 now, ev.audioBlob, now, now)
    ensures e.delivery.Some? <==> e.record.Some? && ev.receiverId.value in presence.sockets
    // the payload omits receiverId
    ensures e.delivery.Some? ==>
      e.delivery.value == Emission(Socket(presence.sockets[ev.receiverId.value]), NewSosVoice,
                                   Voice(ev.userId.value, ev.audioBlob.value, ev.latitude.value, ev.longitude.value))
  {
    if SosVoiceRejected(ev) then NoEffect
    else
      var draft := Draft(ev.userId, ev.receiverId, Some(VoiceText), ev.latitude, ev.longitude,
                         None, None, ev.audioBlob);
      var payload := Voice(ev.userId.value, ev.audioBlob.value, ev.latitude.value, ev.longitude.value);
      SaveThenDeliver(presence, draft, ev.receiverId.value, NewSosVoice, payload, dbOk, now)
  }

  /** The check at the head of `sendLiveLocation`: only the two ids. */
  predicate LiveLocationRejected(ev: LiveLocationEvent)
    ensures !LiveLocationRejected(ev) ==> RequiredString(ev.userId) && RequiredString(ev.receiverId)
    ensures RequiredString(ev.userId) && RequiredString(ev.receiverId) ==> !LiveLocationRejected(ev)
  {
    FalsyString(ev.userId) || FalsyString(ev.receiverId)
  }

  /** `socket.on("sendLiveLocation", ...)`. */
  function LiveLocationEffect(presence: SocketMap, ev: LiveLocationEvent, dbOk: bool, now: int): (e: Effect)
    // only userId and receiverId are validated
    ensures LiveLocationRejected(ev) ==> e == NoEffect
    // missing coordinates are caught by the store, not the handler
    ensures e.record.Some? <==> !LiveLocationRejected(ev) && ev.latitude.Some? && ev.longitude.Some? && dbOk
    ensures e.record.Some? ==>
      e.record.value == Document(ev.userId.value, ev.receiverId.value, LiveLocationRecordText,
                                 ev.latitude.value, ev.longitude.value, Some(MapsAddress),
                                 ev.timestamp.GetOr(now), None, now, now)
    ensures e.delivery.Some? <==> e.record.Some? && ev.receiverId.value in presence.sockets
    ensures e.delivery.Some? ==>
      e.delivery.value == Emission(Socket(presence.sockets[ev.receiverId.value]), NewLiveLocation,
                                   Alert(ev.userId.value, ev.receiverId.value, ev.latitude, ev.longitude,
                                         MapsAddress, ev.timestamp, LiveLocationAlertText))
    // the text delivered is not the text stored
    ensures e.delivery.Some? ==> e.delivery.value.payload.text != e.record.value.text
  {
    if LiveLocationRejected(ev) then NoEffect
    else
      var payload := Alert(ev.userId.value, ev.receiverId.value, ev.latitude, ev.longitude,
                           MapsAddress, ev.timestamp, LiveLocationAlertText);
      var draft := Draft(ev.userId, ev.receiverId, Some(LiveLocationRecordText), ev.latitude, ev.longitude,
                         Some(MapsAddress), ev.timestamp, None);
      SaveThenDeliver(presence, draft, ev.receiverId.value, NewLiveLocation, payload, dbOk, now)
  }

  /** Delivery after any history of connects and disconnects goes to the
      socket of the receiver's last connect, unless an event that deletes the
      receiver's key (a stale disconnect included) came after it. */
  lemma {:induction false} UnicastFollowsHistory(m: SocketMap, trace: seq<Lifecycle>, receiverId: UserId,
                                                 event: string, payload: Payload)
    requires Consistent(m)
    ensures Unicast(Replay(m, trace), receiverId, event, payload)
         == match LastBinding(trace, receiverId, Get(m, receiverId))
            case None => None
            case Some(socket) => Some(Emission(Socket(socket), event, payload))
  {
    ReplayResolves(m, trace, receiverId);
  }

  /** A coordinate of 0 is valid data for the store and for `sosStart`, yet
      `sosVoice` drops it. */
  lemma ZeroCoordinateOnlyVoiceRejects(presence: SocketMap, u: UserId, r: UserId, text: string,
                                       blob: Blob, now: int)
    requires u != "" && r != "" && text != ""
    ensures SosStartEffect(presence, SosStartEvent(Some(u), Some(r), Some(0), Some(0), None, Some(text)), true, now).record.Some?
    ensures SosVoiceEffect(presence, SosVoiceEvent(Some(u), Some(r), Some(blob), Some(0), Some(0)), true, now) == NoEffect
  {
  }
}
