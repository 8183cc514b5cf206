# Presence and SOS fan-out core of a real-time chat server

This project is a Dafny model of the server's socket layer. The model covers
two source files:
- `backend/src/lib/socket.js` holds the presence registry `userSocketMap`,
  the connection and disconnect handlers, and the three SOS event handlers
  `sosStart`, `sosVoice` and `sendLiveLocation`.
- `backend/src/models/emergency.model.js` holds the Emergency record those
  handlers persist.

The model has these parts:

- `values.dfy` (`JsValues`): event fields that may be missing (`Option`).
  It holds the JavaScript falsy tests the handlers use. The empty string, the
  number 0 and `undefined` are falsy, and a Blob is falsy only when missing.
  It also holds the property key that `obj[undefined]` turns into.
- `emergency_model.dfy` (`EmergencyModel`): the draft handed to
  `new Emergency`, the stored document with its `createdAt`/`updatedAt`
  fields, and the schema's `required` rules (`Accepts`). It also defines the
  document a save produces. `timestamp` defaults to the creation time, and in
  the model creation and save happen in one step, so both instants are `now`.
- `presence.dfy` (`Presence`): `userSocketMap` as an ordered map. `keys` is
  the insertion order that `Object.keys` reports. The module defines
  assignment, `delete`, and the registry steps of connect and disconnect. It
  also defines a replay of any history of connects and disconnects, and
  proves the replay agrees with a reference definition: the last event
  naming a key decides that key's binding.
- `outbound.dfy` (`Outbound`): the emitted events and their payloads.
- `sos_handlers.dfy` (`SosHandlers`): each SOS handler as a pure function.
  The function takes the registry, the event, the database outcome and the
  clock. It returns the record stored (at most one) and the unicast sent (at
  most one).
- `socket_server.dfy` (`SocketServer`): the class `Server`. Its fields are
  `userSocketMap`, the log `emitted` and the collection `store`. Its methods
  are the handlers, written step by step: validate, return early, build the
  draft, save, look up the receiver, emit. Each method is proved to change
  the state exactly as the pure functions say. The class invariant covers
  three facts:
  - the registry lists each user once;
  - every stored record has its required fields;
  - every `getOnlineUsers` broadcast lists each user once.

Three things are parameters of the model, not computed by it:
- The database's answer to a write is the `dbOk` parameter.
- The clock (`Date.now`) is the `now` parameter.
- The socket ids socket.io assigns are the `socket` parameter of `Connect`.
  Socket ids are never empty.

Two behaviours of the code are kept on purpose. First, a disconnect deletes
the entry under the userId captured when that connection opened. If the same
user has since reconnected on a new socket, the newer, live binding is deleted.
Second, a connection without a userId deletes the key `"undefined"` when it
closes.

Some of the handlers' behaviour is easy to miss when reading the code:
- `sosVoice` drops an event whose latitude or longitude is 0, because the
  check on socket.js line 87 is `!latitude || !longitude`. Its log message
  (lines 88-90) names only userId, receiverId and audioBlob.
- `sosStart` and `sendLiveLocation` do not check the coordinates. An event
  without them passes the handler and then fails the schema's `required`
  rule, so it is neither stored nor delivered.
- `sendLiveLocation` stores one text and delivers another.
- `newSOS` and `newLiveLocation` deliver the client's `timestamp` as sent,
  which may be missing. The record stores it with the default filled in.

## Model

| member | source | states |
|---|---|---|
| JsValues.FalsyString | backend/src/lib/socket.js:40 | `!s` on a string field: true exactly when the field is missing or the empty string. |
| JsValues.FalsyNumber | backend/src/lib/socket.js:87 | `!n` on a number field: true exactly when the field is missing or 0. |
| JsValues.FalsyObject | backend/src/lib/socket.js:87 | `!b` on an object field such as a Blob: true exactly when it is missing; an empty clip is truthy. |
| JsValues.PropertyKey | backend/src/lib/socket.js:32 | The key `obj[v]` uses: a truthy userId is its own key, and a missing one becomes the string "undefined". |
| EmergencyModel.Accepts | backend/src/models/emergency.model.js:5-9 | The schema's `required` rules: an accepted draft has userId, receiverId, text, latitude and longitude present, and an empty text is refused. |
| EmergencyModel.OptionalFieldsNeverDecide | backend/src/models/emergency.model.js:10-12 | address, timestamp and audioBlob are optional: changing them never changes whether a draft is accepted. |
| Presence.Get | backend/src/lib/socket.js:18 | `userSocketMap[userId]`: a socket exactly when the user is bound, and then the one it is bound to. |
| Presence.Step | backend/src/lib/socket.js:22-34 | One connect or disconnect keeps the registry invariant and leaves every key it does not name unchanged. |
| Outbound.OnlineUsersBroadcast | backend/src/lib/socket.js:28-33 | The presence broadcast goes to all sockets under the event `getOnlineUsers` and carries exactly the given key list. |
| SosHandlers.SosStartRejected | backend/src/lib/socket.js:40-43 | Passing the `sosStart` check means userId, receiverId and text meet the store's string rules; an empty text is rejected. The coordinates are not checked. |
| SosHandlers.SosVoiceRejected | backend/src/lib/socket.js:87-92 | Passing the `sosVoice` check means every required field is present and the clip is present; a coordinate of 0 is rejected. |
| SosHandlers.LiveLocationRejected | backend/src/lib/socket.js:129-132 | The `sendLiveLocation` check only needs the two ids: when they meet the store's rules the event passes, whatever its coordinates. |
| EmergencyModel.ToDocument | backend/src/models/emergency.model.js:3-15 | An accepted draft becomes a document with every required string non-empty. Every supplied field is kept. `timestamp` defaults to the creation time when it is missing. `createdAt` and `updatedAt` are the save time; the model runs creation and save as one step, so all three are `now`. |
| EmergencyModel.SaveOutcome | backend/src/models/emergency.model.js:5-12 | A save succeeds exactly when the schema accepts the draft and the write succeeds. Required means userId, receiverId and text present and non-empty, and latitude and longitude present. A 0 passes. address, timestamp and audioBlob are optional. |
| EmergencyModel.ResaveRebuilds | backend/src/models/emergency.model.js:5-14 | Every stored document passes validation again. Saving its own fields at its creation time rebuilds it. |
| Presence.Remove | backend/src/lib/socket.js:32 | Removing a key from the key order leaves exactly the other keys. It keeps them duplicate-free and changes nothing when the key is absent. |
| Presence.Set | backend/src/lib/socket.js:26 | After assignment the user resolves to the new socket (last writer wins) and every other user is unchanged. An existing key keeps its place and a new key goes last. The registry invariant is kept. |
| Presence.Delete | backend/src/lib/socket.js:32 | After `delete` the key resolves to nothing and every other key is unchanged. Deleting an absent key is a no-op. The invariant is kept. |
| Presence.OnConnect | backend/src/lib/socket.js:25-26 | A truthy handshake userId resolves to the new socket afterwards and all other users are unchanged. A falsy one leaves the registry exactly as it was. |
| Presence.OnDisconnect | backend/src/lib/socket.js:25-32 | The key captured at connect time (`"undefined"` when there was none) resolves to nothing afterwards, whatever socket it was bound to. All other keys are unchanged. An empty userId changes nothing. |
| Presence.Replay | backend/src/lib/socket.js:22-34 | Any history of connects and disconnects keeps the registry invariant. Each bound user is listed once, so every online-users broadcast names each user once however often they rebind. |
| Presence.ReplayResolves | backend/src/lib/socket.js:15-33 | For every history and user, the registry's lookup equals the reference definition. The last connect or disconnect naming the user's key decides the lookup. |
| Presence.LastBindingIsLastConnect | backend/src/lib/socket.js:25-26 | In the reference definition, a truthy connect of `u` decides `u`'s binding when no later event names `u`'s key. |
| Presence.LastWriterWins | backend/src/lib/socket.js:25-26 | Let a history contain a truthy connect of `u` on a socket, with no later event naming `u`'s key. The registry then resolves `u` to that socket, replacing any earlier binding. |
| Presence.StaleDisconnectDropsLiveBinding | backend/src/lib/socket.js:25-32 | If `u` connects, reconnects on a new socket, and then the old connection closes, `u` is unbound even though the new connection is live. |
| SosHandlers.Unicast | backend/src/lib/socket.js:71-76 | A send happens exactly when the receiver is bound. It goes to the receiver's socket only, with the given event name and payload. |
| SosHandlers.SaveThenDeliver | backend/src/lib/socket.js:57-79 | The record is the save's outcome. A failed save sends nothing. A successful save sends exactly the receiver lookup's unicast. |
| SosHandlers.SosStartEffect | backend/src/lib/socket.js:37-81 | A falsy userId, receiverId or text stores nothing and sends nothing. Otherwise the event is stored iff both coordinates are present and the write succeeds. The record holds the event's fields, the fixed address and the defaulted timestamp. One `newSOS` goes to the receiver's socket iff the event was stored and the receiver is bound. The payload holds the raw timestamp. |
| SosHandlers.SosVoiceEffect | backend/src/lib/socket.js:84-122 | A missing userId, receiverId or audioBlob, or a missing or zero coordinate, stores nothing and sends nothing. A valid event is stored iff the write succeeds. The record has text "SOS voice message", no address, the clip, and timestamp equal to the creation time `now`. One `newSOSVoice` without receiverId goes to the bound receiver only after a save. |
| SosHandlers.LiveLocationEffect | backend/src/lib/socket.js:125-171 | Only userId and receiverId are validated. Missing coordinates fail at the store. The stored text is "SOS Live Location Update". The delivered text is the alert text, which differs from it. Both carry the fixed address. Delivery happens iff the event was stored and the receiver is bound. |
| SosHandlers.UnicastFollowsHistory | backend/src/lib/socket.js:17-34 | After any history of connects and disconnects, an SOS delivery goes to the socket of the receiver's last binding. It goes nowhere when an event deleting the receiver's key came later. |
| SosHandlers.ZeroCoordinateOnlyVoiceRejects | backend/src/lib/socket.js:87-92 | Coordinates of 0 are stored by `sosStart`, but `sosVoice` drops the same coordinates. |
| SocketServer.Server.constructor | backend/src/lib/socket.js:15 | The server starts with an empty registry, nothing emitted and nothing stored. |
| SocketServer.Server.GetReceiverSocketId | backend/src/lib/socket.js:17-19 | Returns a socket exactly when the user is bound, and then the socket it is bound to. |
| SocketServer.Server.OnlineUserIds | backend/src/lib/socket.js:28 | `Object.keys(userSocketMap)` lists every bound user, each exactly once. |
| SocketServer.Server.BroadcastOnlineUsers | backend/src/lib/socket.js:28 | Appends one `getOnlineUsers` broadcast carrying the current key list. |
| SocketServer.Server.EmitTo | backend/src/lib/socket.js:73 | Appends one unicast to the given socket. |
| SocketServer.Server.Save | backend/src/lib/socket.js:57-58 | Appends the saved document exactly when the save succeeds, and reports whether it did. |
| SocketServer.Server.Connect | backend/src/lib/socket.js:22-28 | Binds a truthy handshake userId to the new socket, replacing any earlier one. Leaves the registry unchanged otherwise. Emits exactly one broadcast of the resulting key list. Stores nothing. |
| SocketServer.Server.Disconnect | backend/src/lib/socket.js:30-34 | Deletes the key captured at connect time and changes no other key. Emits exactly one broadcast of the resulting key list. Stores nothing. |
| SocketServer.Server.SosStart | backend/src/lib/socket.js:37-81 | Leaves the registry unchanged. Appends to the store and to the emission log exactly what `SosStartEffect` gives for the registry as it stands. |
| SocketServer.Server.SosVoice | backend/src/lib/socket.js:84-122 | Leaves the registry unchanged. Appends exactly what `SosVoiceEffect` gives. |
| SocketServer.Server.SendLiveLocation | backend/src/lib/socket.js:125-171 | Leaves the registry unchanged. Appends exactly what `LiveLocationEffect` gives. |

## Left out

- Server construction is not modelled: the express app, the http server, the socket.io server and its CORS origin (backend/src/lib/socket.js:1-13, 174). It is library plumbing.
- Async interleaving at `await save()` is not modelled. Each handler is one atomic step, and the receiver lookup reads the registry as it stands at that step. In the source another connection's event can run during the write.
- Mongoose internals are not modelled: ObjectId, Number and Date casting and the database I/O. A cast error or a database error is one `dbOk == false` outcome. The schema's `required` rules are modelled by `Accepts`.
- Logging (`console.log`, `console.error`) is not modelled. It changes no state.
- EmergencyModel.ToDocument: JSON `null` and field values of other types (a number for a string, a string for a number) are not represented; a field is missing (`undefined`) or of its declared type. For most fields `null` acts like missing: it is falsy in the handlers and fails `required`. For `timestamp` it does not: Mongoose fills the default only for `undefined`, so `timestamp: null` would be stored and delivered as null, which the model cannot express.
- Coordinates are integers, not floating point. Only "missing or zero is falsy" matters to the handlers, and `NaN` is not represented.
- Audio blobs are opaque bytes. A Blob object is truthy even when it is empty.
- Presence.SocketMap: keys are kept in insertion order. JavaScript enumerates integer-like keys first, in numeric order. Keys inherited from `Object.prototype` (`"constructor"`, `"__proto__"`, …) are not modelled either.
- Handshake query parameters given more than once (an array value) are not modelled. A userId is a string or missing.
- The client-side SOS session is not modelled: the location-update interval, the 40-second stop timer, the 30-second voice recording, and the end-to-end count of four live-location events. It lives in frontend/src/components/SOSButton.jsx and is a timer race over browser APIs.
- The chat UI, its store and the SOS message rendering are not modelled (frontend/src/components/ChatContainer.jsx, frontend/src/store/useChatStore.js, frontend/src/components/SOSMessage.jsx). They are presentation code.
- The set of open sockets that a broadcast reaches is not tracked. A broadcast is recorded with the target "all sockets".
