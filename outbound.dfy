/** Events the server emits: the presence broadcast and the three SOS unicasts. */
module Outbound {
  import opened JsValues

  const GetOnlineUsers := "getOnlineUsers"
  const NewSos := "newSOS"
  const NewSosVoice := "newSOSVoice"
  const NewLiveLocation := "newLiveLocation"

  datatype Payload =
    /** `Object.keys(userSocketMap)` */
    | OnlineUsers(users: seq<UserId>)
    /** The payload of `newSOS` and `newLiveLocation`. */
    | Alert(userId: UserId, receiverId: UserId, latitude: Option<Coord>, longitude: Option<Coord>,
            address: string, timestamp: Option<int>, text: string)
    /** The payload of `newSOSVoice`; it carries no receiverId. */
    | Voice(userId: UserId, audioBlob: Blob, lat: Coord, lon: Coord)

  /** `io.emit` reaches every connected socket; `io.to(id).emit` reaches one. */
  datatype Target = AllSockets | Socket(id: SocketId)

  datatype Emission = Emission(target: Target, event: string, payload: Payload)

  /** The broadcast sent after every connect and disconnect. */
  function OnlineUsersBroadcast(users: seq<UserId>): (e: Emission)
    ensures e.target == AllSockets && e.event == GetOnlineUsers
    ensures e.payload.OnlineUsers? && e.payload.users == users
  {
    Emission(AllSockets, GetOnlineUsers, OnlineUsers(users))
  }
}
