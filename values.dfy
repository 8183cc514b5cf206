/** Values as the socket handlers receive them. A field of an event payload
    (or of the connection handshake) is either missing (`undefined` in
    JavaScript) or present, and the handlers test it with JavaScript
    truthiness. */
module JsValues {

  /** A possibly-missing field: `None` stands for `undefined`. */
  datatype Option<+T> = None | Some(value: T) {

    /** The value, or `default` when it is missing (a schema default). */
    function GetOr(default: T): T {
      match this
      case Some(v) => v
      case None => default
    }

    /** Zero or one element: what an optional step appends to a log. */
    function ToSeq(): seq<T> {
      match this
      case Some(v) => [v]
      case None => []
    }
  }

  /** User ids arrive as arbitrary strings (handshake query, event fields). */
  type UserId = string

  /** socket.io assigns every connection a non-empty id. */
  type SocketId = s: string | s != "" witness "socket"

  /** Coordinates are treated as opaque numbers; only "missing or zero" matters. */
  type Coord = int

  newtype byte = x: int | 0 <= x < 256

  /** An audio clip, treated as opaque bytes. */
  type Blob = seq<byte>

  /** `!s` for a string field: undefined or the empty string. */
  predicate FalsyString(s: Option<string>)
    ensures FalsyString(s) <==> s.GetOr("") == ""
  {
    s.None? || s.value == ""
  }

  /** `!n` for a numeric field: undefined or the number 0. */
  predicate FalsyNumber(n: Option<int>)
    ensures FalsyNumber(n) <==> n.GetOr(0) == 0
  {
    n.None? || n.value == 0
  }

  /** `!b` for an object field such as a Blob: only undefined is falsy. */
  predicate FalsyObject<T>(b: Option<T>)
    ensures FalsyObject(b) <==> b.ToSeq() == []
  {
    b.None?
  }

  /** The property key `obj[v]` uses: `undefined` becomes the string "undefined". */
  function PropertyKey(v: Option<UserId>): (k: UserId)
    ensures !FalsyString(v) ==> k == v.value
    ensures FalsyString(v) ==> k == "" || k == "undefined"
    ensures v.None? ==> k == "undefined"
  {
    match v
    case None => "undefined"
    case Some(s) => s
  }
}
