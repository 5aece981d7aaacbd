/** The wire vocabulary shared by sessions and rooms: a JSON-shaped value and
    the `{type, data}` envelope carried in every frame. */
module Protocol {

  datatype Option<+T> = None | Some(value: T) {
    function GetOr(default: T): (r: T) {
      match this
      case Some(v) => v
      case None => default
    }
  }

  /** A JSON-shaped value. Numbers are integers in this model. */
  datatype Json =
    | JNull
    | JBool(b: bool)
    | JNumber(n: int)
    | JString(s: string)
    | JArray(items: seq<Json>)
    | JObject(fields: map<string, Json>)

  /** The frame envelope `{type, data}`. The type is any string a client
      sends; the handful the room knows are named below. */
  datatype Envelope = Envelope(kind: string, data: Json)

  const CloseType: string := "close"
  const ChatType: string := "chat"
  const ConfigType: string := "config"

  /** The two shapes `send` and `trigger` accept: a whole envelope, or a type
      name to be paired with a separate `data` argument. */
  datatype Message = Whole(env: Envelope) | Named(kind: string)

  /** The envelope that `send(message, data)` and `trigger(message, data)`
      build from their arguments. */
  function Compose(m: Message, data: Json): (e: Envelope)
    ensures m.Named? ==> e.kind == m.kind && e.data == data
    ensures m.Whole? ==> e == m.env
  {
    match m
    case Whole(env) => env
    case Named(kind) => Envelope(kind, data)
  }
}
