/** Values exchanged by the dispatcher: Go's `any`, the request envelope and the
    uniform (result, status, error) outcome. */
module Values {

  datatype Option<+T> = None | Some(value: T)

  newtype byte = x: int | 0 <= x < 256

  /** A Go `any` as it appears in decoded envelopes and in the configuration
      tree. `Map` is `map[string]any`; `Other` stands for every Go type that
      no rule of the core distinguishes (floats, structs, ...). */
  datatype Value =
    | Null
    | Str(s: string)
    | Int(i: int)
    | Bool(b: bool)
    | List(items: seq<Value>)
    | Map(entries: map<string, Value>)
    | Bytes(bytes: seq<byte>)
    | Other(kind: string)

  /** What a handler or middleware returns: `(any, int, error)`. An error is
      present or absent; when present it is the text of its `Error()`. */
  datatype Outcome = Outcome(result: Value, status: int, err: Option<string>)

  /** The three request parts every stage of a chain receives. */
  datatype Request = Request(data: Value, metadata: Value, getData: Value)

  /** `JsonRequestType`. A nil metadata map reads like an empty one, so
      `metadata` is a plain map. `getData` is never decoded (json:"-"); only
      the HTTP adapter fills it. */
  datatype Envelope = Envelope(methodName: string, metadata: map<string, Value>, data: Value, getData: Value)

  /** The part of `JsonRequestType` a JSON decoder fills in: the method,
      the metadata (a nil map read as empty) and the body data. */
  datatype Message = Message(methodName: string, metadata: map<string, Value>, data: Value)

  /** A decoded message as the WebSocket, socket and CLI adapters dispatch
      it: `RequestGETData` is never decoded, so it stays nil. */
  function Unfilled(m: Message): Envelope {
    Envelope(m.methodName, m.metadata, m.data, Null)
  }

  const StatusOK := 200
  const StatusBinary := 210
  const StatusBadRequest := 400
  const StatusUnauthorized := 401
  const StatusNotFound := 404
  const StatusInternalServerError := 500

  /** The arguments `processPath` hands to the chain: body data, metadata and
      GET data, taken from the envelope as they are. */
  function RequestOf(e: Envelope): (r: Request)
    ensures r.metadata.Map? && r.metadata.entries == e.metadata
    ensures r.data == e.data && r.getData == e.getData
  {
    Request(e.data, Map(e.metadata), e.getData)
  }
}
