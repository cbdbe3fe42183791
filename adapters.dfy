/** The transport adapters: what each does with one decoded message and the
    outcome of dispatching it. JSON encoding is not modelled: a reply body is
    the error envelope, the encoding of a value, or raw bytes, and whether
    encoding a result fails is a given `marshalErr`, from the value to the
    error's text. */
module Adapters {
  import opened Values
  import Config
  import Strings
  import opened Pipeline
  import opened Dispatcher
  import SaiService

  /** `ErrorResponse{"Status": "NOK", "Error": error}` encoded, the JSON
      encoding of a value, or raw bytes. */
  datatype Body = Nok(error: string) | Json(value: Value) | Raw(bytes: seq<byte>)

  /** A call on the HTTP response writer. */
  datatype Action = SetHeader(key: string, value: string) | WriteHeader(code: int) | Write(body: Body)

  /** The bodies an adapter hands to the connection for one WebSocket frame
      or socket line, in order, and the dispatch made for it, if any. */
  datatype Exchange = Exchange(replies: seq<Body>, dispatched: Option<Trace>)

  /** `net.ParseIP` (does the string parse) and `net.SplitHostPort` (the
      host, or a failure). */
  datatype Net = Net(parseIP: string -> bool, splitHostPort: string -> Option<string>)

  /** One HTTP request: headers under their canonical names, the peer
      address, the query parameters, and what the body decoder left in the
      message together with its error, if any. */
  datatype HttpRequest = HttpRequest(header: map<string, string>, remoteAddr: string,
                                     query: map<string, seq<string>>, decoded: Message,
                                     decodeErr: Option<string>)

  /** `Header.Get`: "" for an absent header. */
  function HeaderGet(header: map<string, string>, key: string): string {
    if key in header then header[key] else ""
  }

  // ----- client IP (getHttpIP) -----

  /** The strings `getHttpIP` tries, in order: the X-Real-Ip header, every
      comma-separated piece of X-Forwarded-For as it is (not trimmed), then
      the host part of the peer address when it splits. */
  function IPCandidates(header: map<string, string>, remoteAddr: string, net: Net): seq<string> {
    [HeaderGet(header, "X-Real-Ip")] + Strings.Split(HeaderGet(header, "X-Forwarded-For"), ',') +
    (match net.splitHostPort(remoteAddr) case Some(host) => [host] case None => [])
  }

  function FirstIP(cands: seq<string>, parse: string -> bool): string
    decreases |cands|
  {
    if |cands| == 0 then ""
    else if parse(cands[0]) then cands[0]
    else FirstIP(cands[1..], parse)
  }

  /** The first candidate that parses, or "" when none does. */
  lemma {:induction false} FirstIPIsFirst(cands: seq<string>, parse: string -> bool)
    ensures var r := FirstIP(cands, parse);
      (exists k :: 0 <= k < |cands| && cands[k] == r && parse(r) && forall j :: 0 <= j < k ==> !parse(cands[j]))
      || (r == "" && forall j :: 0 <= j < |cands| ==> !parse(cands[j]))
    decreases |cands|
  {
    if |cands| > 0 && !parse(cands[0]) {
      FirstIPIsFirst(cands[1..], parse);
      var r := FirstIP(cands, parse);
      if exists k :: 0 <= k < |cands[1..]| && cands[1..][k] == r && parse(r) && forall j :: 0 <= j < k ==> !parse(cands[1..][j]) {
        var k :| 0 <= k < |cands[1..]| && cands[1..][k] == r && parse(r) && forall j :: 0 <= j < k ==> !parse(cands[1..][j]);
        assert cands[k + 1] == r;
        forall j | 0 <= j < k + 1 ensures !parse(cands[j]) {
          if j > 0 { assert cands[j] == cands[1..][j - 1]; }
        }
      } else {
        forall j | 0 <= j < |cands| ensures !parse(cands[j]) {
          if j > 0 { assert cands[j] == cands[1..][j - 1]; }
        }
      }
    }
  }

  function ClientIP(header: map<string, string>, remoteAddr: string, net: Net): string {
    FirstIP(IPCandidates(header, remoteAddr, net), net.parseIP)
  }

  /** `getHttpIP`: early returns in the fallback order. */
  method GetHttpIP(header: map<string, string>, remoteAddr: string, net: Net) returns (ip: string)
    ensures ip == ClientIP(header, remoteAddr, net)
  {
    ghost var tail := match net.splitHostPort(remoteAddr) case Some(host) => [host] case None => [];
    ghost var cands := IPCandidates(header, remoteAddr, net);
    var realIP := HeaderGet(header, "X-Real-Ip");
    if net.parseIP(realIP) {
      return realIP;
    }
    var splitIps := Strings.Split(HeaderGet(header, "X-Forwarded-For"), ',');
    assert cands[1..] == splitIps[0..] + tail;
    for i := 0 to |splitIps|
      invariant FirstIP(cands, net.parseIP) == FirstIP(splitIps[i..] + tail, net.parseIP)
    {
      assert (splitIps[i..] + tail)[0] == splitIps[i];
      if net.parseIP(splitIps[i]) {
        return splitIps[i];
      }
      assert (splitIps[i..] + tail)[1..] == splitIps[i + 1..] + tail;
    }
    assert splitIps[|splitIps|..] + tail == tail;
    var host := net.splitHostPort(remoteAddr);
    if host.None? {
      return "";
    }
    if net.parseIP(host.value) {
      return host.value;
    }
    assert FirstIP(tail[1..], net.parseIP) == "";
    return "";
  }

  // ----- HTTP (handleHttpConnections) -----

  /** A query parameter's values as GET data: a list of strings. */
  function StrList(vs: seq<string>): (v: Value)
    ensures v.List? && |v.items| == |vs| && forall i :: 0 <= i < |vs| ==> v.items[i] == Str(vs[i])
  {
    List(seq(|vs|, i requires 0 <= i < |vs| => Str(vs[i])))
  }

  /** The loop over the query parameters: every name maps to the list of
      its values, and nothing else is present. */
  method QueryToGetData(query: map<string, seq<string>>) returns (g: map<string, Value>)
    ensures g.Keys == query.Keys
    ensures forall k :: k in query ==> g[k] == StrList(query[k])
  {
    g := map[];
    var todo := query.Keys;
    while todo != {}
      invariant todo <= query.Keys && g.Keys == query.Keys - todo
      invariant forall k :: k in g ==> g[k] == StrList(query[k])
      decreases todo
    {
      var key :| key in todo;
      g := g[key := StrList(query[key])];
      todo := todo - {key};
    }
  }

  function GetDataOf(query: map<string, seq<string>>): map<string, Value> {
    map k | k in query :: StrList(query[k])
  }

  /** The message as the HTTP adapter hands it on: metadata (an empty map if
      absent) with `ip` set to the client IP, and the query as GET data. This
      is done before the decode error is looked at. */
  function PrepareHttp(r: HttpRequest, net: Net): Envelope {
    Envelope(r.decoded.methodName, r.decoded.metadata["ip" := Str(ClientIP(r.header, r.remoteAddr, net))],
             r.decoded.data, Map(GetDataOf(r.query)))
  }

  /** The message decoded and has a method: the adapter goes on to dispatch. */
  predicate HttpReaches(r: HttpRequest) {
    r.decodeErr.None? && r.decoded.methodName != ""
  }

  /** The 401 the adapter writes when a token is configured and the request
      carries another. */
  function TokenActions(configured: string, presented: string): seq<Action> {
    if configured != "" && presented != configured then [WriteHeader(StatusUnauthorized), Write(Nok("Wrong token"))]
    else []
  }

  /** The headers the adapter sets for a dispatch outcome. Status 210
      means raw bytes; its error slot, when present, names the file. */
  function ReplyHeaders(o: Outcome): seq<Action> {
    if o.status == StatusBinary then
      [SetHeader("Content-Type", "application/octet-stream")] +
      (if o.err.Some? then [SetHeader("Content-Disposition", "attachment; filename=" + o.err.value)] else [])
    else [SetHeader("Content-Type", "application/json")]
  }

  /** What the adapter writes for a dispatch outcome: its headers, then one
      status and one body. */
  function HttpReply(o: Outcome, marshalErr: Value -> Option<string>): seq<Action>
    requires o.status == StatusBinary ==> o.result.Bytes?
  {
    ReplyHeaders(o) +
    if o.status == StatusBinary then [WriteHeader(StatusOK), Write(Raw(o.result.bytes))]
    else if o.err.Some? then [WriteHeader(o.status), Write(Nok(o.err.value))]
    else if marshalErr(o.result).Some? then [WriteHeader(StatusInternalServerError), Write(Nok(marshalErr(o.result).value))]
    else [WriteHeader(o.status), Write(Json(o.result))]
  }

  /** The tail of the handler: the outcome written to the response, step by
      step as the source writes it; `HttpReply` is its specification. */
  method WriteOutcome(o: Outcome, marshalErr: Value -> Option<string>) returns (actions: seq<Action>)
    requires o.status == StatusBinary ==> o.result.Bytes?
    ensures actions == HttpReply(o, marshalErr)
  {
    if o.status == StatusBinary {
      actions := [SetHeader("Content-Type", "application/octet-stream")];
      if o.err.Some? {
        actions := actions + [SetHeader("Content-Disposition", "attachment; filename=" + o.err.value)];
      }
      actions := actions + [WriteHeader(StatusOK), Write(Raw(o.result.bytes))];
      return;
    }
    actions := [SetHeader("Content-Type", "application/json")];
    if o.err.Some? {
      actions := actions + [WriteHeader(o.status), Write(Nok(o.err.value))];
      return;
    }
    var err := marshalErr(o.result);
    if err.Some? {
      actions := actions + [WriteHeader(StatusInternalServerError), Write(Nok(err.value))];
      return;
    }
    actions := actions + [WriteHeader(o.status), Write(Json(o.result))];
  }

  /** `WriteHeader` panics on a code outside 100-999. The outcome's own
      status reaches it unless it is 210 or the result fails to encode. */
  predicate StatusWritable(o: Outcome, marshalErr: Value -> Option<string>) {
    o.status != StatusBinary && (o.err.Some? || marshalErr(o.result).None?) ==> 100 <= o.status <= 999
  }

  ghost predicate HttpDefined(s: SaiService.Service, r: HttpRequest, net: Net, marshalErr: Value -> Option<string>)
    reads s
  {
    HttpReaches(r) ==>
      Config.ServiceGet(s.configuration, "common.token", Str("")).Str? &&
      DispatchDefined(s.handlers, s.middlewares, PrepareHttp(r, net)) &&
      (var o := Dispatch(s.handlers, s.middlewares, PrepareHttp(r, net)).outcome;
       (o.status == StatusBinary ==> o.result.Bytes?) &&
       (TokenActions(Config.ServiceGet(s.configuration, "common.token", Str("")).s, HeaderGet(r.header, "Token")) == [] ==>
          StatusWritable(o, marshalErr)))
  }

  /** The start of the handler: decode, default the metadata to an empty
      map and set its `ip`, and fill in the GET data from the query. */
  method PrepareMessage(r: HttpRequest, net: Net) returns (msg: Envelope)
    ensures msg == PrepareHttp(r, net)
  {
    var metadata := r.decoded.metadata;
    var ip := GetHttpIP(r.header, r.remoteAddr, net);
    metadata := metadata["ip" := Str(ip)];
    var getData := QueryToGetData(r.query);
    assert getData == GetDataOf(r.query);
    msg := Envelope(r.decoded.methodName, metadata, r.decoded.data, Map(getData));
  }

  /** The token check: the 401 written when `common.token` is configured
      and the Token header differs from it, proved against `TokenActions`. */
  method CheckToken(s: SaiService.Service, token: string) returns (actions: seq<Action>)
    requires TokenIsString(s, "common.token")
    ensures actions == TokenActions(Config.ServiceGet(s.configuration, "common.token", Str("")).s, token)
  {
    actions := [];
    var configured := s.GetConfig("common.token", Str(""));
    if configured.s != "" {
      var again := s.GetConfig("common.token", Str(""));
      if Str(token) != again {
        actions := [WriteHeader(StatusUnauthorized), Write(Nok("Wrong token"))];
      }
    }
  }

  /** `handleHttpConnections` after its deadlines are set. */
  method HandleHttp(s: SaiService.Service, r: HttpRequest, net: Net, marshalErr: Value -> Option<string>)
    returns (msg: Envelope, actions: seq<Action>, dispatched: Option<Trace>)
    requires HttpDefined(s, r, net, marshalErr)
    ensures msg == PrepareHttp(r, net)
    ensures r.decodeErr.Some? ==>
      actions == [WriteHeader(StatusBadRequest), Write(Nok(r.decodeErr.value))] && dispatched == None
    ensures r.decodeErr.None? && msg.methodName == "" ==>
      actions == [WriteHeader(StatusBadRequest), Write(Nok("Wrong message format"))] && dispatched == None
    ensures HttpReaches(r) ==>
      dispatched == Some(Dispatch(s.handlers, s.middlewares, msg)) &&
      actions == TokenActions(Config.ServiceGet(s.configuration, "common.token", Str("")).s, HeaderGet(r.header, "Token")) +
                 HttpReply(dispatched.value.outcome, marshalErr)
  {
    msg := PrepareMessage(r, net);
    dispatched := None;
    if r.decodeErr.Some? {
      actions := [WriteHeader(StatusBadRequest), Write(Nok(r.decodeErr.value))];
      return;
    }
    if msg.methodName == "" {
      actions := [WriteHeader(StatusBadRequest), Write(Nok("Wrong message format"))];
      return;
    }
    actions := CheckToken(s, HeaderGet(r.header, "Token"));
    var t := ProcessPath(s.handlers, s.middlewares, msg);
    dispatched := Some(t);
    var reply := WriteOutcome(t.outcome, marshalErr);
    actions := actions + reply;
  }


  /** `net/http` sends a 1xx status other than 101 as an informational
      response; the final status is still to come. */
  predicate Informational(code: int) {
    100 <= code < 200 && code != 101
  }

  /** The final status the client receives: that of the first `WriteHeader`
      that is not informational (later ones are ignored), or 200 when a body
      is written before one. */
  function WireStatus(actions: seq<Action>): Option<int>
    decreases |actions|
  {
    if |actions| == 0 then None
    else if actions[0].WriteHeader? && !Informational(actions[0].code) then Some(actions[0].code)
    else if actions[0].Write? then Some(StatusOK)
    else WireStatus(actions[1..])
  }

  /** The value a header was last set to. */
  function HeaderValue(actions: seq<Action>, key: string): Option<string>
    decreases |actions|
  {
    if |actions| == 0 then None
    else if actions[|actions| - 1].SetHeader? && actions[|actions| - 1].key == key then Some(actions[|actions| - 1].value)
    else HeaderValue(actions[..|actions| - 1], key)
  }

  /** The bodies written, in order. */
  function Written(actions: seq<Action>): seq<Body>
    decreases |actions|
  {
    if |actions| == 0 then []
    else (if actions[0].Write? then [actions[0].body] else []) + Written(actions[1..])
  }

  lemma {:induction false} WireStatusAppend(a: seq<Action>, b: seq<Action>)
    ensures WireStatus(a + b) == if WireStatus(a).Some? then WireStatus(a) else WireStatus(b)
    decreases |a|
  {
    if |a| == 0 {
      assert a + b == b;
    } else {
      assert (a + b)[0] == a[0] && (a + b)[1..] == a[1..] + b;
      WireStatusAppend(a[1..], b);
    }
  }

  lemma {:induction false} WrittenAppend(a: seq<Action>, b: seq<Action>)
    ensures Written(a + b) == Written(a) + Written(b)
    decreases |a|
  {
    if |a| == 0 {
      assert a + b == b;
    } else {
      assert (a + b)[0] == a[0] && (a + b)[1..] == a[1..] + b;
      WrittenAppend(a[1..], b);
    }
  }

  /** Setting headers writes neither a status nor a body. */
  lemma {:induction false} HeadersWriteNothing(hs: seq<Action>)
    requires forall i :: 0 <= i < |hs| ==> hs[i].SetHeader?
    ensures WireStatus(hs) == None && Written(hs) == []
    decreases |hs|
  {
    if |hs| > 0 {
      assert forall i :: 0 <= i < |hs[1..]| ==> hs[1..][i] == hs[i + 1];
      HeadersWriteNothing(hs[1..]);
    }
  }

  lemma StatusThenBody(code: int, b: Body)
    ensures WireStatus([WriteHeader(code), Write(b)]) == Some(if Informational(code) then StatusOK else code)
    ensures Written([WriteHeader(code), Write(b)]) == [b]
  {
    var t := [WriteHeader(code), Write(b)];
    assert t[1..] == [Write(b)] && t[1..][1..] == [];
    assert Written(t[1..][1..]) == [];
    assert Written(t[1..]) == [b];
  }

  /** The reply to an outcome writes one status and one body. The final
      status is 200 for the binary sentinel, 500 when the result cannot be
      encoded, 200 when the handler's status is informational, and the
      handler's own otherwise, so 210 itself never reaches the wire as a
      status; the body is the raw bytes, the error envelope or the encoded
      result. */
  lemma HttpReplyWrites(o: Outcome, marshalErr: Value -> Option<string>)
    requires o.status == StatusBinary ==> o.result.Bytes?
    requires StatusWritable(o, marshalErr)
    ensures WireStatus(HttpReply(o, marshalErr)) ==
      Some(if o.status == StatusBinary then StatusOK
           else if o.err.None? && marshalErr(o.result).Some? then StatusInternalServerError
           else if Informational(o.status) then StatusOK
           else o.status)
    ensures WireStatus(HttpReply(o, marshalErr)) != Some(StatusBinary)
    ensures Written(HttpReply(o, marshalErr)) ==
      [if o.status == StatusBinary then Raw(o.result.bytes)
       else if o.err.Some? then Nok(o.err.value)
       else if marshalErr(o.result).Some? then Nok(marshalErr(o.result).value)
       else Json(o.result)]
  {
    var hs := ReplyHeaders(o);
    var tail := HttpReply(o, marshalErr)[|hs|..];
    assert HttpReply(o, marshalErr) == hs + tail;
    assert tail[0].WriteHeader? && tail[1].Write? && |tail| == 2;
    assert tail == [WriteHeader(tail[0].code), Write(tail[1].body)];
    StatusThenBody(tail[0].code, tail[1].body);
    HeadersWriteNothing(hs);
    WireStatusAppend(hs, tail);
    WrittenAppend(hs, tail);
  }

  lemma HeaderValueSkips(a: seq<Action>, x: Action, key: string)
    requires !x.SetHeader?
    ensures HeaderValue(a + [x], key) == HeaderValue(a, key)
  {
  }

  /** On the binary path the content type is application/octet-stream and
      a content disposition is set exactly when the error slot holds a
      name, as an attachment of that name. */
  lemma BinaryHeaders(o: Outcome, marshalErr: Value -> Option<string>)
    requires o.status == StatusBinary && o.result.Bytes?
    ensures HeaderValue(HttpReply(o, marshalErr), "Content-Type") == Some("application/octet-stream")
    ensures HeaderValue(HttpReply(o, marshalErr), "Content-Disposition") ==
      if o.err.Some? then Some("attachment; filename=" + o.err.value) else None
  {
    var hs := ReplyHeaders(o);
    var w := WriteHeader(StatusOK);
    var b := Write(Raw(o.result.bytes));
    assert HttpReply(o, marshalErr) == (hs + [w]) + [b];
    HeaderValueSkips(hs + [w], b, "Content-Type");
    HeaderValueSkips(hs, w, "Content-Type");
    HeaderValueSkips(hs + [w], b, "Content-Disposition");
    HeaderValueSkips(hs, w, "Content-Disposition");
    var ct := SetHeader("Content-Type", "application/octet-stream");
    assert [ct][..0] == [];
    assert HeaderValue([ct], "Content-Type") == Some("application/octet-stream");
    assert HeaderValue([ct], "Content-Disposition") == None;
    if o.err.Some? {
      assert hs[..1] == [ct];
      assert "Content-Type" != "Content-Disposition";
    }
  }

  /** A token mismatch is answered 401 first, and the message is still
      dispatched and its reply written after the 401. */
  lemma TokenMismatchStillAnswers(configured: string, presented: string, o: Outcome, marshalErr: Value -> Option<string>)
    requires o.status == StatusBinary ==> o.result.Bytes?
    requires configured != "" && presented != configured
    ensures WireStatus(TokenActions(configured, presented) + HttpReply(o, marshalErr)) == Some(StatusUnauthorized)
    ensures Written(TokenActions(configured, presented) + HttpReply(o, marshalErr)) ==
      [Nok("Wrong token")] + Written(HttpReply(o, marshalErr))
  {
  }

  /** A handler answering status 210 with bytes [1, 2] and "report.bin" in
      its error slot is served as a 200 attachment named report.bin whose
      body is those two bytes. */
  lemma ReportDownload(marshalErr: Value -> Option<string>)
    ensures var o := Outcome(Bytes([1, 2]), StatusBinary, Some("report.bin"));
      WireStatus(HttpReply(o, marshalErr)) == Some(200) &&
      HeaderValue(HttpReply(o, marshalErr), "Content-Disposition") == Some("attachment; filename=report.bin") &&
      Written(HttpReply(o, marshalErr)) == [Raw([1, 2])]
  {
    var o := Outcome(Bytes([1, 2]), StatusBinary, Some("report.bin"));
    HttpReplyWrites(o, marshalErr);
    BinaryHeaders(o, marshalErr);
    assert "attachment; filename=" + "report.bin" == "attachment; filename=report.bin";
  }

  // ----- WebSocket (one iteration of handleWSConnections) -----

  /** The configured token is a string (the source asserts its type). */
  ghost predicate TokenIsString(s: SaiService.Service, path: string)
    reads s
  {
    Config.ServiceGet(s.configuration, path, Str("")).Str?
  }

  predicate WsTokenMismatch(configured: string, presented: string) {
    configured != "" && presented != configured
  }

  ghost predicate WsDefined(s: SaiService.Service, frame: Option<Message>, presented: string)
    reads s
  {
    frame.Some? && frame.value.methodName != "" ==>
      TokenIsString(s, "token") &&
      (!WsTokenMismatch(Config.ServiceGet(s.configuration, "token", Str("")).s, presented) ==>
         DispatchDefined(s.handlers, s.middlewares, Unfilled(frame.value)))
  }

  /** One received frame (`None` when receiving or decoding failed), the
      connection's Token header, what encoding a result fails with, and what
      writing a frame to the connection fails with. `websocket.JSON.Send`
      encodes first: a result that fails to encode is never written and its
      error is sent instead; a result that encodes is handed to the
      connection, and a write failure is answered after it. */
  function WsFrame(s: SaiService.Service, frame: Option<Message>, presented: string,
                   marshalErr: Value -> Option<string>, writeErr: Option<string>): (x: Exchange)
    reads s
    requires WsDefined(s, frame, presented)
    ensures |x.replies| >= 1
    ensures x.dispatched.Some? <==>
      frame.Some? && frame.value.methodName != "" &&
      !WsTokenMismatch(Config.ServiceGet(s.configuration, "token", Str("")).s, presented)
    ensures x.dispatched.Some? ==> x.dispatched.value == Dispatch(s.handlers, s.middlewares, Unfilled(frame.value))
    ensures x.dispatched.Some? ==>
      var o := x.dispatched.value.outcome;
      x.replies ==
        if o.err.Some? then [Nok(o.err.value)]
        else if marshalErr(o.result).Some? then [Nok(marshalErr(o.result).value)]
        else [Json(o.result)] + (if writeErr.Some? then [Nok(writeErr.value)] else [])
  {
    if frame.None? || frame.value.methodName == "" then Exchange([Nok("Wrong message format")], None)
    else if WsTokenMismatch(Config.ServiceGet(s.configuration, "token", Str("")).s, presented) then
      Exchange([Nok("Wrong token")], None)
    else
      var t := Dispatch(s.handlers, s.middlewares, Unfilled(frame.value));
      var o := t.outcome;
      if o.err.Some? then Exchange([Nok(o.err.value)], Some(t))
      else if marshalErr(o.result).Some? then Exchange([Nok(marshalErr(o.result).value)], Some(t))
      else if writeErr.Some? then Exchange([Json(o.result), Nok(writeErr.value)], Some(t))
      else Exchange([Json(o.result)], Some(t))
  }

  /** A frame whose Token header differs from the configured "token" gets
      "Wrong token" and is not dispatched; a malformed frame or one without
      a method gets "Wrong message format". */
  lemma WsRejections(s: SaiService.Service, frame: Option<Message>, presented: string,
                     marshalErr: Value -> Option<string>, writeErr: Option<string>)
    requires WsDefined(s, frame, presented)
    ensures (frame.None? || frame.value.methodName == "") ==>
      WsFrame(s, frame, presented, marshalErr, writeErr) == Exchange([Nok("Wrong message format")], None)
    ensures (frame.Some? && frame.value.methodName != "" &&
             WsTokenMismatch(Config.ServiceGet(s.configuration, "token", Str("")).s, presented)) ==>
      WsFrame(s, frame, presented, marshalErr, writeErr) == Exchange([Nok("Wrong token")], None)
  {
  }

  // ----- socket (one iteration of handleSocketConnections) -----

  ghost predicate SocketDefined(s: SaiService.Service, line: string, decoded: Message)
    reads s
  {
    line != "" && decoded.methodName != "" ==> DispatchDefined(s.handlers, s.middlewares, Unfilled(decoded))
  }

  /** One line read (`""` when nothing was read) and what the decoder left
      in the message; a decode error is ignored, so only the method decides.
      Each reply goes out followed by a newline. The handler's status plays
      no part in the reply. */
  function SocketLine(s: SaiService.Service, line: string, decoded: Message, marshalErr: Value -> Option<string>)
    : (x: Exchange)
    reads s
    requires SocketDefined(s, line, decoded)
    ensures line == "" ==> x == Exchange([], None)
    ensures line != "" && decoded.methodName == "" ==> x == Exchange([Nok("Wrong message format")], None)
    ensures x.dispatched.Some? <==> line != "" && decoded.methodName != ""
    ensures x.dispatched.Some? ==> x.dispatched.value == Dispatch(s.handlers, s.middlewares, Unfilled(decoded))
    ensures x.dispatched.Some? ==>
      var o := x.dispatched.value.outcome;
      x.replies ==
        [if o.err.Some? then Nok(o.err.value)
         else if marshalErr(o.result).Some? then Nok(marshalErr(o.result).value)
         else Json(o.result)]
  {
    if line == "" then Exchange([], None)
    else if decoded.methodName == "" then Exchange([Nok("Wrong message format")], None)
    else
      var t := Dispatch(s.handlers, s.middlewares, Unfilled(decoded));
      if t.outcome.err.Some? then Exchange([Nok(t.outcome.err.value)], Some(t))
      else if marshalErr(t.outcome.result).Some? then Exchange([Nok(marshalErr(t.outcome.result).value)], Some(t))
      else Exchange([Json(t.outcome.result)], Some(t))
  }

  /** A message with a method that passes the WebSocket token check is
      dispatched alike on both connections, and, when the WebSocket write
      succeeds, answered alike. */
  lemma WsAgreesWithSocket(s: SaiService.Service, m: Message, presented: string, line: string,
                           marshalErr: Value -> Option<string>)
    requires line != "" && m.methodName != "" && SocketDefined(s, line, m) && WsDefined(s, Some(m), presented)
    requires !WsTokenMismatch(Config.ServiceGet(s.configuration, "token", Str("")).s, presented)
    ensures WsFrame(s, Some(m), presented, marshalErr, None) == SocketLine(s, line, m, marshalErr)
  {
  }

  // ----- CLI (handleCliCommand, ExecuteCommand) -----

  /** `json.Unmarshal` of the argument: the message, or the error text. */
  datatype Decoding = Decoded(msg: Message) | Undecodable(err: string)

  datatype CliResult = CliOk(body: Body) | CliErr(message: string)

  ghost predicate CliDefined(s: SaiService.Service, data: string, decode: string -> Decoding)
    reads s
  {
    data != "" && decode(data).Decoded? && decode(data).msg.methodName != "" ==>
      DispatchDefined(s.handlers, s.middlewares, Unfilled(decode(data).msg))
  }

  /** `handleCliCommand`: the first failure in the order empty input,
      decoding, empty method, the dispatch error, encoding, each returned
      with its own text; otherwise the encoded result. The handler's status
      plays no part. */
  function HandleCliCommand(s: SaiService.Service, data: string, decode: string -> Decoding,
                            marshalErr: Value -> Option<string>): (r: CliResult)
    reads s
    requires CliDefined(s, data, decode)
    ensures data == "" ==> r == CliErr("empty data provided")
    ensures data != "" && decode(data).Undecodable? ==> r == CliErr(decode(data).err)
    ensures data != "" && decode(data).Decoded? && decode(data).msg.methodName == "" ==>
      r == CliErr("empty message method got")
    ensures data != "" && decode(data).Decoded? && decode(data).msg.methodName != "" ==>
      var o := Dispatch(s.handlers, s.middlewares, Unfilled(decode(data).msg)).outcome;
      (o.err.Some? ==> r == CliErr(o.err.value)) &&
      (o.err.None? && marshalErr(o.result).Some? ==> r == CliErr(marshalErr(o.result).value))
    ensures r.CliOk? <==>
      data != "" && decode(data).Decoded? && decode(data).msg.methodName != "" &&
      Dispatch(s.handlers, s.middlewares, Unfilled(decode(data).msg)).outcome.err.None? &&
      marshalErr(Dispatch(s.handlers, s.middlewares, Unfilled(decode(data).msg)).outcome.result).None?
    ensures r.CliOk? ==> r.body == Json(Dispatch(s.handlers, s.middlewares, Unfilled(decode(data).msg)).outcome.result)
  {
    if data == "" then CliErr("empty data provided")
    else match decode(data)
      case Undecodable(e) => CliErr(e)
      case Decoded(m) =>
        if m.methodName == "" then CliErr("empty message method got")
        else
          var o := Dispatch(s.handlers, s.middlewares, Unfilled(m)).outcome;
          if o.err.Some? then CliErr(o.err.value)
          else match marshalErr(o.result)
            case Some(e) => CliErr(e)
            case None => CliOk(Json(o.result))
  }

  /** What a CLI command prints, and the error it returns. */
  datatype CommandResult = CommandResult(printed: Option<Body>, err: Option<string>)

  /** `ExecuteCommand`: the command name is not used; the argument alone is
      the whole envelope, and the error of `handleCliCommand` is returned
      unchanged. */
  function ExecuteCommand(s: SaiService.Service, path: string, data: string, decode: string -> Decoding,
                          marshalErr: Value -> Option<string>): (r: CommandResult)
    reads s
    requires CliDefined(s, data, decode)
    ensures r.printed.Some? <==> r.err.None?
    ensures match HandleCliCommand(s, data, decode, marshalErr)
      case CliOk(b) => r.printed == Some(b)
      case CliErr(e) => r.err == Some(e)
  {
    match HandleCliCommand(s, data, decode, marshalErr)
    case CliOk(b) => CommandResult(Some(b), None)
    case CliErr(e) => CommandResult(None, Some(e))
  }

  /** Two commands with the same argument behave alike, whatever their
      names. */
  lemma ExecuteCommandIgnoresPath(s: SaiService.Service, p: string, q: string, data: string,
                                  decode: string -> Decoding, marshalErr: Value -> Option<string>)
    requires CliDefined(s, data, decode)
    ensures ExecuteCommand(s, p, data, decode, marshalErr) == ExecuteCommand(s, q, data, decode, marshalErr)
  {
  }
}
