/** The guard sequence of the authentication middleware built by
    `CreateAuthMiddleware`. The remote check (build the HTTP request, send it,
    read and decode the reply) is an oracle that maps the request it would
    send to what came of it. */
module Auth {
  import opened Values

  /** `RequestData`; `metadata` is never filled by the middleware. */
  datatype CheckData = CheckData(microservice: string, methodName: string, metadata: Value, data: map<string, Value>)

  /** `Request`: what is posted to the authentication service. */
  datatype CheckRequest = CheckRequest(methodName: string, data: CheckData)

  /** The decoded reply body: not a JSON object of strings, or its fields. */
  datatype Decoded = Malformed(err: string) | Fields(fields: map<string, string>)

  /** What came of posting `CheckRequest`: a failure at one of its stages,
      or a reply body and its decoding. */
  datatype CheckReply =
    | MarshalFailed(err: string)
    | CreateFailed(err: string)
    | SendFailed(err: string)
    | ReadFailed(err: string)
    | Replied(body: string, decoded: Decoded)

  /** The three strings `CreateAuthMiddleware` is given, and the oracle. */
  datatype AuthConfig = AuthConfig(serviceURL: string, microservice: string, methodName: string,
                                   oracle: CheckRequest -> CheckReply)

  /** Either the middleware calls `next` (after the check it made), or it
      answers itself, having made the check or not. */
  datatype Verdict = Allow(made: CheckRequest) | Deny(response: Outcome, check: Option<CheckRequest>)

  /** `unauthorizedResponse`. */
  function Unauthorized(info: string): (o: Outcome)
    ensures o.status == StatusUnauthorized && o.result == Null && o.err.Some?
    ensures |o.err.value| >= |"unauthorized:"| && o.err.value[..|"unauthorized:"|] == "unauthorized:"
    ensures o.err.value[|"unauthorized:"|..] == info
  {
    Outcome(Null, StatusUnauthorized, Some("unauthorized:" + info))
  }

  predicate HasToken(meta: map<string, Value>) {
    "token" in meta && meta["token"] != Null
  }

  /** Where the source would panic rather than answer: metadata that is
      neither nil nor a map (the type assertion), and body data that is not a
      JSON object once a token is present (the write into a nil map). */
  predicate GuardDefined(a: AuthConfig, req: Request) {
    a.serviceURL != "" && req.metadata != Null ==>
      req.metadata.Map? && (HasToken(req.metadata.entries) ==> req.data.Map?)
  }

  /** The check request: method "check", the configured names, and the body
      data's entries with `token` copied from the metadata. */
  function CheckFor(a: AuthConfig, data: map<string, Value>, token: Value): (c: CheckRequest)
    ensures c.methodName == "check" && c.data.microservice == a.microservice && c.data.methodName == a.methodName
    ensures c.data.metadata == Null
    ensures c.data.data.Keys == data.Keys + {"token"} && c.data.data["token"] == token
    ensures forall k :: k in data && k != "token" ==> c.data.data[k] == data[k]
  {
    CheckRequest("check", CheckData(a.microservice, a.methodName, Null, data["token" := token]))
  }

  /** The reply accepts only when it decodes and its `result` field is "Ok";
      a missing field reads as "". */
  predicate Accepts(reply: CheckReply) {
    reply.Replied? && reply.decoded.Fields? &&
    "result" in reply.decoded.fields && reply.decoded.fields["result"] == "Ok"
  }

  /** The guards of the middleware closure, in source order. The guard lets
      the request through exactly when the service URL is set, a token is
      present and the oracle's reply accepts the check built from this
      request; every other path answers 401 with an "unauthorized:" error. */
  function Guard(a: AuthConfig, req: Request): (v: Verdict)
    requires GuardDefined(a, req)
    ensures v.Allow? <==>
      a.serviceURL != "" && req.metadata.Map? && HasToken(req.metadata.entries) &&
      Accepts(a.oracle(CheckFor(a, req.data.entries, req.metadata.entries["token"])))
    ensures v.Allow? ==> v.made == CheckFor(a, req.data.entries, req.metadata.entries["token"])
    ensures v.Deny? ==>
      v.response.status == StatusUnauthorized && v.response.result == Null && v.response.err.Some? &&
      |v.response.err.value| >= |"unauthorized:"| &&
      v.response.err.value[..|"unauthorized:"|] == "unauthorized:"
  {
    if a.serviceURL == "" then Deny(Unauthorized("authServiceURL"), None)
    else if req.metadata == Null then Deny(Unauthorized("empty bodyMetadata"), None)
    else if !HasToken(req.metadata.entries) then Deny(Unauthorized("empty bodyMetadata token"), None)
    else
      var check := CheckFor(a, req.data.entries, req.metadata.entries["token"]);
      var reply := a.oracle(check);
      match reply
      case MarshalFailed(e) => Deny(Unauthorized("marshaling -> " + e), Some(check))
      case CreateFailed(e) => Deny(Unauthorized("creating request -> " + e), Some(check))
      case SendFailed(e) => Deny(Unauthorized("sending request -> " + e), Some(check))
      case ReadFailed(e) => Deny(Unauthorized("reading body -> " + e), Some(check))
      case Replied(body, Malformed(e)) => Deny(Unauthorized("Unmarshal -> " + e), Some(check))
      case Replied(body, Fields(f)) =>
        if Accepts(reply) then Allow(check) else Deny(Unauthorized("Result -> " + body), Some(check))
  }

  /** The guards that fail before any check is made, each with its own
      message and none of them consulting the oracle. */
  lemma EarlyDenials(a: AuthConfig, req: Request)
    requires GuardDefined(a, req)
    ensures a.serviceURL == "" ==> Guard(a, req) == Deny(Unauthorized("authServiceURL"), None)
    ensures a.serviceURL != "" && req.metadata == Null ==>
      Guard(a, req) == Deny(Unauthorized("empty bodyMetadata"), None)
    ensures a.serviceURL != "" && req.metadata.Map? && !HasToken(req.metadata.entries) ==>
      Guard(a, req) == Deny(Unauthorized("empty bodyMetadata token"), None)
  {
  }
}
