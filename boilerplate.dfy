/** The boilerplate service: two handlers that echo their body data behind
    the configured "test" value, and two logging middlewares. */
module Boilerplate {
  import opened Values
  import Config
  import Strings
  import opened Pipeline
  import opened Dispatcher

  /** The "test" value as `is.Context.GetConfig("test", "80")` returns it. */
  function TestValue(cfg: map<string, Value>): Value {
    Config.ContextGet(cfg, "test", Str("80"))
  }

  /** `get` and `post`: `verb + ":" + test + ":" + data`, status 200, no
      error. Both type assertions are the handler's preconditions. */
  function Answer(verb: string, cfg: map<string, Value>, data: Value): (o: Outcome)
    requires data.Str? && TestValue(cfg).Str?
    ensures o.status == StatusOK && o.err == None && o.result.Str?
  {
    Outcome(Str(verb + ":" + TestValue(cfg).s + ":" + data.s), StatusOK, None)
  }

  /** The answer splits at its colons back into the verb, the configured
      value and the data: exactly those three when neither holds a colon. */
  lemma AnswerSplits(verb: string, cfg: map<string, Value>, data: Value)
    requires data.Str? && TestValue(cfg).Str? && ':' !in verb
    ensures Strings.Split(Answer(verb, cfg, data).result.s, ':') ==
      [verb] + Strings.Split(TestValue(cfg).s, ':') + Strings.Split(data.s, ':')
    ensures ':' !in TestValue(cfg).s && ':' !in data.s ==>
      Strings.Split(Answer(verb, cfg, data).result.s, ':') == [verb, TestValue(cfg).s, data.s]
  {
    var t := TestValue(cfg).s;
    assert verb + ":" + t + ":" + data.s == verb + [':'] + (t + [':'] + data.s);
    Strings.SplitConcat(verb, t + [':'] + data.s, ':');
    Strings.SplitConcat(t, data.s, ':');
    Strings.SplitWithoutSeparator(verb, ':');
    if ':' !in t && ':' !in data.s {
      Strings.SplitWithoutSeparator(t, ':');
      Strings.SplitWithoutSeparator(data.s, ':');
    }
  }

  /** An unconfigured "test" reads as "80". */
  lemma TestDefaultsTo80(cfg: map<string, Value>)
    requires "test" !in cfg
    ensures TestValue(cfg) == Str("80")
  {
    Strings.SplitWithoutSeparator("test", '.');
  }

  function HandlerOf(verb: string, cfg: map<string, Value>): HandlerFunc {
    (r: Request) requires r.data.Str? && TestValue(cfg).Str? => Answer(verb, cfg, r.data)
  }

  /** `NewHandler`: "get" and "post", each registered under its own name,
      with no local middlewares; the configuration is the one the handlers
      read. */
  function NewHandler(cfg: map<string, Value>): (h: map<string, HandlerElement>)
    ensures h.Keys == {"get", "post"}
    ensures forall k :: k in h ==> h[k].name == k && h[k].middlewares == []
  {
    map["get" := HandlerElement("get", "Get value from the storage", HandlerOf("Get", cfg), []),
        "post" := HandlerElement("post", "Post value to the storage with specified key", HandlerOf("Post", cfg), [])]
  }

  /** What the "get" and "post" handlers answer: only the body data
      matters, never the metadata or the GET data. */
  lemma HandlersReadOnlyData(cfg: map<string, Value>, k: string, r: Request, r2: Request)
    requires k in NewHandler(cfg) && r.data.Str? && r2.data == r.data && TestValue(cfg).Str?
    ensures NewHandler(cfg)[k].fn.requires(r) && NewHandler(cfg)[k].fn.requires(r2)
    ensures NewHandler(cfg)[k].fn(r) == NewHandler(cfg)[k].fn(r2) ==
      Answer(if k == "get" then "Get" else "Post", cfg, r.data)
  {
  }

  /** `NewMiddlewares`: the two logging middlewares, in this order. */
  function NewMiddlewares(): (ms: seq<Middleware>)
    ensures AllLogging(ms)
  {
    [Logging("loggingMiddleware"), Logging("secondMiddleware")]
  }

  /** `loggingMiddleware` and `secondMiddleware` each call `next` once with
      the arguments they were given, log "received" before everything `next`
      does and "processed" after it, and answer what `next` answers. */
  lemma MiddlewaresPassThrough(i: nat, next: Chain, req: Request)
    requires i < |NewMiddlewares()| && Runnable(next, req)
    ensures var m := NewMiddlewares()[i];
      Runnable(Wrap(m, next), req) &&
      Run(Wrap(m, next), req) ==
        Trace(Run(next, req).outcome, [Received(m.name)] + Run(next, req).events + [Processed(m.name)])
    ensures Invocations(Run(Wrap(NewMiddlewares()[i], next), req).events) == Invocations(Run(next, req).events)
  {
    var m := NewMiddlewares()[i];
    InvocationsAppend([Received(m.name)], Run(next, req).events);
    InvocationsAppend([Received(m.name)] + Run(next, req).events, [Processed(m.name)]);
    assert Invocations([Received(m.name)]) == [] by { InvocationsNone([Received(m.name)]); }
    assert Invocations([Processed(m.name)]) == [] by { InvocationsNone([Processed(m.name)]); }
  }

  /** Any string body sent to "get" or "post" is answered by that handler
      alone, between the two middlewares' log lines: second received,
      logging received, the handler, logging processed, second processed. */
  lemma DispatchThroughBoilerplate(cfg: map<string, Value>, env: Envelope)
    requires env.methodName in {"get", "post"} && env.data.Str? && TestValue(cfg).Str?
    ensures DispatchDefined(NewHandler(cfg), NewMiddlewares(), env)
    ensures Dispatch(NewHandler(cfg), NewMiddlewares(), env) ==
      Trace(Answer(if env.methodName == "get" then "Get" else "Post", cfg, env.data),
            [Received("secondMiddleware"), Received("loggingMiddleware"), Invoked(env.methodName, RequestOf(env)),
             Processed("loggingMiddleware"), Processed("secondMiddleware")])
  {
    var h := NewHandler(cfg)[env.methodName];
    var req := RequestOf(env);
    LoggingChainOrder(NewMiddlewares(), h, req);
    var order := Reverse(h.middlewares) + Reverse(NewMiddlewares());
    assert order == [Logging("secondMiddleware"), Logging("loggingMiddleware")];
    assert order[1..] == [Logging("loggingMiddleware")] && order[1..][1..] == [];
    assert ReceivedLines(order[1..]) == [Received("loggingMiddleware")];
    assert ProcessedLines(order[1..]) == [Processed("loggingMiddleware")];
  }

  /** "get" with body "X" and no "test" configured answers "Get:80:X". */
  lemma GetWithDefault(cfg: map<string, Value>)
    requires "test" !in cfg
    ensures var env := Envelope("get", map[], Str("X"), Null);
      DispatchDefined(NewHandler(cfg), NewMiddlewares(), env) &&
      Dispatch(NewHandler(cfg), NewMiddlewares(), env).outcome == Outcome(Str("Get:80:X"), 200, None)
  {
    TestDefaultsTo80(cfg);
    DispatchThroughBoilerplate(cfg, Envelope("get", map[], Str("X"), Null));
  }

  /** Any other method is not found and runs neither middleware. */
  lemma OtherMethodsNotFound(cfg: map<string, Value>, env: Envelope)
    requires env.methodName !in {"get", "post"}
    ensures DispatchDefined(NewHandler(cfg), NewMiddlewares(), env)
    ensures Dispatch(NewHandler(cfg), NewMiddlewares(), env) == Trace(Outcome(Null, 404, Some("no handler")), [])
  {
  }
}
