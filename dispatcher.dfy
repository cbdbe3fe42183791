/** `applyMiddleware` and `processPath`: building the chain for one handler
    and dispatching an envelope to the handler registered for its method. */
module Dispatcher {
  import opened Values
  import opened Pipeline

  function Reverse<T>(s: seq<T>): (r: seq<T>)
    ensures |r| == |s|
    ensures forall i :: 0 <= i < |s| ==> r[i] == s[|s| - 1 - i]
    decreases |s|
  {
    if |s| == 0 then [] else [s[|s| - 1]] + Reverse(s[..|s| - 1])
  }

  lemma ReverseOfPrefix<T>(s: seq<T>, i: nat)
    requires i < |s|
    ensures Reverse(s[..i + 1]) == [s[i]] + Reverse(s[..i])
  {
    assert s[..i + 1][..i] == s[..i];
  }

  /** The chain `applyMiddleware` ends with in `last`: the local middlewares
      in reverse declaration order, then the global ones in reverse
      declaration order, then the handler. */
  function ChainFor(globals: seq<Middleware>, h: HandlerElement): (c: Chain)
    ensures Stages(c) == Reverse(h.middlewares) + Reverse(globals)
    ensures Core(c) == Terminal(h.name, h.fn)
  {
    Nest(Reverse(h.middlewares) + Reverse(globals), Terminal(h.name, h.fn))
  }

  /** The two loops of `applyMiddleware`: each wraps a middleware around the
      closure current at that moment, globals first, then locals, each in
      declaration order. */
  method BuildChain(globals: seq<Middleware>, h: HandlerElement) returns (last: Chain)
    ensures Stages(last) == Reverse(h.middlewares) + Reverse(globals)
    ensures Core(last) == Terminal(h.name, h.fn)
  {
    last := Terminal(h.name, h.fn);
    for i := 0 to |globals|
      invariant Stages(last) == Reverse(globals[..i])
      invariant Core(last) == Terminal(h.name, h.fn)
    {
      ReverseOfPrefix(globals, i);
      ghost var inner := last;
      last := Wrap(globals[i], last);
      assert Stages(last) == [globals[i]] + Stages(inner);
    }
    assert globals[..|globals|] == globals;
    var locals := h.middlewares;
    for j := 0 to |locals|
      invariant Stages(last) == Reverse(locals[..j]) + Reverse(globals)
      invariant Core(last) == Terminal(h.name, h.fn)
    {
      ReverseOfPrefix(locals, j);
      last := Wrap(locals[j], last);
      assert Stages(last) == [locals[j]] + (Reverse(locals[..j]) + Reverse(globals));
      assert [locals[j]] + (Reverse(locals[..j]) + Reverse(globals)) == Reverse(locals[..j + 1]) + Reverse(globals);
    }
    assert locals[..|locals|] == locals;
  }

  /** `applyMiddleware`: build the chain, then call it with the three
      request parts. */
  method ApplyMiddleware(globals: seq<Middleware>, h: HandlerElement, req: Request) returns (t: Trace)
    requires Runnable(ChainFor(globals, h), req)
    ensures t == Run(ChainFor(globals, h), req)
  {
    var last := BuildChain(globals, h);
    NestOfParts(last);
    t := Run(last, req);
  }

  const NotFound := Outcome(Null, StatusNotFound, Some("no handler"))

  ghost predicate DispatchDefined(handlers: map<string, HandlerElement>, globals: seq<Middleware>, env: Envelope) {
    env.methodName in handlers ==> Runnable(ChainFor(globals, handlers[env.methodName]), RequestOf(env))
  }

  /** What `processPath` returns, with the events of the chain it ran. An
      unknown method answers 404 and runs nothing; a known one invokes no
      handler but its own element's, on the envelope's three parts. */
  function Dispatch(handlers: map<string, HandlerElement>, globals: seq<Middleware>, env: Envelope): (t: Trace)
    requires DispatchDefined(handlers, globals, env)
    ensures env.methodName !in handlers ==> t.outcome == NotFound && t.events == []
    ensures env.methodName in handlers ==>
      forall i :: 0 <= i < |Invocations(t.events)| ==>
        Invocations(t.events)[i] == Invoked(handlers[env.methodName].name, RequestOf(env))
  {
    if env.methodName !in handlers then Trace(NotFound, [])
    else
      var h := handlers[env.methodName];
      HandlerRunsIffAllEnter(ChainFor(globals, h), RequestOf(env));
      Run(ChainFor(globals, h), RequestOf(env))
  }

  /** `processPath`: look the method up; on a miss answer 404 "no handler",
      otherwise run that element's chain on the envelope's parts. */
  method ProcessPath(handlers: map<string, HandlerElement>, globals: seq<Middleware>, msg: Envelope)
    returns (t: Trace)
    requires DispatchDefined(handlers, globals, msg)
    ensures t == Dispatch(handlers, globals, msg)
  {
    if msg.methodName !in handlers {
      return Trace(NotFound, []);
    }
    var h := handlers[msg.methodName];
    t := ApplyMiddleware(globals, h, RequestOf(msg));
  }

  /** An unregistered method answers (nil, 404, "no handler") and runs no
      middleware and no handler. */
  lemma UnregisteredIsNotFound(handlers: map<string, HandlerElement>, globals: seq<Middleware>, env: Envelope)
    requires env.methodName !in handlers
    ensures Dispatch(handlers, globals, env).outcome == Outcome(Null, 404, Some("no handler"))
    ensures Dispatch(handlers, globals, env).events == []
  {
  }

  /** A registered method calls at most one handler, that of its own
      element, with the envelope's body data, metadata and GET data
      unchanged; it calls it exactly when every stage calls `next`, and then
      the handler's outcome is the answer. */
  lemma DispatchCallsOnlyItsHandler(handlers: map<string, HandlerElement>, globals: seq<Middleware>, env: Envelope)
    requires env.methodName in handlers && DispatchDefined(handlers, globals, env)
    ensures var h := handlers[env.methodName];
            var c := ChainFor(globals, h);
            Invocations(Dispatch(handlers, globals, env).events) ==
              if AllEnter(c, RequestOf(env)) then [Invoked(h.name, Request(env.data, Map(env.metadata), env.getData))] else []
    ensures var h := handlers[env.methodName];
            AllEnter(ChainFor(globals, h), RequestOf(env)) ==>
              h.fn.requires(RequestOf(env)) && Dispatch(handlers, globals, env).outcome == h.fn(RequestOf(env))
  {
    var h := handlers[env.methodName];
    HandlerRunsIffAllEnter(ChainFor(globals, h), RequestOf(env));
  }

  /** With logging middlewares only, a dispatch logs the locals' "received"
      lines in reverse declaration order, then the globals' in reverse
      declaration order, calls the handler, and logs the "processed" lines
      in the opposite order; the answer is the handler's. */
  lemma {:induction false} LoggingChainOrder(globals: seq<Middleware>, h: HandlerElement, req: Request)
    requires AllLogging(globals) && AllLogging(h.middlewares) && h.fn.requires(req)
    ensures var order := Reverse(h.middlewares) + Reverse(globals);
            AllLogging(order) && Runnable(ChainFor(globals, h), req) &&
            Run(ChainFor(globals, h), req) ==
              Trace(h.fn(req), ReceivedLines(order) + [Invoked(h.name, req)] + ProcessedLines(order))
  {
    var order := Reverse(h.middlewares) + Reverse(globals);
    assert AllLogging(order) by {
      forall i | 0 <= i < |order| ensures order[i].Logging? {
        if i < |h.middlewares| {
          assert order[i] == h.middlewares[|h.middlewares| - 1 - i];
        } else {
          assert order[i] == Reverse(globals)[i - |h.middlewares|];
        }
      }
    }
    LoggingEnters(order, req);
    RunThrough(order, Terminal(h.name, h.fn), req);
  }

  /** Globals `[A, B]` and local `[C]` run as C, B, A, handler, A, B, C:
      locals first, every group in reverse declaration order. */
  lemma GlobalsABLocalC(f: HandlerFunc, req: Request)
    requires f.requires(req)
    ensures var h := HandlerElement("H", "", f, [Logging("C")]);
            Runnable(ChainFor([Logging("A"), Logging("B")], h), req) &&
            Run(ChainFor([Logging("A"), Logging("B")], h), req).events ==
              [Received("C"), Received("B"), Received("A"), Invoked("H", req),
               Processed("A"), Processed("B"), Processed("C")]
  {
    var h := HandlerElement("H", "", f, [Logging("C")]);
    var globals := [Logging("A"), Logging("B")];
    LoggingChainOrder(globals, h, req);
    var order := Reverse(h.middlewares) + Reverse(globals);
    assert order == [Logging("C"), Logging("B"), Logging("A")];
    assert order[1..] == [Logging("B"), Logging("A")] && order[2..] == [Logging("A")] && order[3..] == [];
    assert ReceivedLines(order[2..]) == [Received("A")] && ProcessedLines(order[2..]) == [Processed("A")];
    assert ReceivedLines(order[1..]) == [Received("B"), Received("A")];
    assert ProcessedLines(order[1..]) == [Processed("A"), Processed("B")];
  }
}
