/** Middleware chains. A chain is the handler function wrapped in middleware
    closures, the newest closure outermost; running it runs each stage, which
    either calls the next stage or answers itself. Events record what each
    stage observably does: the log lines of the logging middlewares, the
    check the authentication middleware makes, and the handler call with the
    arguments that reached it. */
module Pipeline {
  import opened Values
  import Auth

  /** `HandlerFunc`; partial where the source's handler would panic. */
  type HandlerFunc = Request --> Outcome

  /** The middlewares of this repository:
      - `Logging(name)`: logs "received", calls `next` with its arguments,
        logs "processed" and returns `next`'s outcome unchanged
        (`loggingMiddleware`, `secondMiddleware`);
      - `ShortCircuit(name, response)`: returns `response` without `next`;
      - `Guarded(auth)`: the authentication middleware. */
  datatype Middleware =
    | Logging(name: string)
    | ShortCircuit(name: string, response: Outcome)
    | Guarded(auth: Auth.AuthConfig)

  /** `HandlerElement`: a registered handler and its local middlewares. */
  datatype HandlerElement = HandlerElement(name: string, description: string, fn: HandlerFunc,
                                           middlewares: seq<Middleware>)

  /** The closure `last` of `applyMiddleware`: the handler function, or a
      middleware wrapped around the closure that was current when it was
      wrapped. */
  datatype Chain = Terminal(name: string, fn: HandlerFunc) | Wrap(stage: Middleware, next: Chain)

  datatype Event =
    | Received(stage: string)
    | Processed(stage: string)
    | Checked(check: Auth.CheckRequest)
    | Invoked(handler: string, request: Request)

  datatype Trace = Trace(outcome: Outcome, events: seq<Event>)

  /** What one stage does with a request: call `next` with it, with events
      before and after the call, or answer itself. */
  datatype Step = Enter(before: seq<Event>, after: seq<Event>) | Halt(response: Outcome, events: seq<Event>)

  predicate NoInvocation(evs: seq<Event>) {
    forall i :: 0 <= i < |evs| ==> !evs[i].Invoked?
  }

  predicate StageDefined(m: Middleware, req: Request) {
    m.Guarded? ==> Auth.GuardDefined(m.auth, req)
  }

  function StepOf(m: Middleware, req: Request): (s: Step)
    requires StageDefined(m, req)
    ensures s.Enter? ==> NoInvocation(s.before) && NoInvocation(s.after)
    ensures s.Halt? ==> NoInvocation(s.events)
  {
    match m
    case Logging(n) => Enter([Received(n)], [Processed(n)])
    case ShortCircuit(_, o) => Halt(o, [])
    case Guarded(a) =>
      match Auth.Guard(a, req)
      case Allow(c) => Enter([Checked(c)], [])
      case Deny(o, c) => Halt(o, if c.Some? then [Checked(c.value)] else [])
  }

  /** The middlewares of a chain, outermost (first to run) first. */
  function Stages(c: Chain): seq<Middleware> {
    match c
    case Terminal(_, _) => []
    case Wrap(m, next) => [m] + Stages(next)
  }

  /** The handler at the bottom of a chain. */
  function Core(c: Chain): (t: Chain)
    ensures t.Terminal?
  {
    match c
    case Terminal(_, _) => c
    case Wrap(_, next) => Core(next)
  }

  /** `ms` wrapped around `inner`, `ms[0]` outermost. */
  function Nest(ms: seq<Middleware>, inner: Chain): (c: Chain)
    ensures Stages(c) == ms + Stages(inner) && Core(c) == Core(inner)
    decreases |ms|
  {
    if |ms| == 0 then inner
    else
      var rest := Nest(ms[1..], inner);
      assert Stages(Wrap(ms[0], rest)) == [ms[0]] + (ms[1..] + Stages(inner));
      assert [ms[0]] + (ms[1..] + Stages(inner)) == ms + Stages(inner);
      Wrap(ms[0], rest)
  }

  /** A chain is determined by its stages and its handler. */
  lemma {:induction false} NestOfParts(c: Chain)
    ensures Nest(Stages(c), Core(c)) == c
  {
    match c
    case Terminal(_, _) =>
    case Wrap(m, next) =>
      NestOfParts(next);
      assert Stages(c)[1..] == Stages(next);
  }

  /** Every stage the request reaches is defined on it, and so is the
      handler if it is reached. */
  ghost predicate Runnable(c: Chain, req: Request) {
    match c
    case Terminal(_, f) => f.requires(req)
    case Wrap(m, next) => StageDefined(m, req) && (StepOf(m, req).Enter? ==> Runnable(next, req))
  }

  /** Every stage of the chain calls `next`. */
  predicate AllEnter(c: Chain, req: Request)
    requires Runnable(c, req)
  {
    match c
    case Terminal(_, _) => true
    case Wrap(m, next) => StepOf(m, req).Enter? && AllEnter(next, req)
  }

  /** The call `last(data, metadata, getData)`. When every stage calls
      `next`, the handler at the bottom is reached and its outcome is the
      chain's. */
  function Run(c: Chain, req: Request): (t: Trace)
    requires Runnable(c, req)
    ensures AllEnter(c, req) ==> Core(c).fn.requires(req) && t.outcome == Core(c).fn(req)
  {
    match c
    case Terminal(name, f) => Trace(f(req), [Invoked(name, req)])
    case Wrap(m, next) =>
      match StepOf(m, req)
      case Halt(o, evs) => Trace(o, evs)
      case Enter(before, after) =>
        var t := Run(next, req);
        Trace(t.outcome, before + t.events + after)
  }

  function Invocations(evs: seq<Event>): (r: seq<Event>)
    ensures forall i :: 0 <= i < |r| ==> r[i].Invoked?
    decreases |evs|
  {
    if |evs| == 0 then []
    else (if evs[0].Invoked? then [evs[0]] else []) + Invocations(evs[1..])
  }

  lemma {:induction false} InvocationsAppend(a: seq<Event>, b: seq<Event>)
    ensures Invocations(a + b) == Invocations(a) + Invocations(b)
    decreases |a|
  {
    if |a| == 0 {
      assert a + b == b;
    } else {
      assert (a + b)[0] == a[0];
      assert (a + b)[1..] == a[1..] + b;
      InvocationsAppend(a[1..], b);
    }
  }

  lemma {:induction false} InvocationsNone(evs: seq<Event>)
    requires NoInvocation(evs)
    ensures Invocations(evs) == []
    decreases |evs|
  {
    if |evs| > 0 {
      InvocationsNone(evs[1..]);
    }
  }

  /** The handler is called at most once, with the request as the chain
      received it, and it is called exactly when every stage calls `next`;
      then the chain's outcome is the handler's, unchanged. */
  lemma {:induction false} HandlerRunsIffAllEnter(c: Chain, req: Request)
    requires Runnable(c, req)
    ensures Invocations(Run(c, req).events) == if AllEnter(c, req) then [Invoked(Core(c).name, req)] else []
    ensures AllEnter(c, req) ==> Core(c).fn.requires(req) && Run(c, req).outcome == Core(c).fn(req)
  {
    match c
    case Terminal(name, f) =>
      assert Invocations([Invoked(name, req)]) == [Invoked(name, req)] + Invocations([]);
    case Wrap(m, next) =>
      match StepOf(m, req)
      case Halt(o, evs) =>
        InvocationsNone(evs);
      case Enter(before, after) =>
        HandlerRunsIffAllEnter(next, req);
        var t := Run(next, req);
        InvocationsAppend(before + t.events, after);
        InvocationsAppend(before, t.events);
        InvocationsNone(before);
        InvocationsNone(after);
  }

  /** Every stage of `ms` calls `next`. */
  predicate EnterAll(ms: seq<Middleware>, req: Request)
    decreases |ms|
  {
    |ms| == 0 || (StageDefined(ms[0], req) && StepOf(ms[0], req).Enter? && EnterAll(ms[1..], req))
  }

  /** The events each stage of `ms` makes before calling `next`, outermost
      first. */
  function Befores(ms: seq<Middleware>, req: Request): seq<Event>
    requires EnterAll(ms, req)
    decreases |ms|
  {
    if |ms| == 0 then [] else StepOf(ms[0], req).before + Befores(ms[1..], req)
  }

  /** The events each stage of `ms` makes after `next` returns, innermost
      first: the unwinding. */
  function Afters(ms: seq<Middleware>, req: Request): seq<Event>
    requires EnterAll(ms, req)
    decreases |ms|
  {
    if |ms| == 0 then [] else Afters(ms[1..], req) + StepOf(ms[0], req).after
  }

  /** When every stage calls `next`, they run outermost first, then the
      handler runs on the unchanged request, then the stages unwind
      innermost first; the outcome is the handler's. */
  lemma {:induction false} RunThrough(ms: seq<Middleware>, t: Chain, req: Request)
    requires t.Terminal? && t.fn.requires(req) && EnterAll(ms, req)
    ensures Runnable(Nest(ms, t), req)
    ensures Run(Nest(ms, t), req) == Trace(t.fn(req), Befores(ms, req) + [Invoked(t.name, req)] + Afters(ms, req))
    decreases |ms|
  {
    if |ms| > 0 {
      RunThrough(ms[1..], t, req);
    }
  }

  /** A stage that does not call `next` ends the chain: its answer is the
      outcome, the stages outside it unwind, and nothing inside it runs,
      whatever the inner chain is. */
  lemma {:induction false} HaltIsFinal(ms: seq<Middleware>, m: Middleware, inner: Chain, req: Request)
    requires EnterAll(ms, req) && StageDefined(m, req) && StepOf(m, req).Halt?
    ensures Runnable(Nest(ms, Wrap(m, inner)), req)
    ensures Run(Nest(ms, Wrap(m, inner)), req) ==
      Trace(StepOf(m, req).response, Befores(ms, req) + StepOf(m, req).events + Afters(ms, req))
    decreases |ms|
  {
    if |ms| > 0 {
      HaltIsFinal(ms[1..], m, inner, req);
    }
  }

  predicate AllLogging(ms: seq<Middleware>) {
    forall i :: 0 <= i < |ms| ==> ms[i].Logging?
  }

  /** The "received" lines of logging stages, in order. */
  function ReceivedLines(ms: seq<Middleware>): seq<Event>
    requires AllLogging(ms)
    decreases |ms|
  {
    if |ms| == 0 then [] else [Received(ms[0].name)] + ReceivedLines(ms[1..])
  }

  /** The "processed" lines of logging stages, in reverse order. */
  function ProcessedLines(ms: seq<Middleware>): seq<Event>
    requires AllLogging(ms)
    decreases |ms|
  {
    if |ms| == 0 then [] else ProcessedLines(ms[1..]) + [Processed(ms[0].name)]
  }

  /** Logging stages all call `next`; their log lines are the events before
      and after. */
  lemma {:induction false} LoggingEnters(ms: seq<Middleware>, req: Request)
    requires AllLogging(ms)
    ensures EnterAll(ms, req)
    ensures Befores(ms, req) == ReceivedLines(ms) && Afters(ms, req) == ProcessedLines(ms)
    decreases |ms|
  {
    if |ms| > 0 {
      LoggingEnters(ms[1..], req);
    }
  }
}
