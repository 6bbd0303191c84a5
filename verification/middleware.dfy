/**
 The logging middleware as a decorator over a request-handling service.

 A service is either a leaf (any stateless inner service: its fixed readiness
 and the result it produces for a request) or a `Logger` wrapped around another
 service. Calling a service threads a trace of events through it: each logger
 appends a `Logged` event naming the request's method and full target, then
 delegates to the service it wraps; the leaf appends a `Served` event when it
 runs, so the trace shows which came first. The result type `R` is whatever
 the innermost service produces, so a logger leaves both the response and the
 error type as they are.
 */
module Middleware {
  import opened Http

  /** One log observation: the request's method and its target as displayed. */
  datatype LogRecord = LogRecord(verb: Method, uri: string)

  function RecordOf(req: Request): LogRecord {
    LogRecord(req.verb, UriText(req.uri))
  }

  /**
   What the trace records: a logger's observation of a request, or the innermost
   service running for it. `Served` is not printed by anything; it marks when
   the inner service ran relative to the log lines.
   */
  datatype Event = Logged(record: LogRecord) | Served(record: LogRecord)

  datatype Service<R> =
    | Leaf(ready: Poll<Result<()>>, handle: Request -> R)
    | Logger(inner: Service<R>)

  /** What a call hands back: the trace after the call, and the service's result. */
  datatype Outcome<R> = Outcome(trace: seq<Event>, result: R)

  /** Number of loggers wrapped around the innermost service. */
  function Depth<R>(s: Service<R>): nat {
    match s
    case Leaf(_, _) => 0
    case Logger(inner) => 1 + Depth(inner)
  }

  /** The innermost service, under every logger. */
  function Core<R>(s: Service<R>): (c: Service<R>)
    ensures c.Leaf?
  {
    match s
    case Leaf(_, _) => s
    case Logger(inner) => Core(inner)
  }

  /** `n` copies of one event. */
  function Repeat(x: Event, n: nat): (r: seq<Event>)
    ensures |r| == n
    ensures forall i :: 0 <= i < n ==> r[i] == x
  {
    if n == 0 then [] else [x] + Repeat(x, n - 1)
  }

  /** `Logger::new`: wraps a service. */
  function NewLogger<R>(inner: Service<R>): (s: Service<R>)
    ensures Depth(s) == Depth(inner) + 1
    ensures Core(s) == Core(inner)
  {
    Logger(inner)
  }

  /** `poll_ready`: a logger forwards to the service it wraps. */
  function PollReady<R>(s: Service<R>): (r: Poll<Result<()>>)
    ensures r == Core(s).ready
  {
    match s
    case Leaf(ready, _) => ready
    case Logger(inner) => PollReady(inner)
  }

  /**
   `call`: a leaf runs and answers without logging; a logger logs, then delegates.
   Through `d` loggers, the request is logged `d` times and only then served once.
   */
  function Call<R>(s: Service<R>, trace: seq<Event>, req: Request): (o: Outcome<R>)
    ensures o.trace == trace + Repeat(Logged(RecordOf(req)), Depth(s)) + [Served(RecordOf(req))]
    ensures o.result == Core(s).handle(req)
    decreases s, 0
  {
    match s
    case Leaf(_, handle) => Outcome(trace + [Served(RecordOf(req))], handle(req))
    case Logger(inner) => LoggerCall(inner, trace, req)
  }

  /**
   `Logger::call` around `inner`: compared with calling `inner` directly, the
   result is the same and the trace has exactly one more event, the request's
   log record, placed before everything the inner service does.
   */
  function LoggerCall<R>(inner: Service<R>, trace: seq<Event>, req: Request): (o: Outcome<R>)
    ensures o.result == Call(inner, trace, req).result
    ensures o.trace == trace + [Logged(RecordOf(req))] + Call(inner, trace, req).trace[|trace|..]
    decreases inner, 1
  {
    Call(inner, trace + [Logged(RecordOf(req))], req)
  }

  /** `n` loggers around a service. */
  function Nest<R>(n: nat, s: Service<R>): (r: Service<R>)
    ensures Depth(r) == Depth(s) + n
    ensures Core(r) == Core(s)
  {
    if n == 0 then s else NewLogger(Nest(n - 1, s))
  }

  /** A logger is transparent: same readiness, same result, one log event ahead of the service it wraps. */
  lemma LoggerIsTransparent<R>(inner: Service<R>, trace: seq<Event>, req: Request)
    ensures PollReady(NewLogger(inner)) == PollReady(inner)
    ensures Call(NewLogger(inner), trace, req).result == Call(inner, trace, req).result
    ensures Call(NewLogger(inner), trace, req).trace
            == trace + [Logged(RecordOf(req))] + Call(inner, trace, req).trace[|trace|..]
  {}

  /**
   `n` nested loggers log `n` records of the request, outermost first, ahead of
   everything the wrapped service does, and return what the wrapped service returns.
   */
  lemma NestedLoggers<R>(n: nat, s: Service<R>, trace: seq<Event>, req: Request)
    ensures Call(Nest(n, s), trace, req).trace == Call(s, trace + Repeat(Logged(RecordOf(req)), n), req).trace
    ensures Call(Nest(n, s), trace, req).result == Call(s, trace, req).result
    ensures PollReady(Nest(n, s)) == PollReady(s)
  {
    var x := Logged(RecordOf(req));
    var a, b := Repeat(x, n), Repeat(x, Depth(s));
    assert Repeat(x, n + Depth(s)) == a + b;
    assert trace + Repeat(x, n + Depth(s)) + [Served(RecordOf(req))]
        == trace + a + b + [Served(RecordOf(req))];
  }

  /** Two well-formed requests that leave the same log record have the same method and target. */
  lemma RecordIdentifiesTarget(req1: Request, req2: Request)
    requires WellFormedUri(req1.uri) && WellFormedUri(req2.uri)
    requires RecordOf(req1) == RecordOf(req2)
    ensures req1.verb == req2.verb && req1.uri == req2.uri
  {
    UriTextInjective(req1.uri, req2.uri);
  }
}
