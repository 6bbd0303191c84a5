/**
 The service each accepted connection is served by: the router bound to the
 shared state, wrapped in one logger.
 */
module Server {
  import opened Http
  import opened Router
  import opened Middleware

  /** `service_fn` over the router bound to the shared state: always ready, answers as the router. */
  function RouterService(db: Db): (s: Service<Result<Response>>)
    ensures s.Leaf? && s.ready == Ready(Ok(()))
    ensures forall req :: s.handle(req) == HandleRequest(req, db) && s.handle(req).Ok?
  {
    Leaf(Ready(Ok(())), req => HandleRequest(req, db))
  }

  /** The per-connection service: a logger around the router service. */
  function ConnectionService(db: Db): (s: Service<Result<Response>>)
    ensures Depth(s) == 1
    ensures Core(s) == RouterService(db)
  {
    NewLogger(RouterService(db))
  }

  /**
   Serving a request through the connection service logs exactly that request
   once, before the router runs, then answers with the router's response; the
   service is always ready. Holds for every request, the unrouted ones included.
   */
  lemma ConnectionServiceServes(db: Db, trace: seq<Event>, req: Request)
    ensures Call(ConnectionService(db), trace, req)
            == Outcome(trace + [Logged(RecordOf(req)), Served(RecordOf(req))], HandleRequest(req, db))
    ensures Call(ConnectionService(db), trace, req).result.Ok?
    ensures PollReady(ConnectionService(db)) == Ready(Ok(()))
  {}

  function Get(path: string): Request {
    Request(GET, Uri(path, None), [], [])
  }

  /** Request/response pairs a client observes end to end. */
  lemma EndToEndExamples(db: Db)
    ensures Call(ConnectionService(db), [], Get("/get-user")).result == Ok(Response(OK, "get user!"))
    ensures Call(ConnectionService(db), [], Request(POST, Uri("/create-user", None), [], [])).result
            == Ok(Response(OK, "user created!"))
    ensures Call(ConnectionService(db), [], Request(PUT, Uri("/modify-user", None), [], [])).result
            == Ok(Response(OK, "modify  user!"))
    ensures Call(ConnectionService(db), [], Request(DELETE, Uri("/delete-user", None), [], [])).result
            == Ok(Response(OK, "delete user!"))
    ensures Call(ConnectionService(db), [], Get("/unknown")).result == Ok(Response(NOT_FOUND, "404 NOT FOUND"))
    ensures Call(ConnectionService(db), [], Get("/get-user/")).result == Ok(Response(NOT_FOUND, "404 NOT FOUND"))
    ensures Call(ConnectionService(db), [], Request(PATCH, Uri("/get-user", None), [], [])).result
            == Ok(Response(NOT_FOUND, "404 NOT FOUND"))
    ensures Call(ConnectionService(db), [], Get("/get-user")).trace
            == [Logged(LogRecord(GET, "/get-user")), Served(LogRecord(GET, "/get-user"))]
    ensures Call(ConnectionService(db), [], Request(GET, Uri("/get-user", Some("id=7")), [], [])).trace
            == [Logged(LogRecord(GET, "/get-user?id=7")), Served(LogRecord(GET, "/get-user?id=7"))]
    ensures Call(ConnectionService(db), [], Request(GET, Uri("/get-user", Some("id=7")), [], [])).result
            == Ok(Response(OK, "get user!"))
  {
    ConnectionServiceServes(db, [], Get("/get-user"));
    ConnectionServiceServes(db, [], Request(GET, Uri("/get-user", Some("id=7")), [], []));
    assert UriText(Uri("/get-user", Some("id=7"))) == "/get-user?id=7";
  }
}
