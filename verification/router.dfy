/**
 The request router: an exact match on the pair (method, path) that selects one
 of four handlers, with a fixed "not found" response for every other pair.

 Beside the router itself sits an independent reference definition, a route
 table looked up by exact comparison, and lemmas that tie the two together.
 */
module Router {
  import opened Http
  import opened Handlers

  const NOT_FOUND_BODY: string := "404 NOT FOUND"

  /** The response for every unregistered (method, path) pair. */
  function NotFoundResponse(): Response {
    Response(NOT_FOUND, NOT_FOUND_BODY)
  }

  /** The router. It reads the request's method and path and nothing else. */
  function HandleRequest(req: Request, db: Db): (r: Result<Response>)
    ensures r.Ok?
    ensures r.value.status == OK <==> Routed(req.verb, req.uri.path)
    ensures r.value.status == NOT_FOUND <==> !Routed(req.verb, req.uri.path)
    ensures r.value.status == NOT_FOUND ==> r.value.body == NOT_FOUND_BODY
  {
    match (req.verb, req.uri.path)
    case (POST, "/create-user") => assert Matches(RouteTable[0], req.verb, req.uri.path); CreateUser(req, db)
    case (GET, "/get-user") => assert Matches(RouteTable[1], req.verb, req.uri.path); GetUser(req)
    case (DELETE, "/delete-user") => assert Matches(RouteTable[2], req.verb, req.uri.path); DeleteUser(req)
    case (PUT, "/modify-user") => assert Matches(RouteTable[3], req.verb, req.uri.path); ModifyUser(req)
    case _ => Ok(NotFoundResponse())
  }

  // ---------------------------------------------------------------------------
  // Reference definition: a route table.

  datatype Endpoint = CreateUserEndpoint | GetUserEndpoint | DeleteUserEndpoint | ModifyUserEndpoint

  /** A registered route: a method, an exact path, and the handler it selects. */
  datatype Route = Route(verb: Method, path: string, endpoint: Endpoint)

  predicate Matches(route: Route, m: Method, p: string) {
    route.verb == m && route.path == p
  }

  const RouteTable: seq<Route> := [
    Route(POST, "/create-user", CreateUserEndpoint),
    Route(GET, "/get-user", GetUserEndpoint),
    Route(DELETE, "/delete-user", DeleteUserEndpoint),
    Route(PUT, "/modify-user", ModifyUserEndpoint)
  ]

  /** The (method, path) pair is registered in the route table. */
  predicate Routed(m: Method, p: string) {
    exists i :: 0 <= i < |RouteTable| && Matches(RouteTable[i], m, p)
  }

  /** No two routes of the table share a (method, path) pair. */
  predicate DistinctKeys(table: seq<Route>) {
    forall i, j :: 0 <= i < j < |table| ==> !Matches(table[i], table[j].verb, table[j].path)
  }

  /** Calls the handler an endpoint names. */
  function Invoke(e: Endpoint, req: Request, db: Db): Result<Response> {
    match e
    case CreateUserEndpoint => CreateUser(req, db)
    case GetUserEndpoint => GetUser(req)
    case DeleteUserEndpoint => DeleteUser(req)
    case ModifyUserEndpoint => ModifyUser(req)
  }

  /** Exact-match lookup of a (method, path) pair in a route table. */
  function Lookup(table: seq<Route>, m: Method, p: string): (r: Option<Endpoint>)
    ensures r.Some? ==> exists i :: 0 <= i < |table| && Matches(table[i], m, p) && table[i].endpoint == r.value
    ensures r.None? <==> forall i :: 0 <= i < |table| ==> !Matches(table[i], m, p)
  {
    if |table| == 0 then None
    else if Matches(table[0], m, p) then Some(table[0].endpoint)
    else
      var r := Lookup(table[1..], m, p);
      assert forall i :: 1 <= i < |table| ==> table[i] == table[1..][i - 1];
      r
  }

  /** Routing by the table: the matching route's handler, or "not found". */
  function TableDispatch(table: seq<Route>, req: Request, db: Db): Result<Response> {
    match Lookup(table, req.verb, req.uri.path)
    case Some(e) => Invoke(e, req, db)
    case None => Ok(NotFoundResponse())
  }

  /** The route table has no colliding pairs. */
  lemma RouteTableDistinct()
    ensures DistinctKeys(RouteTable)
  {}

  /** In a table without collisions, the route that matches is the one found. */
  lemma LookupFindsUniqueMatch(table: seq<Route>, i: nat, m: Method, p: string)
    requires DistinctKeys(table)
    requires i < |table| && Matches(table[i], m, p)
    ensures Lookup(table, m, p) == Some(table[i].endpoint)
  {}

  /** Lookup does not depend on the order in which routes are registered. */
  lemma LookupOrderIndependent(t1: seq<Route>, t2: seq<Route>, m: Method, p: string)
    requires DistinctKeys(t1) && DistinctKeys(t2)
    requires forall r :: r in t1 <==> r in t2
    ensures Lookup(t1, m, p) == Lookup(t2, m, p)
  {
    var r1 := Lookup(t1, m, p);
    if r1.Some? {
      var i :| 0 <= i < |t1| && Matches(t1[i], m, p) && t1[i].endpoint == r1.value;
      assert t1[i] in t2;
      var j :| 0 <= j < |t2| && t2[j] == t1[i];
      LookupFindsUniqueMatch(t1, i, m, p);
      LookupFindsUniqueMatch(t2, j, m, p);
    } else {
      forall j | 0 <= j < |t2|
        ensures !Matches(t2[j], m, p)
      {
        assert t2[j] in t1;
      }
    }
  }

  /** The router behaves exactly as routing by the route table. */
  lemma RouterAgreesWithRouteTable(req: Request, db: Db)
    ensures HandleRequest(req, db) == TableDispatch(RouteTable, req, db)
  {}

  // ---------------------------------------------------------------------------
  // Exact-match dispatch, one route at a time.

  lemma CreateUserRouteExact(req: Request, db: Db)
    ensures HandleRequest(req, db) == CreateUser(req, db) <==> req.verb == POST && req.uri.path == "/create-user"
  {}

  lemma GetUserRouteExact(req: Request, db: Db)
    ensures HandleRequest(req, db) == GetUser(req) <==> req.verb == GET && req.uri.path == "/get-user"
  {}

  lemma DeleteUserRouteExact(req: Request, db: Db)
    ensures HandleRequest(req, db) == DeleteUser(req) <==> req.verb == DELETE && req.uri.path == "/delete-user"
  {}

  lemma ModifyUserRouteExact(req: Request, db: Db)
    ensures HandleRequest(req, db) == ModifyUser(req) <==> req.verb == PUT && req.uri.path == "/modify-user"
  {}

  /** Every unregistered pair, and only those, gets the fixed 404 response. */
  lemma NotFoundExactlyWhenUnrouted(req: Request, db: Db)
    ensures HandleRequest(req, db) == Ok(NotFoundResponse()) <==> !Routed(req.verb, req.uri.path)
  {}

  /** A registered path with another method is 404 (not 405), and so is a near-miss path. */
  lemma NearMissesAreNotFound(req: Request, db: Db)
    ensures req.verb == PATCH && req.uri.path == "/get-user" ==> HandleRequest(req, db) == Ok(NotFoundResponse())
    ensures req.verb == GET && req.uri.path == "/get-user/" ==> HandleRequest(req, db) == Ok(NotFoundResponse())
    ensures req.verb == POST && req.uri.path == "/get-user" ==> HandleRequest(req, db) == Ok(NotFoundResponse())
  {}

  /** The response depends on the method and path only: not on query, headers, body or state. */
  lemma RouterReadsOnlyMethodAndPath(req1: Request, req2: Request, db1: Db, db2: Db)
    requires req1.verb == req2.verb && req1.uri.path == req2.uri.path
    ensures HandleRequest(req1, db1) == HandleRequest(req2, db2)
  {}
}
