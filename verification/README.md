# hyper-crud-app: request dispatch, in Dafny

This project models the request dispatch path of a small hyper/tower HTTP server. It has four parts:

- **Router** (`handle_request`). It exactly matches the request's (method, path) pair against four routes. Each route selects a user handler. Every other pair gets a fixed `404 NOT FOUND` response.
- **User handlers** (`create_user`, `get_user`, `delete_user`, `modify_user`). Each returns `Ok` with status 200 and a fixed acknowledgement body. None of them reads its request or the shared state.
- **Logger middleware** (`Logger<S>`). It is a decorator around an inner service. `poll_ready` forwards to the inner service. `call` records the request's method and full URI, then returns what the inner service returns.
- **Per-connection service**. This is the router bound to the shared state and wrapped in one logger.

Modules follow that structure:

- `Http` (`http.dfy`) holds the request, URI, response, error, readiness and shared-state types.
- `Handlers` (`handlers.dfy`) holds the handlers.
- `Router` (`router.dfy`) holds the router and a reference definition beside it: a route table with exact-match lookup.
- `Middleware` (`middleware.dfy`) holds the services, the logger and nesting.
- `Server` (`server.dfy`) holds the per-connection composition and end-to-end examples.

Design choices:

- Asynchronous calls are plain functions returning their result.
- `println!` becomes a trace of events threaded through each call.
  - A logger appends `Logged(LogRecord(method, uri-text))`.
  - The innermost service appends `Served(...)` when it runs. Nothing prints that event; it shows in the trace whether the log line came before or after the inner service ran.
- A service is either a `Leaf` or a `Logger` around another service.
  - A `Leaf` is any stateless inner service, given by its readiness value and its request-to-result function.
  - The result type `R` is a type parameter that no logger touches. This reflects that `Logger<S>` reuses `S::Response`, `S::Error` and `S::Future`.
- The shared state `Db` is a `map<string, string>`. It is passed to the router and to `create_user`, and nothing reads it.

## Model

| member | source | states |
|---|---|---|
| Handlers.CreateUser | src/handlers/user.rs:13-16 | always `Ok`, default status 200, body `user created!` |
| Handlers.GetUser | src/handlers/user.rs:18-20 | always `Ok`, default status 200, body `get user!` |
| Handlers.DeleteUser | src/handlers/user.rs:22-24 | always `Ok`, default status 200, body `delete user!` |
| Handlers.ModifyUser | src/handlers/user.rs:26-28 | always `Ok`, default status 200, body `modify  user!` (two spaces) |
| Handlers.HandlersIgnoreInputs | src/handlers/user.rs:13-28 | each handler gives the same result for any two requests, and `create_user` for any two states |
| Router.HandleRequest | src/main.rs:54-71 | never an error; status 200 exactly when the (method, path) pair is in the route table, 404 with body `404 NOT FOUND` exactly when it is not |
| Router.Lookup | src/main.rs:55-60 | exact-match lookup: a found endpoint belongs to a route whose method and path both equal the request's; finding nothing means no route matches |
| Router.RouteTableDistinct | src/main.rs:56-59 | no two registered routes share a (method, path) pair |
| Router.LookupFindsUniqueMatch | src/main.rs:55-59 | in a collision-free table, the route that matches is the one lookup returns |
| Router.LookupOrderIndependent | src/main.rs:55-59 | two collision-free tables with the same routes in any order give the same lookup for every pair |
| Router.RouterAgreesWithRouteTable | src/main.rs:54-68 | for every request and state, the router's response equals the table's: the matching route's handler, or the 404 response |
| Router.CreateUserRouteExact | src/main.rs:56 | the router answers with `create_user`'s result if and only if the request is `POST /create-user` |
| Router.GetUserRouteExact | src/main.rs:57 | the router answers with `get_user`'s result if and only if the request is `GET /get-user` |
| Router.DeleteUserRouteExact | src/main.rs:58 | the router answers with `delete_user`'s result if and only if the request is `DELETE /delete-user` |
| Router.ModifyUserRouteExact | src/main.rs:59 | the router answers with `modify_user`'s result if and only if the request is `PUT /modify-user` |
| Router.NotFoundExactlyWhenUnrouted | src/main.rs:60-67 | the response is the fixed 404 response if and only if the pair is not registered |
| Router.NearMissesAreNotFound | src/main.rs:55-67 | `PATCH /get-user` and `POST /get-user` get 404 (not 405); the trailing-slash path `/get-user/` gets 404 |
| Router.RouterReadsOnlyMethodAndPath | src/main.rs:55 | requests with equal method and path get equal responses, whatever their query, headers, body and state |
| Middleware.NewLogger | src/main.rs:28-32 | wrapping adds one logger layer and keeps the same innermost service |
| Middleware.PollReady | src/main.rs:44-46 | any stack of loggers reports the readiness of the innermost service |
| Middleware.Call | src/main.rs:48-51 | a call through `d` loggers returns the innermost service's result. It leaves earlier trace entries unchanged and appends exactly `d` log records of the request, followed by the one run of the innermost service |
| Middleware.LoggerCall | src/main.rs:48-51 | compared with calling the inner service directly, the result is identical. The trace is the inner call's trace with exactly one event inserted: the request's method and URI, right after the existing trace and before everything the inner service logs or does |
| Middleware.LoggerIsTransparent | src/main.rs:34-51 | a logger has the same readiness and result as the service it wraps. Its trace is the inner service's trace with the request's log record inserted ahead of the inner service's own events, so the logger logs before it delegates |
| Middleware.NestedLoggers | src/main.rs:23-51 | `n` nested loggers give the same result and readiness as the bare service and log `n` records of the request ahead of everything the bare service logs or does |
| Middleware.RecordIdentifiesTarget | src/main.rs:49 | a log record determines its request's method, path and query |
| Http.ParseUriText | src/main.rs:49 | the displayed URI that is logged splits back into exactly its path and query |
| Server.RouterService | src/main.rs:97 | the router bound to the shared state as a leaf service: always ready, and for every request it answers with the router's `Ok` response |
| Server.ConnectionService | src/main.rs:97-98 | the per-connection service has exactly one logger, and the service inside it is the router bound to the same shared state |
| Server.ConnectionServiceServes | src/main.rs:97-98 | every request served on a connection, the 404 ones included, is logged exactly once, before the router runs, and answered with the router's `Ok` response; the service is always ready |
| Server.EndToEndExamples | src/main.rs:54-67 | `GET /get-user` gives 200 `get user!`; `POST /create-user` gives 200 `user created!`; `PUT /modify-user` gives 200 `modify  user!`; `DELETE /delete-user` gives 200 `delete user!`. `GET /unknown`, `GET /get-user/` and `PATCH /get-user` give 404 `404 NOT FOUND`. A query string is logged but does not change the route |

Every record a stack of nested loggers appends for one request is the same value, because the source prints the same line at every layer. So "outer to inner" order shows only as all of those records coming before the wrapped service runs.

## Left out

- The accept loop, `tokio::select!`, `tokio::spawn`, `GracefulShutdown::watch` and the connection-error print (src/main.rs:85-117) are not modelled. The accept loop serves one connection at a time: `conn.watch(sv).await` (src/main.rs:103) runs the connection to completion inside the `select!` arm, and the spawned task (src/main.rs:105-109) only prints its result. While a connection is open, `signal` is not polled. The source's signal arm (src/main.rs:113-115) prints a notice but never `break`s. On a later iteration `tokio::select!` (src/main.rs:92) polls the same pinned `async fn` future `signal` (src/main.rs:87) again, with no guard. Polling a completed `async fn` future panics, so the process ends by that panic rather than by leaving the loop. The model does not cover this.
- `TcpListener::bind`, `TokioIo`, `http1::Builder::serve_connection` and `TowerToHyperService` (src/main.rs:81-101) are network I/O and adapters from other crates.
- `graceful_shotdown`, `ctrl_c` and its `expect` (src/main.rs:73-77) are operating-system signal I/O.
- The text printed by `println!` is not modelled, only its content as a `LogRecord`: the method, and the URI as `Uri`'s display gives it.
- The log records the full URI, query included, as src/main.rs:49 prints it.
- Service state: the `&mut self` of `poll_ready` and `call` (src/main.rs:44, 48) is not modelled. A `Leaf` has fixed readiness and a pure handler, which is true of the `service_fn` closure at src/main.rs:97, since it mutates nothing.
- `Server.RouterService`: the readiness of tower's `service_fn` is taken to be `Ready(Ok(()))`. That code is not part of this model.
- `Http.UriText`: request targets are modelled in origin form only (path and optional query). Absolute-form and authority-form targets, and hyper's parsing of the target, are not modelled. `WellFormedUri` records the one fact the model relies on: a path never contains `?`.
- Extension methods are one `Extension(token)` constructor. Hyper never builds one for a standard method name; the model does not enforce that.
- Request bodies are opaque byte sequences and are never read. Response bodies are the ASCII string literals the source builds.
- Response headers and HTTP version are not modelled. `Response::new` leaves them at their defaults.
- The `User` serde struct (src/handlers/user.rs:7-11) is not used by any handler and has no behaviour.
- Futures and polling are left out. Handlers and services are functions that return their result directly. `poll_ready`'s context argument is dropped.
