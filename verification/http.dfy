/**
 The values that cross the service boundary of the server: request methods,
 request targets, requests, responses, the boxed error type, the readiness
 value of a service, and the shared key/value state handed to the router.
 */
module Http {

  datatype Option<+T> = None | Some(value: T)

  /** The request methods hyper names; any other token is an extension method. */
  datatype Method =
    | OPTIONS | GET | POST | PUT | DELETE | HEAD | TRACE | CONNECT | PATCH
    | Extension(token: string)

  /** A request target in origin form: the path, and the query after the first '?' if any. */
  datatype Uri = Uri(path: string, query: Option<string>)

  /** A path as a parsed target carries it: it ends at the first '?'. */
  predicate WellFormedUri(u: Uri) {
    '?' !in u.path
  }

  /** The text a `Uri` displays as: the path, then '?' and the query when there is one. */
  function UriText(u: Uri): string {
    match u.query
    case None => u.path
    case Some(q) => u.path + "?" + q
  }

  /** Index of the first occurrence of `c` in `s`, or `|s|` when there is none. */
  function FirstIndexOf(s: string, c: char): (i: nat)
    ensures i <= |s|
    ensures forall k :: 0 <= k < i ==> s[k] != c
    ensures i < |s| ==> s[i] == c
  {
    if |s| == 0 then 0
    else if s[0] == c then 0
    else 1 + FirstIndexOf(s[1..], c)
  }

  /** Splits a request-target text into path and query at its first '?'. */
  function ParseUri(t: string): (u: Uri)
    ensures WellFormedUri(u)
  {
    var i := FirstIndexOf(t, '?');
    if i == |t| then Uri(t, None) else Uri(t[..i], Some(t[i + 1..]))
  }

  /** Displaying a well-formed target and splitting the text again gives the target back. */
  lemma ParseUriText(u: Uri)
    requires WellFormedUri(u)
    ensures ParseUri(UriText(u)) == u
  {
    var t := UriText(u);
    var i := FirstIndexOf(t, '?');
    assert t[..|u.path|] == u.path;
    match u.query
    case None =>
      assert i == |t|;
    case Some(q) =>
      assert t[|u.path|] == '?';
      assert i == |u.path|;
      assert t[i + 1..] == q;
  }

  /** Two well-formed targets that display alike are the same target. */
  lemma UriTextInjective(u1: Uri, u2: Uri)
    requires WellFormedUri(u1) && WellFormedUri(u2)
    requires UriText(u1) == UriText(u2)
    ensures u1 == u2
  {
    ParseUriText(u1);
    ParseUriText(u2);
  }

  newtype byte = x: int | 0 <= x < 256

  /** A request: only its method and path are inspected by the router. */
  datatype Request = Request(verb: Method, uri: Uri, headers: seq<(string, string)>, body: seq<byte>)

  type StatusCode = s: int | 100 <= s <= 999 witness 200

  const OK: StatusCode := 200
  const NOT_FOUND: StatusCode := 404

  datatype Response = Response(status: StatusCode, body: string)

  /** `Response::new`: the given body with the default status. */
  function NewResponse(body: string): Response {
    Response(OK, body)
  }

  /** The boxed error every handler may return. */
  datatype Error = Error(message: string)

  datatype Result<+T> = Ok(value: T) | Err(error: Error)

  /** The outcome of polling a service for readiness. */
  datatype Poll<+T> = Ready(value: T) | Pending

  /** The state shared by every connection: a read-only string map. */
  type Db = map<string, string>
}
