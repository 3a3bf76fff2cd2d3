/**
 * The HTTP shapes shared by the pages and the same-process API routes: bodies
 * that may or may not parse as JSON, an incoming request, the call a route
 * forwards to the backend, what the backend (or the network) answered, and the
 * route's own reply.
 */
module Http {
  import opened Wrappers
  import opened Js

  /** A body read with `.json()`: the value it encodes, or the parser's error message. */
  datatype Body = Json(value: Value) | NotJson(parseError: string)

  /** An incoming request.  `headers` is keyed by lower-case name, as `Headers.get` matches names. */
  datatype Request = Request(headers: map<string, string>, query: map<string, string>, body: Body)

  /** A `fetch` a route issues to the backend. */
  datatype Outbound = Outbound(verb: string, url: string, headers: map<string, string>, body: Option<Value>)

  /** What the awaited `fetch` gave: a response with its status and body, or a rejection. */
  datatype Upstream = Answered(status: int, body: Body) | NetworkError(message: string)

  /**
   * The route's reply: `NextResponse.json(body, {status, headers})`, or `Crashed`
   * when the handler itself throws and the framework answers with its own error.
   */
  datatype Reply = Reply(status: int, body: Value, headers: map<string, string>) | Crashed

  /** One handled request: the backend call made, if any, and the reply. */
  datatype Exchange = Exchange(sent: Option<Outbound>, reply: Reply)

  const JsonContent: map<string, string> := map["Content-Type" := "application/json"]
  const NoStore: map<string, string> := map["Cache-Control" := "no-store, must-revalidate"]

  /** `response.ok`. */
  predicate Ok(status: int) {
    200 <= status <= 299
  }

  /** `request.headers.get(name)`. */
  function Header(r: Request, name: string): Option<string> {
    if name in r.headers then Some(r.headers[name]) else None
  }

  /** `request.nextUrl.searchParams.get(name)`. */
  function Param(r: Request, name: string): Option<string> {
    if name in r.query then Some(r.query[name]) else None
  }

  /** `!!x` for a header or parameter: present and not the empty string. */
  predicate Given(x: Option<string>) {
    x.Some? && x.value != ""
  }

  /** An error body `{error}`. */
  function ErrorBody(text: string): Value {
    Obj(map["error" := Str(text)])
  }

  /** An error body `{success: false, <key>}`. */
  function FailureBody(key: string, text: string): Value {
    Obj(map["success" := Bool(false), key := Str(text)])
  }

  /**
   * The shared shape of the `qr` and `pay` GET routes: require an Authorization
   * header (401), then the query parameter `param` (400), forward a GET to
   * `url + value` with the header, and answer with the backend's status and JSON,
   * or `{error: 'Invalid JSON from backend'}`, always marked no-store.  The
   * routes have no try/catch, so a rejected `fetch` crashes the handler.
   */
  function GuardedQueryGet(req: Request, param: string, url: string, upstream: Upstream): (x: Exchange)
    ensures !Given(Header(req, "authorization")) ==>
      x == Exchange(None, Reply(401, ErrorBody("Unauthorized"), map[]))
    ensures Given(Header(req, "authorization")) && !Given(Param(req, param)) ==>
      x == Exchange(None, Reply(400, ErrorBody(param + " is required"), map[]))
    ensures Given(Header(req, "authorization")) && Given(Param(req, param)) ==>
      x.sent == Some(Outbound("GET", url + Param(req, param).value,
        JsonContent["Authorization" := Header(req, "authorization").value], None))
    ensures x.sent.Some? && upstream.NetworkError? ==> x.reply.Crashed?
    ensures x.sent.Some? && upstream.Answered? ==>
      x.reply == Reply(upstream.status,
        if upstream.body.Json? then upstream.body.value else ErrorBody("Invalid JSON from backend"), NoStore)
  {
    var auth := Header(req, "authorization");
    if !Given(auth) then Exchange(None, Reply(401, ErrorBody("Unauthorized"), map[]))
    else
      var value := Param(req, param);
      if !Given(value) then Exchange(None, Reply(400, ErrorBody(param + " is required"), map[]))
      else
        var call := Outbound("GET", url + value.value, JsonContent["Authorization" := auth.value], None);
        match upstream
        case NetworkError(_) => Exchange(Some(call), Crashed)
        case Answered(status, body) =>
          var data := if body.Json? then body.value else ErrorBody("Invalid JSON from backend");
          Exchange(Some(call), Reply(status, data, NoStore))
  }
}
