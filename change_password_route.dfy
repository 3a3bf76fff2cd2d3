/**
 * `PATCH /api/change-password` (`app/api/change-password/route.ts`): requires
 * an Authorization header, then both password fields, and forwards exactly
 * those two fields with the header; anything that throws becomes a 500.
 */
module ChangePasswordRoute {
  import opened Wrappers
  import opened Js
  import opened Http

  const Unauthorized := Reply(401, FailureBody("error", "Unauthorized"), map[])
  const MissingFields := Reply(400, FailureBody("error", "Missing required fields"), map[])
  const InternalError := Reply(500, FailureBody("error", "Internal server error"), map[])

  /** The body forwarded to the backend: the two password fields and nothing else. */
  function Whitelisted(body: Value): (w: Value)
    ensures w.Obj? && w.fields.Keys == {"oldPassword", "newPassword"}
    ensures w.fields["oldPassword"] == Get(body, "oldPassword") && w.fields["newPassword"] == Get(body, "newPassword")
  {
    Obj(map["oldPassword" := Get(body, "oldPassword"), "newPassword" := Get(body, "newPassword")])
  }

  /** Both fields given (`body` is not `null`, which would make the reads throw). */
  predicate Complete(body: Value) {
    !Nullish(body) && Truthy(Get(body, "oldPassword")) && Truthy(Get(body, "newPassword"))
  }

  function Patch(req: Request, backendUrl: string, upstream: Upstream): (x: Exchange)
    ensures !Given(Header(req, "authorization")) ==> x == Exchange(None, Unauthorized)
    ensures Given(Header(req, "authorization")) && req.body.NotJson? ==> x == Exchange(None, InternalError)
    ensures Given(Header(req, "authorization")) && req.body.Json? && Nullish(req.body.value) ==> x == Exchange(None, InternalError)
    ensures Given(Header(req, "authorization")) && req.body.Json? && !Nullish(req.body.value) && !Complete(req.body.value) ==>
      x == Exchange(None, MissingFields)
    ensures x.sent.Some? <==> Given(Header(req, "authorization")) && req.body.Json? && Complete(req.body.value)
    ensures x.sent.Some? ==> x.sent.value == Outbound("PATCH", backendUrl + "/auth/change-password",
      JsonContent["Authorization" := Header(req, "authorization").value], Some(Whitelisted(req.body.value)))
    ensures x.sent.Some? && upstream.Answered? && upstream.body.Json? ==>
      x.reply == Reply(upstream.status, upstream.body.value, map[])
    ensures x.sent.Some? && (upstream.NetworkError? || upstream.body.NotJson?) ==> x.reply == InternalError
  {
    var auth := Header(req, "authorization");
    if !Given(auth) then Exchange(None, Unauthorized)
    else
      match req.body
      case NotJson(_) => Exchange(None, InternalError)
      case Json(body) =>
        if Nullish(body) then Exchange(None, InternalError)
        else if !Complete(body) then Exchange(None, MissingFields)
        else
          var call := Outbound("PATCH", backendUrl + "/auth/change-password",
            JsonContent["Authorization" := auth.value], Some(Whitelisted(body)));
          match upstream
          case NetworkError(_) => Exchange(Some(call), InternalError)
          case Answered(_, NotJson(_)) => Exchange(Some(call), InternalError)
          case Answered(status, Json(data)) => Exchange(Some(call), Reply(status, data, map[]))
  }

  /** Fields other than the two passwords never reach the backend. */
  lemma ExtraFieldsDropped(req: Request, extra: map<string, Value>, backendUrl: string, upstream: Upstream)
    requires req.body.Json? && req.body.value.Obj?
    requires "oldPassword" !in extra && "newPassword" !in extra
    ensures var req' := req.(body := Json(Obj(req.body.value.fields + extra)));
      Patch(req', backendUrl, upstream) == Patch(req, backendUrl, upstream)
  {
    var req' := req.(body := Json(Obj(req.body.value.fields + extra)));
    assert Get(req'.body.value, "oldPassword") == Get(req.body.value, "oldPassword");
    assert Get(req'.body.value, "newPassword") == Get(req.body.value, "newPassword");
  }
}
