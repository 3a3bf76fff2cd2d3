/**
 * `GET /api/pay` (`app/api/pay/route.ts`): requires an Authorization header,
 * then a `userId` parameter, and asks the backend's `/pay/pay` for the user's
 * payment information, placing the id in the query string verbatim.
 */
module PayRoute {
  import opened Wrappers
  import opened Http

  function Get(req: Request, backendUrl: string, upstream: Upstream): (x: Exchange)
    ensures !Given(Header(req, "authorization")) ==> x == Exchange(None, Reply(401, ErrorBody("Unauthorized"), map[]))
    ensures Given(Header(req, "authorization")) && !Given(Param(req, "userId")) ==>
      x == Exchange(None, Reply(400, ErrorBody("userId is required"), map[]))
    ensures x.sent.Some? <==> Given(Header(req, "authorization")) && Given(Param(req, "userId"))
    ensures x.sent.Some? ==> x.sent.value == Outbound("GET", backendUrl + "/pay/pay?userId=" + Param(req, "userId").value,
      JsonContent["Authorization" := Header(req, "authorization").value], None)
    ensures x.sent.Some? && upstream.Answered? ==>
      x.reply.Reply? && x.reply.status == upstream.status && x.reply.headers == NoStore
    ensures x.sent.Some? && upstream.Answered? && upstream.body.NotJson? ==>
      x.reply.body == ErrorBody("Invalid JSON from backend")
    ensures x.sent.Some? && upstream.Answered? && upstream.body.Json? ==> x.reply.body == upstream.body.value
    ensures x.sent.Some? && upstream.NetworkError? ==> x.reply.Crashed?
  {
    assert "userId" + " is required" == "userId is required";
    GuardedQueryGet(req, "userId", backendUrl + "/pay/pay?userId=", upstream)
  }
}
