/**
 * `GET /api/qr` (`app/api/qr/route.ts`): requires an Authorization header,
 * then an `amount` parameter, and asks the backend's `/pay/qr` for a payment
 * QR code, placing the amount in the query string verbatim.
 */
module QrRoute {
  import opened Wrappers
  import opened Http

  function Get(req: Request, backendUrl: string, upstream: Upstream): (x: Exchange)
    ensures !Given(Header(req, "authorization")) ==> x == Exchange(None, Reply(401, ErrorBody("Unauthorized"), map[]))
    ensures Given(Header(req, "authorization")) && !Given(Param(req, "amount")) ==>
      x == Exchange(None, Reply(400, ErrorBody("amount is required"), map[]))
    ensures x.sent.Some? <==> Given(Header(req, "authorization")) && Given(Param(req, "amount"))
    ensures x.sent.Some? ==> x.sent.value == Outbound("GET", backendUrl + "/pay/qr?amount=" + Param(req, "amount").value,
      JsonContent["Authorization" := Header(req, "authorization").value], None)
    ensures x.sent.Some? && upstream.Answered? ==>
      x.reply.Reply? && x.reply.status == upstream.status && x.reply.headers == NoStore
    ensures x.sent.Some? && upstream.Answered? && upstream.body.NotJson? ==>
      x.reply.body == ErrorBody("Invalid JSON from backend")
    ensures x.sent.Some? && upstream.Answered? && upstream.body.Json? ==> x.reply.body == upstream.body.value
    ensures x.sent.Some? && upstream.NetworkError? ==> x.reply.Crashed?
  {
    assert "amount" + " is required" == "amount is required";
    GuardedQueryGet(req, "amount", backendUrl + "/pay/qr?amount=", upstream)
  }
}
