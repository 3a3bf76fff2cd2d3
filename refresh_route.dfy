/**
 * `POST /api/refresh` (`app/api/refresh/route.ts`): takes `refresh_token` from
 * the body and, when it is given, forwards exactly `{refresh_token}` to the
 * backend's `/auth/refresh`.  No Authorization header is read.  The handler
 * has no try/catch, so an unreadable body or reply crashes it.
 */
module RefreshRoute {
  import opened Wrappers
  import opened Js
  import opened Http

  const TokenRequired := Reply(400, ErrorBody("Refresh token is required"), map[])

  function Post(req: Request, backendUrl: string, upstream: Upstream): (x: Exchange)
    ensures req.body.NotJson? || Nullish(req.body.value) ==> x == Exchange(None, Crashed)
    ensures req.body.Json? && !Nullish(req.body.value) && !Truthy(Get(req.body.value, "refresh_token")) ==>
      x == Exchange(None, TokenRequired)
    ensures x.sent.Some? <==> req.body.Json? && Truthy(Get(req.body.value, "refresh_token"))
    ensures x.sent.Some? ==> x.sent.value == Outbound("POST", backendUrl + "/auth/refresh", JsonContent,
      Some(Obj(map["refresh_token" := Get(req.body.value, "refresh_token")])))
    ensures x.sent.Some? && upstream.Answered? && upstream.body.Json? ==>
      x.reply == Reply(upstream.status, upstream.body.value, map[])
    ensures x.sent.Some? && (upstream.NetworkError? || upstream.body.NotJson?) ==> x.reply.Crashed?
  {
    match req.body
    case NotJson(_) => Exchange(None, Crashed)
    case Json(body) =>
      if Nullish(body) then Exchange(None, Crashed)
      else
        var token := Get(body, "refresh_token");
        if !Truthy(token) then Exchange(None, TokenRequired)
        else
          var call := Outbound("POST", backendUrl + "/auth/refresh", JsonContent, Some(Obj(map["refresh_token" := token])));
          match upstream
          case NetworkError(_) => Exchange(Some(call), Crashed)
          case Answered(_, NotJson(_)) => Exchange(Some(call), Crashed)
          case Answered(status, Json(data)) => Exchange(Some(call), Reply(status, data, map[]))
  }

  /** The headers of the request play no part: only the body decides. */
  lemma HeadersIgnored(req: Request, headers: map<string, string>, backendUrl: string, upstream: Upstream)
    ensures Post(req.(headers := headers), backendUrl, upstream) == Post(req, backendUrl, upstream)
  {
  }
}
