/**
 * `POST /api/verify-otp` (`app/api/verify-otp/route.ts`): forwards the body to
 * the backend's `/auth/verify-otp`; a refusal is rewritten to
 * `{success: false, message}` with the backend's message flattened to one
 * string, and anything that throws becomes a 500.
 */
module VerifyOtpRoute {
  import opened Wrappers
  import opened Js
  import opened Http

  const OtpFailed := "Xác thực OTP thất bại!"

  /** `Array.isArray(m) ? m.join(', ') : m || 'Xác thực OTP thất bại!'`. */
  function FlattenMessage(m: Value): (r: Value)
    ensures m.Arr? ==> r == Str(ArrayJoin(m.items, ", "))
    ensures !m.Arr? && Truthy(m) ==> r == m
    ensures !m.Arr? && !Truthy(m) ==> r == Str(OtpFailed)
  {
    if m.Arr? then Str(ArrayJoin(m.items, ", ")) else Or(m, Str(OtpFailed))
  }

  /** An array of messages becomes the messages separated by ", "; an empty array becomes "". */
  lemma FlattenExamples()
    ensures FlattenMessage(Arr([Str("a"), Str("b")])) == Str("a, b")
    ensures FlattenMessage(Arr([])) == Str("")
    ensures FlattenMessage(Str("")) == Str(OtpFailed) && FlattenMessage(Undefined) == Str(OtpFailed)
  {
    ArrayJoinStrings([Str("a"), Str("b")], ", ");
    assert seq(2, i requires 0 <= i < 2 => [Str("a"), Str("b")][i].s) == ["a", "b"];
  }

  const Failed := Reply(500, FailureBody("message", OtpFailed), map[])

  function Post(req: Request, backendUrl: string, upstream: Upstream): (x: Exchange)
    ensures req.body.NotJson? ==> x == Exchange(None, Failed)
    ensures req.body.Json? ==>
      x.sent == Some(Outbound("POST", backendUrl + "/auth/verify-otp", JsonContent, Some(req.body.value)))
    ensures x.sent.Some? && (upstream.NetworkError? || upstream.body.NotJson?) ==> x.reply == Failed
    ensures x.sent.Some? && upstream.Answered? && upstream.body.Json? && Ok(upstream.status) ==>
      x.reply == Reply(upstream.status, upstream.body.value, map[])
    ensures x.sent.Some? && upstream.Answered? && upstream.body.Json? && !Ok(upstream.status) ==>
      if Nullish(upstream.body.value) then x.reply == Failed
      else x.reply == Reply(upstream.status,
        Obj(map["success" := Bool(false), "message" := FlattenMessage(Get(upstream.body.value, "message"))]), map[])
    ensures x.reply.Reply?
  {
    match req.body
    case NotJson(_) => Exchange(None, Failed)
    case Json(body) =>
      var call := Outbound("POST", backendUrl + "/auth/verify-otp", JsonContent, Some(body));
      var reply :=
        match upstream
        case NetworkError(_) => Failed
        case Answered(status, NotJson(_)) => Failed
        case Answered(status, Json(data)) =>
          if Ok(status) then Reply(status, data, map[])
          else if Nullish(data) then Failed
          else Reply(status, Obj(map["success" := Bool(false), "message" := FlattenMessage(Get(data, "message"))]), map[]);
      Exchange(Some(call), reply)
  }
}
