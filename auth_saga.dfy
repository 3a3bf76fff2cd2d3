/**
 * The password-reset saga (`app/redux/auth/authSaga.ts`): each handler calls
 * the API once and dispatches exactly one success or failure action chosen
 * from the result.  A handler is modelled by the effects it yields.
 */
module AuthSaga {
  import opened Js
  import opened AuthSlice

  /**
   * What the API call produced: the parsed JSON body, or a throw with
   * `err.message`.  Reading `res.success` from a `null` or `undefined` body
   * throws too, and the catch reports that TypeError's message.
   */
  datatype ApiResult = Returned(res: Value) | Threw(message: string)

  datatype ApiRequest = RequestOtpCall(username: string) | ResetPasswordCall(params: ResetParams)

  /** `call(...)` and `put(...)`. */
  datatype SagaEffect = Call(request: ApiRequest) | Put(action: AuthAction)

  const OtpDefaultError := "Không thể gửi OTP"
  const ResetDefaultError := "Không thể reset mật khẩu"

  /** `handleRequestOtp`: calls `requestOTP(username)` and puts the outcome. */
  function HandleRequestOtp(username: string, result: ApiResult): (effects: seq<SagaEffect>)
    ensures |effects| == 2 && effects[0] == Call(RequestOtpCall(username)) && effects[1].Put?
    ensures result.Returned? && Nullish(result.res) ==>
      effects[1].action == RequestOtpFail(Str(PropertyReadError(result.res, "success")))
    ensures result.Returned? && !Nullish(result.res) && Truthy(Get(result.res, "success")) ==> effects[1].action == RequestOtpSuccess
    ensures result.Returned? && !Nullish(result.res) && !Truthy(Get(result.res, "success")) ==>
      effects[1].action == RequestOtpFail(if Truthy(Get(result.res, "message")) then Get(result.res, "message") else Str(OtpDefaultError))
    ensures result.Threw? ==> effects[1].action == RequestOtpFail(Str(result.message))
  {
    var outcome :=
      match result
      case Returned(res) =>
        if Nullish(res) then RequestOtpFail(Str(PropertyReadError(res, "success")))
        else if Truthy(Get(res, "success")) then RequestOtpSuccess
        else RequestOtpFail(Or(Get(res, "message"), Str(OtpDefaultError)))
      case Threw(m) => RequestOtpFail(Str(m));
    [Call(RequestOtpCall(username)), Put(outcome)]
  }

  /** `handleResetPassword`: passes the whole payload to `resetPassword` and puts the outcome. */
  function HandleResetPassword(params: ResetParams, result: ApiResult): (effects: seq<SagaEffect>)
    ensures |effects| == 2 && effects[0] == Call(ResetPasswordCall(params)) && effects[1].Put?
    ensures result.Returned? && Nullish(result.res) ==>
      effects[1].action == ResetPasswordFail(Str(PropertyReadError(result.res, "success")))
    ensures result.Returned? && !Nullish(result.res) && Truthy(Get(result.res, "success")) ==> effects[1].action == ResetPasswordSuccess
    ensures result.Returned? && !Nullish(result.res) && !Truthy(Get(result.res, "success")) ==>
      effects[1].action == ResetPasswordFail(if Truthy(Get(result.res, "message")) then Get(result.res, "message") else Str(ResetDefaultError))
    ensures result.Threw? ==> effects[1].action == ResetPasswordFail(Str(result.message))
  {
    var outcome :=
      match result
      case Returned(res) =>
        if Nullish(res) then ResetPasswordFail(Str(PropertyReadError(res, "success")))
        else if Truthy(Get(res, "success")) then ResetPasswordSuccess
        else ResetPasswordFail(Or(Get(res, "message"), Str(ResetDefaultError)))
      case Threw(m) => ResetPasswordFail(Str(m));
    [Call(ResetPasswordCall(params)), Put(outcome)]
  }

  /** The OTP handler always puts `requestOtpSuccess` or `requestOtpFail`, and either ends the request. */
  lemma RequestOtpSettles(username: string, result: ApiResult)
    ensures var a := HandleRequestOtp(username, result)[1].action;
      (a.RequestOtpSuccess? || a.RequestOtpFail?) && Settles(a)
  {
  }

  /** The reset handler always puts `resetPasswordSuccess` or `resetPasswordFail`, and either ends the request. */
  lemma ResetPasswordSettles(params: ResetParams, result: ApiResult)
    ensures var a := HandleResetPassword(params, result)[1].action;
      (a.ResetPasswordSuccess? || a.ResetPasswordFail?) && Settles(a)
  {
  }

  /**
   * A whole OTP request: the start action, then the saga's outcome.  It ends
   * with loading cleared, moves to step 2 exactly when the API reported success,
   * and keeps the username that was asked for.
   */
  method RequestOtpRound(store: AuthStore, username: string, result: ApiResult) returns (effects: seq<SagaEffect>)
    requires store.Valid()
    modifies store
    ensures store.Valid() && !store.loading && store.username == username
    ensures effects == HandleRequestOtp(username, result)
    ensures store.step == (if effects[1].action.RequestOtpSuccess? then 2 else old(store.step))
    ensures store.message ==
      if effects[1].action.RequestOtpSuccess? then OtpSentMessage else Message(effects[1].action.error, ErrorKind)
  {
    store.Dispatch(RequestOtpStart(username));
    effects := HandleRequestOtp(username, result);
    RequestOtpSettles(username, result);
    store.Dispatch(effects[1].action);
  }

  /** A whole password reset: start, then the saga's outcome; loading ends cleared and the step is kept. */
  method ResetPasswordRound(store: AuthStore, params: ResetParams, result: ApiResult) returns (effects: seq<SagaEffect>)
    requires store.Valid()
    modifies store
    ensures store.Valid() && !store.loading
    ensures store.username == old(store.username) && store.step == old(store.step)
    ensures effects == HandleResetPassword(params, result)
    ensures store.message ==
      if effects[1].action.ResetPasswordSuccess? then PasswordResetMessage else Message(effects[1].action.error, ErrorKind)
  {
    store.Dispatch(ResetPasswordStart(params));
    effects := HandleResetPassword(params, result);
    ResetPasswordSettles(params, result);
    store.Dispatch(effects[1].action);
  }
}
