/**
 * The password-reset state (`app/redux/auth/authSlice.ts`): a record of the
 * username being reset, the step of the form (1: ask for an OTP, 2: enter the
 * OTP and the new password), a loading flag and a message to display.  Each
 * reducer assigns fields of the state in place.
 */
module AuthSlice {
  import opened Js

  datatype MessageKind = NoKind | SuccessKind | ErrorKind

  /** `{text, type}`.  A failure payload is whatever the saga passed, so the text is a JavaScript value. */
  datatype Message = Message(text: Value, kind: MessageKind)

  /** The arguments of a password reset, passed whole to the API. */
  datatype ResetParams = ResetParams(username: string, otp: string, newPassword: string)

  /** The slice's actions with their payloads. */
  datatype AuthAction =
    | RequestOtpStart(username: string)
    | ResetPasswordStart(params: ResetParams)
    | RequestOtpSuccess
    | ResetPasswordSuccess
    | AuthError(error: Value)
    | RequestOtpFail(error: Value)
    | ResetPasswordFail(error: Value)
    | ClearMessage

  const EmptyMessage := Message(Str(""), NoKind)
  const OtpSentMessage := Message(Str("Gửi OTP thành công"), SuccessKind)
  const PasswordResetMessage := Message(Str("Đặt lại mật khẩu thành công"), SuccessKind)

  /** The actions that end a request: each clears `loading`. */
  predicate Settles(a: AuthAction) {
    a.RequestOtpSuccess? || a.ResetPasswordSuccess? || a.AuthError? || a.RequestOtpFail? || a.ResetPasswordFail?
  }

  class AuthStore {
    var username: string
    var step: int
    var loading: bool
    var message: Message

    /** The form has two steps and never leaves them. */
    ghost predicate Valid()
      reads this
    {
      step == 1 || step == 2
    }

    /** `initialState`. */
    constructor ()
      ensures Valid()
      ensures username == "" && step == 1 && !loading && message == EmptyMessage
    {
      username, step, loading, message := "", 1, false, EmptyMessage;
    }

    method RequestOtpStart(payloadUsername: string)
      requires Valid()
      modifies this
      ensures Valid()
      ensures loading && username == payloadUsername
      ensures step == old(step) && message == old(message)
    {
      loading := true;
      username := payloadUsername;
    }

    /** The payload goes to the saga only; the slice ignores it. */
    method ResetPasswordStart(params: ResetParams)
      requires Valid()
      modifies this
      ensures Valid()
      ensures loading
      ensures username == old(username) && step == old(step) && message == old(message)
    {
      loading := true;
    }

    method RequestOtpSuccess()
      requires Valid()
      modifies this
      ensures Valid()
      ensures !loading && step == 2 && message == OtpSentMessage
      ensures username == old(username)
    {
      loading := false;
      step := 2;
      message := OtpSentMessage;
    }

    method ResetPasswordSuccess()
      requires Valid()
      modifies this
      ensures Valid()
      ensures !loading && message == PasswordResetMessage
      ensures username == old(username) && step == old(step)
    {
      loading := false;
      message := PasswordResetMessage;
    }

    /** `authError`, `requestOtpFail` and `resetPasswordFail` have the same body. */
    method Fail(error: Value)
      requires Valid()
      modifies this
      ensures Valid()
      ensures !loading && message == Message(error, ErrorKind)
      ensures username == old(username) && step == old(step)
    {
      loading := false;
      message := Message(error, ErrorKind);
    }

    method ClearMessage()
      requires Valid()
      modifies this
      ensures Valid()
      ensures message == EmptyMessage
      ensures username == old(username) && step == old(step) && loading == old(loading)
    {
      message := EmptyMessage;
    }

    /**
     * The slice's reducer: runs the case reducer of `action`.  Whatever the
     * action, `step` stays 1 or 2 and never goes back from 2 to 1, so this holds
     * over every sequence of dispatched actions.
     */
    method Dispatch(action: AuthAction)
      requires Valid()
      modifies this
      ensures Valid()
      ensures old(step) <= step
      ensures Settles(action) ==> !loading
      ensures action.RequestOtpStart? || action.ResetPasswordStart? ==> loading
      ensures !action.RequestOtpStart? ==> username == old(username)
      ensures action.RequestOtpStart? ==> username == action.username
      ensures action.RequestOtpSuccess? ==> step == 2
      ensures !action.RequestOtpSuccess? ==> step == old(step)
      ensures action.RequestOtpStart? || action.ResetPasswordStart? ==> message == old(message)
      ensures action.RequestOtpSuccess? ==> message == OtpSentMessage
      ensures action.ResetPasswordSuccess? ==> message == PasswordResetMessage
      ensures action.AuthError? || action.RequestOtpFail? || action.ResetPasswordFail? ==>
        message == Message(action.error, ErrorKind)
      ensures action.ClearMessage? ==> message == EmptyMessage && loading == old(loading)
    {
      match action
      case RequestOtpStart(u) => RequestOtpStart(u);
      case ResetPasswordStart(p) => ResetPasswordStart(p);
      case RequestOtpSuccess => RequestOtpSuccess();
      case ResetPasswordSuccess => ResetPasswordSuccess();
      case AuthError(e) => Fail(e);
      case RequestOtpFail(e) => Fail(e);
      case ResetPasswordFail(e) => Fail(e);
      case ClearMessage => ClearMessage();
    }
  }
}
