/**
 * The service layer (`services/userService.ts`): each method turns what the
 * HTTP client produced into a `{success, data, message, error}` record, and
 * `validateDepositAmount` checks the amount typed into the deposit form.
 * The HTTP call itself is an input: the response body, or a rejection that
 * may carry the backend's status and body.
 */
module UserService {
  import opened Wrappers
  import opened Js
  import Decimal

  /** The `error.response` of a rejected call: the backend's status and body. */
  datatype ErrorResponse = ErrorResponse(status: int, data: Value)

  /** What the awaited call produced: the response's `data`, or a thrown error. */
  datatype AxiosOutcome =
    | Resolved(data: Value)
    | Rejected(response: Option<ErrorResponse>)

  /** The record every service method returns; a field the source leaves out reads as `undefined`. */
  datatype ServiceResult = ServiceResult(success: bool, data: Value, message: Value, error: Value)

  /** The two currencies that can be bought on the web site. */
  datatype Currency = Vang | Ngoc

  const LoginSucceeded := "Đăng nhập thành công!"
  const LoginBadCredentials := "Tài khoản hoặc mật khẩu không đúng!"
  const LoginFailed := "Đăng nhập thất bại!"
  const RegisterSucceeded := "Đăng ký thành công!"
  const UsernameTaken := "Tên đăng nhập đã tồn tại!"
  const RegisterServerError := "Lỗi server, vui lòng thử lại sau!"
  const RegisterFailed := "Đăng ký thất bại!"
  const BalanceFailed := "Không thể tải thông tin tài khoản!"
  const InvalidAmount := "Vui lòng nhập số tiền hợp lệ!"

  /** `error.response?.status`. */
  function Status(o: AxiosOutcome): Option<int> {
    if o.Rejected? && o.response.Some? then Some(o.response.value.status) else None
  }

  /** `error.response?.data?.error`. */
  function BackendError(o: AxiosOutcome): Value
    requires o.Rejected?
  {
    if o.response.Some? then Get(o.response.value.data, "error") else Undefined
  }

  function Failure(error: Value): ServiceResult {
    ServiceResult(false, Undefined, Undefined, error)
  }

  function Login(o: AxiosOutcome): (r: ServiceResult)
    ensures r.success <==> o.Resolved?
    ensures o.Resolved? ==> r.data == o.data && r.message == Str(LoginSucceeded) && r.error == Undefined
    ensures o.Rejected? ==> r.data == Undefined && r.message == Undefined
    ensures Status(o) == Some(401) ==> r.error == Str(LoginBadCredentials)
    ensures o.Rejected? && Status(o) != Some(401) ==>
      r.error == (if Truthy(BackendError(o)) then BackendError(o) else Str(LoginFailed))
    ensures !r.success ==> Truthy(r.error)
  {
    match o
    case Resolved(data) => ServiceResult(true, data, Str(LoginSucceeded), Undefined)
    case Rejected(_) =>
      if Status(o) == Some(401) then Failure(Str(LoginBadCredentials))
      else Failure(Or(BackendError(o), Str(LoginFailed)))
  }

  function Register(o: AxiosOutcome): (r: ServiceResult)
    ensures r.success <==> o.Resolved? && Truthy(o.data)
    ensures r.data == Undefined
    ensures r.success ==> r.message == Str(RegisterSucceeded) && r.error == Undefined
    ensures !r.success ==> r.message == Undefined && Truthy(r.error)
    ensures o.Resolved? && !Truthy(o.data) ==> r.error == Str(UsernameTaken)
    ensures Status(o) == Some(400) ==> r.error == Str(UsernameTaken)
    ensures Status(o) == Some(500) ==> r.error == Str(RegisterServerError)
    ensures o.Rejected? && Status(o) != Some(400) && Status(o) != Some(500) ==>
      r.error == (if Truthy(BackendError(o)) then BackendError(o) else Str(RegisterFailed))
  {
    match o
    case Resolved(data) =>
      if Truthy(data) then ServiceResult(true, Undefined, Str(RegisterSucceeded), Undefined)
      else Failure(Str(UsernameTaken))
    case Rejected(_) =>
      if Status(o) == Some(400) then Failure(Str(UsernameTaken))
      else if Status(o) == Some(500) then Failure(Str(RegisterServerError))
      else Failure(Or(BackendError(o), Str(RegisterFailed)))
  }

  function GetBalance(o: AxiosOutcome): (r: ServiceResult)
    ensures r.success <==> o.Resolved?
    ensures r.message == Undefined
    ensures o.Resolved? ==> r.data == o.data && r.error == Undefined
    ensures o.Rejected? ==> r.data == Undefined
    ensures o.Rejected? ==> r.error == (if Truthy(BackendError(o)) then BackendError(o) else Str(BalanceFailed))
    ensures !r.success ==> Truthy(r.error)
  {
    match o
    case Resolved(data) => ServiceResult(true, data, Undefined, Undefined)
    case Rejected(_) => Failure(Or(BackendError(o), Str(BalanceFailed)))
  }

  function CurrencyName(c: Currency): string {
    match c
    case Vang => "vàng"
    case Ngoc => "ngọc"
  }

  /** The response field holding the new total. */
  function TotalKey(c: Currency): string {
    match c
    case Vang => "totalVangNapTuWeb"
    case Ngoc => "totalNgocNapTuWeb"
  }

  function DepositFailed(c: Currency): string {
    match c
    case Vang => "Nạp vàng thất bại!"
    case Ngoc => "Nạp ngọc thất bại!"
  }

  /** The success notice `Nạp ${amount} vàng thành công! Tổng: ${data.totalVangNapTuWeb}` (or ngọc). */
  function DepositMessage(c: Currency, amount: int, data: Value): string {
    "Nạp " + Decimal.IntToString(amount) + " " + CurrencyName(c) + " thành công! Tổng: " + ToJsString(Get(data, TotalKey(c)))
  }

  /**
   * `addVangNapTuWeb` (with `Vang`) and `addNgocNapTuWeb` (with `Ngoc`), which
   * differ only in their texts and the field they read.  Building the success message reads
   * `response.data.total…`, which throws a TypeError (an error without a
   * `response`) when the body is `null` or `undefined`; the catch then reports
   * the currency's generic failure.
   */
  function AddNapTuWeb(c: Currency, amount: int, o: AxiosOutcome): (r: ServiceResult)
    ensures r.success <==> o.Resolved? && !Nullish(o.data)
    ensures r.success ==> r.data == o.data && r.message == Str(DepositMessage(c, amount, o.data)) && r.error == Undefined
    ensures !r.success ==> r.data == Undefined && r.message == Undefined && Truthy(r.error)
    ensures o.Resolved? && Nullish(o.data) ==> r.error == Str(DepositFailed(c))
    ensures o.Rejected? ==> r.error == (if Truthy(BackendError(o)) then BackendError(o) else Str(DepositFailed(c)))
  {
    match o
    case Resolved(data) =>
      if Nullish(data) then Failure(Str(DepositFailed(c)))
      else ServiceResult(true, data, Str(DepositMessage(c, amount, data)), Undefined)
    case Rejected(_) => Failure(Or(BackendError(o), Str(DepositFailed(c))))
  }

  datatype DepositValidation = Valid(amount: int) | Invalid(error: string)

  /**
   * `validateDepositAmount`: rejects an empty string (`!amount`), a string that
   * is not a number (`isNaN`) and a number that is not positive.
   */
  function ValidateDepositAmount(amount: string): (r: DepositValidation)
    ensures r.Invalid? <==> amount == "" || Decimal.ParseNumber(amount).None? || Decimal.ParseNumber(amount).value <= 0
    ensures r.Invalid? ==> r.error == InvalidAmount
    ensures r.Valid? ==> Decimal.ParseNumber(amount) == Some(r.amount) && r.amount > 0
  {
    if amount == "" then Invalid(InvalidAmount)
    else
      match Decimal.ParseNumber(amount)
      case None => Invalid(InvalidAmount)
      case Some(n) => if n <= 0 then Invalid(InvalidAmount) else Valid(n)
  }

  /** Any positive amount as `toString` prints it is accepted, with that amount. */
  lemma ValidatePrintedAmount(n: int)
    requires n > 0
    ensures ValidateDepositAmount(Decimal.IntToString(n)) == Valid(n)
  {
    Decimal.ParseIntToString(n);
  }

  /** On a 401 the backend's body is never shown: every 401 login failure reads the same. */
  lemma LoginIgnores401Body(b1: Value, b2: Value)
    ensures Login(Rejected(Some(ErrorResponse(401, b1)))) == Login(Rejected(Some(ErrorResponse(401, b2))))
  {
  }
}
