# webnr-nextjs: a verified model of the web client's core logic

This project models the logic of the Next.js web client of a game portal in
Dafny, and proves properties of it. The portal lets players do five things:

- log in, register, and reset a password by OTP;
- see their gold ("vàng") and gem ("ngọc") balances and buy more;
- claim items from a shop;
- see top-10 leaderboards;
- call a few same-process API routes that forward to the backend.

The parts modelled:

- **Service layer** (`services/userService.ts`). It maps each axios outcome to
  a `{success, data, message, error}` record: `UserService.Login`,
  `Register`, `GetBalance` and `AddNapTuWeb`. It also holds the
  deposit-amount check, `ValidateDepositAmount`.
- **Password-reset state machine.**
  - The Redux slice is the class `AuthSlice.AuthStore`. Each reducer is a
    method that updates `username`, `step`, `loading` and `message` in place.
  - The saga is `AuthSaga`. It is a pair of pure functions from the API
    result to the `call`/`put` effects. Two driver methods run a whole
    start → call → settle round against the store.
- **Leaderboard** (`app/bangxh/page.tsx`).
  - `formatNumber` is `FormatNumber`. `null`, `undefined` and 0 give "0".
    Any other number gives its sign, then `Group` applied to the digits of
    its absolute value. `Group` is the regex replace that puts a comma before
    each three-digit group. `\B` does not match after '-', so the sign is
    never followed by a comma: -1234 gives "-1,234".
  - Row processing adds a rank and the formatted statistics.
  - The page is a class with its fetch, its tab selection, and the
    podium and medal rules.
- **Pages** (login, register, user, shop). Each is a class whose fields are
  the component's state. The browser's `localStorage` is a shared
  `Browser.Storage` object. Alerts, navigation and service requests are
  appended to an `effects` log.
- **API routes** (verify-otp, change-password, qr, pay, refresh). Each is a
  pure function. It takes the incoming request and the backend's answer. It
  returns the backend call made, if any, and the reply. `Crashed` stands for
  a handler that throws without a `catch`.

JavaScript values are modelled by `Js.Value`, with `||`, `?.`, truthiness
and `String()` written out. Numbers are integers, printed by `Decimal`.

## Model

| member | source | states |
|---|---|---|
| UserService.Login | services/userService.ts:15-41 | success exactly when the call resolved, with the data unchanged and the fixed success notice; a 401 always gives the fixed bad-credentials error whatever the body; any other failure gives the body's `error` or the default; every failure carries a truthy error |
| UserService.LoginIgnores401Body | services/userService.ts:29-34 | two 401 rejections with different bodies give the same result |
| UserService.Register | services/userService.ts:43-86 | success exactly when the call resolved with truthy data; falsy data and a 400 both give "username taken"; a 500 gives the server error; otherwise the body's `error` or the default; 400 is checked before 500, which is checked before the fallback |
| UserService.GetBalance | services/userService.ts:88-102 | success exactly when the call resolved, wrapping the data; a failure gives the body's `error` or the default |
| UserService.AddNapTuWeb | services/userService.ts:104-144 | success exactly when the call resolved with a non-null body, with the message "Nạp <amount> <currency> thành công! Tổng: <total>" naming that currency's total field; a null body gives the currency's generic failure; a rejection gives the body's `error` or that failure |
| UserService.ValidateDepositAmount | services/userService.ts:146-158 | invalid, with the fixed message, exactly when the text is empty, not a number, or not positive; when valid, the amount is the parsed number and is positive |
| UserService.ValidatePrintedAmount | services/userService.ts:146-158 | every positive integer, written in decimal, is accepted with that same amount |
| Decimal.ParseIntToString | services/userService.ts:146-158 | parsing the decimal text of any integer gives that integer back |
| Decimal.DigitsValueOfNat | services/userService.ts:146-158 | the digits of a natural number read back as that number |
| AuthSlice.AuthStore.constructor | app/redux/auth/authSlice.ts:13-18 | the initial state: empty username, step 1, not loading, empty message |
| AuthSlice.AuthStore.RequestOtpStart | app/redux/auth/authSlice.ts:24-31 | loading starts and the username becomes the payload; step and message are unchanged |
| AuthSlice.AuthStore.ResetPasswordStart | app/redux/auth/authSlice.ts:32-41 | only loading changes, to true; the payload is ignored |
| AuthSlice.AuthStore.RequestOtpSuccess | app/redux/auth/authSlice.ts:43-47 | loading ends, step becomes 2 and the message is the OTP-sent success notice; the username is kept |
| AuthSlice.AuthStore.ResetPasswordSuccess | app/redux/auth/authSlice.ts:49-52 | loading ends and the message is the reset success notice; step and username are kept |
| AuthSlice.AuthStore.Fail | app/redux/auth/authSlice.ts:54-66 | the shared body of `authError`, `requestOtpFail` and `resetPasswordFail`: loading ends and the message is the payload with kind "error"; step and username are kept |
| AuthSlice.AuthStore.ClearMessage | app/redux/auth/authSlice.ts:69-71 | the message is emptied and nothing else changes |
| AuthSlice.AuthStore.Dispatch | app/redux/auth/authSlice.ts:13-71 | over any action, step stays 1 or 2 and never goes back from 2 to 1; settling actions end loading and start actions begin it; only `requestOtpStart` changes the username; only `requestOtpSuccess` changes the step; the start actions keep the message, each success sets its fixed notice, each failure sets its payload as an error, and `clearMessage` empties it |
| AuthSaga.HandleRequestOtp | app/redux/auth/authSaga.ts:12-25 | calls the OTP API with the username, then puts `requestOtpSuccess` when the result has `success`, otherwise `requestOtpFail` with the result's message or "Không thể gửi OTP"; a throw, including the TypeError of reading `success` from a null result, puts `requestOtpFail` with the error's message |
| AuthSaga.HandleResetPassword | app/redux/auth/authSaga.ts:27-39 | calls the reset API with the whole payload and maps the result the same way, with the default "Không thể reset mật khẩu" |
| AuthSaga.RequestOtpSettles | app/redux/auth/authSaga.ts:17-24 | the action the OTP saga puts is always one that ends loading |
| AuthSaga.ResetPasswordSettles | app/redux/auth/authSaga.ts:31-38 | the action the reset saga puts is always one that ends loading |
| AuthSaga.RequestOtpRound | app/redux/auth/authSaga.ts:12-25 | start, saga and reducer together: afterwards loading is false and the username is the requested one; when the OTP was sent, step becomes 2 and the message is the OTP-sent notice, otherwise step is kept and the message is the failure's error |
| AuthSaga.ResetPasswordRound | app/redux/auth/authSaga.ts:27-39 | start, saga and reducer together: afterwards loading is false, step and username are unchanged, and the message is the reset notice on success or the failure's error otherwise |
| Leaderboard.FormatNumber | app/bangxh/page.tsx:88-91 | the result is never empty; `null`, `undefined` and 0 give "0"; it starts with '-' exactly when the argument is a negative number |
| Leaderboard.Group | app/bangxh/page.tsx:90 | grouping a nonempty digit string gives a nonempty text that starts with the same digit |
| Leaderboard.FormatNumberRoundTrip | app/bangxh/page.tsx:88-91 | deleting every comma from `formatNumber(n)` gives `n.toString()` |
| Leaderboard.FormatNumberShape | app/bangxh/page.tsx:88-91 | the output is an optional minus sign, then digit groups: the first group has 1 to 3 digits and every later group exactly 3 |
| Leaderboard.GroupRoundTrip | app/bangxh/page.tsx:90 | grouping a digit string and deleting the commas gives the digits back |
| Leaderboard.GroupShape | app/bangxh/page.tsx:90 | grouping a nonempty digit string gives well-grouped text of length `d + (d - 1) / 3` |
| Leaderboard.ShortNumbersUnchanged | app/bangxh/page.tsx:90 | integers of at most three digits are returned exactly as `toString` prints them |
| Leaderboard.NullAndUndefinedFormatAsZero | app/bangxh/page.tsx:88-89 | `null`, `undefined` and 0 are formatted as "0" |
| Leaderboard.FormatStat | app/bangxh/page.tsx:44-47 | the statistic, or 0 when it is falsy, formatted: a missing, null or zero statistic gives "0"; any other is a number and gives `formatNumber` of it |
| Leaderboard.ProcessRow | app/bangxh/page.tsx:43-57 | the row keeps every original field except `rank` and the four `formatted*` fields, which are added or overwritten; `rank` is the given rank |
| Leaderboard.ProcessRows | app/bangxh/page.tsx:43-57 | the processed list has the input's length and order, and row i is row i processed with rank i + 1 |
| Leaderboard.ProcessedRowsRankAndKeep | app/bangxh/page.tsx:60-74 | in the processed list, row i has rank i + 1 and keeps every field that is not overwritten |
| Leaderboard.FormattedField | app/bangxh/page.tsx:43-57 | each of the four `formatted*` fields of a processed row holds the formatted value of its own statistic |
| Leaderboard.FormattedStat | app/bangxh/page.tsx:43-74 | in every row of a processed list, a missing, null or zero statistic is shown as "0"; any other is shown as `formatNumber` of it |
| Leaderboard.ShowsMedal | app/bangxh/page.tsx:271 | `user.rank && user.rank <= 3`: a row showing a medal has a nonzero numeric rank of at most 3, and every rank from 1 to 3 shows one |
| Leaderboard.PodiumShows | app/bangxh/page.tsx:141-215 | podium slot k is rendered exactly when k is 1, 2 or 3 and the list has at least k rows; the row it shows, k - 1, then exists |
| Leaderboard.MedalsMatchPodium | app/bangxh/page.tsx:141-271 | in a processed list, a row shows a medal exactly when it is one of the first three, which is exactly when its podium slot is rendered |
| Leaderboard.LeaderboardPage.constructor | app/bangxh/page.tsx:27-30 | both lists start empty, loading starts true, and the strength tab is active |
| Leaderboard.LeaderboardPage.CurrentData | app/bangxh/page.tsx:93 | the strength tab shows the strength list, the gold tab the gold list |
| Leaderboard.LeaderboardPage.SelectTab | app/bangxh/page.tsx:93 | the tab changes, and the displayed list is that tab's list; nothing else changes |
| Leaderboard.LeaderboardPage.FetchApi | app/bangxh/page.tsx:33-83 | both lists are replaced by the processed rows only when both fetches returned; if either throws, neither list changes; loading ends false on every path |
| LoginPage.SavedUser | app/login/page.tsx:55-60 | the saved session is the returned data with `username` overwritten by the typed name, and every other field kept |
| LoginPage.LoginForm.constructor | app/login/page.tsx:25-31 | the form starts with empty username and password, no errors, not loading, remember-me off, and no effects, on the given storage |
| LoginPage.LoginForm.HandleInputChange | app/login/page.tsx:33-46 | only the named field changes, and its error is cleared only if one was shown |
| LoginPage.LoginForm.SetRememberMe | app/login/page.tsx:132 | only the remember-me flag changes |
| LoginPage.LoginForm.HandleSubmit | app/login/page.tsx:48-84 | on success: the session is saved; 'rememberedUsername' is set or removed as remember-me says; the page alerts the message and goes to '/user'. On failure: it alerts the error and storage is untouched. On a throw: the generic alert. Loading ends false on every path |
| LoginPage.LoginSuccessNotice | app/login/page.tsx:70 | the alert after a successful login is the service's fixed notice |
| RegisterPage.RegisterForm.constructor | app/register/page.tsx:21-28 | the form starts with empty username, password and confirmation, no errors, not loading, and no effects |
| RegisterPage.RegisterForm.HandleInputChange | app/register/page.tsx:30-43 | only the named field changes, and its error is cleared only if one was shown |
| RegisterPage.RegisterForm.HandleSubmit | app/register/page.tsx:45-70 | the service is called with username and password only. On success the page alerts, resets all three fields and goes to '/login'. On failure it alerts the error and leaves the form; on a throw, the generic alert. Loading ends false |
| UserPage.UserProfile.constructor | app/user/page.tsx:19-28 | no user, zero balances, closed modal, initial loading pending |
| UserPage.UserProfile.LoadUserFromStorage | app/user/page.tsx:42-49 | the user becomes the saved session when there is one, and initial loading ends; every other field is kept |
| UserPage.UserProfile.LoadBalance | app/user/page.tsx:51-66 | without a username nothing happens. On success each balance becomes the returned value, or 0 when it is missing. On failure the balances stay. Loading ends false; the user, the deposit form and initial loading are kept |
| UserPage.UserProfile.HandleLogout | app/user/page.tsx:68-75 | 'currentUser' is removed, the user becomes null, all balances become 0, and the page goes to '/login'; the deposit form and both loading flags are kept |
| UserPage.UserProfile.HandleDeposit | app/user/page.tsx:77-101 | without a username or with an invalid amount nothing happens. Otherwise only the chosen currency's service is called. On success only that currency's balance changes, the amount is cleared and the modal closes; on failure both stay. Loading ends false; the user, the currency, the current balance and initial loading are always kept |
| UserPage.UserProfile.OpenDepositModal | app/user/page.tsx:109-112 | the currency is chosen and the modal opens; every other field is kept |
| UserPage.UserProfile.SetDepositAmount | app/user/page.tsx:301-319 | only the amount text changes |
| UserPage.UserProfile.RedirectIfSignedOut | app/user/page.tsx:114-118 | the page goes to '/register' exactly when initial loading is over and there is no user; no field changes |
| UserPage.SignInThenOpenProfile | app/user/page.tsx:42-49 | after a successful login, the account page shows the typed username and does not redirect |
| ShopPage.CatalogueIds | app/shop/page.tsx:24-67 | the catalogue constant `Items` has seven items with distinct ids 1 to 7, item i having id i + 1 |
| ShopPage.OutcomeAlert | app/shop/page.tsx:103-118 | the alert after the request: a network error or an unparseable body alerts that error's message; an ok reply alerts the success notice; a refusal with a null body alerts the TypeError of reading `error`; any other refusal alerts the body's `error`, or 'Không thể nhận vật phẩm' when it is falsy |
| ShopPage.RefusalAlert | app/shop/page.tsx:108-114 | a refused claim alerts the body's `error`, or 'Không thể nhận vật phẩm' when it is absent |
| ShopPage.Shop.constructor | app/shop/page.tsx:21-22 | the shop starts not loading, with no item marked and no effects, on the given storage |
| ShopPage.Shop.HandleReceiveItem | app/shop/page.tsx:69-119 | with no session: the login alert and no request. Without auth_id or access_token: the invalid-login alert and no request. Otherwise the request carries `{id: authId, itemId}`, `Bearer <token>` and `auth-id`. Every path ends with no loading and no item marked, so no button stays disabled |
| ShopPage.Shop.ButtonDisabled | app/shop/page.tsx:162 | a button is disabled exactly when loading is on for that item's id |
| Http.GuardedQueryGet | app/api/qr/route.ts:5-47 | a missing Authorization header gives 401 before the parameter is read. A missing or empty parameter gives 400 "<param> is required". The value goes verbatim into the backend URL, with the header forwarded. The reply keeps the backend status, replaces an unparseable body with `{error: 'Invalid JSON from backend'}`, and is always no-store |
| QrRoute.Get | app/api/qr/route.ts:5-47 | the guarded GET with parameter `amount` against `/pay/qr?amount=` |
| PayRoute.Get | app/api/pay/route.ts:5-35 | the guarded GET with parameter `userId` against `/pay/pay?userId=` |
| VerifyOtpRoute.FlattenMessage | app/api/verify-otp/route.ts:28-30 | an array message is joined with ", "; a truthy non-array message is kept; anything else becomes 'Xác thực OTP thất bại!' |
| VerifyOtpRoute.FlattenExamples | app/api/verify-otp/route.ts:28-30 | ["a", "b"] becomes "a, b", an empty array becomes "", and an empty or missing message becomes the default |
| VerifyOtpRoute.Post | app/api/verify-otp/route.ts:5-44 | the body is forwarded unchanged. An ok answer is passed through with its status. A refusal gives `{success: false, message}` with the backend status. Anything that throws gives 500 with the default message |
| ChangePasswordRoute.Whitelisted | app/api/change-password/route.ts:31-34 | the forwarded body has exactly the keys oldPassword and newPassword, taken from the request |
| ChangePasswordRoute.Patch | app/api/change-password/route.ts:5-46 | a missing header gives 401 before the body is read. A missing password field gives 400 'Missing required fields'. The call forwards the header and only the two fields. The backend status and body are passed through. Anything that throws gives 500 'Internal server error' |
| ChangePasswordRoute.ExtraFieldsDropped | app/api/change-password/route.ts:31-34 | adding fields other than the two passwords to the request changes nothing |
| RefreshRoute.Post | app/api/refresh/route.ts:5-20 | a missing or empty `refresh_token` gives 400 'Refresh token is required' with no call; otherwise exactly `{refresh_token}` is forwarded and the backend's status and body are passed through |
| RefreshRoute.HeadersIgnored | app/api/refresh/route.ts:5-16 | no request header is required or read |

## Left out

- I/O is an input, not an effect. The backend, the network, `fetch`, axios and
  `JSON.parse` are not modelled; each handler is given the outcome of its
  call. Alerts, `router.push` and requests are recorded in an effects log.
- Each async handler runs as one atomic method. So the state while
  `loading` is true, during the awaited call, cannot be observed. The model
  proves only that `loading` is false when the handler ends.
- `takeLatest` cancellation in the saga, and React's effect scheduling, are
  not modelled.
- Numbers are integers. Fractions, NaN, Infinity and exponent notation are not
  modelled, nor is `formatNumber`'s grouping of fractional digits.
- `Intl.NumberFormat` (`formatCurrency` and `formatNumber` in the user page)
  is not modelled.
- UserService.ValidateDepositAmount: `Number`/`parseInt` are modelled only
  on an optional sign followed by decimal digits. Any other text counts as
  not a number, so inputs such as " 5", "0x10" or "1e3" are outside the
  model.
- `JSON.stringify` and `JSON.parse` of stored and sent values are modelled as
  holding the value itself.
- Spreading a string or an array (`{...x}`) is modelled as spreading `{}`.
- Leaderboard.FetchApi requires each row's statistics to be numbers or `null`,
  as the page's `UserData` interface declares. A response whose `data` is not
  an array is not modelled. Nor is a `null` element in `data`: the `.map` at
  page.tsx:43 would throw on it, and neither list would be set; `Row` cannot
  hold such an element.
- The shop catalogue's image paths are not modelled. The ids, names and
  descriptions are.
- The `get10sucmanh`/`get10vang` pass-throughs and the library wrappers
  (`api/client.ts`, `services/adminService.ts`, `services/itemService.ts`,
  `app/services/authApi.ts`) are not part of this model. Neither are the
  pure forwarding routes (login, register, reset-password, top10-vang, ask,
  all-account-sell).
- The OTP-merge and token refresh-and-retry flows are not part of this model.
- LoginPage.LoginForm.HandleSubmit and RegisterPage.RegisterForm.HandleSubmit:
  the `Threw` branch stands for an unexpected throw only. `login` and
  `register` in `services/userService.ts` catch every rejection, so an
  awaited call never throws. A throw from `localStorage.setItem` is not
  modelled.
- `console.log` and `console.error` are not modelled.
- The test files, JSX markup and styles are not part of this model.
