/**
 * The account page (`app/user/page.tsx`): loads the saved session, shows the
 * three balances, deposits gold or gems through the service layer, logs out,
 * and sends a visitor without a session to '/register'.
 */
module UserPage {
  import opened Js
  import opened Browser
  import UserService
  import LoginPage

  class UserProfile {
    const storage: Storage
    var user: Value
    var currentBalance: Value
    var vangNapTuWeb: Value
    var ngocNapTuWeb: Value
    var showDepositModal: bool
    var depositAmount: string
    var depositType: UserService.Currency
    var loading: bool
    var initialLoading: bool
    var effects: seq<UiEffect>

    constructor (storage: Storage)
      ensures this.storage == storage && user == Null
      ensures currentBalance == Num(0) && vangNapTuWeb == Num(0) && ngocNapTuWeb == Num(0)
      ensures !showDepositModal && depositAmount == "" && depositType == UserService.Vang
      ensures !loading && initialLoading && effects == []
    {
      this.storage := storage;
      user := Null;
      currentBalance, vangNapTuWeb, ngocNapTuWeb := Num(0), Num(0), Num(0);
      showDepositModal, depositAmount, depositType := false, "", UserService.Vang;
      loading, initialLoading := false, true;
      effects := [];
    }

    /** `user?.username`. */
    function Username(): Value
      reads this
    {
      Get(user, "username")
    }

    /** The balance field a deposit of `c` updates. */
    function Balance(c: UserService.Currency): Value
      reads this
    {
      if c == UserService.Vang then vangNapTuWeb else ngocNapTuWeb
    }

    /** `loadUserFromStorage`: takes the saved session, if there is one, and ends initial loading. */
    method LoadUserFromStorage()
      modifies this
      ensures !initialLoading
      ensures user == (if CurrentUserKey in storage.items then storage.items[CurrentUserKey] else old(user))
      ensures currentBalance == old(currentBalance) && vangNapTuWeb == old(vangNapTuWeb) && ngocNapTuWeb == old(ngocNapTuWeb)
      ensures loading == old(loading) && effects == old(effects)
      ensures depositAmount == old(depositAmount) && showDepositModal == old(showDepositModal) && depositType == old(depositType)
    {
      initialLoading := true;
      if CurrentUserKey in storage.items {
        user := storage.items[CurrentUserKey];
      }
      initialLoading := false;
    }

    /**
     * `loadBalance`, with the awaited `getBalance` call as input.  Without a
     * username nothing happens.  On success each balance takes the returned
     * value, or 0 when it is missing or falsy; on failure, and when the returned
     * body is `null` (reading from it throws inside `then`), the balances stay.
     */
    method LoadBalance(outcome: UserService.AxiosOutcome)
      modifies this
      ensures user == old(user) && depositAmount == old(depositAmount) && showDepositModal == old(showDepositModal)
      ensures depositType == old(depositType) && initialLoading == old(initialLoading)
      ensures !Truthy(old(Username())) ==>
        && effects == old(effects) && loading == old(loading)
        && currentBalance == old(currentBalance) && vangNapTuWeb == old(vangNapTuWeb) && ngocNapTuWeb == old(ngocNapTuWeb)
      ensures Truthy(old(Username())) ==>
        !loading && effects == old(effects) + [Request(BalanceCall(ToJsString(old(Username()))))]
      ensures Truthy(old(Username())) ==>
        var r := UserService.GetBalance(outcome);
        if r.success && !Nullish(r.data) then
          && vangNapTuWeb == Or(Get(r.data, "vangNapTuWeb"), Num(0))
          && ngocNapTuWeb == Or(Get(r.data, "ngocNapTuWeb"), Num(0))
          && currentBalance == Or(Get(r.data, "currentBalance"), Num(0))
        else
          currentBalance == old(currentBalance) && vangNapTuWeb == old(vangNapTuWeb) && ngocNapTuWeb == old(ngocNapTuWeb)
    {
      var name := Username();
      if !Truthy(name) {
        return;
      }
      loading := true;
      effects := effects + [Request(BalanceCall(ToJsString(name)))];
      var result := UserService.GetBalance(outcome);
      if result.success && !Nullish(result.data) {
        vangNapTuWeb := Or(Get(result.data, "vangNapTuWeb"), Num(0));
        ngocNapTuWeb := Or(Get(result.data, "ngocNapTuWeb"), Num(0));
        currentBalance := Or(Get(result.data, "currentBalance"), Num(0));
      }
      loading := false;
    }

    /** `handleLogout`. */
    method HandleLogout()
      modifies this, storage
      ensures storage.items == old(storage.items) - {CurrentUserKey}
      ensures user == Null && currentBalance == Num(0) && vangNapTuWeb == Num(0) && ngocNapTuWeb == Num(0)
      ensures effects == old(effects) + [Navigate("/login")]
      ensures loading == old(loading) && initialLoading == old(initialLoading)
      ensures depositAmount == old(depositAmount) && showDepositModal == old(showDepositModal) && depositType == old(depositType)
    {
      storage.RemoveItem(CurrentUserKey);
      user := Null;
      vangNapTuWeb := Num(0);
      ngocNapTuWeb := Num(0);
      currentBalance := Num(0);
      effects := effects + [Navigate("/login")];
    }

    /** `openDepositModal`. */
    method OpenDepositModal(c: UserService.Currency)
      modifies this
      ensures depositType == c && showDepositModal
      ensures depositAmount == old(depositAmount) && loading == old(loading) && effects == old(effects)
      ensures user == old(user) && vangNapTuWeb == old(vangNapTuWeb) && ngocNapTuWeb == old(ngocNapTuWeb)
      ensures currentBalance == old(currentBalance) && initialLoading == old(initialLoading)
    {
      depositType := c;
      showDepositModal := true;
    }

    /** The amount input and the preset amount buttons. */
    method SetDepositAmount(text: string)
      modifies this
      ensures depositAmount == text
      ensures depositType == old(depositType) && showDepositModal == old(showDepositModal)
      ensures loading == old(loading) && effects == old(effects) && user == old(user)
      ensures vangNapTuWeb == old(vangNapTuWeb) && ngocNapTuWeb == old(ngocNapTuWeb)
      ensures currentBalance == old(currentBalance) && initialLoading == old(initialLoading)
    {
      depositAmount := text;
    }

    /**
     * `handleDeposit`, with the awaited deposit call as input.  Without a
     * username or with an invalid amount nothing happens.  Otherwise only the
     * service of the chosen currency is called, and on success only that
     * currency's balance changes, the amount is cleared and the modal closes.
     */
    method HandleDeposit(outcome: UserService.AxiosOutcome)
      modifies this
      ensures user == old(user) && depositType == old(depositType) && currentBalance == old(currentBalance)
      ensures initialLoading == old(initialLoading)
      ensures !Truthy(old(Username())) || UserService.ValidateDepositAmount(old(depositAmount)).Invalid? ==>
        && effects == old(effects) && loading == old(loading)
        && vangNapTuWeb == old(vangNapTuWeb) && ngocNapTuWeb == old(ngocNapTuWeb)
        && depositAmount == old(depositAmount) && showDepositModal == old(showDepositModal)
      ensures Truthy(old(Username())) && UserService.ValidateDepositAmount(old(depositAmount)).Valid? ==>
        var amount := UserService.ValidateDepositAmount(old(depositAmount)).amount;
        var r := UserService.AddNapTuWeb(depositType, amount, outcome);
        && !loading
        && effects == old(effects) + [Request(DepositCall(depositType, old(Username()), amount))]
        && (if r.success && Truthy(r.data) then
              && Balance(depositType) == Get(r.data, UserService.TotalKey(depositType))
              && depositAmount == "" && !showDepositModal
            else
              && Balance(depositType) == old(Balance(depositType))
              && depositAmount == old(depositAmount) && showDepositModal == old(showDepositModal))
      ensures depositType == UserService.Vang ==> ngocNapTuWeb == old(ngocNapTuWeb)
      ensures depositType == UserService.Ngoc ==> vangNapTuWeb == old(vangNapTuWeb)
    {
      var name := Username();
      if !Truthy(name) {
        return;
      }
      var validation := UserService.ValidateDepositAmount(depositAmount);
      if validation.Invalid? {
        return;
      }
      loading := true;
      effects := effects + [Request(DepositCall(depositType, name, validation.amount))];
      var result := UserService.AddNapTuWeb(depositType, validation.amount, outcome);
      ApplyDeposit(result);
      loading := false;
    }

    /** The success branch of `handleDeposit`: stores the new total, clears the amount and closes the modal. */
    method ApplyDeposit(result: UserService.ServiceResult)
      modifies this
      ensures user == old(user) && depositType == old(depositType) && currentBalance == old(currentBalance)
      ensures initialLoading == old(initialLoading) && loading == old(loading) && effects == old(effects)
      ensures if result.success && Truthy(result.data) then
          && Balance(depositType) == Get(result.data, UserService.TotalKey(depositType))
          && depositAmount == "" && !showDepositModal
        else
          && vangNapTuWeb == old(vangNapTuWeb) && ngocNapTuWeb == old(ngocNapTuWeb)
          && depositAmount == old(depositAmount) && showDepositModal == old(showDepositModal)
      ensures depositType == UserService.Vang ==> ngocNapTuWeb == old(ngocNapTuWeb)
      ensures depositType == UserService.Ngoc ==> vangNapTuWeb == old(vangNapTuWeb)
    {
      if result.success && Truthy(result.data) {
        var total := Get(result.data, UserService.TotalKey(depositType));
        if depositType == UserService.Vang {
          vangNapTuWeb := total;
        } else {
          ngocNapTuWeb := total;
        }
        depositAmount := "";
        showDepositModal := false;
      }
    }

    /** The effect on `[initialLoading, user]`: once loading is over and there is no user, go to '/register'. */
    method RedirectIfSignedOut()
      modifies this
      ensures effects == old(effects) + (if !initialLoading && !Truthy(user) then [Navigate("/register")] else [])
      ensures user == old(user) && initialLoading == old(initialLoading) && loading == old(loading)
      ensures currentBalance == old(currentBalance) && vangNapTuWeb == old(vangNapTuWeb) && ngocNapTuWeb == old(ngocNapTuWeb)
      ensures showDepositModal == old(showDepositModal) && depositAmount == old(depositAmount) && depositType == old(depositType)
    {
      if !initialLoading && !Truthy(user) {
        effects := effects + [Navigate("/register")];
      }
    }
  }

  /**
   * Logging in and then opening the account page: the page finds the saved
   * session, whose username is the one typed on the login form.
   */
  method SignInThenOpenProfile(storage: Storage, typed: string, data: Value) returns (shown: Value, redirected: bool)
    modifies storage
    ensures shown == Str(typed) && !redirected
  {
    var login := new LoginPage.LoginForm(storage);
    login.HandleInputChange(LoginPage.Username, typed);
    login.HandleSubmit(Settled(UserService.Resolved(data)));
    var profile := new UserProfile(storage);
    profile.LoadUserFromStorage();
    shown := profile.Username();
    profile.RedirectIfSignedOut();
    redirected := Navigate("/register") in profile.effects;
  }
}
