/**
 * The login page (`app/login/page.tsx`): a form with username, password and a
 * remember-me box; submitting calls the login service, saves the session under
 * 'currentUser', remembers or forgets the username, and goes to '/user'.
 */
module LoginPage {
  import opened Js
  import opened Browser
  import UserService

  datatype LoginField = Username | Password

  /** `{...result.data, username}`: the saved session carries the username that was typed. */
  function SavedUser(data: Value, typed: string): (u: Value)
    ensures u.Obj? && "username" in u.fields && u.fields["username"] == Str(typed)
    ensures u.fields.Keys == Spread(data).Keys + {"username"}
    ensures forall k :: k in Spread(data) && k != "username" ==> u.fields[k] == Spread(data)[k]
  {
    Obj(Spread(data)["username" := Str(typed)])
  }

  class LoginForm {
    const storage: Storage
    var username: string
    var password: string
    var errors: map<LoginField, string>
    var loading: bool
    var rememberMe: bool
    var effects: seq<UiEffect>

    constructor (storage: Storage)
      ensures this.storage == storage
      ensures username == "" && password == "" && errors == map[] && !loading && !rememberMe && effects == []
    {
      this.storage := storage;
      username, password, errors, loading, rememberMe, effects := "", "", map[], false, false, [];
    }

    /** `handleInputChange`: sets the named field, and blanks its error only if one is shown. */
    method HandleInputChange(name: LoginField, value: string)
      modifies this
      ensures username == (if name == Username then value else old(username))
      ensures password == (if name == Password then value else old(password))
      ensures errors == (if name in old(errors) && old(errors)[name] != "" then old(errors)[name := ""] else old(errors))
      ensures loading == old(loading) && rememberMe == old(rememberMe) && effects == old(effects)
    {
      if name == Username {
        username := value;
      } else {
        password := value;
      }
      if name in errors && errors[name] != "" {
        errors := errors[name := ""];
      }
    }

    /** The remember-me checkbox. */
    method SetRememberMe(checked: bool)
      modifies this
      ensures rememberMe == checked
      ensures username == old(username) && password == old(password) && errors == old(errors)
      ensures loading == old(loading) && effects == old(effects)
    {
      rememberMe := checked;
    }

    /**
     * `handleSubmit`, with the awaited `UserService.login` call as input.
     * `login` catches every rejection, so `Threw` is not reachable from it;
     * the branch stands for an unexpected throw of the awaited call.  A throw
     * from the storage writes after it is not modelled.
     */
    method HandleSubmit(outcome: Awaited<UserService.AxiosOutcome>)
      modifies this, storage
      ensures !loading
      ensures username == old(username) && password == old(password) && errors == old(errors) && rememberMe == old(rememberMe)
      ensures outcome.Threw? ==> storage.items == old(storage.items)
      ensures outcome.Threw? ==> effects == old(effects) + [Request(LoginCall(username, password)), Alert(UnexpectedError)]
      ensures outcome.Settled? && !UserService.Login(outcome.value).success ==>
        storage.items == old(storage.items) &&
        effects == old(effects) + [Request(LoginCall(username, password)), Alert(ToJsString(UserService.Login(outcome.value).error))]
      ensures outcome.Settled? && UserService.Login(outcome.value).success ==>
        var result := UserService.Login(outcome.value);
        var saved := old(storage.items)[CurrentUserKey := SavedUser(result.data, username)];
        && storage.items == (if rememberMe then saved[RememberedUsernameKey := Str(username)] else saved - {RememberedUsernameKey})
        && effects == old(effects) + [Request(LoginCall(username, password)),
                                      Alert(ToJsString(Or(result.message, Str(UserService.LoginSucceeded)))),
                                      Navigate("/user")]
    {
      loading := true;
      effects := effects + [Request(LoginCall(username, password))];
      match outcome {
        case Threw(_) =>
          effects := effects + [Alert(UnexpectedError)];
        case Settled(o) =>
          var result := UserService.Login(o);
          if result.success {
            storage.SetItem(CurrentUserKey, SavedUser(result.data, username));
            if rememberMe {
              storage.SetItem(RememberedUsernameKey, Str(username));
            } else {
              storage.RemoveItem(RememberedUsernameKey);
            }
            effects := effects + [Alert(ToJsString(Or(result.message, Str(UserService.LoginSucceeded))))];
            effects := effects + [Navigate("/user")];
          } else {
            effects := effects + [Alert(ToJsString(result.error))];
          }
      }
      loading := false;
    }
  }

  /** The alert after a successful login is the service's fixed notice. */
  lemma LoginSuccessNotice(data: Value)
    ensures ToJsString(Or(UserService.Login(UserService.Resolved(data)).message, Str(UserService.LoginSucceeded)))
      == UserService.LoginSucceeded
  {
  }
}
