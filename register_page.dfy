/**
 * The registration page (`app/register/page.tsx`): username, password and a
 * confirmation field; submitting calls the register service with the username
 * and password and, on success, clears the form and goes to '/login'.
 */
module RegisterPage {
  import opened Js
  import opened Browser
  import UserService

  datatype RegisterField = Username | Password | ConfirmPassword

  class RegisterForm {
    var username: string
    var password: string
    var confirmPassword: string
    var errors: map<RegisterField, string>
    var loading: bool
    var effects: seq<UiEffect>

    constructor ()
      ensures username == "" && password == "" && confirmPassword == "" && errors == map[] && !loading && effects == []
    {
      username, password, confirmPassword, errors, loading, effects := "", "", "", map[], false, [];
    }

    /** `handleInputChange`: sets the named field, and blanks its error only if one is shown. */
    method HandleInputChange(name: RegisterField, value: string)
      modifies this
      ensures username == (if name == Username then value else old(username))
      ensures password == (if name == Password then value else old(password))
      ensures confirmPassword == (if name == ConfirmPassword then value else old(confirmPassword))
      ensures errors == (if name in old(errors) && old(errors)[name] != "" then old(errors)[name := ""] else old(errors))
      ensures loading == old(loading) && effects == old(effects)
    {
      match name {
        case Username => username := value;
        case Password => password := value;
        case ConfirmPassword => confirmPassword := value;
      }
      if name in errors && errors[name] != "" {
        errors := errors[name := ""];
      }
    }

    /**
     * `handleSubmit`, with the awaited `UserService.register` call as input.  The
     * confirmation field is neither compared nor sent.  `register` catches every
     * rejection, so `Threw` is not reachable from it; the branch stands for an
     * unexpected throw of the awaited call.
     */
    method HandleSubmit(outcome: Awaited<UserService.AxiosOutcome>)
      modifies this
      ensures !loading && errors == old(errors)
      ensures outcome.Threw? ==>
        effects == old(effects) + [Request(RegisterCall(old(username), old(password))), Alert(UnexpectedError)]
      ensures outcome.Settled? && !UserService.Register(outcome.value).success ==>
        effects == old(effects) + [Request(RegisterCall(old(username), old(password))), Alert(ToJsString(UserService.Register(outcome.value).error))]
      ensures outcome.Settled? && UserService.Register(outcome.value).success ==>
        effects == old(effects) + [Request(RegisterCall(old(username), old(password))),
                                   Alert(ToJsString(Or(UserService.Register(outcome.value).message, Str(UserService.RegisterSucceeded)))),
                                   Navigate("/login")]
      ensures outcome.Settled? && UserService.Register(outcome.value).success ==>
        username == "" && password == "" && confirmPassword == ""
      ensures !(outcome.Settled? && UserService.Register(outcome.value).success) ==>
        username == old(username) && password == old(password) && confirmPassword == old(confirmPassword)
    {
      loading := true;
      effects := effects + [Request(RegisterCall(username, password))];
      match outcome {
        case Threw(_) =>
          effects := effects + [Alert(UnexpectedError)];
        case Settled(o) =>
          var result := UserService.Register(o);
          if result.success {
            effects := effects + [Alert(ToJsString(Or(result.message, Str(UserService.RegisterSucceeded))))];
            username, password, confirmPassword := "", "", "";
            effects := effects + [Navigate("/login")];
          } else {
            effects := effects + [Alert(ToJsString(result.error))];
          }
      }
      loading := false;
    }
  }
}
