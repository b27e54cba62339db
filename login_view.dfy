/**
 * The login screen's form logic (src/views/LoginView.js): two ordered input
 * checks, then the context's login, with the outcome mapped to the screen's
 * error text, busy flag and navigation.
 */
module LoginView {
  import opened Wrappers
  import opened JsText
  import AuthService
  import UserModel
  import AuthContext
  import Routes

  const EmailMissing := "Por favor, informe seu e-mail"
  const PasswordMissing := "Por favor, informe sua senha"
  const HomePath := "/home"
  const DemoEmail := "admin@bjjacademy.com"
  const DemoPassword := "123456"

  /** The first failing input check, if any: the e-mail must hold something
      besides white space, then the password must be non-empty (untrimmed). */
  function InputError(email: string, password: string): (e: Option<string>)
    ensures e == Some(EmailMissing) <==> Blank(email)
    ensures e == Some(PasswordMissing) <==> !Blank(email) && password == ""
    ensures e == None <==> !Blank(email) && password != ""
  {
    TrimEmptyIffBlank(email);
    if Trim(email) == "" then Some(EmailMissing)
    else if password == "" then Some(PasswordMissing)
    else None
  }

  class LoginForm {
    var email: string
    var password: string
    var isLoading: bool
    var error: string

    constructor ()
      ensures email == "" && password == "" && !isLoading && error == ""
    {
      email, password := "", "";
      isLoading := false;
      error := "";
    }

    /** The e-mail input's change handler. */
    method SetEmail(value: string)
      modifies this
      ensures email == value && password == old(password)
      ensures isLoading == old(isLoading) && error == old(error)
    {
      email := value;
    }

    /** The password input's change handler. */
    method SetPassword(value: string)
      modifies this
      ensures password == value && email == old(email)
      ensures isLoading == old(isLoading) && error == old(error)
    {
      password := value;
    }

    /** The demonstration button: fills in the demo account's credentials,
        which pass both input checks. */
    method UseDemoCredentials()
      modifies this
      ensures email == DemoEmail && password == DemoPassword
      ensures InputError(email, password).None?
      ensures isLoading == old(isLoading) && error == old(error)
    {
      email, password := DemoEmail, DemoPassword;
      assert !Blank(email) by {
        assert email[0] == 'a' && 'a' !in Spaces;
      }
    }

    /** `handleSubmit`: clears the error, stops at the first failing input
        check with its message (the context is not called), otherwise logs in
        and goes to the home screen on success or shows the failure message.
        The busy flag is off afterwards. */
    method HandleSubmit(auth: AuthContext.AuthProvider, b: AuthService.Backend)
      returns (nav: Option<Routes.Navigation>)
      modifies this, auth
      ensures email == old(email) && password == old(password)
      ensures InputError(email, password).Some? ==>
                && error == InputError(email, password).value && nav == None
                && isLoading == old(isLoading) && unchanged(auth)
      ensures InputError(email, password).None? ==>
                var out := AuthService.AuthenticateOutcome(b);
                && !isLoading && !auth.loading
                && (out.Ok? ==> nav == Some(Routes.Navigation(HomePath, None)) && error == ""
                                && auth.user == Some(UserModel.NewUser(out.value)))
                && (out.Err? ==> nav == None && error == AuthService.Rethrown(out.message, AuthService.LoginFallback)
                                 && auth.user == old(auth.user))
    {
      error := "";
      var invalid := InputError(email, password);
      if invalid.Some? {
        error := invalid.value;
        return None;
      }
      isLoading := true;
      var r := auth.Login(b, email, password);
      if r.Ok? {
        nav := Some(Routes.Navigation(HomePath, None));
      } else {
        error := AuthService.Rethrown(r.message, AuthService.LoginFallback);
        nav := None;
      }
      isLoading := false;
    }
  }
}
