/**
 * The authentication context (`AuthProvider` in src/contexts/AuthContext.js):
 * three state cells, the start-up session check, the login/register/logout
 * transitions and the queries over the current user. The gateway's backend
 * replies are passed to each transition.
 */
module AuthContext {
  import opened Wrappers
  import opened UserModel
  import AuthService

  class AuthProvider {
    var user: Option<User>
    var loading: bool
    var error: Option<string>

    /** The initial state: no user, loading, no error. */
    constructor ()
      ensures user == None && loading && error == None
    {
      user := None;
      loading := true;
      error := None;
    }

    /** `checkUser`, run once on start-up: a user is installed exactly when the
        current-user lookup returned data, and loading ends. The lookup never
        throws, so the error cell is left alone. */
    method CheckUser(b: AuthService.Backend)
      modifies this
      ensures !loading && error == old(error)
      ensures AuthService.CurrentUserOutcome(b).Some? ==>
                user == Some(CreateUser(AuthService.CurrentUserOutcome(b)))
      ensures AuthService.CurrentUserOutcome(b).None? ==> user == old(user)
    {
      var userData, _ := AuthService.GetCurrentUser(b);
      if userData.Some? {
        user := Some(CreateUser(userData));
      }
      loading := false;
    }

    /** `login(email, password)`: on success the error is cleared and the new
        record replaces the user and is returned; on failure the user is kept,
        the error records the message and the failure is passed on. */
    method Login(b: AuthService.Backend, email: string, password: string) returns (r: Result<User>)
      modifies this
      ensures !loading
      ensures var out := AuthService.AuthenticateOutcome(b);
              && (out.Ok? ==> user == Some(NewUser(out.value)) && r == Ok(NewUser(out.value)) && error == None)
              && (out.Err? ==> user == old(user) && r == Err(out.message) && error == Some(out.message))
    {
      loading := true;
      error := None;
      var userData, _ := AuthService.Authenticate(b, email, password);
      if userData.Err? {
        error := Some(userData.message);
        r := Err(userData.message);
      } else {
        var userObject := CreateUser(Some(userData.value));
        user := Some(userObject);
        r := Ok(userObject);
      }
      loading := false;
    }

    /** `register(userData)`: never changes the user; returns the record built
        from the created row, or records and passes on the failure. */
    method Register(b: AuthService.Backend, reg: AuthService.Registration) returns (r: Result<User>)
      modifies this
      ensures !loading && user == old(user)
      ensures var out := AuthService.RegisterOutcome(b);
              && (out.Ok? ==> r == Ok(CreateUser(out.value)) && error == None)
              && (out.Err? ==> r == Err(out.message) && error == Some(out.message))
    {
      loading := true;
      error := None;
      var newUser, _ := AuthService.RegisterUser(b, reg);
      if newUser.Err? {
        error := Some(newUser.message);
        r := Err(newUser.message);
      } else {
        r := Ok(CreateUser(newUser.value));
      }
      loading := false;
    }

    /** `logout()`: a successful sign-out clears the user; a failed one keeps
        the user and records the error, and is not passed on. */
    method Logout(b: AuthService.Backend)
      modifies this
      ensures !loading
      ensures var out := AuthService.LogoutOutcome(b);
              && (out.Ok? ==> user == None && error == None)
              && (out.Err? ==> user == old(user) && error == Some(out.message))
    {
      loading := true;
      error := None;
      var done, _ := AuthService.Logout(b);
      if done.Err? {
        error := Some(done.message);
      } else {
        user := None;
      }
      loading := false;
    }

    /** `hasRole(roleName)`: false without a user, else the user's `hasPapel`. */
    function HasRole(roleName: string): (b: bool)
      reads this
      ensures b <==> user.Some? && exists i :: 0 <= i < |user.value.papeis| && user.value.papeis[i].nome == roleName
    {
      if user.None? then false else user.value.HasPapel(roleName)
    }

    /** `getAccessLevel()`: 0 without a user, else the user's largest level. */
    function GetAccessLevel(): (level: int)
      reads this
      ensures user.None? ==> level == 0
      ensures user.Some? ==> forall i :: 0 <= i < |user.value.papeis| ==> Level(user.value.papeis[i]) <= level
      ensures user.Some? && user.value.papeis != [] ==>
                exists i :: 0 <= i < |user.value.papeis| && level == Level(user.value.papeis[i])
      ensures user.Some? && user.value.papeis == [] ==> level == 0
    {
      if user.None? then 0 else user.value.NivelAcesso()
    }

    /** `isAuthenticated()`: a user is present. */
    function IsAuthenticated(): (b: bool)
      reads this
      ensures b <==> user.Some?
    {
      user.Some?
    }
  }

  /** A login rejected by the backend leaves an anonymous context anonymous,
      with the backend's own message as the error. */
  method RejectedLoginScenario(b: AuthService.Backend, email: string, password: string)
    returns (authenticated: bool, loading: bool, error: Option<string>)
    requires b.signIn.Failed? && b.signIn.message != ""
    ensures !authenticated && !loading && error == Some(b.signIn.message)
  {
    var ctx := new AuthProvider();
    ctx.CheckUser(b.(session := AuthService.Done(None)));
    var r := ctx.Login(b, email, password);
    authenticated, loading, error := ctx.IsAuthenticated(), ctx.loading, ctx.error;
  }
}
