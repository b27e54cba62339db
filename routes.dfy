/**
 * The route table and the guard in front of the member-only screens
 * (src/routes.js). Paths are matched exactly.
 */
module Routes {
  import opened Wrappers
  import AuthContext
  import AuthService

  datatype Screen = LoginScreen | RegisterScreen | HomeScreen | PresencaScreen | CheckinScreen | EvolucaoScreen

  /** What a route element shows. */
  datatype View = Loading | Redirect(to: string) | Show(screen: Screen)

  /** How the table treats a path. */
  datatype RouteElement = Public(screen: Screen) | Protected(screen: Screen) | RedirectTo(path: string)

  const LoginPath := "/login"

  /** A `navigate(path, { state: { message } })` call made by a screen. */
  datatype Navigation = Navigation(path: string, notice: Option<string>)

  /** `AppRoutes`: the declared paths; every other path falls to `*`. */
  const RouteTable: map<string, RouteElement> := map[
    "/" := RedirectTo(LoginPath),
    "/login" := Public(LoginScreen),
    "/register" := Public(RegisterScreen),
    "/home" := Protected(HomeScreen),
    "/presenca" := Protected(PresencaScreen),
    "/checkin" := Protected(CheckinScreen),
    "/evolucao" := Protected(EvolucaoScreen)
  ]

  const GuardedPaths: set<string> := {"/home", "/presenca", "/checkin", "/evolucao"}

  /** The element a path resolves to, the catch-all redirecting to the login. */
  function Route(path: string): (r: RouteElement)
    ensures r.RedirectTo? <==> path == "/" || path !in RouteTable
    ensures r.RedirectTo? ==> r.path == LoginPath
    ensures r == Public(LoginScreen) <==> path == "/login"
    ensures r == Public(RegisterScreen) <==> path == "/register"
    ensures r.Public? ==> path == "/login" || path == "/register"
  {
    if path in RouteTable then RouteTable[path] else RedirectTo(LoginPath)
  }

  /** `ProtectedRoute`: a loading indicator while the session is being
      checked, a redirect to the login without a user, the screen otherwise. */
  function Guard(loading: bool, authenticated: bool, screen: Screen): (v: View)
    ensures v == Loading <==> loading
    ensures v == Redirect(LoginPath) <==> !loading && !authenticated
    ensures v == Show(screen) <==> !loading && authenticated
  {
    if loading then Loading
    else if !authenticated then Redirect(LoginPath)
    else Show(screen)
  }

  /** What visiting `path` shows, given the context's loading flag and
      whether a user is present. */
  function Render(path: string, loading: bool, authenticated: bool): (v: View)
    ensures v.Redirect? ==> v.to == LoginPath
    ensures v == Loading <==> loading && path in GuardedPaths
    ensures v == Redirect(LoginPath) <==>
              path == "/" || path !in RouteTable || (path in GuardedPaths && !loading && !authenticated)
    ensures v.Show? <==>
              path == "/login" || path == "/register" || (path in GuardedPaths && !loading && authenticated)
    ensures v.Show? ==> !Route(path).RedirectTo? && Route(path).screen == v.screen
  {
    match Route(path)
    case Public(screen) => Show(screen)
    case Protected(screen) => Guard(loading, authenticated, screen)
    case RedirectTo(to) => Redirect(to)
  }

  /** Exactly the four member paths are guarded. */
  lemma GuardedPathsExactly(path: string)
    ensures Route(path).Protected? <==> path in GuardedPaths
  {
  }

  /** The root and every undeclared path redirect to the login; the login and
      registration screens show without any check. */
  lemma PublicAndFallbackRoutes(path: string, loading: bool, authenticated: bool)
    ensures path == "/" || path !in RouteTable ==> Render(path, loading, authenticated) == Redirect(LoginPath)
    ensures Render("/login", loading, authenticated) == Show(LoginScreen)
    ensures Render("/register", loading, authenticated) == Show(RegisterScreen)
  {
  }

  /** A member screen is shown only when loading is over and a user is
      present; while loading nothing redirects. */
  lemma MemberScreensNeedUser(path: string, loading: bool, authenticated: bool)
    ensures Render(path, loading, authenticated).Show? && path in GuardedPaths ==> !loading && authenticated
    ensures Render(path, loading, authenticated).Show? ==> path in RouteTable && path != "/"
    ensures loading && path in GuardedPaths ==> Render(path, loading, authenticated) == Loading
    ensures Render(path, loading, authenticated) == Loading ==> loading && path in GuardedPaths
  {
  }

  /** After a successful sign-out every member path sends the visitor to the
      login screen. */
  method VisitAfterLogout(ctx: AuthContext.AuthProvider, b: AuthService.Backend, path: string)
    returns (v: View)
    requires b.signOut.Done? && path in GuardedPaths
    modifies ctx
    ensures v == Redirect(LoginPath)
  {
    ctx.Logout(b);
    v := Render(path, ctx.loading, ctx.IsAuthenticated());
  }
}
