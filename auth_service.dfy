/**
 * The authentication gateway (src/services/authService.js). Every call into
 * the backend is replaced by the reply it would give, collected in a
 * `Backend` value; what is modelled is the local control flow: which replies
 * make an operation throw, which are swallowed into null/false/0, which
 * calls are made in which order, and how the returned object is assembled.
 */
module AuthService {
  import opened Wrappers
  import opened UserModel

  /** A backend reply: `{ data }` or `{ error }` (an error with no message
      carries ""). */
  datatype Reply<T> = Done(data: T) | Failed(message: string)

  /** An authenticated session handle. */
  datatype Session = Session(accessToken: string)

  /** The backend calls the gateway issues. */
  datatype Call =
    | SignIn(email: string, password: string)
    | SignUp(email: string, password: string, fullName: string)
    | SignOut
    | GetSession
    | GetMyUser
    | GetMyRoles
    | StudentLookup(id: Option<string>)
    | UserHasRole(roleName: string)
    | GetUserAccessLevel

  /** The reply each backend call gives during one gateway operation. */
  datatype Backend = Backend(
    signIn: Reply<()>,
    signUp: Reply<()>,
    signOut: Reply<()>,
    session: Reply<Option<Session>>,
    myUser: Reply<seq<RawUser>>,
    myRoles: Reply<seq<Role>>,
    student: Reply<Option<Aluno>>,
    userHasRole: Reply<bool>,
    accessLevel: Reply<int>)

  /** The registration data handed to `registerUser`. */
  datatype Registration = Registration(
    nome: string, email: string, password: string, telefone: string,
    dataNascimento: Option<string>, genero: Option<string>)

  const AlunoRole := "Aluno"
  const LoginFallback := "Erro ao fazer login"
  const RegisterFallback := "Erro ao registrar usuário"
  const LogoutFallback := "Erro ao fazer logout"

  /** The engine's message for `userData[0].id` when no user row came back. */
  const MissingRowMessage := "Cannot read properties of undefined (reading 'id')"

  /** `throw new Error(error.message || fallback)`: never an empty message. */
  function Rethrown(message: string, fallback: string): (m: string)
    requires fallback != ""
    ensures m != ""
    ensures message != "" ==> m == message
    ensures message == "" ==> m == fallback
  {
    if message != "" then message else fallback
  }

  /** `rolesData.some(role => role.nome === 'Aluno')`. */
  function IsAluno(roles: seq<Role>): (b: bool)
    ensures b <==> exists i :: 0 <= i < |roles| && roles[i].nome == AlunoRole
  {
    AnyNamed(roles, AlunoRole)
  }

  /** `userData[0]`, undefined for an empty result. */
  function FirstRow(rows: seq<RawUser>): Option<RawUser> {
    if rows == [] then None else Some(rows[0])
  }

  /** The student record kept from the lookup: only a reply without error
      that found a row. */
  function StudentData(reply: Reply<Option<Aluno>>): (a: Option<Aluno>)
    ensures a.Some? <==> reply.Done? && reply.data.Some?
    ensures a.Some? ==> a == reply.data
  {
    if reply.Done? then reply.data else None
  }

  /** `{ ...userData[0], papeis: rolesData, ...(alunoData && { aluno: alunoData }) }`. */
  function Merge(row: Option<RawUser>, roles: seq<Role>, aluno: Option<Aluno>): (r: RawUser)
    ensures r.papeis == Some(roles)
    ensures aluno.Some? ==> r.aluno == aluno
    ensures aluno.None? ==> r.aluno == row.GetOr(EmptyRaw).aluno
    ensures r.(papeis := row.GetOr(EmptyRaw).papeis, aluno := row.GetOr(EmptyRaw).aluno)
            == row.GetOr(EmptyRaw)
  {
    var base := row.GetOr(EmptyRaw);
    base.(papeis := Some(roles), aluno := if aluno.Some? then aluno else base.aluno)
  }

  /** What the shared fetch sequence (user row, roles, student record)
      yields, before the caller decides how to report a failure. */
  function ProfileOutcome(b: Backend): Result<RawUser> {
    match b.myUser
    case Failed(m) => Err(m)
    case Done(rows) =>
      match b.myRoles
      case Failed(m) => Err(m)
      case Done(roles) =>
        if !IsAluno(roles) then Ok(Merge(FirstRow(rows), roles, None))
        else if rows == [] then Err(MissingRowMessage)
        else Ok(Merge(FirstRow(rows), roles, StudentData(b.student)))
  }

  /** The calls the fetch sequence issues. */
  function ProfileCalls(b: Backend): seq<Call> {
    if b.myUser.Failed? then [GetMyUser]
    else if b.myRoles.Failed? then [GetMyUser, GetMyRoles]
    else if IsAluno(b.myRoles.data) && b.myUser.data != [] then
      [GetMyUser, GetMyRoles, StudentLookup(b.myUser.data[0].id)]
    else [GetMyUser, GetMyRoles]
  }

  /** The fetch sequence shared by `authenticate` and `getCurrentUser`. */
  method FetchProfile(b: Backend) returns (r: Result<RawUser>, calls: seq<Call>)
    ensures r == ProfileOutcome(b) && calls == ProfileCalls(b)
  {
    calls := [GetMyUser];
    if b.myUser.Failed? {
      return Err(b.myUser.message), calls;
    }
    var rows := b.myUser.data;
    calls := calls + [GetMyRoles];
    if b.myRoles.Failed? {
      return Err(b.myRoles.message), calls;
    }
    var roles := b.myRoles.data;
    var alunoData: Option<Aluno> := None;
    if IsAluno(roles) {
      if rows == [] {
        return Err(MissingRowMessage), calls;
      }
      calls := calls + [StudentLookup(rows[0].id)];
      var reply := b.student;
      if reply.Done? && reply.data.Some? {
        alunoData := reply.data;
      }
    }
    r := Ok(Merge(FirstRow(rows), roles, alunoData));
  }

  function AuthenticateOutcome(b: Backend): Result<RawUser> {
    if b.signIn.Failed? then Err(Rethrown(b.signIn.message, LoginFallback))
    else match ProfileOutcome(b)
      case Err(m) => Err(Rethrown(m, LoginFallback))
      case Ok(v) => Ok(v)
  }

  /** `authenticate(email, password)`: sign in, then the fetch sequence; any
      failure is thrown again with a non-empty message. */
  method Authenticate(b: Backend, email: string, password: string)
    returns (r: Result<RawUser>, calls: seq<Call>)
    ensures r == AuthenticateOutcome(b)
    ensures calls == [SignIn(email, password)] + (if b.signIn.Failed? then [] else ProfileCalls(b))
  {
    calls := [SignIn(email, password)];
    if b.signIn.Failed? {
      return Err(Rethrown(b.signIn.message, LoginFallback)), calls;
    }
    var profile, fetched := FetchProfile(b);
    calls := calls + fetched;
    if profile.Err? {
      return Err(Rethrown(profile.message, LoginFallback)), calls;
    }
    r := profile;
  }

  function RegisterOutcome(b: Backend): Result<Option<RawUser>> {
    if b.signUp.Failed? then Err(Rethrown(b.signUp.message, RegisterFallback))
    else if b.myUser.Failed? then Err(Rethrown(b.myUser.message, RegisterFallback))
    else Ok(FirstRow(b.myUser.data))
  }

  /** `registerUser(userData)`: sign up with e-mail, password and full name,
      then read back the user row the backend created (`newUser[0]`, which is
      undefined when no row came back). */
  method RegisterUser(b: Backend, reg: Registration)
    returns (r: Result<Option<RawUser>>, calls: seq<Call>)
    ensures r == RegisterOutcome(b)
    ensures calls == [SignUp(reg.email, reg.password, reg.nome)]
                     + (if b.signUp.Failed? then [] else [GetMyUser])
  {
    calls := [SignUp(reg.email, reg.password, reg.nome)];
    if b.signUp.Failed? {
      return Err(Rethrown(b.signUp.message, RegisterFallback)), calls;
    }
    calls := calls + [GetMyUser];
    if b.myUser.Failed? {
      return Err(Rethrown(b.myUser.message, RegisterFallback)), calls;
    }
    var rows := b.myUser.data;
    r := Ok(FirstRow(rows));
  }

  function LogoutOutcome(b: Backend): Result<bool> {
    if b.signOut.Failed? then Err(Rethrown(b.signOut.message, LogoutFallback)) else Ok(true)
  }

  /** `logout()`: true, or a thrown sign-out error. */
  method Logout(b: Backend) returns (r: Result<bool>, calls: seq<Call>)
    ensures r == LogoutOutcome(b) && calls == [SignOut]
  {
    calls := [SignOut];
    if b.signOut.Failed? {
      return Err(Rethrown(b.signOut.message, LogoutFallback)), calls;
    }
    r := Ok(true);
  }

  /** `getCurrentSession()`: the session, or null on any error; never throws. */
  method GetCurrentSession(b: Backend) returns (s: Option<Session>, calls: seq<Call>)
    ensures b.session.Failed? ==> s == None
    ensures b.session.Done? ==> s == b.session.data
    ensures calls == [GetSession]
  {
    calls := [GetSession];
    if b.session.Failed? {
      return None, calls;
    }
    s := b.session.data;
  }

  function CurrentUserOutcome(b: Backend): Option<RawUser> {
    if b.session.Failed? || b.session.data.None? then None
    else match ProfileOutcome(b)
      case Err(_) => None
      case Ok(v) => Some(v)
  }

  /** `getCurrentUser()`: null without a session, otherwise the fetch
      sequence, with any failure swallowed into null. */
  method GetCurrentUser(b: Backend) returns (r: Option<RawUser>, calls: seq<Call>)
    ensures r == CurrentUserOutcome(b)
    ensures calls == [GetSession] + (if b.session.Failed? || b.session.data.None? then [] else ProfileCalls(b))
  {
    var session;
    session, calls := GetCurrentSession(b);
    if session.None? {
      return None, calls;
    }
    var profile, fetched := FetchProfile(b);
    calls := calls + fetched;
    if profile.Err? {
      return None, calls;
    }
    r := Some(profile.value);
  }

  /** `hasRole(papelNome)`: the backend's answer, false on error. */
  method HasRole(b: Backend, papelNome: string) returns (has: bool, calls: seq<Call>)
    ensures b.userHasRole.Failed? ==> !has
    ensures b.userHasRole.Done? ==> has == b.userHasRole.data
    ensures calls == [UserHasRole(papelNome)]
  {
    calls := [UserHasRole(papelNome)];
    has := if b.userHasRole.Done? then b.userHasRole.data else false;
  }

  /** `getUserAccessLevel()`: the backend's answer, 0 on error. */
  method GetAccessLevel(b: Backend) returns (level: int, calls: seq<Call>)
    ensures b.accessLevel.Failed? ==> level == 0
    ensures b.accessLevel.Done? ==> level == b.accessLevel.data
    ensures calls == [GetUserAccessLevel]
  {
    calls := [GetUserAccessLevel];
    level := if b.accessLevel.Done? then b.accessLevel.data else 0;
  }

  /** `authenticate` throws exactly when sign-in, the user-row call or the
      roles call reports an error, or when a student has no user row; an
      error with a message is reported with that message. */
  lemma AuthenticateFailure(b: Backend)
    ensures AuthenticateOutcome(b).Err? <==>
              || b.signIn.Failed? || b.myUser.Failed? || b.myRoles.Failed?
              || (IsAluno(b.myRoles.data) && b.myUser.data == [])
    ensures b.signIn.Failed? && b.signIn.message != "" ==> AuthenticateOutcome(b) == Err(b.signIn.message)
    ensures b.signIn.Done? && b.myUser.Failed? && b.myUser.message != "" ==>
              AuthenticateOutcome(b) == Err(b.myUser.message)
    ensures b.signIn.Done? && b.myUser.Done? && b.myRoles.Failed? && b.myRoles.message != "" ==>
              AuthenticateOutcome(b) == Err(b.myRoles.message)
    ensures AuthenticateOutcome(b).Err? ==> AuthenticateOutcome(b).message != ""
  {
  }

  /** The student record is looked up only for a user holding the exact role
      name "Aluno" (and only once the user row and roles have arrived). */
  lemma StudentLookupOnlyForAluno(b: Backend)
    ensures (exists i :: 0 <= i < |ProfileCalls(b)| && ProfileCalls(b)[i].StudentLookup?) <==>
              && b.myUser.Done? && b.myRoles.Done?
              && IsAluno(b.myRoles.data) && b.myUser.data != []
  {
    var calls := ProfileCalls(b);
    if b.myUser.Done? && b.myRoles.Done? && IsAluno(b.myRoles.data) && b.myUser.data != [] {
      assert calls[2].StudentLookup?;
    }
  }

  /** Whatever the student lookup replies, the fetch sequence succeeds or
      fails alike: a failed lookup is never an error. */
  lemma StudentReplyNeverFails(b: Backend, reply: Reply<Option<Aluno>>)
    ensures ProfileOutcome(b.(student := reply)).Ok? <==> ProfileOutcome(b).Ok?
    ensures AuthenticateOutcome(b.(student := reply)).Ok? <==> AuthenticateOutcome(b).Ok?
    ensures CurrentUserOutcome(b.(student := reply)).Some? <==> CurrentUserOutcome(b).Some?
  {
  }

  /** The assembled object is the first user row with `papeis` replaced by the
      roles and `aluno` set exactly when the lookup ran, had no error and found
      a row; nothing else of the row changes. */
  lemma ProfileShape(b: Backend)
    requires ProfileOutcome(b).Ok?
    ensures b.myUser.Done? && b.myRoles.Done?
    ensures var v, row := ProfileOutcome(b).value, FirstRow(b.myUser.data).GetOr(EmptyRaw);
            && v.papeis == Some(b.myRoles.data)
            && v.(papeis := row.papeis, aluno := row.aluno) == row
            && (IsAluno(b.myRoles.data) && b.student.Done? && b.student.data.Some? ==> v.aluno == b.student.data)
            && (!(IsAluno(b.myRoles.data) && b.student.Done? && b.student.data.Some?) ==> v.aluno == row.aluno)
  {
  }

  /** The record built from a successful sign-in carries exactly the roles the
      backend listed, so the role queries on it answer from those roles. */
  lemma AuthenticatedRoles(b: Backend, nome: string)
    requires AuthenticateOutcome(b).Ok?
    ensures b.myRoles.Done?
    ensures var u := NewUser(AuthenticateOutcome(b).value);
            && u.papeis == b.myRoles.data
            && (u.HasPapel(nome) <==> exists i :: 0 <= i < |b.myRoles.data| && b.myRoles.data[i].nome == nome)
  {
  }

  /** `getCurrentUser` answers null without a session and on any error of the
      fetch sequence, and otherwise the same object `authenticate` builds. */
  lemma CurrentUserMatchesAuthenticate(b: Backend)
    ensures b.session.Failed? || b.session.data.None? ==> CurrentUserOutcome(b) == None
    ensures b.myUser.Failed? || b.myRoles.Failed? ==> CurrentUserOutcome(b) == None
    ensures b.session.Done? && b.session.data.Some? && b.signIn.Done? ==>
              (CurrentUserOutcome(b).Some? <==> AuthenticateOutcome(b).Ok?)
              && (AuthenticateOutcome(b).Ok? ==> CurrentUserOutcome(b) == Some(AuthenticateOutcome(b).value))
  {
  }

  /** `registerUser` fails only on a sign-up or user-row error; a sign-out
      error is the only way `logout` fails. */
  lemma RegisterAndLogoutFailure(b: Backend)
    ensures RegisterOutcome(b).Err? <==> b.signUp.Failed? || b.myUser.Failed?
    ensures RegisterOutcome(b).Ok? ==> RegisterOutcome(b).value == FirstRow(b.myUser.data)
    ensures LogoutOutcome(b).Err? <==> b.signOut.Failed?
    ensures LogoutOutcome(b).Ok? ==> LogoutOutcome(b).value
  {
  }
}
