# Identity core of the BJJ academy web client, in Dafny

This project models the identity core of a React client for a Brazilian
jiu-jitsu academy. That core comprises:
- the user record and its derived queries (`User` in `src/models/userModel.js`);
- the authentication gateway over the backend (`src/services/authService.js`);
- the authentication context that owns the signed-in user (`src/contexts/AuthContext.js`);
- the login and two-step registration forms (`src/views/LoginView.js`, `src/views/RegisterView.js`);
- the route table with its guard for member-only screens (`src/routes.js`).

Layout, one module per file:

| file | module | contents |
|---|---|---|
| `wrappers.dfy` | `Wrappers` | `Option` and `Result` |
| `js_text.dfy` | `JsText` | JavaScript white space, `trim`, one-character `split` and `join` |
| `numerals.dfy` | `Numerals` | `${n}` for integers and the value of a digit string |
| `user_model.dfy` | `UserModel` | the raw input object, the `User` record, its constructor and queries, the join-date text and the rendered training time |
| `auth_service.dfy` | `AuthService` | the gateway operations as methods over a `Backend` of replies, each proved against a function that states its outcome and the calls it makes |
| `auth_context.dfy` | `AuthContext` | class `AuthProvider` with the three state cells `user`, `loading`, `error` |
| `routes.dfy` | `Routes` | the route table, `ProtectedRoute` and what a path renders |
| `login_view.dfy` | `LoginView` | class `LoginForm` |
| `register_view.dfy` | `RegisterView` | class `RegisterForm`, the step-1 validation and the e-mail pattern |

Modelling choices:
- **Backend calls.** Every backend call is replaced by the reply it gives: a `Backend` value with one `Reply` (`Done(data)` or `Failed(message)`) per call. Each gateway method also returns the sequence of calls it issued, so the order of calls is part of its contract.
- **Falsy values.** JavaScript truthiness of text (`x || fallback`) is modelled by `Option<string>`: a missing key is `None`, and `""` is falsy like a missing value.
- **Arithmetic.** `%` truncates toward zero (`JsRem12`). `Math.floor(n / 12)` is Dafny's `/` by 12, which floors for a positive divisor.
- **Text length.** `password.length` counts UTF-16 code units (`Utf16Length`).
- **State changes.** React state setters are field assignments on the classes. What a screen asks the router to do is returned as a `Navigation`.

Behaviour of the code worth noting:
- **Logout failure.** A failed `logout` keeps the signed-in user and records the error; it does not clear the user (`AuthContext.js:67-80`).
- **Registration.** `registerUser` patches no profile fields. It returns the first row of `get_my_user`, and it also fails when that call reports an error (`authService.js:66-96`).
- **Belt.** The belt is not restricted to the five listed belts. Any non-empty text is kept, and only the colour lookup falls back to white (`userModel.js:13`, `55-65`).
- **Register and the user.** `register` in the context never installs the new user (`AuthContext.js:51-64`).

## Model

| member | source | states |
|---|---|---|
| `JsText.Trim` | src/views/LoginView.js:21 | `trim()` returns text that neither starts nor ends with white space and is no longer than the input |
| `JsText.TrimCutsOnlySpace` | src/views/RegisterView.js:31 | trimming keeps a contiguous slice of the input, starting where the leading white space ends, and removes only white space on either side |
| `JsText.TrimEmptyIffBlank` | src/views/RegisterView.js:31 | `!s.trim()` holds exactly when every character of `s` is white space |
| `JsText.Split` | src/models/userModel.js:30 | `split('/')` yields one more piece than there are separators, and no piece contains the separator |
| `JsText.Join` | src/models/userModel.js:46 | the text joined from words begins with the first word |
| `JsText.JoinSplit` | src/models/userModel.js:30 | joining the pieces of a split with the separator gives back the original text |
| `JsText.SplitJoin` | src/models/userModel.js:46 | splitting words joined by a separator gives back the words, when no word contains the separator |
| `JsText.SplitWithoutSeparator` | src/models/userModel.js:29-34 | a text without '/' is a single piece |
| `JsText.SplitAfterPiece` | src/models/userModel.js:30 | the text before the first separator is the first piece, and splitting continues after it |
| `JsText.SplitKeepsAbsent` | src/models/userModel.js:30 | a character the text does not contain appears in none of its pieces |
| `JsText.SplitThree` | src/models/userModel.js:30-31 | three pieces without the separator, joined by it, split back into exactly those three pieces |
| `Numerals.NatText` | src/models/userModel.js:46-50 | `${n}` of a natural number is a non-empty string of digits with no leading zero |
| `Numerals.IntText` | src/models/userModel.js:46-50 | `${i}` is all digits exactly for non-negative `i`, and starts with '-' otherwise |
| `Numerals.ValueOfNatText` | src/models/userModel.js:46-50 | reading the digits of `${n}` back gives `n` |
| `UserModel.NewUser` | src/models/userModel.js:7-21 | each field takes the input value when it is truthy, otherwise its default: null, '', 'Branca', 0 or []. The join date falls back to `data_inicio`; weight and height come only from the nested `aluno`. Every result is normalized: no empty identifier and a non-empty belt |
| `UserModel.CreateUser` | src/models/userModel.js:84-86 | `createUser(undefined)` builds from `{}`; any other argument is built as given |
| `UserModel.EmptyInputDefaults` | src/models/userModel.js:7-21 | building from `{}` gives exactly the documented defaults |
| `UserModel.RebuildFromFields` | src/models/userModel.js:7-21 | building from a record's own fields gives the record back, except weight and height, which only the nested `aluno` object supplies; the role queries do not change |
| `UserModel.User.TempoTreino` | src/models/userModel.js:24-52 | "Não disponível" exactly when there is no join date. An invalid date gives "NaN meses". For a non-negative month difference, the text reads back as that number of months, and its space-separated words are exactly the words `DurationWords` gives for that difference |
| `UserModel.User.CorFaixa` | src/models/userModel.js:55-65 | the colour is always one of the table's colours: the table's entry for a listed belt, white otherwise |
| `UserModel.CorFaixaIdentifiesBelt` | src/models/userModel.js:56-62 | two listed belts with the same colour are the same belt |
| `UserModel.User.HasPapel` | src/models/userModel.js:68-71 | true exactly when some role has this exact name |
| `UserModel.AnyNamed` | src/models/userModel.js:70 | `some(papel => papel.nome === nome)` holds exactly when some role has the name |
| `UserModel.User.NivelAcesso` | src/models/userModel.js:74-80 | 0 without roles. Otherwise it is at least every role's level (a missing level counts as 0) and equals one of them |
| `UserModel.MaxLevel` | src/models/userModel.js:79 | `Math.max` over a non-empty role list is an upper bound of every level and equals one of them |
| `UserModel.MaxLevelAppend` | src/models/userModel.js:74-80 | the access level of two role lists put together is the larger of their levels |
| `UserModel.DateText` | src/models/userModel.js:28-35 | a text without '/' is handed to `Date` unchanged. A text with '/' yields no '/' at all: when it has no '-', the result splits on '-' into its third, second and first '/'-piece, each missing piece reading "undefined" |
| `UserModel.Piece` | src/models/userModel.js:30 | destructuring `[dia, mes, ano]` takes the piece at that index, and "undefined" past the end of the array |
| `UserModel.MonthsBetween` | src/models/userModel.js:39-40 | within one year the difference of the month indexes; for the same month, 12 per year. For months 0..11: zero exactly for the same month, non-negative exactly when the join month is not after today's, and then the whole years are the calendar years minus one if today's month index is earlier, the remainder the month index gap modulo 12 |
| `UserModel.DateTextSlashed` | src/models/userModel.js:29-31 | a DD/MM/YYYY date is handed to `Date` as YYYY-MM-DD |
| `UserModel.JsRem12` | src/models/userModel.js:43 | `n % 12` lies in 0..11 for non-negative `n` and in -11..0 for negative `n`, with the sign of the dividend |
| `UserModel.DurationWords` | src/models/userModel.js:42-51 | with years = floor(diff / 12) and months = diff % 12 (truncating): five words "years ano(s) e months mês(es)" exactly when both are positive; two words "years ano(s)" exactly when years are positive and months zero; two words "months mês(es)" exactly when years are not positive. The year noun is "ano" exactly when years is 1, and the last word is "mês" exactly when months is 1 |
| `UserModel.DurationText` | src/models/userModel.js:45-51 | the rendered time is non-empty and starts with a digit or a minus sign, so it is never "Não disponível" or "NaN meses" |
| `UserModel.DurationWordsRoundTrip` | src/models/userModel.js:42-51 | for a non-negative month count, the words contain no space and read back as the count |
| `UserModel.ReadYearsAndMonths` | src/models/userModel.js:45-46 | "a ano(s) e m mês(es)" reads back as 12·a + m months |
| `UserModel.ReadYears` | src/models/userModel.js:47-48 | "a ano(s)" reads back as 12·a months |
| `UserModel.ReadMonths` | src/models/userModel.js:49-50 | "m mês(es)" reads back as m months |
| `UserModel.DurationRoundTrip` | src/models/userModel.js:38-51 | for every non-negative month difference, the text is lossless: reading it back gives the difference |
| `UserModel.DurationExamples` | src/models/userModel.js:44-51 | 6 months render as "6 meses" and 12 months as "1 ano" |
| `UserModel.DurationExampleLong` | src/models/userModel.js:45-46 | 26 months render as "2 anos e 2 meses" |
| `AuthService.Rethrown` | src/services/authService.js:57 | the rethrown `error.message`, with the fallback for a missing message, is never empty: it is the message when there is one, the fallback otherwise |
| `AuthService.IsAluno` | src/services/authService.js:32 | true exactly when some role is named "Aluno" |
| `AuthService.StudentData` | src/services/authService.js:43-45 | the student record is kept exactly when the lookup had no error and found a row |
| `AuthService.Merge` | src/services/authService.js:49-54 | the first row with `papeis` replaced by the roles; `aluno` is replaced only when a student record was found; nothing else changes |
| `AuthService.FetchProfile` | src/services/authService.js:19-54 | the user-row, roles and student-lookup sequence yields the outcome `ProfileOutcome` states and issues exactly the calls `ProfileCalls` lists |
| `AuthService.Authenticate` | src/services/authService.js:9-59 | sign-in, then the fetch sequence. The outcome is `AuthenticateOutcome`. Nothing is fetched after a failed sign-in |
| `AuthService.AuthenticateFailure` | src/services/authService.js:9-59 | `authenticate` throws exactly on a sign-in, user-row or roles error, or for a student with no user row. A backend message is passed on unchanged, and the thrown message is never empty |
| `AuthService.StudentLookupOnlyForAluno` | src/services/authService.js:31-46 | the student table is queried exactly when both user row and roles arrived, the user has the role named exactly "Aluno", and a row exists |
| `AuthService.StudentReplyNeverFails` | src/services/authService.js:43-45 | whatever the student lookup replies, `authenticate` and `getCurrentUser` succeed or fail alike |
| `AuthService.ProfileShape` | src/services/authService.js:48-54 | a successful fetch returns the first row with the listed roles and with `aluno` set exactly from a found student record |
| `AuthService.AuthenticatedRoles` | src/services/authService.js:49-51 | the user built from a successful sign-in has exactly the roles the backend listed, and `hasPapel` answers from them |
| `AuthService.RegisterUser` | src/services/authService.js:66-96 | sign-up with e-mail, password and full name, then one user-row read. It returns the first row (or undefined) or a thrown error with a non-empty message |
| `AuthService.Logout` | src/services/authService.js:102-111 | one sign-out call; true, or the thrown error |
| `AuthService.RegisterAndLogoutFailure` | src/services/authService.js:66-111 | `registerUser` fails exactly on a sign-up or user-row error; `logout` fails exactly on a sign-out error |
| `AuthService.GetCurrentSession` | src/services/authService.js:117-126 | the session, or null on any error; it never throws |
| `AuthService.GetCurrentUser` | src/services/authService.js:132-177 | null with no session. Otherwise the fetch sequence runs, and any failure is swallowed into null |
| `AuthService.CurrentUserMatchesAuthenticate` | src/services/authService.js:132-177 | with a session, `getCurrentUser` returns exactly the object `authenticate` would build, and null exactly when `authenticate` would throw after signing in |
| `AuthService.HasRole` | src/services/authService.js:184-196 | the backend's answer, false on error |
| `AuthService.GetAccessLevel` | src/services/authService.js:202-212 | the backend's answer, 0 on error |
| `AuthContext.AuthProvider.constructor` | src/contexts/AuthContext.js:9-11 | starts with no user, loading, and no error |
| `AuthContext.AuthProvider.CheckUser` | src/contexts/AuthContext.js:14-30 | installs the current user when the lookup returns one, leaves the user alone otherwise, and always ends loading; the error cell is untouched because the lookup never throws |
| `AuthContext.AuthProvider.Login` | src/contexts/AuthContext.js:33-48 | on success: the built user is installed and returned, and the error is cleared. On failure: the user is kept, the error records the message, and the failure is passed on. Loading ends in both cases |
| `AuthContext.AuthProvider.Register` | src/contexts/AuthContext.js:51-64 | never changes the user. Returns the record built from the created row, or records and passes on the failure |
| `AuthContext.AuthProvider.Logout` | src/contexts/AuthContext.js:67-80 | a successful sign-out clears the user. A failed one keeps the user, records the error and does not pass it on |
| `AuthContext.AuthProvider.HasRole` | src/contexts/AuthContext.js:83-86 | true exactly when a user is present and holds a role with that name |
| `AuthContext.AuthProvider.GetAccessLevel` | src/contexts/AuthContext.js:89-92 | 0 with no user and 0 for a user without roles. Otherwise the largest level among the user's roles |
| `AuthContext.AuthProvider.IsAuthenticated` | src/contexts/AuthContext.js:95 | true exactly when a user is present |
| `AuthContext.RejectedLoginScenario` | src/contexts/AuthContext.js:14-48 | start-up without a session, then a rejected login: the context stays anonymous and not loading, with the backend's message as its error |
| `Routes.Route` | src/routes.js:66-104 | / and every undeclared path redirect, always to /login. /login and /register are the only public paths, each with its own screen |
| `Routes.Render` | src/routes.js:39-104 | every redirect goes to /login. The loading indicator exactly for a guarded path while loading. A redirect exactly for /, an undeclared path, or a guarded path once loading is over without a user. A screen exactly for /login, /register, or a guarded path once loading is over with a user, and it is the screen the table lists for the path |
| `Routes.Guard` | src/routes.js:39-63 | the loading indicator exactly while loading. A redirect to /login exactly when loading is over and there is no user. The screen exactly when loading is over and a user is present |
| `Routes.GuardedPathsExactly` | src/routes.js:66-104 | exactly /home, /presenca, /checkin and /evolucao are guarded |
| `Routes.PublicAndFallbackRoutes` | src/routes.js:70-74 | / and every undeclared path redirect to /login; /login and /register show without any check |
| `Routes.MemberScreensNeedUser` | src/routes.js:77-99 | a member screen shows only when loading is over and a user is present. While loading, exactly the guarded paths show the indicator |
| `Routes.VisitAfterLogout` | src/routes.js:57-59 | after a successful sign-out, every member path redirects to /login |
| `LoginView.InputError` | src/views/LoginView.js:21-29 | the e-mail message exactly when the e-mail is blank. The password message exactly when the e-mail is not blank and the (untrimmed) password is empty. No error otherwise |
| `LoginView.LoginForm.constructor` | src/views/LoginView.js:6-10 | empty fields, not busy, no error |
| `LoginView.LoginForm.SetEmail` | src/views/LoginView.js:150 | the e-mail takes the input value; nothing else changes |
| `LoginView.LoginForm.SetPassword` | src/views/LoginView.js:179 | the password takes the input value; nothing else changes |
| `LoginView.LoginForm.UseDemoCredentials` | src/views/LoginView.js:278-281 | fills in the demo account, which passes both input checks |
| `LoginView.LoginForm.HandleSubmit` | src/views/LoginView.js:16-45 | a failed input check shows its message without calling the context. Otherwise it logs in: success goes to /home and installs the user, failure shows the message or "Erro ao fazer login" and keeps the user. Not busy afterwards |
| `RegisterView.Utf16Length` | src/views/RegisterView.js:46 | `.length` counts at least one unit per character |
| `RegisterView.EmailShapedIffPattern` | src/views/RegisterView.js:36 | the decision procedure accepts exactly the texts in which `/\S+@\S+\.\S+/` finds a match |
| `RegisterView.Step1Error` | src/views/RegisterView.js:30-57 | the result is one of the five step-1 messages or none |
| `RegisterView.Step1Order` | src/views/RegisterView.js:30-57 | each message is reported exactly when every earlier check passes and its own check fails: name, e-mail, password present, length of at least 6, confirmation. The form is accepted exactly when all five checks pass |
| `RegisterView.OrNull` | src/views/RegisterView.js:100-101 | an optional field is sent as null exactly when it is the empty text |
| `RegisterView.RegisterForm.constructor` | src/views/RegisterView.js:6-17 | seven empty fields, step 1, not busy, no error |
| `RegisterView.RegisterForm.Payload` | src/views/RegisterView.js:95-102 | name, e-mail, password and phone are copied; an empty birth date or gender is sent as null |
| `RegisterView.RegisterForm.HandleChange` | src/views/RegisterView.js:22-28 | the named field takes the value, and every other field keeps its value |
| `RegisterView.RegisterForm.HandleNextStep` | src/views/RegisterView.js:59-64 | to step 2 with the error cleared when step 1 validates; otherwise the step stays and the error is the first failing check's message |
| `RegisterView.RegisterForm.HandlePrevStep` | src/views/RegisterView.js:66-68 | back to step 1; nothing else changes |
| `RegisterView.RegisterForm.HandleSubmit` | src/views/RegisterView.js:75-118 | on step 1 it only tries to advance and does not touch the context. On step 2 it registers the payload: success goes to /login with the success notice, failure shows the message or "Erro ao registrar usuário". Not busy afterwards, and the signed-in user never changes |

## Left out

- **Date parsing.** `new Date(text)` and its `getFullYear`/`getMonth` are a parameter `readDate` of `TempoTreino`, and today's month is a parameter `hoje`. Date-string parsing, time zones and the day of the month are not modelled. An invalid date stands for the `NaN` arithmetic and gives "NaN meses".
- **Negative month differences.** A join date in the future gives a negative difference. Its text is modelled as the code computes it, but no round trip is claimed for it: for example, -12 renders as "0 meses".
- **Missing degree.** A `grau` of `NaN` or a non-number is not modelled; the degree is an optional integer.
- **Array checks.** `Array.isArray(papeis)` in `hasPapel`/`getNivelAcesso` is always true in the model, because `papeis` is a sequence. An RPC reply whose data is null rather than a list is not modelled either.
- **Prototype keys.** A belt named like an inherited object key (for example "toString") is not modelled in the `coresFaixas` lookup.
- **Network.** The backend client itself is not modelled: the network, JWT sessions, the RPC bodies and the `alunos` query. The modelled call `StudentLookup` carries the user id it filters on.
- **Settling delay.** The one-second delay in `registerUser` (`setTimeout`) does not change any outcome and is left out.
- **Logging.** `console.log`/`console.error` calls are not modelled.
- **Asynchrony.** React rendering, effects and the asynchronous interleaving of state updates are not modelled: each handler runs to completion as one method, and nothing can race with it.
- **`setUser`.** The context exposes `setUser` for profile edits; it is a plain assignment of the `user` field and has no member of its own.
- **`useAuth`.** `useAuth` outside a provider is not modelled.
- **Remember me.** The login form's "remember me" checkbox is state that nothing reads, and is not modelled.
- **Navigate to login.** `handleNavigateToLogin` in the registration form only navigates to /login, and is not modelled.
- **Markup.** The JSX markup, styles and the member screens behind the routes are not part of this model.
- **Router matching.** The router's case-insensitive matching and trailing-slash handling are not modelled; paths are matched exactly.
