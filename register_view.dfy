/**
 * The registration wizard's form logic (src/views/RegisterView.js): the
 * field map, the ordered step-1 checks, moving between the two steps, and
 * the submission that builds the payload for the context's `register`.
 */
module RegisterView {
  import opened Wrappers
  import opened JsText
  import AuthService
  import AuthContext
  import Routes

  const NameMissing := "Por favor, informe seu nome completo"
  const EmailInvalid := "Por favor, informe um e-mail válido"
  const PasswordMissing := "Por favor, informe uma senha"
  const PasswordShort := "A senha deve ter pelo menos 6 caracteres"
  const PasswordMismatch := "As senhas não coincidem"
  const Registered := "Cadastro realizado com sucesso! Faça o login para continuar."

  /** The keys of the initial form state. */
  const FormKeys: set<string> :=
    {"nome", "email", "password", "confirmPassword", "telefone", "dataNascimento", "genero"}

  const InitialForm: map<string, string> := map[
    "nome" := "", "email" := "", "password" := "", "confirmPassword" := "",
    "telefone" := "", "dataNascimento" := "", "genero" := ""
  ]

  /** `s.length`: JavaScript counts UTF-16 code units, two for a character
      outside the Basic Multilingual Plane. */
  function Utf16Length(s: string): (n: nat)
    ensures n >= |s|
  {
    if s == [] then 0 else (if s[0] as int >= 0x1_0000 then 2 else 1) + Utf16Length(s[1..])
  }

  /** The unanchored test `/\S+@\S+\.\S+/`: some piece of `s` is one or more
      non-space characters, '@', one or more non-space characters, '.', one or
      more non-space characters. (The test runs on UTF-16 code units; no
      white-space character lies outside the Basic Multilingual Plane, so
      reading whole characters gives the same answer.) */
  ghost predicate EmailPatternMatches(s: string) {
    exists i, at, dot, j :: PatternAt(s, i, at, dot, j)
  }

  /** `s[i..j]` is `\S+@\S+\.\S+` with the '@' at `at` and the '.' at `dot`. */
  predicate PatternAt(s: string, i: int, at: int, dot: int, j: int) {
    && 0 <= i < at && at + 1 < dot && dot + 1 < j <= |s|
    && s[at] == '@' && s[dot] == '.'
    && NoSpace(s[i..at]) && NoSpace(s[at + 1..dot]) && NoSpace(s[dot + 1..j])
  }

  predicate NoSpace(s: string) {
    forall k :: 0 <= k < |s| ==> !IsSpace(s[k])
  }

  /** The matcher's decision procedure: an '@' with a non-space character
      before it, followed by non-space characters up to a '.', which is
      followed by a non-space character. */
  predicate EmailShaped(s: string) {
    exists at, dot | 0 <= at < |s| && 0 <= dot < |s| :: ShapedAt(s, at, dot)
  }

  predicate ShapedAt(s: string, at: int, dot: int) {
    && 1 <= at && at + 1 < dot < |s| - 1 && s[at] == '@' && s[dot] == '.'
    && !IsSpace(s[at - 1]) && NoSpace(s[at + 1..dot]) && !IsSpace(s[dot + 1])
  }

  /** The decision procedure agrees with the regular expression: the
      shortest match uses one character on each outer side. */
  lemma EmailShapedIffPattern(s: string)
    ensures EmailShaped(s) <==> EmailPatternMatches(s)
  {
    if EmailShaped(s) {
      var at, dot :| 0 <= at < |s| && 0 <= dot < |s| && ShapedAt(s, at, dot);
      assert NoSpace(s[at - 1..at]);
      assert NoSpace(s[dot + 1..dot + 2]);
      assert PatternAt(s, at - 1, at, dot, dot + 2);
    }
    if EmailPatternMatches(s) {
      var i, at, dot, j :| PatternAt(s, i, at, dot, j);
      assert s[i..at][at - 1 - i] == s[at - 1];
      assert s[dot + 1..j][0] == s[dot + 1];
      assert ShapedAt(s, at, dot);
    }
  }

  /** `validateStep1`: the message of the first failing check, in order:
      name, e-mail, password present, password length, confirmation. */
  function Step1Error(nome: string, email: string, password: string, confirm: string): (e: Option<string>)
    ensures e.Some? ==> e.value in {NameMissing, EmailInvalid, PasswordMissing, PasswordShort, PasswordMismatch}
  {
    if Trim(nome) == "" then Some(NameMissing)
    else if Trim(email) == "" || !EmailShaped(email) then Some(EmailInvalid)
    else if password == "" then Some(PasswordMissing)
    else if Utf16Length(password) < 6 then Some(PasswordShort)
    else if password != confirm then Some(PasswordMismatch)
    else None
  }

  /** Each message is reported exactly when every earlier check passes and
      its own check fails; the form is accepted exactly when the trimmed name
      is non-empty, the e-mail is non-blank and matches the pattern, and the
      password is non-empty, at least 6 long and equal to its confirmation. */
  lemma Step1Order(nome: string, email: string, password: string, confirm: string)
    ensures var e := Step1Error(nome, email, password, confirm);
      && (e == Some(NameMissing) <==> Blank(nome))
      && (e == Some(EmailInvalid) <==> !Blank(nome) && (Blank(email) || !EmailPatternMatches(email)))
      && (e == Some(PasswordMissing) <==>
            !Blank(nome) && !Blank(email) && EmailPatternMatches(email) && password == "")
      && (e == Some(PasswordShort) <==>
            !Blank(nome) && !Blank(email) && EmailPatternMatches(email) && password != ""
            && Utf16Length(password) < 6)
      && (e == Some(PasswordMismatch) <==>
            !Blank(nome) && !Blank(email) && EmailPatternMatches(email) && password != ""
            && Utf16Length(password) >= 6 && password != confirm)
      && (e == None <==>
            !Blank(nome) && !Blank(email) && EmailPatternMatches(email) && password != ""
            && Utf16Length(password) >= 6 && password == confirm)
  {
    TrimEmptyIffBlank(nome);
    TrimEmptyIffBlank(email);
    EmailShapedIffPattern(email);
  }

  /** `validateStep1()` on the form's fields. */
  function FormStep1Error(form: map<string, string>): Option<string>
    requires FormKeys <= form.Keys
  {
    Step1Error(form["nome"], form["email"], form["password"], form["confirmPassword"])
  }

  /** `value || null` for a form field. */
  function OrNull(value: string): (o: Option<string>)
    ensures o.None? <==> value == ""
    ensures o.Some? ==> o.value == value
  {
    if value == "" then None else Some(value)
  }

  class RegisterForm {
    var formData: map<string, string>
    var isLoading: bool
    var error: string
    var step: int

    /** The form always holds its seven fields and is on step 1 or 2. */
    predicate Valid()
      reads this
    {
      FormKeys <= formData.Keys && (step == 1 || step == 2)
    }

    constructor ()
      ensures Valid() && formData == InitialForm && !isLoading && error == "" && step == 1
    {
      formData := InitialForm;
      isLoading := false;
      error := "";
      step := 1;
    }

    function Field(name: string): string
      reads this
      requires Valid() && name in FormKeys
    {
      formData[name]
    }

    /** The payload `register` receives: four fields copied, an empty birth
        date or gender sent as null. */
    function Payload(): (p: AuthService.Registration)
      reads this
      requires Valid()
      ensures p.nome == Field("nome") && p.email == Field("email")
      ensures p.password == Field("password") && p.telefone == Field("telefone")
      ensures p.dataNascimento == None <==> Field("dataNascimento") == ""
      ensures p.dataNascimento.Some? ==> p.dataNascimento.value == Field("dataNascimento")
      ensures p.genero == None <==> Field("genero") == ""
      ensures p.genero.Some? ==> p.genero.value == Field("genero")
    {
      AuthService.Registration(
        Field("nome"), Field("email"), Field("password"), Field("telefone"),
        OrNull(Field("dataNascimento")), OrNull(Field("genero")))
    }

    /** `handleChange`: the named field takes the value; every other field
        keeps its value. */
    method HandleChange(name: string, value: string)
      requires Valid()
      modifies this
      ensures Valid()
      ensures formData == old(formData)[name := value]
      ensures forall k :: k in old(formData) && k != name ==> k in formData && formData[k] == old(formData)[k]
      ensures step == old(step) && error == old(error) && isLoading == old(isLoading)
    {
      formData := formData[name := value];
    }

    /** `handleNextStep`: to step 2 with the error cleared when step 1 is
        valid, otherwise the first failing check's message. */
    method HandleNextStep()
      requires Valid()
      modifies this
      ensures Valid() && formData == old(formData) && isLoading == old(isLoading)
      ensures FormStep1Error(formData).None? ==> step == 2 && error == ""
      ensures FormStep1Error(formData).Some? ==> step == old(step) && error == FormStep1Error(formData).value
    {
      var invalid := FormStep1Error(formData);
      if invalid.None? {
        error := "";
        step := 2;
      } else {
        error := invalid.value;
      }
      assert formData == old(formData);
    }

    /** `handlePrevStep`: back to step 1. */
    method HandlePrevStep()
      requires Valid()
      modifies this
      ensures Valid() && step == 1
      ensures formData == old(formData) && error == old(error) && isLoading == old(isLoading)
    {
      step := 1;
    }

    /** `handleSubmit`: on step 1 it only tries to advance; on step 2 it
        registers with the payload and, on success, goes to the login screen
        with a notice, otherwise shows the failure message. The busy flag is
        off afterwards and the signed-in user never changes. */
    method HandleSubmit(auth: AuthContext.AuthProvider, b: AuthService.Backend)
      returns (nav: Option<Routes.Navigation>)
      requires Valid()
      modifies this, auth
      ensures Valid() && formData == old(formData)
      ensures old(step) == 1 ==>
                && nav == None && unchanged(auth) && isLoading == old(isLoading)
                && (FormStep1Error(formData).None? ==> step == 2 && error == "")
                && (FormStep1Error(formData).Some? ==> step == 1 && error == FormStep1Error(formData).value)
      ensures old(step) == 2 ==>
                var out := AuthService.RegisterOutcome(b);
                && step == 2 && !isLoading && !auth.loading && auth.user == old(auth.user)
                && (out.Ok? ==> nav == Some(Routes.Navigation(Routes.LoginPath, Some(Registered))) && error == "")
                && (out.Err? ==> nav == None && error == AuthService.Rethrown(out.message, AuthService.RegisterFallback))
    {
      error := "";
      if step == 1 {
        HandleNextStep();
        return None;
      }
      isLoading := true;
      var r := auth.Register(b, Payload());
      if r.Ok? {
        nav := Some(Routes.Navigation(Routes.LoginPath, Some(Registered)));
      } else {
        error := AuthService.Rethrown(r.message, AuthService.RegisterFallback);
        nav := None;
      }
      isLoading := false;
    }
  }
}
