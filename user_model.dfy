/**
 * The user record of the client (`User` in src/models/userModel.js): a total
 * constructor that fills a default into every field, and the four derived
 * queries (time training, belt colour, role membership, access level).
 */
module UserModel {
  import opened Wrappers
  import opened JsText
  import opened Numerals

  /** A role row `{ nome, nivel_acesso }`; the level may be missing. */
  datatype Role = Role(nome: string, nivelAcesso: Option<int>)

  /** The level a role contributes, `papel.nivel_acesso || 0`. */
  function Level(r: Role): int {
    r.nivelAcesso.GetOr(0)
  }

  /** The nested student sub-record `aluno`; only `peso` and `altura` are read. */
  datatype Aluno = Aluno(peso: Option<string>, altura: Option<string>)

  /** The plain object handed to the constructor: any key may be missing.
      `dataInicio` is the backend's `data_inicio` column. */
  datatype RawUser = RawUser(
    id: Option<string>, nome: Option<string>, email: Option<string>,
    authId: Option<string>, academiaId: Option<string>,
    faixa: Option<string>, grau: Option<int>,
    dataIngresso: Option<string>, dataInicio: Option<string>,
    proximaAula: Option<string>, telefone: Option<string>,
    aluno: Option<Aluno>, papeis: Option<seq<Role>>)

  /** The empty object `{}`. */
  const EmptyRaw: RawUser :=
    RawUser(None, None, None, None, None, None, None, None, None, None, None, None, None)

  /** A text value is truthy in JavaScript when it is present and not "". */
  predicate Truthy(o: Option<string>) {
    o.Some? && o.value != ""
  }

  /** `value || fallback` for an optional text. */
  function OrText(o: Option<string>, fallback: string): string {
    if Truthy(o) then o.value else fallback
  }

  /** `value || null` for an optional text. */
  function OrNull(o: Option<string>): Option<string> {
    if Truthy(o) then o else None
  }

  /** A calendar month as `Date` reports it: full year and month index 0..11. */
  datatype CalendarMonth = CalendarMonth(year: int, month: int)

  const NotAvailable := "Não disponível"

  /** Text shown for an invalid join date: `${NaN} meses`. */
  const NaNMonths := "NaN meses"

  const CoresFaixas: map<string, string> := map[
    "Branca" := "#FFFFFF",
    "Azul" := "#1E88E5",
    "Roxa" := "#8E24AA",
    "Marrom" := "#795548",
    "Preta" := "#212121"
  ]

  const DefaultCor := "#FFFFFF"

  /** A constructed user record. */
  datatype User = User(
    id: Option<string>, nome: string, email: string,
    authId: Option<string>, academiaId: Option<string>,
    faixa: string, grau: int,
    dataIngresso: string, proximaAula: string, telefone: string,
    peso: string, altura: string,
    papeis: seq<Role>)
  {
    /** `calcularTempoTreino()`: the elapsed calendar months between the join
        date and today, in Portuguese. `readDate` stands for `new Date(text)`
        followed by `getFullYear()`/`getMonth()` (None: an invalid date). */
    function TempoTreino(readDate: string -> Option<CalendarMonth>, hoje: CalendarMonth): (r: string)
      ensures r == NotAvailable <==> dataIngresso == ""
      ensures dataIngresso != "" && readDate(DateText(dataIngresso)).None? ==> r == NaNMonths
      ensures var joined := readDate(DateText(dataIngresso));
              dataIngresso != "" && joined.Some? && MonthsBetween(joined.value, hoje) >= 0 ==>
                MonthsOfText(r) == Some(MonthsBetween(joined.value, hoje))
      ensures var joined := readDate(DateText(dataIngresso));
              dataIngresso != "" && joined.Some? && MonthsBetween(joined.value, hoje) >= 0 ==>
                Split(r, ' ') == DurationWords(MonthsBetween(joined.value, hoje))
    {
      if dataIngresso == "" then NotAvailable
      else match readDate(DateText(dataIngresso))
        case None => NaNMonths
        case Some(joined) =>
          var diff := MonthsBetween(joined, hoje);
          assert diff >= 0 ==> && MonthsOfText(DurationText(diff)) == Some(diff)
                               && Split(DurationText(diff), ' ') == DurationWords(diff) by {
            if diff >= 0 {
              DurationRoundTrip(diff);
              DurationWordsRoundTrip(diff);
              SplitJoin(DurationWords(diff), ' ');
            }
          }
          DurationText(diff)
    }

    /** `getCorFaixa()`: the colour of the belt, white for an unknown belt. */
    function CorFaixa(): (cor: string)
      ensures cor in CoresFaixas.Values
      ensures faixa in CoresFaixas ==> cor == CoresFaixas[faixa]
      ensures faixa !in CoresFaixas ==> cor == DefaultCor
    {
      assert CoresFaixas["Branca"] == DefaultCor;
      if faixa in CoresFaixas then CoresFaixas[faixa] else DefaultCor
    }

    /** `hasPapel(nome)`: some role carries exactly this name (case-sensitive). */
    function HasPapel(nome: string): (b: bool)
      ensures b <==> exists i :: 0 <= i < |papeis| && papeis[i].nome == nome
    {
      AnyNamed(papeis, nome)
    }

    /** `getNivelAcesso()`: 0 without roles, otherwise the largest role level. */
    function NivelAcesso(): (level: int)
      ensures papeis == [] ==> level == 0
      ensures forall i :: 0 <= i < |papeis| ==> Level(papeis[i]) <= level
      ensures papeis != [] ==> exists i :: 0 <= i < |papeis| && level == Level(papeis[i])
    {
      if papeis == [] then 0 else MaxLevel(papeis)
    }
  }

  /** The constructor `new User(data)`: total, every missing or falsy field
      takes its default. */
  function NewUser(data: RawUser): (u: User)
    ensures u.id == (if Truthy(data.id) then data.id else None)
    ensures Truthy(data.nome) ==> u.nome == data.nome.value
    ensures !Truthy(data.nome) ==> u.nome == ""
    ensures Truthy(data.email) ==> u.email == data.email.value
    ensures !Truthy(data.email) ==> u.email == ""
    ensures u.authId == (if Truthy(data.authId) then data.authId else None)
    ensures u.academiaId == (if Truthy(data.academiaId) then data.academiaId else None)
    ensures u.faixa != ""
    ensures Truthy(data.faixa) ==> u.faixa == data.faixa.value
    ensures !Truthy(data.faixa) ==> u.faixa == "Branca"
    ensures data.grau.None? ==> u.grau == 0
    ensures data.grau.Some? ==> u.grau == data.grau.value
    ensures Truthy(data.dataIngresso) ==> u.dataIngresso == data.dataIngresso.value
    ensures !Truthy(data.dataIngresso) && Truthy(data.dataInicio) ==> u.dataIngresso == data.dataInicio.value
    ensures !Truthy(data.dataIngresso) && !Truthy(data.dataInicio) ==> u.dataIngresso == ""
    ensures Truthy(data.proximaAula) ==> u.proximaAula == data.proximaAula.value
    ensures !Truthy(data.proximaAula) ==> u.proximaAula == ""
    ensures Truthy(data.telefone) ==> u.telefone == data.telefone.value
    ensures !Truthy(data.telefone) ==> u.telefone == ""
    ensures data.aluno.Some? && Truthy(data.aluno.value.peso) ==> u.peso == data.aluno.value.peso.value
    ensures !(data.aluno.Some? && Truthy(data.aluno.value.peso)) ==> u.peso == ""
    ensures data.aluno.Some? && Truthy(data.aluno.value.altura) ==> u.altura == data.aluno.value.altura.value
    ensures !(data.aluno.Some? && Truthy(data.aluno.value.altura)) ==> u.altura == ""
    ensures data.papeis.Some? ==> u.papeis == data.papeis.value
    ensures data.papeis.None? ==> u.papeis == []
    ensures Normalized(u)
  {
    User(
      id := OrNull(data.id),
      nome := OrText(data.nome, ""),
      email := OrText(data.email, ""),
      authId := OrNull(data.authId),
      academiaId := OrNull(data.academiaId),
      faixa := OrText(data.faixa, "Branca"),
      grau := data.grau.GetOr(0),
      dataIngresso := OrText(data.dataIngresso, OrText(data.dataInicio, "")),
      proximaAula := OrText(data.proximaAula, ""),
      telefone := OrText(data.telefone, ""),
      peso := if data.aluno.Some? then OrText(data.aluno.value.peso, "") else "",
      altura := if data.aluno.Some? then OrText(data.aluno.value.altura, "") else "",
      papeis := data.papeis.GetOr([]))
  }

  /** `createUser(userData)`: an `undefined` argument is replaced by `{}`. */
  function CreateUser(data: Option<RawUser>): (u: User)
    ensures data.Some? ==> u == NewUser(data.value)
    ensures data.None? ==> u == NewUser(EmptyRaw)
  {
    NewUser(data.GetOr(EmptyRaw))
  }

  /** What every constructed record satisfies: no empty identifier and a belt. */
  predicate Normalized(u: User) {
    && (u.id.Some? ==> u.id.value != "")
    && (u.authId.Some? ==> u.authId.value != "")
    && (u.academiaId.Some? ==> u.academiaId.value != "")
    && u.faixa != ""
  }

  /** Building from `{}` yields exactly the documented defaults. */
  lemma EmptyInputDefaults()
    ensures NewUser(EmptyRaw) ==
      User(None, "", "", None, None, "Branca", 0, "", "", "", "", "", [])
  {
  }

  /** A record viewed as the plain object `{...user}`: its own fields, and
      neither `aluno` nor `data_inicio`. */
  function AsRaw(u: User): RawUser {
    RawUser(u.id, Some(u.nome), Some(u.email), u.authId, u.academiaId,
            Some(u.faixa), Some(u.grau), Some(u.dataIngresso), None,
            Some(u.proximaAula), Some(u.telefone), None, Some(u.papeis))
  }

  /** Rebuilding a constructed record from its own fields gives it back, except
      `peso` and `altura`, which only the nested `aluno` object supplies; the
      role queries are therefore unchanged. */
  lemma RebuildFromFields(u: User, nome: string)
    requires Normalized(u)
    ensures NewUser(AsRaw(u)) == u.(peso := "", altura := "")
    ensures NewUser(AsRaw(u)).HasPapel(nome) == u.HasPapel(nome)
    ensures NewUser(AsRaw(u)).NivelAcesso() == u.NivelAcesso()
  {
  }

  /** `papeis.some(papel => papel.nome === nome)`. */
  function AnyNamed(papeis: seq<Role>, nome: string): (b: bool)
    ensures b <==> exists i :: 0 <= i < |papeis| && papeis[i].nome == nome
  {
    if papeis == [] then false
    else papeis[0].nome == nome || AnyNamed(papeis[1..], nome)
  }

  function Max(a: int, b: int): int {
    if a >= b then a else b
  }

  /** `Math.max(...papeis.map(Level))` for a non-empty role list. */
  function MaxLevel(papeis: seq<Role>): (level: int)
    requires papeis != []
    ensures forall i :: 0 <= i < |papeis| ==> Level(papeis[i]) <= level
    ensures exists i :: 0 <= i < |papeis| && level == Level(papeis[i])
  {
    if |papeis| == 1 then Level(papeis[0])
    else
      var rest := MaxLevel(papeis[1..]);
      assert forall i :: 1 <= i < |papeis| ==> papeis[i] == papeis[1..][i - 1];
      Max(Level(papeis[0]), rest)
  }

  /** The access level of two role lists put together is the larger of the two. */
  lemma MaxLevelAppend(p: seq<Role>, q: seq<Role>)
    requires p != [] && q != []
    ensures MaxLevel(p + q) == Max(MaxLevel(p), MaxLevel(q))
  {
    var m := MaxLevel(p + q);
    var i :| 0 <= i < |p + q| && m == Level((p + q)[i]);
    if i < |p| {
      assert (p + q)[i] == p[i];
    } else {
      assert (p + q)[i] == q[i - |p|];
    }
    forall j | 0 <= j < |p| ensures Level(p[j]) <= m { assert (p + q)[j] == p[j]; }
    forall j | 0 <= j < |q| ensures Level(q[j]) <= m { assert (p + q)[|p| + j] == q[j]; }
  }

  /** The text given to `new Date`: a date containing '/' is read as
      DD/MM/YYYY and rearranged to `${ano}-${mes}-${dia}`; a missing piece
      prints as "undefined". Any other text is passed unchanged. */
  function DateText(s: string): (r: string)
    ensures '/' !in s ==> r == s
    ensures '/' !in r
    ensures '/' in s && '-' !in s ==>
              var p := Split(s, '/');
              Split(r, '-') == [Piece(p, 2), Piece(p, 1), Piece(p, 0)]
  {
    if '/' in s then
      var p := Split(s, '/');
      assert '-' !in s ==> Split(Piece(p, 2) + "-" + Piece(p, 1) + "-" + Piece(p, 0), '-')
                           == [Piece(p, 2), Piece(p, 1), Piece(p, 0)] by {
        if '-' !in s {
          SplitKeepsAbsent(s, '/', '-');
          SplitThree(Piece(p, 2), Piece(p, 1), Piece(p, 0), '-');
        }
      }
      Piece(p, 2) + "-" + Piece(p, 1) + "-" + Piece(p, 0)
    else s
  }

  /** The i-th piece, or "undefined" past the end of the array. */
  function Piece(parts: seq<string>, i: nat): (r: string)
    ensures i < |parts| ==> r == parts[i]
    ensures i >= |parts| ==> r == "undefined"
  {
    if i < |parts| then parts[i] else "undefined"
  }

  /** A well-formed DD/MM/YYYY text becomes YYYY-MM-DD. */
  lemma DateTextSlashed(dia: string, mes: string, ano: string)
    requires '/' !in dia && '/' !in mes && '/' !in ano
    ensures DateText(dia + "/" + mes + "/" + ano) == ano + "-" + mes + "-" + dia
  {
    var s := dia + "/" + mes + "/" + ano;
    SplitThree(dia, mes, ano, '/');
    assert s[|dia|] == '/';
  }

  /** The month count of `calcularTempoTreino`, ignoring the day of month. */
  function MonthsBetween(joined: CalendarMonth, hoje: CalendarMonth): (d: int)
    ensures joined.year == hoje.year ==> d == hoje.month - joined.month
    ensures joined.month == hoje.month ==> d == 12 * (hoje.year - joined.year)
    ensures ValidMonth(joined) && ValidMonth(hoje) ==>
              && (d == 0 <==> joined == hoje)
              && (d >= 0 <==> joined.year < hoje.year || (joined.year == hoje.year && joined.month <= hoje.month))
    ensures ValidMonth(joined) && ValidMonth(hoje) && d >= 0 ==>
              && d / 12 == hoje.year - joined.year - (if hoje.month < joined.month then 1 else 0)
              && d % 12 == (hoje.month - joined.month + 12) % 12
  {
    (hoje.year - joined.year) * 12 + (hoje.month - joined.month)
  }

  predicate ValidMonth(c: CalendarMonth) {
    0 <= c.month < 12
  }

  /** JavaScript's `a % 12`: the remainder takes the sign of the dividend. */
  function JsRem12(a: int): (r: int)
    ensures a >= 0 ==> 0 <= r < 12 && r == a % 12
    ensures a < 0 ==> -12 < r <= 0 && r == -((-a) % 12)
  {
    if a >= 0 then a % 12 else -((-a) % 12)
  }

  /** `n === 1 ? 'ano' : 'anos'`. */
  function YearWord(n: int): string {
    if n == 1 then "ano" else "anos"
  }

  /** `n === 1 ? 'mês' : 'meses'`. */
  function MonthWord(n: int): string {
    if n == 1 then "mês" else "meses"
  }

  /** The words of the rendered duration: years = floor(diff / 12), months =
      diff % 12 (truncating); both counts only when both are positive, the
      years alone when no month remains, the months alone otherwise. */
  function DurationWords(diff: int): (w: seq<string>)
    ensures |w| == 2 || |w| == 5
    ensures |w[0]| >= 1 && (IsDigit(w[0][0]) || w[0][0] == '-')
    // which of the three forms is printed
    ensures |w| == 5 <==> diff / 12 > 0 && JsRem12(diff) > 0
    ensures (|w| == 2 && (w[1] == "ano" || w[1] == "anos")) <==> diff / 12 > 0 && JsRem12(diff) == 0
    ensures (|w| == 2 && (w[1] == "mês" || w[1] == "meses")) <==> diff / 12 <= 0
    // the numbers printed, and the connective of the long form
    ensures diff / 12 > 0 ==> w[0] == IntText(diff / 12)
    ensures diff / 12 <= 0 ==> w[0] == IntText(JsRem12(diff))
    ensures |w| == 5 ==> w[2] == "e" && w[3] == IntText(JsRem12(diff))
    // singular exactly at one
    ensures diff / 12 > 0 ==> (w[1] == "ano" <==> diff / 12 == 1)
    ensures w[|w| - 1] == "mês" <==> JsRem12(diff) == 1
  {
    var anos := diff / 12;
    var meses := JsRem12(diff);
    if anos > 0 && meses > 0 then [IntText(anos), YearWord(anos), "e", IntText(meses), MonthWord(meses)]
    else if anos > 0 then [IntText(anos), YearWord(anos)]
    else [IntText(meses), MonthWord(meses)]
  }

  /** The template literal `${anos} ${...} e ${meses} ${...}` (or one of its
      two shorter forms): the words joined by single spaces. It starts with a
      digit or a minus sign. */
  function DurationText(diff: int): (r: string)
    ensures |r| > 0 && (IsDigit(r[0]) || r[0] == '-')
  {
    Join(DurationWords(diff), ' ')
  }

  predicate Numeral(w: string) {
    w != [] && AllDigits(w)
  }

  /** Reads the words of a rendered duration back into a month count. */
  function MonthsOfWords(w: seq<string>): Option<int> {
    if |w| == 2 && Numeral(w[0]) && (w[1] == "ano" || w[1] == "anos") then
      Some(12 * ValueOf(w[0]))
    else if |w| == 2 && Numeral(w[0]) && (w[1] == "mês" || w[1] == "meses") then
      Some(ValueOf(w[0]))
    else if && |w| == 5 && Numeral(w[0]) && (w[1] == "ano" || w[1] == "anos") && w[2] == "e"
            && Numeral(w[3]) && (w[4] == "mês" || w[4] == "meses") then
      Some(12 * ValueOf(w[0]) + ValueOf(w[3]))
    else None
  }

  /** Reads a rendered duration back into a month count. */
  function MonthsOfText(t: string): Option<int> {
    MonthsOfWords(Split(t, ' '))
  }

  /** For a non-negative count the words are decimal numerals and fixed
      words, none containing a space, and they read back as the count. */
  lemma DurationWordsRoundTrip(diff: nat)
    ensures forall i :: 0 <= i < |DurationWords(diff)| ==> ' ' !in DurationWords(diff)[i]
    ensures MonthsOfWords(DurationWords(diff)) == Some(diff)
  {
    var anos, meses := diff / 12, diff % 12;
    assert diff == 12 * anos + meses;
    if anos > 0 && meses > 0 {
      assert DurationWords(diff) == [NatText(anos), YearWord(anos), "e", NatText(meses), MonthWord(meses)];
      ReadYearsAndMonths(anos, meses);
    } else if anos > 0 {
      assert DurationWords(diff) == [NatText(anos), YearWord(anos)];
      ReadYears(anos);
    } else {
      assert DurationWords(diff) == [NatText(meses), MonthWord(meses)];
      ReadMonths(meses);
    }
  }

  lemma ReadYearsAndMonths(a: nat, m: nat)
    ensures var w := [NatText(a), YearWord(a), "e", NatText(m), MonthWord(m)];
            && (forall i :: 0 <= i < |w| ==> ' ' !in w[i])
            && MonthsOfWords(w) == Some(12 * a + m)
  {
    ValueOfNatText(a);
    ValueOfNatText(m);
    assert ' ' !in NatText(a) && ' ' !in NatText(m);
  }

  lemma ReadYears(a: nat)
    ensures var w := [NatText(a), YearWord(a)];
            && (forall i :: 0 <= i < |w| ==> ' ' !in w[i])
            && MonthsOfWords(w) == Some(12 * a)
  {
    ValueOfNatText(a);
    assert ' ' !in NatText(a);
  }

  lemma ReadMonths(m: nat)
    ensures var w := [NatText(m), MonthWord(m)];
            && (forall i :: 0 <= i < |w| ==> ' ' !in w[i])
            && MonthsOfWords(w) == Some(m)
  {
    ValueOfNatText(m);
    assert ' ' !in NatText(m);
  }

  /** A non-negative month count is rendered without loss: reading the text
      back gives the count. */
  lemma DurationRoundTrip(diff: nat)
    ensures MonthsOfText(DurationText(diff)) == Some(diff)
  {
    DurationWordsRoundTrip(diff);
    SplitJoin(DurationWords(diff), ' ');
  }

  /** Worked examples: 6 elapsed months and exactly one year. */
  lemma DurationExamples()
    ensures DurationText(6) == "6 meses"
    ensures DurationText(12) == "1 ano"
  {
    assert DurationWords(6) == ["6", "meses"];
    assert DurationWords(12) == ["1", "ano"];
  }

  /** Two years and two months: the long form, both nouns plural. */
  lemma DurationExampleLong()
    ensures DurationText(26) == "2 anos e 2 meses"
  {
    LongWords();
    LongJoin();
  }

  lemma LongWords()
    ensures DurationWords(26) == ["2", "anos", "e", "2", "meses"]
  {
    assert IntText(2) == "2";
  }

  lemma LongJoin()
    ensures Join(["2", "anos", "e", "2", "meses"], ' ') == "2 anos e 2 meses"
  {
    var w := ["2", "anos", "e", "2", "meses"];
    assert Join(w[3..], ' ') == "2 meses" by { assert w[3..][1..] == ["meses"]; }
    assert Join(w[2..], ' ') == "e 2 meses" by { assert w[2..][1..] == w[3..]; }
    assert Join(w[1..], ' ') == "anos e 2 meses" by { assert w[1..][1..] == w[2..]; }
  }

  /** Two belts of the table never share a colour, so the colour identifies
      the belt; only an unknown belt falls back to white. */
  lemma CorFaixaIdentifiesBelt(u: User, v: User)
    requires u.faixa in CoresFaixas && v.faixa in CoresFaixas
    ensures u.CorFaixa() == v.CorFaixa() ==> u.faixa == v.faixa
  {
  }
}
