/** The sign-up form: the normalised e-mail, the password strength meter, the client-side
    validation and the request body sent when it passes. */
module Cadastro {
  import opened Wrappers
  import opened Strings

  datatype FormData = FormData(nome: string, email: string, senha: string, confirmarSenha: string, pais: string)

  /** `form.email.trim().toLowerCase()` */
  function NormalizarEmail(email: string): (r: string)
    ensures |r| <= |email|
    ensures r == [] || (!IsWhitespace(r[0]) && !IsWhitespace(r[|r| - 1]))
  {
    var t := Trim(email);
    TrimToLower(email);
    ToLower(t)
  }

  /** Normalising twice is normalising once. */
  lemma NormalizarIdempotente(email: string)
    ensures NormalizarEmail(NormalizarEmail(email)) == NormalizarEmail(email)
  {
    var n := NormalizarEmail(email);
    TrimUnchanged(n);
    ToLowerIdempotent(Trim(email));
  }

  // ---------------------------------------------------------------------------
  // Password

  /** `v.length`: JavaScript counts UTF-16 code units, two for a character beyond U+FFFF. */
  function Utf16Length(v: string): (n: nat)
    ensures n >= |v|
  {
    if |v| == 0 then 0 else Utf16Length(v[..|v| - 1]) + (if v[|v| - 1] as int > 0xFFFF then 2 else 1)
  }

  predicate TemMinuscula(v: string) { exists i :: 0 <= i < |v| && IsAsciiLower(v[i]) }

  predicate TemMaiuscula(v: string) { exists i :: 0 <= i < |v| && IsAsciiUpper(v[i]) }

  predicate TemDigito(v: string) { exists i :: 0 <= i < |v| && IsDigit(v[i]) }

  /** `/[^A-Za-z0-9]/` */
  predicate EhSimbolo(c: char) { !IsAsciiLower(c) && !IsAsciiUpper(c) && !IsDigit(c) }

  predicate TemSimbolo(v: string) { exists i :: 0 <= i < |v| && EhSimbolo(v[i]) }

  function Ponto(b: bool): nat { if b then 1 else 0 }

  /** The number of the five strength criteria a password meets. */
  function CriteriosAtendidos(v: string): nat {
    Ponto(Utf16Length(v) >= 8) + Ponto(TemMinuscula(v)) + Ponto(TemMaiuscula(v)) + Ponto(TemDigito(v)) + Ponto(TemSimbolo(v))
  }

  /** The strength meter: one point per criterion met, capped at 5. */
  method Forca(v: string) returns (score: int)
    ensures score == CriteriosAtendidos(v)
    ensures 0 <= score <= 5
  {
    score := 0;
    if Utf16Length(v) >= 8 { score := score + 1; }
    if TemMinuscula(v) { score := score + 1; }
    if TemMaiuscula(v) { score := score + 1; }
    if TemDigito(v) { score := score + 1; }
    if TemSimbolo(v) { score := score + 1; }
    score := if score <= 5 then score else 5;
  }

  /** Each criterion is worth exactly one point: the strength is 5 exactly when all are met, and 0
      exactly when none is (only the empty password meets none). */
  lemma ForcaMaximaSseTodos(v: string)
    ensures CriteriosAtendidos(v) == 5 <==>
      Utf16Length(v) >= 8 && TemMinuscula(v) && TemMaiuscula(v) && TemDigito(v) && TemSimbolo(v)
    ensures CriteriosAtendidos(v) == 0 <==> v == []
  {
    if v != [] {
      var c := v[0];
      assert IsAsciiLower(c) || IsAsciiUpper(c) || IsDigit(c) || EhSimbolo(c);
    }
  }

  // ---------------------------------------------------------------------------
  // E-mail

  /** A run matched by `[^\s@]+`. */
  predicate ParteSimples(p: string) {
    |p| > 0 && forall k :: 0 <= k < |p| ==> !IsWhitespace(p[k]) && p[k] != '@'
  }

  /** `/^[^\s@]+@[^\s@]+\.[^\s@]+$/.test(s)`: some `@` and a later `.` cut the string into three
      non-empty runs without white space or `@`. */
  predicate EmailCasa(s: string) {
    exists i, j :: 0 <= i < j < |s| && s[i] == '@' && s[j] == '.'
      && ParteSimples(s[..i]) && ParteSimples(s[i + 1..j]) && ParteSimples(s[j + 1..])
  }

  predicate SemEspacos(s: string) {
    forall k :: 0 <= k < |s| ==> !IsWhitespace(s[k])
  }

  /** `s[i]` is the only `@` of `s`. */
  predicate ArrobaUnica(s: string, i: nat) {
    i < |s| && s[i] == '@' && forall k :: 0 <= k < |s| && k != i ==> s[k] != '@'
  }

  predicate PontoDepois(s: string, i: nat) {
    exists j :: i + 1 < j < |s| - 1 && s[j] == '.'
  }

  /** The pattern in plain terms: no white space, exactly one `@`, not first, and after it a `.`
      with something on each side. */
  predicate EmailBemFormado(s: string) {
    SemEspacos(s) && exists i :: 0 < i < |s| && ArrobaUnica(s, i) && PontoDepois(s, i)
  }

  lemma EmailCasaSse(s: string)
    ensures EmailCasa(s) <==> EmailBemFormado(s)
  {
    if EmailCasa(s) { CasaEntaoBemFormado(s); }
    if EmailBemFormado(s) { BemFormadoEntaoCasa(s); }
  }

  lemma CasaEntaoBemFormado(s: string)
    requires EmailCasa(s)
    ensures EmailBemFormado(s)
  {
    var i, j :| 0 <= i < j < |s| && s[i] == '@' && s[j] == '.'
      && ParteSimples(s[..i]) && ParteSimples(s[i + 1..j]) && ParteSimples(s[j + 1..]);
    forall k | 0 <= k < |s| && k != i ensures s[k] != '@' && !IsWhitespace(s[k]) {
      if k < i { assert s[..i][k] == s[k]; }
      else if k < j { assert s[i + 1..j][k - i - 1] == s[k]; }
      else if k > j { assert s[j + 1..][k - j - 1] == s[k]; }
    }
    assert ArrobaUnica(s, i) && PontoDepois(s, i);
  }

  lemma BemFormadoEntaoCasa(s: string)
    requires EmailBemFormado(s)
    ensures EmailCasa(s)
  {
    var i :| 0 < i < |s| && ArrobaUnica(s, i) && PontoDepois(s, i);
    var j :| i + 1 < j < |s| - 1 && s[j] == '.';
    assert ParteSimples(s[..i]);
    assert ParteSimples(s[i + 1..j]);
    assert ParteSimples(s[j + 1..]);
  }

  // ---------------------------------------------------------------------------
  // Validation

  const ERRO_SENHAS := "As senhas não correspondem"
  const ERRO_TAMANHO := "A senha deve ter pelo menos 8 caracteres"
  const ERRO_FRACA := "Senha fraca: use maiúscula, minúscula, número e símbolo"
  const ERRO_NOME := "Informe seu nome"
  const ERRO_EMAIL := "Email inválido"
  const ERRO_PAIS := "Selecione o país"

  /** `validateClient`: the first failing check's message, or none. */
  function ValidarCliente(f: FormData): (r: Option<string>)
    ensures f.senha != f.confirmarSenha ==> r == Some(ERRO_SENHAS)
  {
    var email := NormalizarEmail(f.email);
    if f.senha != f.confirmarSenha then Some(ERRO_SENHAS)
    else if Utf16Length(f.senha) < 8 then Some(ERRO_TAMANHO)
    else if !TemMinuscula(f.senha) || !TemMaiuscula(f.senha) || !TemDigito(f.senha) || !TemSimbolo(f.senha) then Some(ERRO_FRACA)
    else if IsBlank(f.nome) then Some(ERRO_NOME)
    else if email == [] || !EmailCasa(email) then Some(ERRO_EMAIL)
    else if f.pais == [] then Some(ERRO_PAIS)
    else None
  }

  /** Every check of the form, in plain terms. */
  predicate FormularioValido(f: FormData) {
    && f.senha == f.confirmarSenha
    && CriteriosAtendidos(f.senha) == 5
    && !IsBlank(f.nome)
    && EmailCasa(NormalizarEmail(f.email))
    && f.pais != []
  }

  /** The form passes exactly when every check does: matching passwords of full strength, a name
      that is not blank, a normalised e-mail that fits the pattern and a country. */
  lemma ValidoSseNenhumErro(f: FormData)
    ensures ValidarCliente(f) == None <==> FormularioValido(f)
  {
    ForcaMaximaSseTodos(f.senha);
  }

  /** A message, when there is one, is one of the six. */
  lemma MensagemConhecida(f: FormData)
    ensures ValidarCliente(f).Some? ==>
      ValidarCliente(f).value in {ERRO_SENHAS, ERRO_TAMANHO, ERRO_FRACA, ERRO_NOME, ERRO_EMAIL, ERRO_PAIS}
  {
  }

  /** Which message is shown: each check is reached only when all before it pass. */
  lemma OrdemDosErros(f: FormData)
    requires f.senha == f.confirmarSenha
    ensures Utf16Length(f.senha) < 8 ==> ValidarCliente(f) == Some(ERRO_TAMANHO)
    ensures Utf16Length(f.senha) >= 8 && CriteriosAtendidos(f.senha) < 5 ==> ValidarCliente(f) == Some(ERRO_FRACA)
    ensures CriteriosAtendidos(f.senha) == 5 && IsBlank(f.nome) ==> ValidarCliente(f) == Some(ERRO_NOME)
  {
    ForcaMaximaSseTodos(f.senha);
  }

  /** The body of the sign-up request. */
  datatype Registro = Registro(nome: string, email: string, senha: string, pais: string)

  /** `handleSubmit` before the request: the validation message, or the body with the name trimmed
      and the e-mail normalised. */
  function Submeter(f: FormData): (r: Result<Registro>)
    ensures r.Ok? <==> FormularioValido(f)
    ensures r.Err? ==> Some(r.error) == ValidarCliente(f)
    ensures r.Ok? ==> r.value.nome != [] && EmailCasa(r.value.email) && r.value.senha == f.senha && r.value.pais == f.pais
  {
    ValidoSseNenhumErro(f);
    TrimEmptyIffBlank(f.nome);
    match ValidarCliente(f)
    case Some(msg) => Err(msg)
    case None => Ok(Registro(Trim(f.nome), NormalizarEmail(f.email), f.senha, f.pais))
  }
}
