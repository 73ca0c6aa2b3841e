/** The spreadsheet import of the finance module: matching the header row to fields, reading the
    cells of a data row into a payable, a receivable, a category or a payment method, and resolving
    the category and payment method a row names, by id or by name. */
module ImportExcel {
  import opened Wrappers
  import opened Strings
  import opened Money
  import opened Calendar
  import opened JsValues

  // ---------------------------------------------------------------------------
  // Header normalisation: trim, lower case, NFD without combining marks, one space per blank run

  /** The combining diacritical marks U+0300 to U+036F, which the header normalisation removes. */
  predicate IsCombiningMark(c: char) {
    '\U{0300}' <= c <= '\U{036F}'
  }

  /** The base letter NFD leaves of a lower-case Latin-1 letter once its marks are removed. */
  function BaseLetter(c: char): (b: char)
    ensures b != c ==> 'à' <= c <= 'ÿ' && IsAsciiLower(b)
    ensures !IsUpperLetter(c) ==> !IsUpperLetter(b)
  {
    if 'à' <= c <= 'å' then 'a'
    else if c == 'ç' then 'c'
    else if 'è' <= c <= 'ë' then 'e'
    else if 'ì' <= c <= 'ï' then 'i'
    else if c == 'ñ' then 'n'
    else if 'ò' <= c <= 'ö' then 'o'
    else if 'ù' <= c <= 'ü' then 'u'
    else if c == 'ý' || c == 'ÿ' then 'y'
    else c
  }

  predicate IsAccented(c: char) {
    BaseLetter(c) != c
  }

  predicate SemMaiusculas(s: string) {
    forall i :: 0 <= i < |s| ==> !IsUpperLetter(s[i])
  }

  /** A character a normalised header may hold: no capital, no accented letter, no combining mark. */
  predicate Limpo(c: char) {
    !IsUpperLetter(c) && !IsAccented(c) && !IsCombiningMark(c)
  }

  /** `normalize("NFD").replace(/[̀-ͯ]/g, "")` on lower-case text: accented letters lose
      their accents and loose combining marks are dropped; nothing else changes. */
  function StripDiacritics(s: string): (r: string)
    ensures |r| <= |s|
    ensures forall i :: 0 <= i < |r| ==> !IsCombiningMark(r[i]) && !IsAccented(r[i])
    ensures SemMaiusculas(s) ==> SemMaiusculas(r)
    ensures (forall i :: 0 <= i < |s| ==> !IsCombiningMark(s[i]) && !IsAccented(s[i])) ==> r == s
    decreases |s|
  {
    if |s| == 0 then ""
    else
      var rest := StripDiacritics(s[1..]);
      assert forall j :: 0 <= j < |s| - 1 ==> s[1..][j] == s[j + 1];
      if IsCombiningMark(s[0]) then rest else [BaseLetter(s[0])] + rest
  }

  /** The characters of a string that are not white space, in order. */
  function NonBlank(s: string): string
    decreases |s|
  {
    if |s| == 0 then "" else (if IsWhitespace(s[0]) then "" else [s[0]]) + NonBlank(s[1..])
  }

  lemma {:induction false} NonBlankTrimStart(s: string)
    ensures NonBlank(TrimStart(s)) == NonBlank(s)
    decreases |s|
  {
    if |s| > 0 && IsWhitespace(s[0]) {
      NonBlankTrimStart(s[1..]);
    }
  }

  /** The only white space is the plain space. */
  predicate SoEspacos(r: string) {
    forall i :: 0 <= i < |r| && IsWhitespace(r[i]) ==> r[i] == ' '
  }

  /** Every character may stand in a normalised header. */
  predicate Limpa(r: string) {
    forall i :: 0 <= i < |r| ==> Limpo(r[i])
  }

  /** `replace(/\s+/g, " ")`: every run of white space becomes a single space. */
  function CollapseSpaces(s: string): (r: string)
    ensures |s| > 0 && !IsWhitespace(s[0]) ==> |r| > 0 && r[0] == s[0]
    ensures |s| == 0 <==> |r| == 0
    decreases |s|
  {
    if |s| == 0 then ""
    else if IsWhitespace(s[0]) then " " + CollapseSpaces(TrimStart(s[1..]))
    else [s[0]] + CollapseSpaces(s[1..])
  }

  /** Collapsing leaves no white space but the plain space. */
  lemma {:induction false} CollapseSpacesOnlySpaces(s: string)
    ensures SoEspacos(CollapseSpaces(s))
    decreases |s|
  {
    if |s| > 0 {
      var t := if IsWhitespace(s[0]) then TrimStart(s[1..]) else s[1..];
      CollapseSpacesOnlySpaces(t);
      var r := CollapseSpaces(s);
      assert r[1..] == CollapseSpaces(t);
      forall i | 0 <= i < |r| && IsWhitespace(r[i]) ensures r[i] == ' ' {
        if i > 0 { assert r[i] == r[1..][i - 1]; }
      }
    }
  }

  /** Two spaces in a row at `i`. */
  predicate DoisEspacos(r: string, i: int)
    requires 0 <= i < |r| - 1
  {
    r[i] == ' ' && r[i + 1] == ' '
  }

  /** No two spaces in a row. */
  predicate EspacosSimples(r: string) {
    forall i :: 0 <= i < |r| - 1 ==> !DoisEspacos(r, i)
  }

  /** After collapsing, no two spaces are adjacent. */
  lemma {:induction false} CollapseSpacesSingle(s: string)
    ensures EspacosSimples(CollapseSpaces(s))
    decreases |s|
  {
    if |s| > 0 {
      var t := if IsWhitespace(s[0]) then TrimStart(s[1..]) else s[1..];
      CollapseSpacesSingle(t);
      var r' := CollapseSpaces(t);
      var r := CollapseSpaces(s);
      assert r[1..] == r';
      assert |r'| > 0 && r[0] == ' ' ==> r'[0] != ' ' by {
        if |r'| > 0 && r[0] == ' ' {
          assert IsWhitespace(s[0]);
          assert !IsWhitespace(t[0]);
        }
      }
      forall i | 0 <= i < |r| - 1 ensures !DoisEspacos(r, i) {
        assert r[i + 1] == r'[i];
        if i > 0 {
          assert r[i] == r'[i - 1];
          assert !DoisEspacos(r', i - 1);
        }
      }
    }
  }

  /** Collapsing keeps every character that is not white space, in order. */
  lemma {:induction false} CollapseSpacesKeepsText(s: string)
    ensures NonBlank(CollapseSpaces(s)) == NonBlank(s)
    decreases |s|
  {
    if |s| > 0 {
      if IsWhitespace(s[0]) {
        var t := TrimStart(s[1..]);
        CollapseSpacesKeepsText(t);
        NonBlankTrimStart(s[1..]);
        assert (" " + CollapseSpaces(t))[1..] == CollapseSpaces(t);
      } else {
        CollapseSpacesKeepsText(s[1..]);
        assert ([s[0]] + CollapseSpaces(s[1..]))[1..] == CollapseSpaces(s[1..]);
      }
    }
  }

  /** Collapsing writes only spaces and characters of its input. */
  lemma {:induction false} CollapseSpacesChars(s: string)
    ensures forall c :: c in CollapseSpaces(s) ==> c == ' ' || c in s
    decreases |s|
  {
    if |s| > 0 {
      if IsWhitespace(s[0]) {
        var t := TrimStart(s[1..]);
        CollapseSpacesChars(t);
        assert forall c :: c in t ==> c in s;
      } else {
        CollapseSpacesChars(s[1..]);
        assert forall c :: c in s[1..] ==> c in s;
      }
    }
  }

  /** The header normalisation `norm`. The result has no upper-case letter, no accented letter, no
      combining mark, no white space but single spaces, and the same other characters in order. */
  function Normalize(s: string): (r: string)
    ensures Limpa(r) && SoEspacos(r) && EspacosSimples(r)
  {
    NormalizeClean(s);
    CollapseSpacesOnlySpaces(StripDiacritics(ToLower(Trim(s))));
    CollapseSpacesSingle(StripDiacritics(ToLower(Trim(s))));
    CollapseSpaces(StripDiacritics(ToLower(Trim(s))))
  }

  lemma NormalizeClean(s: string)
    ensures Limpa(CollapseSpaces(StripDiacritics(ToLower(Trim(s)))))
  {
    var lower := ToLower(Trim(s));
    assert SemMaiusculas(lower);
    var plain := StripDiacritics(lower);
    assert Limpa(plain);
    CollapseSpacesChars(plain);
    LimpaPorCaracteres(CollapseSpaces(plain), plain);
  }

  /** Text made of spaces and characters of clean text is clean. */
  lemma LimpaPorCaracteres(r: string, s: string)
    requires Limpa(s)
    requires forall c :: c in r ==> c == ' ' || c in s
    ensures Limpa(r)
  {
    assert Limpo(' ');
    forall i | 0 <= i < |r| ensures Limpo(r[i]) {
      assert r[i] in r;
      if r[i] != ' ' {
        var j :| 0 <= j < |s| && s[j] == r[i];
      }
    }
  }

  /** Headers that differ only in letter case normalise alike. */
  lemma NormalizeIgnoresCase(s: string)
    ensures Normalize(ToUpper(s)) == Normalize(s)
    ensures Normalize(ToLower(s)) == Normalize(s)
  {
    TrimToLower(ToUpper(s));
    TrimToLower(ToLower(s));
    TrimToLower(s);
    ToLowerToUpper(s);
    ToLowerIdempotent(s);
  }

  /** Headers that differ only in white space before the text normalise alike. */
  lemma NormalizeIgnoresLeadingBlanks(b: string, s: string)
    requires IsBlank(b)
    ensures Normalize(b + s) == Normalize(s)
  {
    TrimStartBlankPrefix(b, s);
  }

  lemma {:induction false} TrimStartBlankPrefix(b: string, s: string)
    requires IsBlank(b)
    ensures TrimStart(b + s) == TrimStart(s)
    decreases |b|
  {
    if |b| > 0 {
      assert (b + s)[1..] == b[1..] + s;
      TrimStartBlankPrefix(b[1..], s);
    } else {
      assert b + s == s;
    }
  }

  // ---------------------------------------------------------------------------
  // Matching headers to fields

  /** The import's `type`. */
  datatype TipoImportacao = ContasPagar | ContasReceber | Categorias | FormasPagamento

  function TipoDe(tipo: string): (r: Option<TipoImportacao>)
    ensures r == Some(ContasPagar) <==> tipo == "contas_pagar"
    ensures r == Some(ContasReceber) <==> tipo == "contas_receber"
    ensures r == Some(Categorias) <==> tipo == "categorias"
    ensures r == Some(FormasPagamento) <==> tipo == "formas_pagamento"
  {
    if tipo == "contas_pagar" then Some(ContasPagar)
    else if tipo == "contas_receber" then Some(ContasReceber)
    else if tipo == "categorias" then Some(Categorias)
    else if tipo == "formas_pagamento" then Some(FormasPagamento)
    else None
  }

  /** The fields a column can fill. */
  datatype Campo =
    | Descricao | Valor | DataVencimento | DataPagamento | DataRecebimento | Categoria
    | FormaPagamento | Tipo | Nome

  /** The field of a normalised header, by the first rule of the import type that it meets. */
  function CampoDoCabecalho(h: string, tipo: TipoImportacao): (r: Option<Campo>)
    ensures tipo == Categorias ==> r == None || r == Some(Descricao) || r == Some(Tipo)
    ensures tipo == FormasPagamento ==> r == None || r == Some(Nome)
    ensures (tipo == ContasPagar || tipo == ContasReceber) ==> r != Some(Tipo) && r != Some(Nome)
    ensures tipo != FormasPagamento && Contains(h, "descricao") ==> r == Some(Descricao)
  {
    match tipo
    case ContasPagar => CampoDeConta(h)
    case ContasReceber => CampoDeConta(h)
    case Categorias =>
      if Contains(h, "descricao") || Contains(h, "nome") then Some(Descricao)
      else if h == "tipo" then Some(Tipo)
      else None
    case FormasPagamento =>
      if Contains(h, "nome") || Contains(h, "forma de pagamento") || Contains(h, "portador") then Some(Nome)
      else None
  }

  function CampoDeConta(h: string): Option<Campo> {
    if Contains(h, "descricao") then Some(Descricao)
    else if Contains(h, "valor") then Some(Valor)
    else if Contains(h, "data de vencimento") || Contains(h, "data_vencimento") || h == "vencimento" then Some(DataVencimento)
    else if Contains(h, "data de pagamento") || Contains(h, "data_pagamento") || h == "pagamento" then Some(DataPagamento)
    else if Contains(h, "data de recebimento") || Contains(h, "data_recebimento") || h == "recebimento" then Some(DataRecebimento)
    else if Contains(h, "categoria") then Some(Categoria)
    else if Contains(h, "forma de pagamento") || Contains(h, "forma_pagamento") || Contains(h, "portador") then Some(FormaPagamento)
    else None
  }

  /** The field a header fills: none when the import type is unknown. */
  function CampoDe(header: string, tipo: Option<TipoImportacao>): Option<Campo> {
    if tipo.None? then None else CampoDoCabecalho(Normalize(header), tipo.value)
  }

  /** The field each header of the row fills, column by column. */
  function Campos(headers: seq<string>, tipo: Option<TipoImportacao>): (cs: seq<Option<Campo>>)
    ensures |cs| == |headers|
    ensures forall i :: 0 <= i < |headers| ==> cs[i] == CampoDe(headers[i], tipo)
  {
    seq(|headers|, i requires 0 <= i < |headers| => CampoDe(headers[i], tipo))
  }

  /** The last column that fills field `c`. */
  function UltimaColuna(cs: seq<Option<Campo>>, c: Campo): (r: Option<nat>)
    ensures r.Some? ==> r.value < |cs| && cs[r.value] == Some(c)
                        && forall j :: r.value < j < |cs| ==> cs[j] != Some(c)
    ensures r.None? ==> Some(c) !in cs
  {
    if |cs| == 0 then None
    else
      var n := |cs| - 1;
      if cs[n] == Some(c) then Some(n)
      else
        assert cs == cs[..n] + [cs[n]];
        UltimaColuna(cs[..n], c)
  }

  /** The mapping a header row gives: each field that some header fills, with the index, written
      as text, of the last column that fills it; later columns overwrite earlier ones. */
  function Mapeamento(cs: seq<Option<Campo>>): (m: map<Campo, string>)
    ensures forall c :: c in m <==> UltimaColuna(cs, c).Some?
    ensures forall c :: c in m ==> m[c] == NatToString(UltimaColuna(cs, c).value)
  {
    if |cs| == 0 then map[]
    else
      var n := |cs| - 1;
      var m := Mapeamento(cs[..n]);
      match cs[n]
      case None => m
      case Some(c) => m[c := NatToString(n)]
  }

  /** One more column: its field, if any, now maps to its index. */
  lemma MapeamentoStep(cs: seq<Option<Campo>>, i: nat)
    requires i < |cs|
    ensures Mapeamento(cs[..i + 1]) ==
      if cs[i].Some? then Mapeamento(cs[..i])[cs[i].value := NatToString(i)] else Mapeamento(cs[..i])
  {
    assert cs[..i + 1][..i] == cs[..i];
  }

  /** `getFieldMappingNormalized`: the loop over the header row. */
  method GetFieldMappingNormalized(headers: seq<string>, tipo: string) returns (mapping: map<Campo, string>)
    ensures mapping == Mapeamento(Campos(headers, TipoDe(tipo)))
  {
    var t := TipoDe(tipo);
    ghost var cs := Campos(headers, t);
    mapping := map[];
    for index := 0 to |headers|
      invariant mapping == Mapeamento(cs[..index])
    {
      var campo := CampoDe(headers[index], t);
      MapeamentoStep(cs, index);
      assert cs[index] == campo;
      if campo.Some? {
        mapping := mapping[campo.value := NatToString(index)];
      }
    }
    assert cs[..|headers|] == cs;
  }

  // ---------------------------------------------------------------------------
  // Cells

  /** A spreadsheet cell as the sheet reader gives it. A number or a date carries the text
      `toString` writes for it; an empty cell is null or undefined. */
  datatype Celula =
    | Numero(n: real, texto: string)
    | Texto(s: string)
    | Data(ms: int, texto: string)
    | Booleano(b: bool)
    | Vazia

  /** JavaScript truthiness of a cell. */
  predicate Preenchida(c: Celula) {
    match c
    case Numero(n, _) => n != 0.0
    case Texto(s) => s != ""
    case Data(_, _) => true
    case Booleano(b) => b
    case Vazia => false
  }

  /** `value.toString()`. */
  function TextoDaCelula(c: Celula): string
    requires !c.Vazia?
  {
    match c
    case Numero(_, t) => t
    case Texto(s) => s
    case Data(_, t) => t
    case Booleano(b) => if b then "true" else "false"
  }

  /** `getValue(field)`: the cell under the column the mapping gives, or null when the field has no
      column, its index is not a number or the row is shorter. */
  function ValorDoCampo(row: seq<Celula>, mapping: map<Campo, string>, c: Campo): Celula {
    if c !in mapping then Vazia
    else
      match ParseInt(mapping[c])
      case None => Vazia
      case Some(i) => if 0 <= i < |row| then row[i] else Vazia
  }

  /** Through the mapping of a header row, a field reads the cell under the last column that fills
      it, and is null when no column does or the row stops before it. */
  lemma ValorDoCampoMapeado(row: seq<Celula>, cs: seq<Option<Campo>>, c: Campo)
    ensures var col := UltimaColuna(cs, c);
      ValorDoCampo(row, Mapeamento(cs), c) == if col.Some? && col.value < |row| then row[col.value] else Vazia
  {
    var col := UltimaColuna(cs, c);
    if col.Some? {
      ParseIntOfNatToString(col.value);
    }
  }

  // ---------------------------------------------------------------------------
  // parseDecimal

  /** `replace(",", ".")`: the first comma becomes a point. */
  function TrocarPrimeiraVirgula(s: string): (r: string)
    ensures |r| == |s|
    ensures ',' !in s ==> r == s
    decreases |s|
  {
    if |s| == 0 then ""
    else if s[0] == ',' then "." + s[1..]
    else [s[0]] + TrocarPrimeiraVirgula(s[1..])
  }

  lemma {:induction false} TrocarVirgulaDepoisDeDigitos(a: string, b: string)
    requires AllDigits(a)
    ensures TrocarPrimeiraVirgula(a + "," + b) == a + "." + b
    decreases |a|
  {
    if |a| > 0 {
      assert (a + "," + b)[1..] == a[1..] + "," + b;
      TrocarVirgulaDepoisDeDigitos(a[1..], b);
    } else {
      assert a + "," + b == "," + b;
    }
  }

  /** `parseDecimal`: 0 for an empty cell; otherwise the number `parseFloat` reads from the cell's
      text once its first comma is a point, and 0 when it reads none. */
  function ParseDecimal(c: Celula): (r: real)
    ensures !Preenchida(c) ==> r == 0.0
  {
    if !Preenchida(c) then 0.0
    else
      match ParseFloat(TrocarPrimeiraVirgula(TextoDaCelula(c)))
      case None => 0.0
      case Some(v) => v
  }

  lemma {:induction false} DigitRunPrefix(a: string, t: string)
    requires AllDigits(a)
    ensures DigitRun(a + t) == |a| + DigitRun(t)
    decreases |a|
  {
    if |a| > 0 {
      assert (a + t)[1..] == a[1..] + t;
      DigitRunPrefix(a[1..], t);
    } else {
      assert a + t == t;
    }
  }

  /** `digits "." fraction` scans as one unsigned literal of that value. */
  lemma ScanPonto(a: string, b: string)
    requires AllDigits(a) && AllDigits(b) && |a| + |b| > 0
    ensures ScanUnsignedDecimal(a + "." + b) == Some((DecimalValue(a, b), |a| + 1 + |b|))
  {
    var s := a + "." + b;
    DigitRunPrefix(a, "." + b);
    assert DigitRun("." + b) == 0;
    assert s[|a|] == '.';
    assert s[..|a|] == a;
    assert s[|a| + 1..] == b;
    DigitRunAll(b);
    assert b[..|b|] == b;
  }

  lemma SemVirgula(a: string, b: string)
    requires AllDigits(a) && AllDigits(b)
    ensures ',' !in a + "." + b
  {
    var s := a + "." + b;
    forall i | 0 <= i < |s| ensures s[i] != ',' {
      if i < |a| { assert s[i] == a[i]; }
      else if i > |a| { assert s[i] == b[i - |a| - 1]; }
    }
  }

  lemma ParseFloatPonto(a: string, b: string)
    requires AllDigits(a) && AllDigits(b) && |a| + |b| > 0
    ensures ParseFloat(a + "." + b) == Some(DecimalValue(a, b))
  {
    var s := a + "." + b;
    assert s[0] == if |a| > 0 then a[0] else '.';
    assert !IsWhitespace(s[0]);
    TrimStartKeeps(s);
    assert ScanDecimal(s) == ScanUnsignedDecimal(s);
    ScanPonto(a, b);
  }

  /** A decimal comma reads as a decimal point: "12,5" is 12.5, the same as "12.5". */
  lemma DecimalComVirgula(a: string, b: string)
    requires AllDigits(a) && AllDigits(b) && |a| + |b| > 0
    ensures ParseDecimal(Texto(a + "," + b)) == DecimalValue(a, b)
    ensures ParseDecimal(Texto(a + "." + b)) == DecimalValue(a, b)
  {
    TrocarVirgulaDepoisDeDigitos(a, b);
    SemVirgula(a, b);
    ParseFloatPonto(a, b);
    assert Preenchida(Texto(a + "," + b)) && Preenchida(Texto(a + "." + b));
  }

  /** A number cell reads as its own value when its text is its digits. */
  lemma DecimalDeNumeroInteiro(k: nat)
    requires k > 0
    ensures ParseDecimal(Numero(k as real, NatToString(k))) == k as real
  {
    var s := NatToString(k);
    assert ',' !in s;
    assert !IsWhitespace(s[0]);
    TrimStartKeeps(s);
    DigitRunAll(s);
    assert s[..|s|] == s;
    DigitsValueOfNatToString(k);
  }

  // ---------------------------------------------------------------------------
  // parseDate

  /** What `parseDate` returns: a time value; local midnight of a day number (`new Date(y, m, d)`);
      or `new Date(text)` for text in none of the three formats, whose parsing is the engine's. */
  datatype DataLida = Instante(ms: int) | MeiaNoite(dia: int) | DataDoTexto(s: string)

  predicate Digitos(s: string, i: nat, j: nat) {
    i <= j <= |s| && AllDigits(s[i..j])
  }

  /** `^(\d{2})\/(\d{2})\/(\d{4})$` */
  predicate FormatoBarras(s: string) {
    |s| == 10 && Digitos(s, 0, 2) && s[2] == '/' && Digitos(s, 3, 5) && s[5] == '/' && Digitos(s, 6, 10)
  }

  /** `^(\d{4})-(\d{2})-(\d{2})$` */
  predicate FormatoIso(s: string) {
    |s| == 10 && Digitos(s, 0, 4) && s[4] == '-' && Digitos(s, 5, 7) && s[7] == '-' && Digitos(s, 8, 10)
  }

  /** `^(\d{2})-(\d{2})-(\d{4})$` */
  predicate FormatoHifens(s: string) {
    |s| == 10 && Digitos(s, 0, 2) && s[2] == '-' && Digitos(s, 3, 5) && s[5] == '-' && Digitos(s, 6, 10)
  }

  /** No text has two of the three formats, so the order in which they are tried does not matter. */
  lemma FormatosExclusivos(s: string)
    ensures !(FormatoBarras(s) && FormatoIso(s))
    ensures !(FormatoBarras(s) && FormatoHifens(s))
    ensures !(FormatoIso(s) && FormatoHifens(s))
  {
    if FormatoIso(s) {
      assert s[..4][2] == s[2];
    }
  }

  /** The day of `new Date(parseInt(ano), parseInt(mes) - 1, parseInt(dia))`. */
  function DiaDe(ano: string, mes: string, dia: string): int
    requires AllDigits(ano) && AllDigits(mes) && AllDigits(dia)
  {
    MakeDay(ConstructorYear(DigitsValue(ano)), DigitsValue(mes) - 1, DigitsValue(dia))
  }

  /** The day a text in one of the three formats names. */
  function DataNoTexto(s: string): (r: Option<int>)
    ensures r.Some? <==> FormatoBarras(s) || FormatoIso(s) || FormatoHifens(s)
  {
    if FormatoBarras(s) || FormatoHifens(s) then Some(DiaDe(s[6..10], s[3..5], s[0..2]))
    else if FormatoIso(s) then Some(DiaDe(s[0..4], s[5..7], s[8..10]))
    else None
  }

  /** `parseDate`: the current time for an empty cell; a date cell as it is; a number as an Excel
      serial (days since 30 December 1899) rounded to the millisecond; text in one of the three
      formats as local midnight of that day; anything else through `new Date`, which reads `true`
      as the time value 1. */
  function ParseDate(c: Celula, agora: int): (r: DataLida)
    ensures !Preenchida(c) ==> r == Instante(agora)
    ensures c.Data? ==> r == Instante(c.ms)
    ensures Preenchida(c) && c.Texto? ==> (r.MeiaNoite? <==> DataNoTexto(c.s).Some?)
  {
    if !Preenchida(c) then Instante(agora)
    else
      match c
      case Data(ms, _) => Instante(ms)
      case Numero(n, _) => Instante(MathRound((n - 25569.0) * 86400.0 * 1000.0))
      case Booleano(_) => Instante(1)
      case Texto(s) =>
        match DataNoTexto(s)
        case Some(dia) => MeiaNoite(dia)
        case None => DataDoTexto(s)
  }

  /** A whole Excel serial `k` is midnight UTC of the day `k` days after 30 December 1899; serial
      25569 is the epoch. */
  lemma SerialExcel(k: int)
    requires k != 0
    ensures ParseDate(Numero(k as real, NatToString(0)), 0) == Instante(MakeDate(MakeDay(1899, 11, 30) + k, 0))
    ensures MakeDay(1899, 11, 30) + 25569 == 0
  {
    SerialEpoch();
    var x := (k as real - 25569.0) * 86400.0 * 1000.0;
    assert x == ((k - 25569) * MS_PER_DAY) as real;
  }

  /** 30 December 1899 is 25569 days before the epoch. */
  lemma SerialEpoch()
    ensures MakeDay(1899, 11, 30) == -25569
  {
    assert 11 / 12 == 0 && 11 % 12 == 11;
    assert DayFromYear(1899) == -25932 by {
      assert (1899 - 1969) / 4 == -18 && (1899 - 1901) / 100 == -1 && (1899 - 1601) / 400 == 0;
    }
    assert !IsLeapYear(1899);
    assert DaysBeforeMonth(1899, 11) == 334;
  }

  /** The day and month written with two digits and the year with four. */
  function Ano4(y: nat): string
    requires y <= 9999
  {
    Pad2(y / 100) + Pad2(y % 100)
  }

  lemma Ano4Value(y: nat)
    requires y <= 9999
    ensures |Ano4(y)| == 4 && AllDigits(Ano4(y)) && DigitsValue(Ano4(y)) == y
  {
    DigitsValueAppend(Pad2(y / 100), Pad2(y % 100));
  }

  /** A text of the form DD/MM/YYYY is read as the day its three parts name. */
  lemma TextoBarras(dd: string, mm: string, yy: string, agora: int)
    requires |dd| == 2 && |mm| == 2 && |yy| == 4 && AllDigits(dd) && AllDigits(mm) && AllDigits(yy)
    ensures ParseDate(Texto(dd + "/" + mm + "/" + yy), agora) == MeiaNoite(DiaDe(yy, mm, dd))
  {
    var s := dd + "/" + mm + "/" + yy;
    assert s[0..2] == dd && s[3..5] == mm && s[6..10] == yy;
    assert FormatoBarras(s);
  }

  /** A text of the form YYYY-MM-DD is read as the day its three parts name. */
  lemma TextoIso(dd: string, mm: string, yy: string, agora: int)
    requires |dd| == 2 && |mm| == 2 && |yy| == 4 && AllDigits(dd) && AllDigits(mm) && AllDigits(yy)
    ensures ParseDate(Texto(yy + "-" + mm + "-" + dd), agora) == MeiaNoite(DiaDe(yy, mm, dd))
  {
    var s := yy + "-" + mm + "-" + dd;
    assert s[0..4] == yy && s[5..7] == mm && s[8..10] == dd;
    assert FormatoIso(s);
    FormatosExclusivos(s);
  }

  /** A text of the form DD-MM-YYYY is read as the day its three parts name. */
  lemma TextoHifens(dd: string, mm: string, yy: string, agora: int)
    requires |dd| == 2 && |mm| == 2 && |yy| == 4 && AllDigits(dd) && AllDigits(mm) && AllDigits(yy)
    ensures ParseDate(Texto(dd + "-" + mm + "-" + yy), agora) == MeiaNoite(DiaDe(yy, mm, dd))
  {
    var s := dd + "-" + mm + "-" + yy;
    assert s[0..2] == dd && s[3..5] == mm && s[6..10] == yy;
    assert FormatoHifens(s);
  }

  /** The parts written for a day, a month and a year name that day of that month. */
  lemma DiaEscrito(d: nat, m: nat, y: nat)
    requires d < 100 && m < 100 && y <= 9999
    ensures |Pad2(d)| == 2 && |Pad2(m)| == 2 && |Ano4(y)| == 4
    ensures AllDigits(Pad2(d)) && AllDigits(Pad2(m)) && AllDigits(Ano4(y))
    ensures DiaDe(Ano4(y), Pad2(m), Pad2(d)) == MakeDay(ConstructorYear(y), m - 1, d)
  {
    Ano4Value(y);
  }

  /** A date written as DD/MM/YYYY, YYYY-MM-DD or DD-MM-YYYY reads back as local midnight of that
      day, for a year from 100 on; out-of-range days and months carry over as `new Date` does. */
  lemma DataEscritaLida(d: nat, m: nat, y: nat, agora: int)
    requires 1 <= d < 100 && 1 <= m < 100 && 100 <= y <= 9999
    ensures ParseDate(Texto(Pad2(d) + "/" + Pad2(m) + "/" + Ano4(y)), agora) == MeiaNoite(MakeDay(y, m - 1, d))
    ensures ParseDate(Texto(Ano4(y) + "-" + Pad2(m) + "-" + Pad2(d)), agora) == MeiaNoite(MakeDay(y, m - 1, d))
    ensures ParseDate(Texto(Pad2(d) + "-" + Pad2(m) + "-" + Ano4(y)), agora) == MeiaNoite(MakeDay(y, m - 1, d))
  {
    DiaEscrito(d, m, y);
    var dd, mm, yy := Pad2(d), Pad2(m), Ano4(y);
    TextoBarras(dd, mm, yy, agora);
    TextoIso(dd, mm, yy, agora);
    TextoHifens(dd, mm, yy, agora);
  }

  /** A year written 0000 to 0099 is read in the twentieth century. */
  lemma AnoDeDoisDigitos(d: nat, m: nat, y: nat, agora: int)
    requires 1 <= d < 100 && 1 <= m < 100 && y <= 99
    ensures ParseDate(Texto(Pad2(d) + "/" + Pad2(m) + "/" + Ano4(y)), agora) == MeiaNoite(MakeDay(1900 + y, m - 1, d))
  {
    DiaEscrito(d, m, y);
    var dd, mm, yy := Pad2(d), Pad2(m), Ano4(y);
    TextoBarras(dd, mm, yy, agora);
  }

  // ---------------------------------------------------------------------------
  // Category and payment method references

  /** A registered category and a registered payment method, as the lookups read them. */
  datatype CategoriaCadastrada = CategoriaCadastrada(id: string, descricao: Option<string>, nome: Option<string>)

  datatype FormaCadastrada = FormaCadastrada(id: string, nome: Option<string>)

  /** The lookups built before the rows are read: ids, and ids by lower-case trimmed name. */
  datatype Referencias = Referencias(categoriaPorId: set<string>, categoriaPorNome: map<string, string>,
                                     formaPorId: set<string>, formaPorNome: map<string, string>)

  /** `new Map(entries.filter(e => e.key))`: the entries with a non-empty key, each key with the
      value of its last entry. */
  function MapaDeNomes(es: seq<(string, string)>): (m: map<string, string>)
    ensures forall k :: k in m <==> k != "" && exists i :: 0 <= i < |es| && es[i].0 == k
    ensures forall i :: 0 <= i < |es| && es[i].0 != "" && (forall j :: i < j < |es| ==> es[j].0 != es[i].0) ==>
      m[es[i].0] == es[i].1
  {
    if |es| == 0 then map[]
    else
      var n := |es| - 1;
      assert es == es[..n] + [es[n]];
      var m0 := MapaDeNomes(es[..n]);
      if es[n].0 == "" then m0 else m0[es[n].0 := es[n].1]
  }

  /** The name key of a registered category: its description, else its name, trimmed and in lower case. */
  function ChaveDaCategoria(c: CategoriaCadastrada): string {
    ToLower(Trim(StringOr(c.descricao, StringOr(c.nome, ""))))
  }

  function ChaveDaForma(f: FormaCadastrada): string {
    ToLower(Trim(StringOr(f.nome, "")))
  }

  /** The (name key, id) entries of the registered categories, in order. */
  function EntradasDeCategorias(categorias: seq<CategoriaCadastrada>): (es: seq<(string, string)>)
    ensures |es| == |categorias|
    ensures forall i :: 0 <= i < |categorias| ==> es[i] == (ChaveDaCategoria(categorias[i]), categorias[i].id)
  {
    seq(|categorias|, i requires 0 <= i < |categorias| => (ChaveDaCategoria(categorias[i]), categorias[i].id))
  }

  function EntradasDeFormas(formas: seq<FormaCadastrada>): (es: seq<(string, string)>)
    ensures |es| == |formas|
    ensures forall i :: 0 <= i < |formas| ==> es[i] == (ChaveDaForma(formas[i]), formas[i].id)
  {
    seq(|formas|, i requires 0 <= i < |formas| => (ChaveDaForma(formas[i]), formas[i].id))
  }

  /** The lookups of a user's categories and payment methods: every id, and (by `MapaDeNomes`)
      every non-empty name key with the id of the last record that has it. */
  function Referenciar(categorias: seq<CategoriaCadastrada>, formas: seq<FormaCadastrada>): (refs: Referencias)
    ensures forall id :: id in refs.categoriaPorId <==> exists i :: 0 <= i < |categorias| && categorias[i].id == id
    ensures forall id :: id in refs.formaPorId <==> exists i :: 0 <= i < |formas| && formas[i].id == id
  {
    var ec := EntradasDeCategorias(categorias);
    var ef := EntradasDeFormas(formas);
    Referencias(set i | 0 <= i < |categorias| :: categorias[i].id, MapaDeNomes(ec),
                set i | 0 <= i < |formas| :: formas[i].id, MapaDeNomes(ef))
  }

  /** `resolveCategoriaId` and `resolveFormaId`: no reference for an empty cell or blank text; the
      trimmed text when it is a known id; otherwise the id registered under its lower-case form; and
      an error naming the text when there is none. */
  function ResolverId(val: Celula, porId: set<string>, porNome: map<string, string>, rotulo: string)
    : (r: Result<Option<string>>)
    ensures r == Ok(None) <==> !Preenchida(val) || IsBlank(TextoDaCelula(val))
    ensures Preenchida(val) && !IsBlank(TextoDaCelula(val)) ==>
      var s := Trim(TextoDaCelula(val));
      (s in porId ==> r == Ok(Some(s)))
      && (s !in porId && ToLower(s) in porNome && porNome[ToLower(s)] != "" ==> r == Ok(Some(porNome[ToLower(s)])))
      && (s !in porId && (ToLower(s) !in porNome || porNome[ToLower(s)] == "") ==>
            r == Err(rotulo + " não encontrada: \"" + s + "\""))
  {
    if !Preenchida(val) then Ok(None)
    else
      var s := Trim(TextoDaCelula(val));
      TrimEmptyIffBlank(TextoDaCelula(val));
      if s == "" then Ok(None)
      else if s in porId then Ok(Some(s))
      else
        var key := ToLower(s);
        if key in porNome && porNome[key] != "" then Ok(Some(porNome[key]))
        else Err(rotulo + " não encontrada: \"" + s + "\"")
  }

  function ResolveCategoriaId(val: Celula, refs: Referencias): Result<Option<string>> {
    ResolverId(val, refs.categoriaPorId, refs.categoriaPorNome, "Categoria")
  }

  function ResolveFormaId(val: Celula, refs: Referencias): Result<Option<string>> {
    ResolverId(val, refs.formaPorId, refs.formaPorNome, "Forma de pagamento")
  }

  lemma WhitespaceToUpper(s: string)
    ensures IsBlank(ToUpper(s)) <==> IsBlank(s)
  {
  }

  /** Names resolve whatever their letter case: a name typed in capitals finds what it finds typed
      as registered, as long as neither spelling is itself an id. */
  lemma ResolverIgnoraCaixa(x: string, porId: set<string>, porNome: map<string, string>, rotulo: string)
    requires ResolverId(Texto(x), porId, porNome, rotulo).Ok?
    requires Trim(x) !in porId && Trim(ToUpper(x)) !in porId
    ensures ResolverId(Texto(ToUpper(x)), porId, porNome, rotulo) == ResolverId(Texto(x), porId, porNome, rotulo)
  {
    ResolvidoPeloNome(x, porId, porNome, rotulo);
    ChaveSemCaixa(x);
    ResolverMesmaChave(x, ToUpper(x), porId, porNome, rotulo);
  }

  /** Text that is not an id resolves only when it is blank or its key is registered. */
  lemma ResolvidoPeloNome(x: string, porId: set<string>, porNome: map<string, string>, rotulo: string)
    requires ResolverId(Texto(x), porId, porNome, rotulo).Ok? && Trim(x) !in porId
    ensures IsBlank(x) || (ToLower(Trim(x)) in porNome && porNome[ToLower(Trim(x))] != "")
  {
    if !IsBlank(x) {
      assert Preenchida(Texto(x));
    }
  }

  /** Capitals change neither the lower-case key of a text nor whether it is blank. */
  lemma ChaveSemCaixa(x: string)
    ensures ToLower(Trim(ToUpper(x))) == ToLower(Trim(x))
    ensures IsBlank(ToUpper(x)) <==> IsBlank(x)
  {
    var u := ToUpper(x);
    TrimToLower(u);
    TrimToLower(x);
    ToLowerToUpper(x);
    calc {
      ToLower(Trim(u));
      Trim(ToLower(u));
      Trim(ToLower(x));
      ToLower(Trim(x));
    }
    WhitespaceToUpper(x);
  }

  /** Two texts that are not ids, are blank alike and share a registered key resolve alike. */
  lemma ResolverMesmaChave(a: string, b: string, porId: set<string>, porNome: map<string, string>, rotulo: string)
    requires Trim(a) !in porId && Trim(b) !in porId
    requires ToLower(Trim(a)) == ToLower(Trim(b)) && (IsBlank(a) <==> IsBlank(b))
    requires IsBlank(a) || (ToLower(Trim(a)) in porNome && porNome[ToLower(Trim(a))] != "")
    ensures ResolverId(Texto(a), porId, porNome, rotulo) == ResolverId(Texto(b), porId, porNome, rotulo)
  {
    TrimEmptyIffBlank(a);
    TrimEmptyIffBlank(b);
  }

  /** A registered category's description or name, typed in any letter case and with blanks around
      it, resolves to that category, when no later category has the same name and the typed text is
      not an id. */
  lemma CategoriaPeloNome(categorias: seq<CategoriaCadastrada>, formas: seq<FormaCadastrada>, i: nat, x: string)
    requires i < |categorias| && ChaveDaCategoria(categorias[i]) != "" && categorias[i].id != ""
    requires forall j :: i < j < |categorias| ==> ChaveDaCategoria(categorias[j]) != ChaveDaCategoria(categorias[i])
    requires Trim(x) != "" && ToLower(Trim(x)) == ChaveDaCategoria(categorias[i])
    requires Trim(x) !in Referenciar(categorias, formas).categoriaPorId
    ensures ResolveCategoriaId(Texto(x), Referenciar(categorias, formas)) == Ok(Some(categorias[i].id))
  {
    var refs := Referenciar(categorias, formas);
    var ec := EntradasDeCategorias(categorias);
    assert forall j :: i < j < |ec| ==> ec[j].0 != ec[i].0;
    assert MapaDeNomes(ec)[ec[i].0] == categorias[i].id;
    ResolverPeloNome(x, refs.categoriaPorId, refs.categoriaPorNome, "Categoria");
  }

  lemma ResolverPeloNome(x: string, porId: set<string>, porNome: map<string, string>, rotulo: string)
    requires Trim(x) !in porId && ToLower(Trim(x)) in porNome && porNome[ToLower(Trim(x))] != ""
    requires Trim(x) != ""
    ensures ResolverId(Texto(x), porId, porNome, rotulo) == Ok(Some(porNome[ToLower(Trim(x))]))
  {
    TrimEmptyIffBlank(x);
  }

  // ---------------------------------------------------------------------------
  // parseRowData

  datatype TipoConta = APagar | AReceber

  /** The records a row becomes. A payable's settlement date is its payment date and a receivable's
      its receipt date. */
  datatype Registro =
    | Conta(conta: TipoConta, userId: string, descricao: string, valor: real, dataVencimento: DataLida,
            dataQuitacao: Option<DataLida>, status: string, categoriaId: Option<string>,
            formaPagamentoId: Option<string>, origem: string)
    | NovaCategoria(userId: string, nome: string, descricao: string, tipo: string, ativo: bool)
    | NovaForma(userId: string, nome: string)

  function CampoDeQuitacao(conta: TipoConta): Campo {
    if conta == APagar then DataPagamento else DataRecebimento
  }

  function StatusQuitado(conta: TipoConta): string {
    if conta == APagar then "pago" else "recebido"
  }

  const FALTAM_CAMPOS_CONTA := "Campos obrigatórios faltando: Descrição, Valor, Data de Vencimento"

  /** A payable or receivable row. Description, amount and due date are required; the status is
      settled exactly when the settlement date cell is filled; the category is resolved before the
      payment method, so its error is the one reported when both fail. */
  function ContaDaLinha(row: seq<Celula>, mapping: map<Campo, string>, conta: TipoConta, userId: string,
                        refs: Referencias, agora: int): (r: Result<Registro>)
    ensures var d, v, venc := ValorDoCampo(row, mapping, Descricao), ValorDoCampo(row, mapping, Valor),
                              ValorDoCampo(row, mapping, DataVencimento);
      && (!Preenchida(d) || !Preenchida(v) || !Preenchida(venc) ==> r == Err(FALTAM_CAMPOS_CONTA))
      && (r.Ok? ==> Preenchida(d) && Preenchida(v) && Preenchida(venc))
      && (r.Ok? ==> r.value.Conta? && r.value.conta == conta && r.value.userId == userId && r.value.origem == "EXCEL"
                    && r.value.descricao == TextoDaCelula(d) && r.value.valor == ParseDecimal(v)
                    && r.value.dataVencimento == ParseDate(venc, agora))
    ensures var q := ValorDoCampo(row, mapping, CampoDeQuitacao(conta));
      r.Ok? ==> (r.value.status == StatusQuitado(conta) <==> Preenchida(q))
                && (r.value.status == "pendente" <==> !Preenchida(q))
                && (r.value.dataQuitacao.Some? <==> Preenchida(q))
                && (Preenchida(q) ==> r.value.dataQuitacao == Some(ParseDate(q, agora)))
    ensures var cat, forma := ResolveCategoriaId(ValorDoCampo(row, mapping, Categoria), refs),
                              ResolveFormaId(ValorDoCampo(row, mapping, FormaPagamento), refs);
      && (r.Ok? ==> cat.Ok? && forma.Ok? && r.value.categoriaId == cat.value && r.value.formaPagamentoId == forma.value)
      && (r.Err? && r.error != FALTAM_CAMPOS_CONTA ==> (cat.Err? && r.error == cat.error) || (cat.Ok? && forma.Err? && r.error == forma.error))
  {
    var d := ValorDoCampo(row, mapping, Descricao);
    var v := ValorDoCampo(row, mapping, Valor);
    var venc := ValorDoCampo(row, mapping, DataVencimento);
    if !Preenchida(d) || !Preenchida(v) || !Preenchida(venc) then Err(FALTAM_CAMPOS_CONTA)
    else
      var q := ValorDoCampo(row, mapping, CampoDeQuitacao(conta));
      var cat := ResolveCategoriaId(ValorDoCampo(row, mapping, Categoria), refs);
      if cat.Err? then Err(cat.error)
      else
        var forma := ResolveFormaId(ValorDoCampo(row, mapping, FormaPagamento), refs);
        if forma.Err? then Err(forma.error)
        else
          Ok(Conta(conta, userId, TextoDaCelula(d), ParseDecimal(v), ParseDate(venc, agora),
                   if Preenchida(q) then Some(ParseDate(q, agora)) else None,
                   if Preenchida(q) then StatusQuitado(conta) else "pendente",
                   cat.value, forma.value, "EXCEL"))
  }

  /** Upper-casing a text whose lower case is plain ASCII letters gives those letters in capitals. */
  lemma MaiusculasDeTextoSimples(t: string, w: string)
    requires ToLower(t) == w && forall i :: 0 <= i < |w| ==> IsAsciiLower(w[i])
    ensures ToUpper(t) == ToUpper(w)
  {
    forall i | 0 <= i < |t| ensures ToUpper(t)[i] == ToUpper(w)[i] {
      assert ToLowerChar(t[i]) == w[i];
    }
  }

  predicate TipoValido(t: string) {
    ToLower(t) == "receita" || ToLower(t) == "despesa"
  }

  /** A valid category type, in whatever letter case it was typed, upper-cases to "RECEITA" or
      "DESPESA". */
  lemma TipoEmMaiusculas(t: string)
    requires TipoValido(t)
    ensures ToUpper(t) == if ToLower(t) == "receita" then "RECEITA" else "DESPESA"
  {
    if ToLower(t) == "receita" {
      MaiusculasDeTextoSimples(t, "receita");
      assert ToUpper("receita") == "RECEITA";
    } else {
      MaiusculasDeTextoSimples(t, "despesa");
      assert ToUpper("despesa") == "DESPESA";
    }
  }

  const TIPO_INVALIDO := "Tipo deve ser \"receita\" ou \"despesa\""

  /** A category row: description and type are required, the type must be "receita" or "despesa"
      in any letter case, and it is stored as "RECEITA" or "DESPESA". */
  function CategoriaDaLinha(row: seq<Celula>, mapping: map<Campo, string>, userId: string): (r: Result<Registro>)
    ensures var d, t := ValorDoCampo(row, mapping, Descricao), ValorDoCampo(row, mapping, Tipo);
      && (!Preenchida(d) || !Preenchida(t) ==> r == Err("Campos obrigatórios faltando: Descrição, Tipo"))
      && (Preenchida(d) && Preenchida(t) && !TipoValido(TextoDaCelula(t)) ==> r == Err(TIPO_INVALIDO))
      && (Preenchida(d) && Preenchida(t) && TipoValido(TextoDaCelula(t)) ==>
            r == Ok(NovaCategoria(userId, TextoDaCelula(d), TextoDaCelula(d),
                                  if ToLower(TextoDaCelula(t)) == "receita" then "RECEITA" else "DESPESA", true)))
  {
    var d := ValorDoCampo(row, mapping, Descricao);
    var t := ValorDoCampo(row, mapping, Tipo);
    if !Preenchida(d) || !Preenchida(t) then Err("Campos obrigatórios faltando: Descrição, Tipo")
    else if !TipoValido(TextoDaCelula(t)) then Err(TIPO_INVALIDO)
    else
      TipoEmMaiusculas(TextoDaCelula(t));
      Ok(NovaCategoria(userId, TextoDaCelula(d), TextoDaCelula(d), ToUpper(TextoDaCelula(t)), true))
  }

  /** A payment method row: the name is required. */
  function FormaDaLinha(row: seq<Celula>, mapping: map<Campo, string>, userId: string): (r: Result<Registro>)
    ensures var n := ValorDoCampo(row, mapping, Nome);
      (r.Ok? <==> Preenchida(n))
      && (r.Err? ==> r.error == "Campo obrigatório faltando: Nome")
      && (r.Ok? ==> r == Ok(NovaForma(userId, TextoDaCelula(n))))
  {
    var n := ValorDoCampo(row, mapping, Nome);
    if !Preenchida(n) then Err("Campo obrigatório faltando: Nome")
    else Ok(NovaForma(userId, TextoDaCelula(n)))
  }

  /** `parseRowData`: the row read as the record of the import type; an unknown type is an error. */
  function ParseRowData(row: seq<Celula>, mapping: map<Campo, string>, tipo: string, userId: string,
                        refs: Referencias, agora: int): (r: Result<Registro>)
    ensures TipoDe(tipo).None? ==> r == Err("Tipo de dados não suportado")
    ensures r.Ok? ==> r.value.userId == userId
    ensures r.Ok? && tipo == "contas_pagar" ==> r.value.Conta? && r.value.conta == APagar
    ensures r.Ok? && tipo == "contas_receber" ==> r.value.Conta? && r.value.conta == AReceber
    ensures r.Ok? && tipo == "categorias" ==> r.value.NovaCategoria?
    ensures r.Ok? && tipo == "formas_pagamento" ==> r.value.NovaForma?
  {
    match TipoDe(tipo)
    case None => Err("Tipo de dados não suportado")
    case Some(ContasPagar) => ContaDaLinha(row, mapping, APagar, userId, refs, agora)
    case Some(ContasReceber) => ContaDaLinha(row, mapping, AReceber, userId, refs, agora)
    case Some(Categorias) => CategoriaDaLinha(row, mapping, userId)
    case Some(FormasPagamento) => FormaDaLinha(row, mapping, userId)
  }
}
