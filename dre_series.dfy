/** The DRE (income statement) series endpoint: it parses the requested
    `YYYY-MM` months, and buckets sales of both channels (Mercado Livre and
    Shopee) and payable bills into those months
    (src/app/api/financeiro/dre/series/route.ts). */
module DreSeries {
  import opened Wrappers
  import opened Strings
  import opened Folds
  import opened Sorting
  import opened Calendar
  import opened Money

  // ---------------------------------------------------------------------------
  // Months

  /** A parsed month: its year, its month (1 to 12) and the time values of its first and last
      millisecond. */
  datatype ParsedMonth = ParsedMonth(ano: int, mes: nat, start: int, end: int)

  /** `parseMesKey`: exactly four digits, a dash and two digits naming a month 1 to 12. The key's
      year is kept as written; the first and last instants are built by `new Date(ano, ...)`, which
      reads a year from 0 to 99 as 1900 to 1999. */
  function ParseMesKey(key: string): (r: Option<ParsedMonth>)
    ensures r.Some? <==> |key| == 7 && key[4] == '-' && AllDigits(key[..4]) && AllDigits(key[5..])
                         && 1 <= DigitsValue(key[5..]) <= 12
    ensures r.Some? ==> 1 <= r.value.mes <= 12 && 0 <= r.value.ano <= 9999
    ensures r.Some? ==> r.value.ano == DigitsValue(key[..4]) && r.value.mes == DigitsValue(key[5..])
  {
    if |key| != 7 || key[4] != '-' || !AllDigits(key[..4]) || !AllDigits(key[5..]) then None
    else
      var ano := DigitsValue(key[..4]);
      var mes := DigitsValue(key[5..]);
      if mes < 1 || mes > 12 then None
      else
        DigitsBound(key[..4]);
        var y := ConstructorYear(ano);
        Some(ParsedMonth(ano, mes, MakeDate(MakeDay(y, mes - 1, 1), 0),
                         MakeDate(MakeDay(y, mes, 0), END_OF_DAY)))
  }

  /** A parsed month runs from the first millisecond of its first day to the last millisecond of
      its last day, in the year the `Date` constructor reads (a key "0050-03" spans March 1950). */
  lemma ParsedMonthSpan(key: string)
    requires ParseMesKey(key).Some?
    ensures var p := ParseMesKey(key).value; var y := ConstructorYear(p.ano);
      && p.start == TimeOf(DateTime(y, p.mes, 1, 0))
      && p.end == TimeOf(DateTime(y, p.mes, DaysInMonth(y, p.mes), END_OF_DAY))
      && p.end - p.start + 1 == DaysInMonth(y, p.mes) * MS_PER_DAY
      && (1000 <= p.ano ==> y == p.ano)
  {
    var p := ParseMesKey(key).value;
    DayZeroIsLastDay(ConstructorYear(p.ano), p.mes - 1);
  }

  /** The key written for a year of four digits and a month parses back to that year and month. */
  lemma MonthKeyParses(ano: int, mes: int)
    requires 1000 <= ano <= 9999 && 1 <= mes <= 12
    ensures ParseMesKey(MonthKey(ano, mes)).Some?
    ensures ParseMesKey(MonthKey(ano, mes)).value.ano == ano
    ensures ParseMesKey(MonthKey(ano, mes)).value.mes == mes
  {
    var y := NatToString(ano);
    NatToStringLength(ano, 4);
    DigitsValueOfNatToString(ano);
    DigitsBound(y);
    var key := MonthKey(ano, mes);
    assert key == y + "-" + Pad2(mes);
    assert key[..4] == y && key[5..] == Pad2(mes);
  }

  /** The key rebuilt from a parsed month (`${ano}-${pad2(mes)}`) is the requested key, except
      when the year was written with a leading zero, which `String(ano)` drops. */
  lemma ParsedKeyRoundTrip(key: string)
    requires ParseMesKey(key).Some?
    ensures var p := ParseMesKey(key).value; MonthKey(p.ano, p.mes) == key <==> key[0] != '0'
  {
    var p := ParseMesKey(key).value;
    var digits := key[..4];
    assert digits[0] == key[0];
    if key[0] != '0' {
      NatToStringOfDigits(digits);
      Pad2OfDigits(key[5..]);
      assert key == digits + "-" + key[5..];
    } else {
      LeadingZeroYear(digits);
      NatToStringLength(p.ano, 3);
    }
  }

  lemma LeadingZeroYear(digits: string)
    requires |digits| == 4 && AllDigits(digits) && digits[0] == '0'
    ensures DigitsValue(digits) < 1000
  {
    DigitsBound(digits[1..]);
    assert Pow10(3) == 1000;
    DigitsValueSkipZero(digits);
  }

  lemma {:induction false} DigitsValueSkipZero(s: string)
    requires |s| >= 1 && AllDigits(s) && s[0] == '0'
    ensures DigitsValue(s) == DigitsValue(s[1..])
    decreases |s|
  {
    if |s| > 1 {
      DigitsValueSkipZero(s[..|s| - 1]);
      assert s[..|s| - 1][1..] == s[1..][..|s| - 2];
    }
  }

  /** A comma-separated query parameter: `(param || "").split(",").map(s => s.trim()).filter(Boolean)`. */
  function ListParam(param: Option<string>): (r: seq<string>)
    ensures forall i :: 0 <= i < |r| ==> r[i] != "" && ',' !in r[i]
    ensures forall i :: 0 <= i < |r| ==> Trimmed(r[i])
  {
    var parts := Split(param.GetOr(""), ',');
    var trimmed := TrimAll(parts);
    assert forall i :: 0 <= i < |trimmed| ==> Trimmed(trimmed[i]);
    assert forall i :: 0 <= i < |trimmed| ==> ',' !in trimmed[i] by {
      forall i | 0 <= i < |trimmed| ensures ',' !in trimmed[i] {
        TrimInfix(parts[i]);
      }
    }
    Filter(trimmed, IsNonEmpty)
  }

  /** `parts.map(s => s.trim())` */
  function TrimAll(parts: seq<string>): (r: seq<string>)
    ensures |r| == |parts|
    ensures forall i :: 0 <= i < |r| ==> r[i] == Trim(parts[i])
  {
    seq(|parts|, i requires 0 <= i < |parts| => Trim(parts[i]))
  }

  /** No white space at either end, as `trim` leaves a string. */
  predicate Trimmed(t: string) {
    t == [] || (!IsWhitespace(t[0]) && !IsWhitespace(t[|t| - 1]))
  }

  /** `filter(Boolean)` on strings keeps the non-empty ones. */
  predicate IsNonEmpty(t: string) {
    t != ""
  }

  lemma TrimInfix(s: string)
    ensures forall c :: c in Trim(s) ==> c in s
  {
    var a := TrimStart(s);
    assert forall c :: c in TrimEnd(a) ==> c in a;
    assert forall c :: c in a ==> c in s;
  }

  /** The months that parse, in request order. */
  function ParseAll(keys: seq<string>): (r: seq<ParsedMonth>)
    ensures |r| <= |keys|
    ensures forall j :: 0 <= j < |r| ==> 1 <= r[j].mes <= 12
  {
    if |keys| == 0 then []
    else
      var init := ParseAll(keys[..|keys| - 1]);
      assert forall i :: 0 <= i < |keys| - 1 ==> keys[..|keys| - 1][i] == keys[i];
      match ParseMesKey(keys[|keys| - 1])
      case None => init
      case Some(p) => init + [p]
  }

  /** Every month of `r` is what some key of `keys` parses to. */
  predicate FromSomeKey(r: seq<ParsedMonth>, keys: seq<string>) {
    forall j :: 0 <= j < |r| ==> exists i :: 0 <= i < |keys| && ParseMesKey(keys[i]) == Some(r[j])
  }

  /** The parsed months are exactly those of the keys that parse: each comes from some key, and
      every key that parses gives one. */
  lemma {:induction false} ParseAllExactly(keys: seq<string>)
    ensures FromSomeKey(ParseAll(keys), keys)
    ensures forall i :: 0 <= i < |keys| && ParseMesKey(keys[i]).Some? ==> ParseMesKey(keys[i]).value in ParseAll(keys)
    decreases |keys|
  {
    if |keys| > 0 {
      var init := keys[..|keys| - 1];
      ParseAllExactly(init);
      assert forall i :: 0 <= i < |init| ==> init[i] == keys[i];
      var r, ri := ParseAll(keys), ParseAll(init);
      var last := ParseMesKey(keys[|keys| - 1]);
      assert r == if last.Some? then ri + [last.value] else ri;
      forall j | 0 <= j < |r|
        ensures exists i :: 0 <= i < |keys| && ParseMesKey(keys[i]) == Some(r[j])
      {
        if j < |ri| {
          assert FromSomeKey(ri, init);
          var i :| 0 <= i < |init| && ParseMesKey(init[i]) == Some(ri[j]);
          assert keys[i] == init[i];
        } else {
          assert ParseMesKey(keys[|keys| - 1]) == Some(r[j]);
        }
      }
    }
  }

  /** No month parses exactly when every key fails to parse. */
  lemma {:induction false} ParseAllEmpty(keys: seq<string>)
    ensures |ParseAll(keys)| == 0 <==> forall i :: 0 <= i < |keys| ==> ParseMesKey(keys[i]).None?
    decreases |keys|
  {
    if |keys| > 0 {
      var init := keys[..|keys| - 1];
      ParseAllEmpty(init);
      assert forall i :: 0 <= i < |init| ==> init[i] == keys[i];
    }
  }

  /** The order of line 66: by year, then by month. */
  predicate MesLe(a: ParsedMonth, b: ParsedMonth) {
    a.ano < b.ano || (a.ano == b.ano && a.mes <= b.mes)
  }

  lemma MesLeIsTotalPreorder()
    ensures TotalPreorder(MesLe)
  {
  }

  /** The valid requested months in ascending order, or the 400 error of the request. */
  function SortedMonths(meses: seq<string>): (r: Result<seq<ParsedMonth>>)
    ensures |meses| == 0 ==> r == Err("Meses não informados")
    ensures |meses| > 0 && |ParseAll(meses)| == 0 ==> r == Err("Meses inválidos")
    ensures r.Ok? ==> |r.value| > 0 && Sorted(r.value, MesLe) && multiset(r.value) == multiset(ParseAll(meses))
    ensures r.Ok? ==> forall j :: 0 <= j < |r.value| ==> 1 <= r.value[j].mes <= 12
    ensures r.Ok? <==> |ParseAll(meses)| > 0
  {
    if |meses| == 0 then Err("Meses não informados")
    else
      var parsed := ParseAll(meses);
      if |parsed| == 0 then Err("Meses inválidos")
      else Ok(SortMonths(parsed))
  }

  /** `parsed.sort(...)`: the same months, by year and then by month. */
  function SortMonths(ps: seq<ParsedMonth>): (r: seq<ParsedMonth>)
    requires forall j :: 0 <= j < |ps| ==> 1 <= ps[j].mes <= 12
    ensures |r| == |ps| && Sorted(r, MesLe) && multiset(r) == multiset(ps)
    ensures forall j :: 0 <= j < |r| ==> 1 <= r[j].mes <= 12
  {
    MesLeIsTotalPreorder();
    var sorted := Sort(ps, MesLe);
    PermutationElements(ps, sorted);
    sorted
  }

  /** A month as the endpoint returns it. */
  datatype MesInfo = MesInfo(key: string, displayLabel: string, ano: int, mes: nat)

  /** `monthLabel`: `MM/YYYY`. */
  function MonthLabel(ano: int, mes: nat): string {
    Pad2(mes) + "/" + IntToString(ano)
  }

  function ToMesInfo(p: ParsedMonth): MesInfo {
    MesInfo(MonthKey(p.ano, p.mes), MonthLabel(p.ano, p.mes), p.ano, p.mes)
  }

  /** The response months for parsed months, in the same order. */
  function ToMesInfos(ps: seq<ParsedMonth>): (r: seq<MesInfo>)
    requires forall j :: 0 <= j < |ps| ==> 1 <= ps[j].mes <= 12
    ensures |r| == |ps|
    ensures forall i :: 0 <= i < |r| ==> r[i].ano == ps[i].ano && r[i].mes == ps[i].mes
    ensures forall i :: 0 <= i < |r| ==> 1 <= r[i].mes <= 12 && r[i].key == MonthKey(r[i].ano, r[i].mes)
  {
    seq(|ps|, i requires 0 <= i < |ps| => ToMesInfo(ps[i]))
  }

  /** Each response month carries its `YYYY-MM` key and its `MM/YYYY` label. */
  lemma ToMesInfosLabels(ps: seq<ParsedMonth>, i: nat)
    requires forall j :: 0 <= j < |ps| ==> 1 <= ps[j].mes <= 12
    requires i < |ps|
    ensures ToMesInfos(ps)[i] == ToMesInfo(ps[i])
    ensures ToMesInfos(ps)[i].key == MonthKey(ps[i].ano, ps[i].mes)
    ensures ToMesInfos(ps)[i].displayLabel == MonthLabel(ps[i].ano, ps[i].mes)
  {
  }

  /** The months of the response (lines 56-72): the valid requested months, ascending. */
  function RequestedMonths(meses: seq<string>): (r: Result<seq<MesInfo>>)
    ensures r.Err? <==> SortedMonths(meses).Err?
    ensures r.Ok? ==> |r.value| == |ParseAll(meses)|
    ensures r.Ok? ==> forall i :: 0 <= i < |r.value| ==>
      1 <= r.value[i].mes <= 12 && r.value[i].key == MonthKey(r.value[i].ano, r.value[i].mes)
    ensures r.Ok? ==> forall i, j :: 0 <= i < j < |r.value| ==>
      r.value[i].ano < r.value[j].ano || (r.value[i].ano == r.value[j].ano && r.value[i].mes <= r.value[j].mes)
  {
    match SortedMonths(meses)
    case Err(e) => Err(e)
    case Ok(ps) =>
      var infos := ToMesInfos(ps);
      assert forall i, j :: 0 <= i < j < |ps| ==> MesLe(ps[i], ps[j]);
      Ok(infos)
  }
  /** With at least one valid key the response months are the sorted parsed months. */
  lemma RequestedMonthsOk(meses: seq<string>)
    requires |ParseAll(meses)| > 0
    ensures SortedMonths(meses).Ok?
    ensures RequestedMonths(meses) == Ok(ToMesInfos(SortedMonths(meses).value))
  {
  }

  /** Sorting keeps exactly the parsed months. */
  lemma SortedMonthsMembers(meses: seq<string>, p: ParsedMonth)
    requires SortedMonths(meses).Ok?
    ensures p in SortedMonths(meses).value <==> p in ParseAll(meses)
  {
    var ps, pa := SortedMonths(meses).value, ParseAll(meses);
    assert multiset(ps) == multiset(pa);
    assert p in ps <==> p in multiset(ps);
    assert p in pa <==> p in multiset(pa);
  }

  /** The month at position `k` of the parsed months comes from some key. */
  lemma ParsedFromKey(keys: seq<string>, k: nat)
    requires k < |ParseAll(keys)|
    ensures exists i :: 0 <= i < |keys| && ParseMesKey(keys[i]) == Some(ParseAll(keys)[k])
  {
    ParseAllExactly(keys);
    assert FromSomeKey(ParseAll(keys), keys);
  }

  /** A key that parses gives one of the parsed months. */
  lemma KeyIsParsed(keys: seq<string>, i: nat)
    requires i < |keys| && ParseMesKey(keys[i]).Some?
    ensures ParseMesKey(keys[i]).value in ParseAll(keys)
  {
    ParseAllExactly(keys);
  }

  /** Each response month is the month of some requested key that parses. */
  lemma RequestedMonthFromKey(meses: seq<string>, j: nat)
    requires RequestedMonths(meses).Ok? && j < |RequestedMonths(meses).value|
    ensures exists i :: 0 <= i < |meses| && ParseMesKey(meses[i]).Some? &&
                        RequestedMonths(meses).value[j] == ToMesInfo(ParseMesKey(meses[i]).value)
  {
    var pa := ParseAll(meses);
    RequestedMonthsOk(meses);
    var ps := SortedMonths(meses).value;
    ToMesInfosLabels(ps, j);
    assert ps[j] in ps;
    SortedMonthsMembers(meses, ps[j]);
    var k :| 0 <= k < |pa| && pa[k] == ps[j];
    ParsedFromKey(meses, k);
    var i :| 0 <= i < |meses| && ParseMesKey(meses[i]) == Some(pa[k]);
  }

  /** Each requested key that parses gives a response month: a valid key is never dropped. */
  lemma KeyGivesRequestedMonth(meses: seq<string>, i: nat)
    requires i < |meses| && ParseMesKey(meses[i]).Some?
    ensures RequestedMonths(meses).Ok?
    ensures ToMesInfo(ParseMesKey(meses[i]).value) in RequestedMonths(meses).value
  {
    var p := ParseMesKey(meses[i]).value;
    KeyIsParsed(meses, i);
    RequestedMonthsOk(meses);
    var ps := SortedMonths(meses).value;
    SortedMonthsMembers(meses, p);
    var j :| 0 <= j < |ps| && ps[j] == p;
    ToMesInfosLabels(ps, j);
  }




  // ---------------------------------------------------------------------------
  // Records read from the database

  /** A category (`categoria`): `tipo` is "DESPESA" or "RECEITA" in any case. */
  datatype Categoria = Categoria(id: string, nome: Option<string>, descricao: Option<string>,
                                 tipo: Option<string>)

  /** A bill to pay (`contaPagar`); `categoriaRelId` is the id of the joined category. */
  datatype ContaPagar = ContaPagar(valor: Option<real>, dataPagamento: Option<Date>,
                                   dataVencimento: Option<Date>, categoriaId: Option<string>,
                                   categoriaRelId: Option<string>)

  /** A sale of either channel, with the fields the series reads. */
  datatype Venda = Venda(valorTotal: Option<real>, taxaPlataforma: Option<real>, frete: Option<real>,
                         quantidade: Option<real>, sku: Option<string>, dataVenda: Option<Date>,
                         status: Option<string>)

  /** `Number(x || 0)` on a nullable amount. */
  function OrZero(x: Option<real>): real {
    if x.Some? then x.value else 0.0
  }

  /** `s || ""` on a nullable string. */
  function OrEmpty(s: Option<string>): string {
    if s.Some? then s.value else ""
  }

  /** A nullable string is truthy when present and not empty. */
  predicate Truthy(s: Option<string>) {
    s.Some? && s.value != ""
  }

  /** `isCanceled`: the status, lowercased, mentions "cancel"; a missing status is not cancelled. */
  predicate IsCanceled(status: Option<string>) {
    Truthy(status) && Contains(ToLower(status.value), "cancel")
  }

  /** `isCMVCategory`: name and description, joined by a space and lowercased, mention
      "cmv", "cpv" or "csp". */
  predicate IsCMVCategory(nome: Option<string>, descricao: Option<string>) {
    var s := ToLower(OrEmpty(nome) + " " + OrEmpty(descricao));
    Contains(s, "cmv") || Contains(s, "cpv") || Contains(s, "csp")
  }

  /** One field mentions a cost-of-goods marker. */
  predicate MentionsCmv(x: Option<string>) {
    var s := ToLower(OrEmpty(x));
    Contains(s, "cmv") || Contains(s, "cpv") || Contains(s, "csp")
  }

  /** The space that joins the two fields never creates or hides a marker: a category is a CMV
      category exactly when its name or its description mentions one. */
  lemma IsCMVCategoryEitherField(nome: Option<string>, descricao: Option<string>)
    ensures IsCMVCategory(nome, descricao) <==> MentionsCmv(nome) || MentionsCmv(descricao)
  {
    var a := ToLower(OrEmpty(nome));
    var b := ToLower(OrEmpty(descricao));
    ToLowerAppend(OrEmpty(nome) + " ", OrEmpty(descricao));
    ToLowerAppend(OrEmpty(nome), " ");
    assert ToLower(" ") == " ";
    assert ToLower(OrEmpty(nome) + " " + OrEmpty(descricao)) == a + [' '] + b;
    ContainsAcrossSeparator(a, ' ', b, "cmv");
    ContainsAcrossSeparator(a, ' ', b, "cpv");
    ContainsAcrossSeparator(a, ' ', b, "csp");
  }

  /** Categories of type DESPESA (`(c.tipo || "").toUpperCase() === "DESPESA"`). */
  predicate IsDespesa(c: Categoria) {
    ToUpper(OrEmpty(c.tipo)) == "DESPESA"
  }

  /** The category a bill is filed under: its own id, else the joined category's, else
      "sem_categoria". */
  function CatId(c: ContaPagar): (r: string)
    ensures r != ""
    ensures Truthy(c.categoriaId) ==> r == c.categoriaId.value
    ensures !Truthy(c.categoriaId) && Truthy(c.categoriaRelId) ==> r == c.categoriaRelId.value
    ensures !Truthy(c.categoriaId) && !Truthy(c.categoriaRelId) ==> r == "sem_categoria"
  {
    if Truthy(c.categoriaId) then c.categoriaId.value
    else if Truthy(c.categoriaRelId) then c.categoriaRelId.value
    else "sem_categoria"
  }

  /** The month a bill falls in: on a cash basis the payment date, else the due date; on an
      accrual basis always the due date. A bill without that date falls in no month. */
  function ContaMonth(c: ContaPagar, caixa: bool): Option<string> {
    var d := if caixa && c.dataPagamento.Some? then c.dataPagamento else c.dataVencimento;
    if d.Some? then Some(MonthKeyOf(d.value)) else None
  }

  function ContaMonthOf(caixa: bool): ContaPagar -> Option<string> {
    (c: ContaPagar) => ContaMonth(c, caixa)
  }

  /** The month a sale falls in; a sale without a date falls in none. */
  function VendaMonth(v: Venda): Option<string> {
    if v.dataVenda.Some? then Some(MonthKeyOf(v.dataVenda.value)) else None
  }

  function ValorConta(c: ContaPagar): real {
    OrZero(c.valor)
  }

  /** A bill's value when it is filed under one of the CMV categories, else 0. */
  function CmvConta(c: ContaPagar, cmvIds: set<string>): real {
    if CatId(c) in cmvIds then OrZero(c.valor) else 0.0
  }

  function CmvContaOf(cmvIds: set<string>): ContaPagar -> real {
    c => CmvConta(c, cmvIds)
  }

  /** A bill's value when it is filed under category `cat`, else 0. */
  function ValorCategoria(c: ContaPagar, cat: string): real {
    if CatId(c) == cat then OrZero(c.valor) else 0.0
  }

  function ValorCategoriaOf(cat: string): ContaPagar -> real {
    c => ValorCategoria(c, cat)
  }

  /** The unit cost of a sale's SKU, 0 when the SKU is missing or has no known cost. */
  function CustoUnit(custos: map<string, real>, sku: Option<string>): real {
    if Truthy(sku) && sku.value in custos then custos[sku.value] else 0.0
  }

  function ValorVenda(v: Venda): real {
    OrZero(v.valorTotal)
  }

  /** The cost of goods of one sale: unit cost times quantity, and 0 for a cancelled sale. */
  function CmvVenda(v: Venda, custos: map<string, real>): real {
    if IsCanceled(v.status) then 0.0 else CustoUnit(custos, v.sku) * OrZero(v.quantidade)
  }

  function CmvVendaOf(custos: map<string, real>): Venda -> real {
    v => CmvVenda(v, custos)
  }

  /** The fee of one sale as an expense: its absolute value, and 0 for a cancelled sale. */
  function TaxaVenda(v: Venda): real {
    if IsCanceled(v.status) then 0.0 else Abs(OrZero(v.taxaPlataforma))
  }

  /** The freight of one sale as an expense: its absolute value, and 0 for a cancelled sale. */
  function FreteVenda(v: Venda): real {
    if IsCanceled(v.status) then 0.0 else Abs(OrZero(v.frete))
  }

  /** The value a cancelled sale deducts from gross revenue. */
  function DeducaoVenda(v: Venda): real {
    if IsCanceled(v.status) then OrZero(v.valorTotal) else 0.0
  }

  /** The value a sale keeps in net revenue: its total unless cancelled. */
  function LiquidoVenda(v: Venda): real {
    if IsCanceled(v.status) then 0.0 else OrZero(v.valorTotal)
  }

  // ---------------------------------------------------------------------------
  // What each month's figure is: the sum over the records that fall in that month

  function DespesasNoMes(contas: seq<ContaPagar>, caixa: bool, k: string): real {
    AtKeySum(contas, ContaMonthOf(caixa), ValorConta, k)
  }

  function CmvContasNoMes(contas: seq<ContaPagar>, caixa: bool, cmvIds: set<string>, k: string): real {
    AtKeySum(contas, ContaMonthOf(caixa), CmvContaOf(cmvIds), k)
  }

  function CategoriaNoMes(contas: seq<ContaPagar>, caixa: bool, cat: string, k: string): real {
    AtKeySum(contas, ContaMonthOf(caixa), ValorCategoriaOf(cat), k)
  }

  function BrutoNoMes(vendas: seq<Venda>, k: string): real {
    AtKeySum(vendas, VendaMonth, ValorVenda, k)
  }

  function TaxasNoMes(vendas: seq<Venda>, k: string): real {
    AtKeySum(vendas, VendaMonth, TaxaVenda, k)
  }

  function FreteNoMes(vendas: seq<Venda>, k: string): real {
    AtKeySum(vendas, VendaMonth, FreteVenda, k)
  }

  function CmvVendasNoMes(vendas: seq<Venda>, custos: map<string, real>, k: string): real {
    AtKeySum(vendas, VendaMonth, CmvVendaOf(custos), k)
  }

  function DeducoesNoMes(vendas: seq<Venda>, k: string): real {
    AtKeySum(vendas, VendaMonth, DeducaoVenda, k)
  }

  /** `(valoresPorCategoriaMes[cat][key] || 0)`. */
  function PorCategoriaAt(v: map<string, map<string, real>>, cat: string, k: string): real {
    if cat in v && k in v[cat] then v[cat][k] else 0.0
  }

  // ---------------------------------------------------------------------------
  // The aggregation loops

  /** The four series of one channel, keyed by month. */
  datatype Canal = Canal(receitaBruta: map<string, real>, deducoes: map<string, real>,
                         taxas: map<string, real>, frete: map<string, real>)

  /** Every series the endpoint returns, keyed by month; `porCategoria` is keyed by category id
      and then by month. */
  datatype Series = Series(meli: Canal, shopee: Canal, despesas: map<string, real>,
                           cmv: map<string, real>, porCategoria: map<string, map<string, real>>)

  function MonthKeys(meses: seq<MesInfo>): set<string> {
    set i | 0 <= i < |meses| :: meses[i].key
  }

  predicate CanalOver(c: Canal, keys: set<string>) {
    c.receitaBruta.Keys == keys && c.deducoes.Keys == keys && c.taxas.Keys == keys && c.frete.Keys == keys
  }

  predicate CanalZeroAt(c: Canal, k: string)
    requires k in c.receitaBruta && k in c.deducoes && k in c.taxas && k in c.frete
  {
    c.receitaBruta[k] == 0.0 && c.deducoes[k] == 0.0 && c.taxas[k] == 0.0 && c.frete[k] == 0.0
  }

  /** Every requested month starts at 0 in every series; no category has values yet. */
  method ZeroSeries(meses: seq<MesInfo>) returns (s: Series)
    ensures CanalOver(s.meli, MonthKeys(meses)) && CanalOver(s.shopee, MonthKeys(meses))
    ensures s.despesas.Keys == MonthKeys(meses) && s.cmv.Keys == MonthKeys(meses)
    ensures s.porCategoria == map[]
    ensures forall k :: k in MonthKeys(meses) ==>
              CanalZeroAt(s.meli, k) && CanalZeroAt(s.shopee, k) && s.despesas[k] == 0.0 && s.cmv[k] == 0.0
  {
    // The ten series receive the same keys and zeros, so one map stands for each of them.
    var zeros: map<string, real> := map[];
    for i := 0 to |meses|
      invariant zeros.Keys == set j | 0 <= j < i :: meses[j].key
      invariant forall k :: k in zeros ==> zeros[k] == 0.0
    {
      zeros := zeros[meses[i].key := 0.0];
    }
    s := Series(Canal(zeros, zeros, zeros, zeros), Canal(zeros, zeros, zeros, zeros), zeros, zeros, map[]);
  }

  /** The ids of the expense categories whose name or description marks cost of goods. */
  ghost function CmvIds(despesa: seq<Categoria>): set<string> {
    set i | 0 <= i < |despesa| && IsCMVCategory(despesa[i].nome, despesa[i].descricao) :: despesa[i].id
  }

  /** `cmvCategoryIds`: collects the CMV categories among the expense categories. */
  method CmvCategoryIds(despesa: seq<Categoria>) returns (ids: set<string>)
    ensures ids == CmvIds(despesa)
  {
    ids := {};
    for i := 0 to |despesa|
      invariant ids == CmvIds(despesa[..i])
    {
      assert despesa[..i + 1][..i] == despesa[..i];
      if IsCMVCategory(despesa[i].nome, despesa[i].descricao) {
        ids := ids + {despesa[i].id};
      }
    }
    assert despesa[..|despesa|] == despesa;
  }

  /** A bill counted by the aggregation: dated, and dated in a requested month. */
  predicate Lands(c: ContaPagar, caixa: bool, keys: set<string>) {
    ContaMonth(c, caixa).Some? && ContaMonth(c, caixa).value in keys
  }

  /** `valoresPorCategoriaMes[cat][key] = (valoresPorCategoriaMes[cat][key] || 0) + x`, creating
      the category's row when missing. */
  function AddToCategoria(v: map<string, map<string, real>>, cat: string, key: string, x: real)
      : (r: map<string, map<string, real>>)
    ensures r.Keys == v.Keys + {cat}
    ensures r[cat].Keys == (if cat in v then v[cat].Keys else {}) + {key}
    ensures forall c :: c in v && c != cat ==> r[c] == v[c]
    ensures forall c, k :: PorCategoriaAt(r, c, k)
                         == PorCategoriaAt(v, c, k) + (if c == cat && k == key then x else 0.0)
  {
    var linha := if cat in v then v[cat] else map[];
    v[cat := linha[key := (if key in linha then linha[key] else 0.0) + x]]
  }

  /** What one pass of the loop over the bills does to the series: a bill dated in a requested
      month adds its value to its category's month, to the month's expenses and, for a CMV
      category, to the month's CMV; the sales series, the months and every other cell stay. */
  ghost predicate ContaAplicada(s0: Series, s: Series, c: ContaPagar, caixa: bool, cmvIds: set<string>) {
    && s0.cmv.Keys == s0.despesas.Keys
    && s.meli == s0.meli && s.shopee == s0.shopee
    && s.despesas.Keys == s0.despesas.Keys && s.cmv.Keys == s0.despesas.Keys
    && (forall k :: k in s0.despesas ==>
          s.despesas[k] == s0.despesas[k] + AtKey(ContaMonth(c, caixa), k, ValorConta(c))
          && s.cmv[k] == s0.cmv[k] + AtKey(ContaMonth(c, caixa), k, CmvConta(c, cmvIds)))
    && (forall cat, k :: k in s0.despesas ==>
          PorCategoriaAt(s.porCategoria, cat, k)
          == PorCategoriaAt(s0.porCategoria, cat, k) + AtKey(ContaMonth(c, caixa), k, ValorCategoria(c, cat)))
    && (forall cat :: cat in s.porCategoria ==> s.porCategoria[cat].Keys <= s0.despesas.Keys)
    && s.porCategoria.Keys
       == s0.porCategoria.Keys + (if Lands(c, caixa, s0.despesas.Keys) then {CatId(c)} else {})
  }

  /** The series after the first bills of the loop: `s0` plus each month's expenses, CMV and
      per-category values of `contas`, and the categories that landed. */
  ghost predicate ContasAcumuladas(s0: Series, s: Series, contas: seq<ContaPagar>, caixa: bool, cmvIds: set<string>) {
    var keys := s0.despesas.Keys;
    && s0.cmv.Keys == keys
    && s.meli == s0.meli && s.shopee == s0.shopee
    && s.despesas.Keys == keys && s.cmv.Keys == keys
    && (forall k :: k in keys ==> s.despesas[k] == s0.despesas[k] + DespesasNoMes(contas, caixa, k))
    && (forall k :: k in keys ==> s.cmv[k] == s0.cmv[k] + CmvContasNoMes(contas, caixa, cmvIds, k))
    && (forall cat, k :: k in keys ==>
          PorCategoriaAt(s.porCategoria, cat, k)
          == PorCategoriaAt(s0.porCategoria, cat, k) + CategoriaNoMes(contas, caixa, cat, k))
    && (forall cat :: cat in s.porCategoria ==> s.porCategoria[cat].Keys <= keys)
    && s.porCategoria.Keys == s0.porCategoria.Keys + CategoriasLancadas(contas, caixa, keys)
  }

  /** One pass of the loop over the bills: a bill dated in a requested month adds its value to
      its category's month, to the month's expenses and, for a CMV category, to the month's CMV;
      any other bill changes nothing. */
  method AddConta(s0: Series, c: ContaPagar, caixa: bool, cmvIds: set<string>) returns (s: Series)
    requires s0.cmv.Keys == s0.despesas.Keys
    requires forall cat :: cat in s0.porCategoria ==> s0.porCategoria[cat].Keys <= s0.despesas.Keys
    ensures ContaAplicada(s0, s, c, caixa, cmvIds)
  {
    s := s0;
    var month := ContaMonth(c, caixa);
    if month.Some? && month.value in s.despesas {
      var key := month.value;
      var cat := CatId(c);
      var v := OrZero(c.valor);
      s := s.(porCategoria := AddToCategoria(s.porCategoria, cat, key, v),
              despesas := s.despesas[key := s.despesas[key] + v]);
      if cat in cmvIds {
        s := s.(cmv := s.cmv[key := s.cmv[key] + v]);
      }
      assert Lands(c, caixa, s0.despesas.Keys);
      LancarConta(s0, s, c, caixa, cmvIds);
    } else {
      NaoLancarConta(s0, c, caixa, cmvIds);
    }
  }

  /** A bill dated in a requested month, added to its category's month, the month's expenses and,
      for a CMV category, the month's CMV. */
  lemma LancarConta(s0: Series, s: Series, c: ContaPagar, caixa: bool, cmvIds: set<string>)
    requires s0.cmv.Keys == s0.despesas.Keys
    requires forall cat :: cat in s0.porCategoria ==> s0.porCategoria[cat].Keys <= s0.despesas.Keys
    requires Lands(c, caixa, s0.despesas.Keys)
    requires var key, cat, v := ContaMonth(c, caixa).value, CatId(c), OrZero(c.valor);
      s == s0.(porCategoria := AddToCategoria(s0.porCategoria, cat, key, v),
               despesas := s0.despesas[key := s0.despesas[key] + v],
               cmv := if cat in cmvIds then s0.cmv[key := s0.cmv[key] + v] else s0.cmv)
    ensures ContaAplicada(s0, s, c, caixa, cmvIds)
  {
    var month := ContaMonth(c, caixa);
    var key, cat, v := month.value, CatId(c), OrZero(c.valor);
    forall cat', k | k in s0.despesas
      ensures PorCategoriaAt(s.porCategoria, cat', k)
              == PorCategoriaAt(s0.porCategoria, cat', k) + AtKey(month, k, ValorCategoria(c, cat'))
    {
      assert AtKey(month, k, ValorCategoria(c, cat')) == if cat' == cat && k == key then v else 0.0;
    }
  }

  /** A bill dated outside the requested months, or not dated, changes nothing. */
  lemma NaoLancarConta(s0: Series, c: ContaPagar, caixa: bool, cmvIds: set<string>)
    requires s0.cmv.Keys == s0.despesas.Keys
    requires forall cat :: cat in s0.porCategoria ==> s0.porCategoria[cat].Keys <= s0.despesas.Keys
    requires !Lands(c, caixa, s0.despesas.Keys)
    ensures ContaAplicada(s0, s0, c, caixa, cmvIds)
  {
  }

  /** The categories of the bills dated in one of the months `keys`. */
  function CategoriasLancadas(contas: seq<ContaPagar>, caixa: bool, keys: set<string>): set<string> {
    set j | 0 <= j < |contas| && Lands(contas[j], caixa, keys) :: CatId(contas[j])
  }

  lemma CategoriasLancadasStep(contas: seq<ContaPagar>, i: nat, caixa: bool, keys: set<string>)
    requires i < |contas|
    ensures CategoriasLancadas(contas[..i + 1], caixa, keys)
            == CategoriasLancadas(contas[..i], caixa, keys)
               + (if Lands(contas[i], caixa, keys) then {CatId(contas[i])} else {})
  {
    var prefix := contas[..i + 1];
    assert forall j :: 0 <= j < i ==> prefix[j] == contas[..i][j];
    assert prefix[i] == contas[i];
  }

  /** One more bill adds its share to the month's expenses and CMV. */
  lemma ContasStep(contas: seq<ContaPagar>, i: nat, caixa: bool, cmvIds: set<string>)
    requires i < |contas|
    ensures forall k ::
              DespesasNoMes(contas[..i + 1], caixa, k)
              == DespesasNoMes(contas[..i], caixa, k) + AtKey(ContaMonth(contas[i], caixa), k, ValorConta(contas[i]))
    ensures forall k ::
              CmvContasNoMes(contas[..i + 1], caixa, cmvIds, k)
              == CmvContasNoMes(contas[..i], caixa, cmvIds, k)
                 + AtKey(ContaMonth(contas[i], caixa), k, CmvConta(contas[i], cmvIds))
  {
    forall k
      ensures DespesasNoMes(contas[..i + 1], caixa, k)
              == DespesasNoMes(contas[..i], caixa, k) + AtKey(ContaMonth(contas[i], caixa), k, ValorConta(contas[i]))
      ensures CmvContasNoMes(contas[..i + 1], caixa, cmvIds, k)
              == CmvContasNoMes(contas[..i], caixa, cmvIds, k)
                 + AtKey(ContaMonth(contas[i], caixa), k, CmvConta(contas[i], cmvIds))
    {
      AtKeySumStep(contas, i, ContaMonthOf(caixa), ValorConta, k);
      AtKeySumStep(contas, i, ContaMonthOf(caixa), CmvContaOf(cmvIds), k);
    }
  }

  /** One more bill adds its value to its own category's month. */
  lemma CategoriaStep(contas: seq<ContaPagar>, i: nat, caixa: bool)
    requires i < |contas|
    ensures forall cat, k ::
              CategoriaNoMes(contas[..i + 1], caixa, cat, k)
              == CategoriaNoMes(contas[..i], caixa, cat, k)
                 + AtKey(ContaMonth(contas[i], caixa), k, ValorCategoria(contas[i], cat))
  {
    forall cat, k
      ensures CategoriaNoMes(contas[..i + 1], caixa, cat, k)
              == CategoriaNoMes(contas[..i], caixa, cat, k)
                 + AtKey(ContaMonth(contas[i], caixa), k, ValorCategoria(contas[i], cat))
    {
      AtKeySumStep(contas, i, ContaMonthOf(caixa), ValorCategoriaOf(cat), k);
    }
  }

  /** One more pass of the loop over the bills keeps the running totals. */
  lemma ContasAcumuladasStep(s0: Series, prev: Series, s: Series, contas: seq<ContaPagar>, i: nat,
                             caixa: bool, cmvIds: set<string>)
    requires i < |contas|
    requires ContasAcumuladas(s0, prev, contas[..i], caixa, cmvIds)
    requires ContaAplicada(prev, s, contas[i], caixa, cmvIds)
    ensures ContasAcumuladas(s0, s, contas[..i + 1], caixa, cmvIds)
  {
    CategoriasLancadasStep(contas, i, caixa, s0.despesas.Keys);
    ContasStep(contas, i, caixa, cmvIds);
    CategoriaStep(contas, i, caixa);
  }

  /** The loop over the bills (`for (const row of contasPagar)`). */
  method AddContasPagar(s0: Series, contas: seq<ContaPagar>, caixa: bool, cmvIds: set<string>)
      returns (s: Series)
    requires s0.cmv.Keys == s0.despesas.Keys
    requires forall cat :: cat in s0.porCategoria ==> s0.porCategoria[cat].Keys <= s0.despesas.Keys
    ensures s.meli == s0.meli && s.shopee == s0.shopee
    ensures s.despesas.Keys == s0.despesas.Keys && s.cmv.Keys == s0.despesas.Keys
    ensures forall k :: k in s0.despesas ==> s.despesas[k] == s0.despesas[k] + DespesasNoMes(contas, caixa, k)
    ensures forall k :: k in s0.despesas ==> s.cmv[k] == s0.cmv[k] + CmvContasNoMes(contas, caixa, cmvIds, k)
    ensures forall cat, k :: k in s0.despesas ==>
              PorCategoriaAt(s.porCategoria, cat, k)
              == PorCategoriaAt(s0.porCategoria, cat, k) + CategoriaNoMes(contas, caixa, cat, k)
    ensures forall cat :: cat in s.porCategoria ==> s.porCategoria[cat].Keys <= s0.despesas.Keys
    ensures s.porCategoria.Keys == s0.porCategoria.Keys + CategoriasLancadas(contas, caixa, s0.despesas.Keys)
  {
    s := s0;
    assert ContasAcumuladas(s0, s, contas[..0], caixa, cmvIds);
    for i := 0 to |contas|
      invariant ContasAcumuladas(s0, s, contas[..i], caixa, cmvIds)
    {
      var prev := s;
      s := AddConta(s, contas[i], caixa, cmvIds);
      ContasAcumuladasStep(s0, prev, s, contas, i, caixa, cmvIds);
    }
    assert contas[..|contas|] == contas;
  }

  /** `m` is `m0` with `x` added under `month` when `month` is one of its keys. */
  predicate Added(m0: map<string, real>, m: map<string, real>, month: Option<string>, x: real) {
    m.Keys == m0.Keys && forall k :: k in m0 ==> m[k] == m0[k] + AtKey(month, k, x)
  }

  /** One pass of a sales loop: a sale dated in a requested month adds its total to the month's
      gross revenue and, unless cancelled, its fee, its freight and its cost of goods; any other
      sale changes nothing. */
  method AddVenda(c0: Canal, cmv0: map<string, real>, v: Venda, custos: map<string, real>)
      returns (c: Canal, cmv: map<string, real>)
    requires c0.taxas.Keys == c0.receitaBruta.Keys && c0.frete.Keys == c0.receitaBruta.Keys
    requires cmv0.Keys == c0.receitaBruta.Keys
    ensures c.deducoes == c0.deducoes
    ensures Added(c0.receitaBruta, c.receitaBruta, VendaMonth(v), ValorVenda(v))
    ensures Added(c0.taxas, c.taxas, VendaMonth(v), TaxaVenda(v))
    ensures Added(c0.frete, c.frete, VendaMonth(v), FreteVenda(v))
    ensures Added(cmv0, cmv, VendaMonth(v), CmvVenda(v, custos))
  {
    c, cmv := c0, cmv0;
    var month := VendaMonth(v);
    if month.Some? && month.value in c.receitaBruta {
      c := c.(receitaBruta := AddAt(c.receitaBruta, month, OrZero(v.valorTotal)));
      if !IsCanceled(v.status) {
        var taxa := Abs(OrZero(v.taxaPlataforma));
        var frete := Abs(OrZero(v.frete));
        c := c.(taxas := AddAt(c.taxas, month, taxa), frete := AddAt(c.frete, month, frete));
        cmv := AddAt(cmv, month, CmvVenda(v, custos));
      }
    }
  }

  /** One more sale adds its share to each of the month's four sales totals. */
  lemma VendasStep(vendas: seq<Venda>, i: nat, custos: map<string, real>)
    requires i < |vendas|
    ensures forall k :: BrutoNoMes(vendas[..i + 1], k)
                        == BrutoNoMes(vendas[..i], k) + AtKey(VendaMonth(vendas[i]), k, ValorVenda(vendas[i]))
    ensures forall k :: TaxasNoMes(vendas[..i + 1], k)
                        == TaxasNoMes(vendas[..i], k) + AtKey(VendaMonth(vendas[i]), k, TaxaVenda(vendas[i]))
    ensures forall k :: FreteNoMes(vendas[..i + 1], k)
                        == FreteNoMes(vendas[..i], k) + AtKey(VendaMonth(vendas[i]), k, FreteVenda(vendas[i]))
    ensures forall k :: CmvVendasNoMes(vendas[..i + 1], custos, k)
                        == CmvVendasNoMes(vendas[..i], custos, k) + AtKey(VendaMonth(vendas[i]), k, CmvVenda(vendas[i], custos))
  {
    forall k
      ensures BrutoNoMes(vendas[..i + 1], k) == BrutoNoMes(vendas[..i], k) + AtKey(VendaMonth(vendas[i]), k, ValorVenda(vendas[i]))
      ensures TaxasNoMes(vendas[..i + 1], k) == TaxasNoMes(vendas[..i], k) + AtKey(VendaMonth(vendas[i]), k, TaxaVenda(vendas[i]))
      ensures FreteNoMes(vendas[..i + 1], k) == FreteNoMes(vendas[..i], k) + AtKey(VendaMonth(vendas[i]), k, FreteVenda(vendas[i]))
      ensures CmvVendasNoMes(vendas[..i + 1], custos, k)
              == CmvVendasNoMes(vendas[..i], custos, k) + AtKey(VendaMonth(vendas[i]), k, CmvVenda(vendas[i], custos))
    {
      AtKeySumStep(vendas, i, VendaMonth, ValorVenda, k);
      AtKeySumStep(vendas, i, VendaMonth, TaxaVenda, k);
      AtKeySumStep(vendas, i, VendaMonth, FreteVenda, k);
      AtKeySumStep(vendas, i, VendaMonth, CmvVendaOf(custos), k);
    }
  }

  /** The loop over one channel's sales, cancelled ones included (`for (const venda of vendasMeli)`
      and its Shopee twin). */
  method AddVendas(c0: Canal, cmv0: map<string, real>, vendas: seq<Venda>, custos: map<string, real>)
      returns (c: Canal, cmv: map<string, real>)
    requires c0.taxas.Keys == c0.receitaBruta.Keys && c0.frete.Keys == c0.receitaBruta.Keys
    requires cmv0.Keys == c0.receitaBruta.Keys
    ensures c.deducoes == c0.deducoes
    ensures c.receitaBruta.Keys == c0.receitaBruta.Keys && c.taxas.Keys == c0.receitaBruta.Keys
    ensures c.frete.Keys == c0.receitaBruta.Keys && cmv.Keys == c0.receitaBruta.Keys
    ensures forall k :: k in c0.receitaBruta ==>
              && c.receitaBruta[k] == c0.receitaBruta[k] + BrutoNoMes(vendas, k)
              && c.taxas[k] == c0.taxas[k] + TaxasNoMes(vendas, k)
              && c.frete[k] == c0.frete[k] + FreteNoMes(vendas, k)
              && cmv[k] == cmv0[k] + CmvVendasNoMes(vendas, custos, k)
  {
    var keys := c0.receitaBruta.Keys;
    c, cmv := c0, cmv0;
    for i := 0 to |vendas|
      invariant c.deducoes == c0.deducoes
      invariant c.receitaBruta.Keys == keys && c.taxas.Keys == keys && c.frete.Keys == keys && cmv.Keys == keys
      invariant forall k :: k in keys ==>
                  && c.receitaBruta[k] == c0.receitaBruta[k] + BrutoNoMes(vendas[..i], k)
                  && c.taxas[k] == c0.taxas[k] + TaxasNoMes(vendas[..i], k)
                  && c.frete[k] == c0.frete[k] + FreteNoMes(vendas[..i], k)
                  && cmv[k] == cmv0[k] + CmvVendasNoMes(vendas[..i], custos, k)
    {
      c, cmv := AddVenda(c, cmv, vendas[i], custos);
      VendasStep(vendas, i, custos);
    }
    assert vendas[..|vendas|] == vendas;
  }

  /** The loop over one channel's cancelled sales: each one dated in a requested month adds its
      total to the month's deductions. */
  method AddDeducoes(d0: map<string, real>, canceladas: seq<Venda>) returns (d: map<string, real>)
    ensures d.Keys == d0.Keys
    ensures forall k :: k in d0 ==> d[k] == d0[k] + BrutoNoMes(canceladas, k)
  {
    d := d0;
    for i := 0 to |canceladas|
      invariant d.Keys == d0.Keys
      invariant forall k :: k in d0 ==> d[k] == d0[k] + BrutoNoMes(canceladas[..i], k)
    {
      var v := canceladas[i];
      var month := VendaMonth(v);
      if month.Some? && month.value in d {
        d := d[month.value := d[month.value] + OrZero(v.valorTotal)];
      }
      forall k | k in d0
        ensures BrutoNoMes(canceladas[..i + 1], k) == BrutoNoMes(canceladas[..i], k) + AtKey(month, k, ValorVenda(v))
      {
        AtKeySumStep(canceladas, i, VendaMonth, ValorVenda, k);
      }
    }
    assert canceladas[..|canceladas|] == canceladas;
  }

  predicate IsCanceledVenda(v: Venda) {
    IsCanceled(v.status)
  }

  /** Summing the totals of the cancelled sales is summing each sale's deduction. */
  lemma DeducoesOfCanceladas(vendas: seq<Venda>, k: string)
    ensures BrutoNoMes(Filter(vendas, IsCanceledVenda), k) == DeducoesNoMes(vendas, k)
  {
    AtKeySumFilter(vendas, IsCanceledVenda, VendaMonth, ValorVenda, DeducaoVenda, k);
  }

  /** Gross revenue minus deductions is, month by month, the revenue of the sales that were not
      cancelled: a cancelled sale enters gross revenue and leaves it again as a deduction. */
  lemma NetRevenueIsConfirmedSales(vendas: seq<Venda>, k: string)
    ensures BrutoNoMes(vendas, k) - DeducoesNoMes(vendas, k) == AtKeySum(vendas, VendaMonth, LiquidoVenda, k)
  {
    AtKeySumLinear(vendas, VendaMonth, LiquidoVenda, DeducaoVenda, ValorVenda, k);
  }

  /** The figures of one channel in month `k`. */
  predicate CanalMatches(c: Canal, vendas: seq<Venda>, k: string) {
    && k in c.receitaBruta && c.receitaBruta[k] == BrutoNoMes(vendas, k)
    && k in c.deducoes && c.deducoes[k] == DeducoesNoMes(vendas, k)
    && k in c.taxas && c.taxas[k] == TaxasNoMes(vendas, k)
    && k in c.frete && c.frete[k] == FreteNoMes(vendas, k)
  }

  /** What the endpoint's series hold: exactly the requested months, and in each the sums over the
      records dated in it. */
  ghost predicate SeriesMatches(s: Series, keys: set<string>, contas: seq<ContaPagar>, caixa: bool,
                          cmvIds: set<string>, meli: seq<Venda>, shopee: seq<Venda>,
                          custos: map<string, real>)
  {
    && CanalOver(s.meli, keys) && CanalOver(s.shopee, keys)
    && s.despesas.Keys == keys && s.cmv.Keys == keys
    && (forall k :: k in keys ==>
          && CanalMatches(s.meli, meli, k) && CanalMatches(s.shopee, shopee, k)
          && s.despesas[k] == DespesasNoMes(contas, caixa, k)
          && s.cmv[k] == CmvContasNoMes(contas, caixa, cmvIds, k)
                         + CmvVendasNoMes(meli, custos, k) + CmvVendasNoMes(shopee, custos, k))
    && (forall cat, k :: k in keys ==> PorCategoriaAt(s.porCategoria, cat, k) == CategoriaNoMes(contas, caixa, cat, k))
    && (forall cat :: cat in s.porCategoria ==> s.porCategoria[cat].Keys <= keys)
    && s.porCategoria.Keys == CategoriasLancadas(contas, caixa, keys)
  }

  /** One channel's deductions: the loop over the channel's cancelled sales
      (`vendasMeli.filter(v => isCanceled(v.status))`). */
  method DeduzCanceladas(c0: Canal, vendas: seq<Venda>) returns (c: Canal)
    ensures c == c0.(deducoes := c.deducoes)
    ensures c.deducoes.Keys == c0.deducoes.Keys
    ensures forall k :: k in c0.deducoes ==> c.deducoes[k] == c0.deducoes[k] + DeducoesNoMes(vendas, k)
  {
    var canceladas := Filter(vendas, IsCanceledVenda);
    var d := AddDeducoes(c0.deducoes, canceladas);
    forall k | k in c0.deducoes
      ensures d[k] == c0.deducoes[k] + DeducoesNoMes(vendas, k)
    {
      DeducoesOfCanceladas(vendas, k);
    }
    c := c0.(deducoes := d);
  }

  /** What the sales loops add to a channel's series in month `k`. */
  predicate CanalAdded(c0: Canal, c: Canal, vendas: seq<Venda>, k: string) {
    && k in c0.receitaBruta && k in c0.deducoes && k in c0.taxas && k in c0.frete
    && k in c.receitaBruta && k in c.deducoes && k in c.taxas && k in c.frete
    && c.receitaBruta[k] == c0.receitaBruta[k] + BrutoNoMes(vendas, k)
    && c.deducoes[k] == c0.deducoes[k] + DeducoesNoMes(vendas, k)
    && c.taxas[k] == c0.taxas[k] + TaxasNoMes(vendas, k)
    && c.frete[k] == c0.frete[k] + FreteNoMes(vendas, k)
  }

  /** The sales loops of both channels, then their cancelled-sales loops, in the endpoint's
      order. */
  method AddCanais(s0: Series, vendasMeli: seq<Venda>, vendasShopee: seq<Venda>, custos: map<string, real>)
      returns (s: Series)
    requires CanalOver(s0.meli, s0.despesas.Keys) && CanalOver(s0.shopee, s0.despesas.Keys)
    requires s0.cmv.Keys == s0.despesas.Keys
    ensures s.despesas == s0.despesas && s.porCategoria == s0.porCategoria
    ensures CanalOver(s.meli, s0.despesas.Keys) && CanalOver(s.shopee, s0.despesas.Keys)
    ensures s.cmv.Keys == s0.despesas.Keys
    ensures forall k :: k in s0.despesas ==> CanalAdded(s0.meli, s.meli, vendasMeli, k)
    ensures forall k :: k in s0.despesas ==> CanalAdded(s0.shopee, s.shopee, vendasShopee, k)
    ensures forall k :: k in s0.despesas ==>
              s.cmv[k] == s0.cmv[k] + CmvVendasNoMes(vendasMeli, custos, k) + CmvVendasNoMes(vendasShopee, custos, k)
  {
    var meliV, cmv1 := AddVendas(s0.meli, s0.cmv, vendasMeli, custos);
    var shopeeV, cmv2 := AddVendas(s0.shopee, cmv1, vendasShopee, custos);
    var meli := DeduzCanceladas(meliV, vendasMeli);
    var shopee := DeduzCanceladas(shopeeV, vendasShopee);
    s := s0.(meli := meli, shopee := shopee, cmv := cmv2);
    forall k | k in s0.despesas
      ensures CanalAdded(s0.meli, s.meli, vendasMeli, k)
    {
      assert meli.receitaBruta[k] == meliV.receitaBruta[k] && meli.taxas[k] == meliV.taxas[k];
      assert meli.frete[k] == meliV.frete[k] && meliV.deducoes[k] == s0.meli.deducoes[k];
    }
    forall k | k in s0.despesas
      ensures CanalAdded(s0.shopee, s.shopee, vendasShopee, k)
    {
      assert shopee.receitaBruta[k] == shopeeV.receitaBruta[k] && shopee.taxas[k] == shopeeV.taxas[k];
      assert shopee.frete[k] == shopeeV.frete[k] && shopeeV.deducoes[k] == s0.shopee.deducoes[k];
    }
  }

  /** The series once the bills are in: the channels still at zero, and the expense, CMV and
      per-category series holding each month's sums over the bills. */
  ghost predicate ContasMatch(s: Series, keys: set<string>, contas: seq<ContaPagar>, caixa: bool,
                              cmvIds: set<string>)
  {
    && CanalOver(s.meli, keys) && CanalOver(s.shopee, keys)
    && (forall k :: k in keys ==> CanalZeroAt(s.meli, k) && CanalZeroAt(s.shopee, k))
    && s.despesas.Keys == keys && s.cmv.Keys == keys
    && (forall k :: k in keys ==>
          s.despesas[k] == DespesasNoMes(contas, caixa, k) && s.cmv[k] == CmvContasNoMes(contas, caixa, cmvIds, k))
    && (forall cat, k :: k in keys ==> PorCategoriaAt(s.porCategoria, cat, k) == CategoriaNoMes(contas, caixa, cat, k))
    && (forall cat :: cat in s.porCategoria ==> s.porCategoria[cat].Keys <= keys)
    && s.porCategoria.Keys == CategoriasLancadas(contas, caixa, keys)
  }

  /** The zeroed series, the CMV categories and the loop over the bills. */
  method BuildContas(meses: seq<MesInfo>, despesa: seq<Categoria>, contas: seq<ContaPagar>, caixa: bool)
      returns (s: Series, cmvIds: set<string>)
    ensures cmvIds == CmvIds(despesa)
    ensures ContasMatch(s, MonthKeys(meses), contas, caixa, cmvIds)
  {
    var keys := MonthKeys(meses);
    var s0 := ZeroSeries(meses);
    cmvIds := CmvCategoryIds(despesa);
    s := AddContasPagar(s0, contas, caixa, cmvIds);
    forall cat, k | k in keys
      ensures PorCategoriaAt(s.porCategoria, cat, k) == CategoriaNoMes(contas, caixa, cat, k)
    {
      assert PorCategoriaAt(s0.porCategoria, cat, k) == 0.0;
    }
  }

  /** Adding the sales to the series that hold the bills gives the endpoint's series. */
  lemma CanaisAssembled(s1: Series, s: Series, keys: set<string>, contas: seq<ContaPagar>, caixa: bool,
                        cmvIds: set<string>, meli: seq<Venda>, shopee: seq<Venda>, custos: map<string, real>)
    requires ContasMatch(s1, keys, contas, caixa, cmvIds)
    requires s.despesas == s1.despesas && s.porCategoria == s1.porCategoria
    requires CanalOver(s.meli, s1.despesas.Keys) && CanalOver(s.shopee, s1.despesas.Keys)
    requires s.cmv.Keys == s1.despesas.Keys
    requires forall k :: k in s1.despesas ==> CanalAdded(s1.meli, s.meli, meli, k)
    requires forall k :: k in s1.despesas ==> CanalAdded(s1.shopee, s.shopee, shopee, k)
    requires forall k :: k in s1.despesas ==>
               s.cmv[k] == s1.cmv[k] + CmvVendasNoMes(meli, custos, k) + CmvVendasNoMes(shopee, custos, k)
    ensures SeriesMatches(s, keys, contas, caixa, cmvIds, meli, shopee, custos)
  {
    forall k | k in keys
      ensures CanalMatches(s.meli, meli, k) && CanalMatches(s.shopee, shopee, k)
    {
      assert CanalZeroAt(s1.meli, k) && CanalZeroAt(s1.shopee, k);
      assert CanalAdded(s1.meli, s.meli, meli, k) && CanalAdded(s1.shopee, s.shopee, shopee, k);
    }
  }

  /** The whole aggregation of the endpoint, from the zeroed series to the deductions. */
  method BuildSeries(meses: seq<MesInfo>, categorias: seq<Categoria>, contas: seq<ContaPagar>, caixa: bool,
                     vendasMeli: seq<Venda>, vendasShopee: seq<Venda>, custos: map<string, real>)
      returns (s: Series)
    ensures SeriesMatches(s, MonthKeys(meses), contas, caixa, CmvIds(Filter(categorias, IsDespesa)),
                          vendasMeli, vendasShopee, custos)
  {
    var s1, cmvIds := BuildContas(meses, Filter(categorias, IsDespesa), contas, caixa);
    s := AddCanais(s1, vendasMeli, vendasShopee, custos);
    CanaisAssembled(s1, s, MonthKeys(meses), contas, caixa, cmvIds, vendasMeli, vendasShopee, custos);
  }

  // ---------------------------------------------------------------------------
  // Totals

  /** The month keys in the order the series objects hold them: the order of the sorted months,
      a month requested twice kept once. */
  function KeySeq(meses: seq<MesInfo>): (r: seq<string>)
    ensures forall i, j :: 0 <= i < j < |r| ==> r[i] != r[j]
    ensures forall k :: k in r <==> k in MonthKeys(meses)
  {
    var keys := seq(|meses|, i requires 0 <= i < |meses| => meses[i].key);
    assert forall i :: 0 <= i < |meses| ==> keys[i] == meses[i].key;
    Distinct(keys)
  }

  datatype Totals = Totals(
    receitaBrutaMeli: real, receitaBrutaShopee: real, receitaBrutaTotal: real,
    deducoesMeli: real, deducoesShopee: real, deducoesTotal: real,
    taxasMeli: real, taxasShopee: real, taxasTotal: real,
    freteMeli: real, freteShopee: real, freteTotal: real,
    cmv: real, despesas: real)

  /** `totals`: each series summed over its months; each channel-split figure's total is the sum
      of the two channels'. */
  function ComputeTotals(s: Series, ks: seq<string>): (t: Totals)
    ensures t.receitaBrutaTotal == t.receitaBrutaMeli + t.receitaBrutaShopee
    ensures t.deducoesTotal == t.deducoesMeli + t.deducoesShopee
    ensures t.taxasTotal == t.taxasMeli + t.taxasShopee
    ensures t.freteTotal == t.freteMeli + t.freteShopee
  {
    var bm := TotalOf(s.meli.receitaBruta, ks);
    var bs := TotalOf(s.shopee.receitaBruta, ks);
    var dm := TotalOf(s.meli.deducoes, ks);
    var ds := TotalOf(s.shopee.deducoes, ks);
    var tm := TotalOf(s.meli.taxas, ks);
    var ts := TotalOf(s.shopee.taxas, ks);
    var fm := TotalOf(s.meli.frete, ks);
    var fs := TotalOf(s.shopee.frete, ks);
    Totals(bm, bs, bm + bs, dm, ds, dm + ds, tm, ts, tm + ts, fm, fs, fm + fs,
           TotalOf(s.cmv, ks), TotalOf(s.despesas, ks))
  }

  /** The totals of one channel count every sale dated in a requested month once, and no other
      sale. */
  lemma CanalTotals(c: Canal, vendas: seq<Venda>, meses: seq<MesInfo>)
    requires forall k :: k in MonthKeys(meses) ==> CanalMatches(c, vendas, k)
    ensures TotalOf(c.receitaBruta, KeySeq(meses)) == InKeysSum(vendas, VendaMonth, ValorVenda, KeySeq(meses))
    ensures TotalOf(c.deducoes, KeySeq(meses)) == InKeysSum(vendas, VendaMonth, DeducaoVenda, KeySeq(meses))
    ensures TotalOf(c.taxas, KeySeq(meses)) == InKeysSum(vendas, VendaMonth, TaxaVenda, KeySeq(meses))
    ensures TotalOf(c.frete, KeySeq(meses)) == InKeysSum(vendas, VendaMonth, FreteVenda, KeySeq(meses))
  {
    var ks := KeySeq(meses);
    assert forall i :: 0 <= i < |ks| ==> CanalMatches(c, vendas, ks[i]);
    TotalOverKeys(c.receitaBruta, ks, vendas, VendaMonth, ValorVenda);
    TotalOverKeys(c.deducoes, ks, vendas, VendaMonth, DeducaoVenda);
    TotalOverKeys(c.taxas, ks, vendas, VendaMonth, TaxaVenda);
    TotalOverKeys(c.frete, ks, vendas, VendaMonth, FreteVenda);
  }

  /** Over the requested months, gross revenue minus deductions is the revenue of the sales that
      were not cancelled. */
  lemma NetRevenueTotal(c: Canal, vendas: seq<Venda>, meses: seq<MesInfo>)
    requires forall k :: k in MonthKeys(meses) ==> CanalMatches(c, vendas, k)
    ensures TotalOf(c.receitaBruta, KeySeq(meses)) - TotalOf(c.deducoes, KeySeq(meses))
            == InKeysSum(vendas, VendaMonth, LiquidoVenda, KeySeq(meses))
  {
    CanalTotals(c, vendas, meses);
    InKeysSumLinear(vendas, VendaMonth, LiquidoVenda, DeducaoVenda, ValorVenda, KeySeq(meses));
  }

  /** The revenue, deduction, fee and freight totals are sums over the sales dated in a requested month. */
  lemma SalesTotalsCountDatedSales(s: Series, meses: seq<MesInfo>, contas: seq<ContaPagar>, caixa: bool,
                                   cmvIds: set<string>, meli: seq<Venda>, shopee: seq<Venda>,
                                   custos: map<string, real>)
    requires SeriesMatches(s, MonthKeys(meses), contas, caixa, cmvIds, meli, shopee, custos)
    ensures var ks := KeySeq(meses); var t := ComputeTotals(s, ks);
      && t.receitaBrutaTotal == InKeysSum(meli, VendaMonth, ValorVenda, ks) + InKeysSum(shopee, VendaMonth, ValorVenda, ks)
      && t.deducoesTotal == InKeysSum(meli, VendaMonth, DeducaoVenda, ks) + InKeysSum(shopee, VendaMonth, DeducaoVenda, ks)
      && t.taxasTotal == InKeysSum(meli, VendaMonth, TaxaVenda, ks) + InKeysSum(shopee, VendaMonth, TaxaVenda, ks)
      && t.freteTotal == InKeysSum(meli, VendaMonth, FreteVenda, ks) + InKeysSum(shopee, VendaMonth, FreteVenda, ks)
  {
    CanalTotals(s.meli, meli, meses);
    CanalTotals(s.shopee, shopee, meses);
  }

  /** A CMV map holding, for each key, the bills' CMV plus both channels' CMV in that month
      totals to the three sums over the records dated under those keys. */
  lemma CmvTotal(cmv: map<string, real>, ks: seq<string>, contas: seq<ContaPagar>, caixa: bool,
                 cmvIds: set<string>, meli: seq<Venda>, shopee: seq<Venda>, custos: map<string, real>)
    requires forall i, j :: 0 <= i < j < |ks| ==> ks[i] != ks[j]
    requires forall i :: 0 <= i < |ks| ==>
      && ks[i] in cmv
      && cmv[ks[i]] == CmvContasNoMes(contas, caixa, cmvIds, ks[i]) + CmvVendasNoMes(meli, custos, ks[i])
                       + CmvVendasNoMes(shopee, custos, ks[i])
    ensures TotalOf(cmv, ks) == InKeysSum(contas, ContaMonthOf(caixa), CmvContaOf(cmvIds), ks)
                                + InKeysSum(meli, VendaMonth, CmvVendaOf(custos), ks)
                                + InKeysSum(shopee, VendaMonth, CmvVendaOf(custos), ks)
  {
    var keys := set i | 0 <= i < |ks| :: ks[i];
    var mContas := map k | k in keys :: CmvContasNoMes(contas, caixa, cmvIds, k);
    var mMeli := map k | k in keys :: CmvVendasNoMes(meli, custos, k);
    var mShopee := map k | k in keys :: CmvVendasNoMes(shopee, custos, k);
    var mVendas := map k | k in keys :: mMeli[k] + mShopee[k];
    TotalOfSum(cmv, mContas, mVendas, ks);
    TotalOfSum(mVendas, mMeli, mShopee, ks);
    TotalOverKeys(mContas, ks, contas, ContaMonthOf(caixa), CmvContaOf(cmvIds));
    TotalOverKeys(mMeli, ks, meli, VendaMonth, CmvVendaOf(custos));
    TotalOverKeys(mShopee, ks, shopee, VendaMonth, CmvVendaOf(custos));
  }

  /** The expense and CMV totals are sums over the bills and sales dated in a requested month. */
  lemma CostTotalsCountDatedRecords(s: Series, meses: seq<MesInfo>, contas: seq<ContaPagar>, caixa: bool,
                                    cmvIds: set<string>, meli: seq<Venda>, shopee: seq<Venda>,
                                    custos: map<string, real>)
    requires SeriesMatches(s, MonthKeys(meses), contas, caixa, cmvIds, meli, shopee, custos)
    ensures var ks := KeySeq(meses); var t := ComputeTotals(s, ks);
      && t.despesas == InKeysSum(contas, ContaMonthOf(caixa), ValorConta, ks)
      && t.cmv == InKeysSum(contas, ContaMonthOf(caixa), CmvContaOf(cmvIds), ks)
                  + InKeysSum(meli, VendaMonth, CmvVendaOf(custos), ks)
                  + InKeysSum(shopee, VendaMonth, CmvVendaOf(custos), ks)
  {
    DespesasTotalCountsDatedBills(s, meses, contas, caixa, cmvIds, meli, shopee, custos);
    CmvTotalCountsDatedRecords(s, meses, contas, caixa, cmvIds, meli, shopee, custos);
  }

  /** The expense total is the sum over the bills dated in a requested month. */
  lemma DespesasTotalCountsDatedBills(s: Series, meses: seq<MesInfo>, contas: seq<ContaPagar>, caixa: bool,
                                      cmvIds: set<string>, meli: seq<Venda>, shopee: seq<Venda>,
                                      custos: map<string, real>)
    requires SeriesMatches(s, MonthKeys(meses), contas, caixa, cmvIds, meli, shopee, custos)
    ensures var ks := KeySeq(meses);
      ComputeTotals(s, ks).despesas == InKeysSum(contas, ContaMonthOf(caixa), ValorConta, ks)
  {
    var ks := KeySeq(meses);
    forall i | 0 <= i < |ks|
      ensures ks[i] in s.despesas && s.despesas[ks[i]] == AtKeySum(contas, ContaMonthOf(caixa), ValorConta, ks[i])
    {
      assert ks[i] in MonthKeys(meses);
    }
    TotalOverKeys(s.despesas, ks, contas, ContaMonthOf(caixa), ValorConta);
    assert ComputeTotals(s, ks).despesas == TotalOf(s.despesas, ks);
  }

  /** The CMV total is the sum over the CMV bills and the sales dated in a requested month. */
  lemma CmvTotalCountsDatedRecords(s: Series, meses: seq<MesInfo>, contas: seq<ContaPagar>, caixa: bool,
                                   cmvIds: set<string>, meli: seq<Venda>, shopee: seq<Venda>,
                                   custos: map<string, real>)
    requires SeriesMatches(s, MonthKeys(meses), contas, caixa, cmvIds, meli, shopee, custos)
    ensures var ks := KeySeq(meses);
      ComputeTotals(s, ks).cmv == InKeysSum(contas, ContaMonthOf(caixa), CmvContaOf(cmvIds), ks)
                                  + InKeysSum(meli, VendaMonth, CmvVendaOf(custos), ks)
                                  + InKeysSum(shopee, VendaMonth, CmvVendaOf(custos), ks)
  {
    var ks := KeySeq(meses);
    forall i | 0 <= i < |ks|
      ensures ks[i] in s.cmv
      ensures s.cmv[ks[i]] == CmvContasNoMes(contas, caixa, cmvIds, ks[i]) + CmvVendasNoMes(meli, custos, ks[i])
                              + CmvVendasNoMes(shopee, custos, ks[i])
    {
      assert ks[i] in MonthKeys(meses);
    }
    CmvTotal(s.cmv, ks, contas, caixa, cmvIds, meli, shopee, custos);
    assert ComputeTotals(s, ks).cmv == TotalOf(s.cmv, ks);
  }

  /** Every total the endpoint returns is the sum over the records dated in one of the requested
      months: records dated elsewhere, or undated, do not count. */
  lemma TotalsCountDatedRecords(s: Series, meses: seq<MesInfo>, contas: seq<ContaPagar>, caixa: bool,
                                cmvIds: set<string>, meli: seq<Venda>, shopee: seq<Venda>,
                                custos: map<string, real>)
    requires SeriesMatches(s, MonthKeys(meses), contas, caixa, cmvIds, meli, shopee, custos)
    ensures var ks := KeySeq(meses); var t := ComputeTotals(s, ks);
      && t.receitaBrutaTotal == InKeysSum(meli, VendaMonth, ValorVenda, ks) + InKeysSum(shopee, VendaMonth, ValorVenda, ks)
      && t.deducoesTotal == InKeysSum(meli, VendaMonth, DeducaoVenda, ks) + InKeysSum(shopee, VendaMonth, DeducaoVenda, ks)
      && t.taxasTotal == InKeysSum(meli, VendaMonth, TaxaVenda, ks) + InKeysSum(shopee, VendaMonth, TaxaVenda, ks)
      && t.freteTotal == InKeysSum(meli, VendaMonth, FreteVenda, ks) + InKeysSum(shopee, VendaMonth, FreteVenda, ks)
      && t.despesas == InKeysSum(contas, ContaMonthOf(caixa), ValorConta, ks)
      && t.cmv == InKeysSum(contas, ContaMonthOf(caixa), CmvContaOf(cmvIds), ks)
                  + InKeysSum(meli, VendaMonth, CmvVendaOf(custos), ks)
                  + InKeysSum(shopee, VendaMonth, CmvVendaOf(custos), ks)
  {
    SalesTotalsCountDatedSales(s, meses, contas, caixa, cmvIds, meli, shopee, custos);
    CostTotalsCountDatedRecords(s, meses, contas, caixa, cmvIds, meli, shopee, custos);
  }

  // ---------------------------------------------------------------------------
  // The response

  /** A category as listed in the response. */
  datatype CategoriaOut = CategoriaOut(id: string, nome: Option<string>, descricao: Option<string>)

  /** `categoriasOut`: the expense categories kept when they have values, when no category filter
      was given, or when their id is an expense category's id. The last test always holds, so
      every expense category is listed, in order. */
  function CategoriasOut(despesa: seq<Categoria>, valores: map<string, map<string, real>>,
                         categoriasParam: seq<string>): (r: seq<CategoriaOut>)
    ensures |r| == |despesa|
    ensures forall i :: 0 <= i < |r| ==>
              r[i] == CategoriaOut(despesa[i].id, despesa[i].nome, despesa[i].descricao)
  {
    var idsDespesa := set i | 0 <= i < |despesa| :: despesa[i].id;
    var keep := (c: Categoria) => c.id in valores || |categoriasParam| == 0 || c.id in idsDespesa;
    var kept := Filter(despesa, keep);
    FilterAll(despesa, keep);
    seq(|kept|, i requires 0 <= i < |kept| => CategoriaOut(kept[i].id, kept[i].nome, kept[i].descricao))
  }

  datatype Response = Response(months: seq<MesInfo>, categorias: seq<CategoriaOut>, series: Series,
                               totals: Totals)

  /** The endpoint after authentication. The database queries are parameters: `categorias` are the
      user's categories (restricted to the requested ones when a filter is given), `contas` the
      bills, `vendasMeli` and `vendasShopee` the sales of the requested range, and `custos` the
      unit cost of each SKU that has one. `tipo` selects the cash basis when it reads "caixa" in
      any case. */
  method Get(meses: Option<string>, categoriasFiltro: Option<string>, tipo: Option<string>,
             categorias: seq<Categoria>, contas: seq<ContaPagar>, vendasMeli: seq<Venda>,
             vendasShopee: seq<Venda>, custos: map<string, real>)
      returns (r: Result<Response>)
    ensures r.Err? <==> RequestedMonths(ListParam(meses)).Err?
    ensures r.Err? ==> r.error == RequestedMonths(ListParam(meses)).error
    ensures r.Ok? ==>
      var caixa := ToLower(if Truthy(tipo) then tipo.value else "competencia") == "caixa";
      var despesa := Filter(categorias, IsDespesa);
      && r.value.months == RequestedMonths(ListParam(meses)).value
      && SeriesMatches(r.value.series, MonthKeys(r.value.months), contas, caixa, CmvIds(despesa),
                       vendasMeli, vendasShopee, custos)
      && r.value.totals == ComputeTotals(r.value.series, KeySeq(r.value.months))
      && r.value.categorias == CategoriasOut(despesa, r.value.series.porCategoria, ListParam(categoriasFiltro))
  {
    var mesesParam := ListParam(meses);
    var categoriasParam := ListParam(categoriasFiltro);
    var caixa := ToLower(if Truthy(tipo) then tipo.value else "competencia") == "caixa";
    var requested := RequestedMonths(mesesParam);
    if requested.Err? {
      return Err(requested.error);
    }
    var resp := Responder(requested.value, categoriasParam, caixa, categorias, contas, vendasMeli,
                          vendasShopee, custos);
    r := Ok(resp);
  }

  /** The response for the requested months: the series, the categories listed and the totals. */
  method Responder(months: seq<MesInfo>, categoriasParam: seq<string>, caixa: bool,
                   categorias: seq<Categoria>, contas: seq<ContaPagar>, vendasMeli: seq<Venda>,
                   vendasShopee: seq<Venda>, custos: map<string, real>)
      returns (resp: Response)
    ensures var despesa := Filter(categorias, IsDespesa);
      && resp.months == months
      && SeriesMatches(resp.series, MonthKeys(months), contas, caixa, CmvIds(despesa),
                       vendasMeli, vendasShopee, custos)
      && resp.totals == ComputeTotals(resp.series, KeySeq(months))
      && resp.categorias == CategoriasOut(despesa, resp.series.porCategoria, categoriasParam)
  {
    var series := BuildSeries(months, categorias, contas, caixa, vendasMeli, vendasShopee, custos);
    var despesa := Filter(categorias, IsDespesa);
    var categoriasOut := CategoriasOut(despesa, series.porCategoria, categoriasParam);
    var totals := ComputeTotals(series, KeySeq(months));
    resp := Response(months, categoriasOut, series, totals);
  }
}