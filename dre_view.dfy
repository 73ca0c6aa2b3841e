/** The income statement screen: the request it sends for the selected months, the expenses of the
    visible categories it adds up on the client, and the subtotal chain it derives from the series
    and totals the endpoint returns. */
module DreView {
  import opened Wrappers
  import opened Strings
  import opened Folds
  import opened Sorting
  import opened DreSeries

  // ---------------------------------------------------------------------------
  // The request

  /** Each key is listed once, as in a JS `Set`. */
  predicate DistinctKeys(s: seq<string>) {
    forall i, j :: 0 <= i < j < |s| ==> s[i] != s[j]
  }

  /** `calcularMeses`: the selected month keys, sorted by code units (`Array.from(set).sort()`). */
  function CalcularMeses(selecionados: seq<string>): (r: seq<string>)
    requires DistinctKeys(selecionados)
    ensures multiset(r) == multiset(selecionados)
    ensures forall i, j :: 0 <= i < j < |r| ==> LexLe(r[i], r[j]) && r[i] != r[j]
  {
    SortKeys(selecionados)
  }

  /** The first key of a strictly ascending list comes before every key of the list. */
  lemma AscendingFirst(a: seq<string>, x: string)
    requires forall i, j :: 0 <= i < j < |a| ==> LexLe(a[i], a[j]) && a[i] != a[j]
    requires x in a
    ensures LexLe(a[0], x)
  {
    LexLeIsTotalPreorder();
    var j :| 0 <= j < |a| && a[j] == x;
    if j == 0 {
      assert LexLe(a[0], a[0]);
    }
  }

  /** Two strictly ascending lists of the same keys are the same list. */
  lemma {:induction false} StrictlyAscendingUnique(a: seq<string>, b: seq<string>)
    requires forall i, j :: 0 <= i < j < |a| ==> LexLe(a[i], a[j]) && a[i] != a[j]
    requires forall i, j :: 0 <= i < j < |b| ==> LexLe(b[i], b[j]) && b[i] != b[j]
    requires forall x :: x in a <==> x in b
    ensures a == b
    decreases |a|
  {
    LexLeIsTotalPreorder();
    if |a| == 0 {
      assert multiset(b) == multiset{} by {
        forall x ensures x !in multiset(b) {
          assert x in multiset(b) <==> x in b;
        }
      }
    } else {
      assert multiset(b) != multiset{} by {
        assert a[0] in b;
        assert a[0] in multiset(b);
      }
      AscendingFirst(a, b[0]);
      AscendingFirst(b, a[0]);
      assert a[0] == b[0];
      forall x ensures x in a[1..] <==> x in b[1..] {
        if x in a[1..] {
          var p :| 1 <= p < |a| && a[p] == x;
          assert x in b && x != b[0];
        }
        if x in b[1..] {
          var p :| 1 <= p < |b| && b[p] == x;
          assert x in a && x != a[0];
        }
      }
      StrictlyAscendingUnique(a[1..], b[1..]);
      assert a == [a[0]] + a[1..] && b == [b[0]] + b[1..];
    }
  }

  /** The months requested do not depend on the order in which they were ticked. */
  lemma CalcularMesesOrderIndependent(s1: seq<string>, s2: seq<string>)
    requires DistinctKeys(s1) && DistinctKeys(s2)
    requires forall x :: x in s1 <==> x in s2
    ensures CalcularMeses(s1) == CalcularMeses(s2)
  {
    var r1 := CalcularMeses(s1);
    var r2 := CalcularMeses(s2);
    forall x ensures x in r1 <==> x in r2 {
      assert x in r1 <==> x in multiset(r1);
      assert x in r2 <==> x in multiset(r2);
      assert x in s1 <==> x in multiset(s1);
      assert x in s2 <==> x in multiset(s2);
    }
    StrictlyAscendingUnique(r1, r2);
  }

  /** The query string: `meses`, `categorias` when some category is selected, and `tipo`. */
  datatype Query = Query(meses: string, categorias: Option<string>, tipo: string)

  /** The request the screen sends for the sorted months, or none when no month is selected. */
  function Requisicao(meses: seq<string>, categoriasSelecionadas: seq<string>, tipo: string): (r: Option<Query>)
    ensures r.None? <==> |meses| == 0
    ensures r.Some? ==> r.value.tipo == tipo
    ensures r.Some? ==> (r.value.categorias.Some? <==> Join(categoriasSelecionadas, ",") != "")
  {
    if |meses| == 0 then None
    else
      var cats := Join(categoriasSelecionadas, ",");
      Some(Query(Join(meses, ","), if cats != "" then Some(cats) else None, tipo))
  }

  /** A key the endpoint's list parsing keeps as it is. */
  predicate PlainKey(k: string) {
    k != "" && ',' !in k && !IsWhitespace(k[0]) && !IsWhitespace(k[|k| - 1])
  }

  /** The endpoint's parsing of a comma-separated parameter gives back the list the screen joined. */
  lemma ListParamOfJoin(parts: seq<string>)
    requires forall i :: 0 <= i < |parts| ==> PlainKey(parts[i])
    ensures ListParam(Some(Join(parts, ","))) == parts
  {
    if |parts| == 0 {
      ListParamOfEmpty();
    } else {
      var joined := Join(parts, ",");
      assert "," == [','];
      SplitJoin(parts, ',');
      assert Split(joined, ',') == parts;
      TrimAllUnchanged(parts);
      FilterAll(parts, IsNonEmpty);
    }
  }

  /** An empty parameter is an empty list. */
  lemma ListParamOfEmpty()
    ensures ListParam(Some("")) == []
  {
    assert Split("", ',') == [""];
    assert TrimAll([""]) == [""];
    assert Filter([""], IsNonEmpty) == [];
  }

  lemma TrimAllUnchanged(parts: seq<string>)
    requires forall i :: 0 <= i < |parts| ==> PlainKey(parts[i])
    ensures TrimAll(parts) == parts
  {
    forall i | 0 <= i < |parts| ensures TrimAll(parts)[i] == parts[i] {
      TrimUnchanged(parts[i]);
    }
  }

  /** The endpoint reads exactly the months the screen requested, in ascending order. */
  lemma EndpointReadsRequestedMonths(selecionados: seq<string>, categoriasSelecionadas: seq<string>, tipo: string)
    requires DistinctKeys(selecionados) && |selecionados| > 0
    requires forall i :: 0 <= i < |selecionados| ==> PlainKey(selecionados[i])
    ensures var q := Requisicao(CalcularMeses(selecionados), categoriasSelecionadas, tipo);
      q.Some? && ListParam(Some(q.value.meses)) == CalcularMeses(selecionados)
  {
    var r := CalcularMeses(selecionados);
    PermutationElements(selecionados, r);
    ListParamOfJoin(r);
  }

  // ---------------------------------------------------------------------------
  // Expenses of the visible categories

  /** `row[m.key] || 0` for the row of category `cat`, a missing row counting as empty. */
  function ValorCelula(valores: map<string, map<string, real>>, cat: string, m: MesInfo): real {
    PorCategoriaAt(valores, cat, m.key)
  }

  function CelulaOf(valores: map<string, map<string, real>>, cat: string): MesInfo -> real {
    m => ValorCelula(valores, cat, m)
  }

  function MesKey(m: MesInfo): Option<string> {
    Some(m.key)
  }

  /** What the inner loop adds for category `cat` to month `k`: the category's value once for each
      listed month with that key. */
  function CategoriaNaColuna(months: seq<MesInfo>, valores: map<string, map<string, real>>, cat: string, k: string): real {
    AtKeySum(months, MesKey, CelulaOf(valores, cat), k)
  }

  function CategoriaNaColunaOf(months: seq<MesInfo>, valores: map<string, map<string, real>>, k: string): string -> real {
    cat => CategoriaNaColuna(months, valores, cat, k)
  }

  /** The visible expenses of month `k`: the sum over the visible categories. */
  function VisiveisNoMes(months: seq<MesInfo>, visiveis: seq<string>, valores: map<string, map<string, real>>, k: string): real {
    Sum(visiveis, CategoriaNaColunaOf(months, valores, k))
  }

  /** Each month key once. */
  predicate DistinctMonths(months: seq<MesInfo>) {
    forall i, j :: 0 <= i < j < |months| ==> months[i].key != months[j].key
  }

  /** With each month listed once, a category contributes its own value to the column of a listed
      month and nothing to any other key. */
  lemma {:induction false} CategoriaNaColunaOnce(months: seq<MesInfo>, valores: map<string, map<string, real>>, cat: string, k: string)
    requires DistinctMonths(months)
    ensures CategoriaNaColuna(months, valores, cat, k)
            == if k in MonthKeys(months) then PorCategoriaAt(valores, cat, k) else 0.0
    decreases |months|
  {
    if |months| > 0 {
      var n := |months| - 1;
      var init := months[..n];
      CategoriaNaColunaOnce(init, valores, cat, k);
      AtKeySumStep(months, n, MesKey, CelulaOf(valores, cat), k);
      assert months[..n + 1] == months;
      assert MonthKeys(months) == MonthKeys(init) + {months[n].key} by {
        forall x | x in MonthKeys(months) ensures x in MonthKeys(init) + {months[n].key} {
          var i :| 0 <= i < |months| && months[i].key == x;
          if i < n { assert init[i] == months[i]; }
        }
        forall x | x in MonthKeys(init) ensures x in MonthKeys(months) {
          var i :| 0 <= i < |init| && init[i].key == x;
          assert months[i] == init[i];
        }
      }
      if months[n].key == k {
        forall i | 0 <= i < |init| ensures init[i].key != k {
          assert init[i] == months[i];
        }
      }
    }
  }

  /** `for (const m of months) map[m.key] = 0`. */
  method ZeroColumns(months: seq<MesInfo>) returns (m: map<string, real>)
    ensures m.Keys == MonthKeys(months)
    ensures forall k :: k in m ==> m[k] == 0.0
  {
    m := map[];
    for j := 0 to |months|
      invariant m.Keys == set i | 0 <= i < j :: months[i].key
      invariant forall k :: k in m ==> m[k] == 0.0
    {
      m := m[months[j].key := 0.0];
    }
  }

  /** The inner loop: adds category `cat`'s row to every listed month. */
  method AddCategoria(m0: map<string, real>, months: seq<MesInfo>, valores: map<string, map<string, real>>, cat: string)
    returns (m: map<string, real>)
    ensures m.Keys == m0.Keys
    ensures forall k :: k in m0 ==> m[k] == m0[k] + CategoriaNaColuna(months, valores, cat, k)
  {
    m := m0;
    for j := 0 to |months|
      invariant m.Keys == m0.Keys
      invariant forall k :: k in m0 ==> m[k] == m0[k] + AtKeySum(months[..j], MesKey, CelulaOf(valores, cat), k)
    {
      m := AddAt(m, MesKey(months[j]), ValorCelula(valores, cat, months[j]));
      forall k | k in m0
        ensures m[k] == m0[k] + AtKeySum(months[..j + 1], MesKey, CelulaOf(valores, cat), k)
      {
        AtKeySumStep(months, j, MesKey, CelulaOf(valores, cat), k);
      }
    }
    assert months[..|months|] == months;
  }

  /** `despesasPorMesVisiveis`: no data gives an empty map; otherwise every listed month holds the
      sum over the visible categories of their value in that month. */
  method DespesasPorMesVisiveis(dre: Option<Response>, visiveis: seq<string>) returns (m: map<string, real>)
    ensures dre.None? ==> m == map[]
    ensures dre.Some? ==> m.Keys == MonthKeys(dre.value.months)
    ensures dre.Some? ==> forall k :: k in m ==>
              m[k] == VisiveisNoMes(dre.value.months, visiveis, dre.value.series.porCategoria, k)
  {
    if dre.None? {
      return map[];
    }
    var months := dre.value.months;
    var valores := dre.value.series.porCategoria;
    m := ZeroColumns(months);
    for i := 0 to |visiveis|
      invariant m.Keys == MonthKeys(months)
      invariant forall k :: k in m ==> m[k] == Sum(visiveis[..i], CategoriaNaColunaOf(months, valores, k))
    {
      var m1 := AddCategoria(m, months, valores, visiveis[i]);
      forall k | k in m1
        ensures m1[k] == Sum(visiveis[..i + 1], CategoriaNaColunaOf(months, valores, k))
      {
        SumStep(visiveis, i, CategoriaNaColunaOf(months, valores, k));
      }
      m := m1;
    }
    assert visiveis[..|visiveis|] == visiveis;
  }

  function CategoriaNoMesOf(contas: seq<ContaPagar>, caixa: bool, k: string): string -> real {
    cat => CategoriaNoMes(contas, caixa, cat, k)
  }

  /** For the endpoint's series, the visible expenses of a requested month are the bills of the
      visible categories dated in that month. */
  lemma VisibleExpensesAreVisibleBills(r: Response, visiveis: seq<string>, contas: seq<ContaPagar>, caixa: bool,
                                       cmvIds: set<string>, meli: seq<Venda>, shopee: seq<Venda>,
                                       custos: map<string, real>, k: string)
    requires SeriesMatches(r.series, MonthKeys(r.months), contas, caixa, cmvIds, meli, shopee, custos)
    requires DistinctMonths(r.months) && k in MonthKeys(r.months)
    ensures VisiveisNoMes(r.months, visiveis, r.series.porCategoria, k) == Sum(visiveis, CategoriaNoMesOf(contas, caixa, k))
  {
    forall i | 0 <= i < |visiveis|
      ensures CategoriaNaColunaOf(r.months, r.series.porCategoria, k)(visiveis[i])
              == CategoriaNoMesOf(contas, caixa, k)(visiveis[i])
    {
      CategoriaNaColunaOnce(r.months, r.series.porCategoria, visiveis[i], k);
    }
    SumPointwise(visiveis, CategoriaNaColunaOf(r.months, r.series.porCategoria, k), CategoriaNoMesOf(contas, caixa, k));
  }

  /** `sumValues`: the loop over the values of a row, in whatever order they come. */
  method SumValues(row: map<string, real>) returns (total: real)
    ensures total == MapSum(row)
  {
    total := 0.0;
    var rest := row;
    while rest != map[]
      invariant total + MapSum(rest) == MapSum(row)
      decreases |rest|
    {
      var k :| k in rest;
      MapSumRemove(rest, k);
      total := total + rest[k];
      rest := rest - {k};
    }
  }

  /** `valores[cat] || {}` */
  function Linha(valores: map<string, map<string, real>>, cat: string): map<string, real> {
    if cat in valores then valores[cat] else map[]
  }

  ghost function SomaLinhaOf(valores: map<string, map<string, real>>): string -> real {
    cat => MapSum(Linha(valores, cat))
  }

  /** `despesasVisiveis`: 0 without data; otherwise the sum over the visible categories of the sum
      of each category's row. */
  method DespesasVisiveis(dre: Option<Response>, visiveis: seq<string>) returns (total: real)
    ensures dre.None? ==> total == 0.0
    ensures dre.Some? ==> total == Sum(visiveis, SomaLinhaOf(dre.value.series.porCategoria))
  {
    if dre.None? {
      return 0.0;
    }
    var valores := dre.value.series.porCategoria;
    total := 0.0;
    for i := 0 to |visiveis|
      invariant total == Sum(visiveis[..i], SomaLinhaOf(valores))
    {
      var s := SumValues(Linha(valores, visiveis[i]));
      SumStep(visiveis, i, SomaLinhaOf(valores));
      total := total + s;
    }
    assert visiveis[..|visiveis|] == visiveis;
  }

  /** The table of category values: by category, then by month. */
  function LinhasCelulas(valores: map<string, map<string, real>>): string -> (string -> real) {
    cat => (k => PorCategoriaAt(valores, cat, k))
  }

  /** The same table by month, then by category. */
  function ColunasCelulas(valores: map<string, map<string, real>>): string -> (string -> real) {
    k => (cat => PorCategoriaAt(valores, cat, k))
  }

  function VisiveisNoMesOf(months: seq<MesInfo>, visiveis: seq<string>, valores: map<string, map<string, real>>): string -> real {
    k => VisiveisNoMes(months, visiveis, valores, k)
  }

  /** The expense total the summary uses is the sum over the months of the "Total de Despesas" row,
      as long as each category's row holds only listed months, as the endpoint guarantees. */
  lemma VisibleTotalIsSumOfColumns(months: seq<MesInfo>, visiveis: seq<string>, valores: map<string, map<string, real>>)
    requires DistinctMonths(months)
    requires forall cat :: cat in valores ==> valores[cat].Keys <= MonthKeys(months)
    ensures Sum(visiveis, SomaLinhaOf(valores)) == Sum(KeySeq(months), VisiveisNoMesOf(months, visiveis, valores))
  {
    var ks := KeySeq(months);
    forall i | 0 <= i < |visiveis|
      ensures SomaLinhaOf(valores)(visiveis[i]) == Sum(ks, LinhasCelulas(valores)(visiveis[i]))
    {
      var row := Linha(valores, visiveis[i]);
      MapSumOverKeys(row, ks);
      SumPointwise(ks, k => if k in row then row[k] else 0.0, LinhasCelulas(valores)(visiveis[i]));
    }
    forall j | 0 <= j < |ks|
      ensures VisiveisNoMesOf(months, visiveis, valores)(ks[j]) == Sum(visiveis, ColunasCelulas(valores)(ks[j]))
    {
      forall i | 0 <= i < |visiveis|
        ensures CategoriaNaColunaOf(months, valores, ks[j])(visiveis[i]) == ColunasCelulas(valores)(ks[j])(visiveis[i])
      {
        CategoriaNaColunaOnce(months, valores, visiveis[i], ks[j]);
      }
      SumPointwise(visiveis, CategoriaNaColunaOf(months, valores, ks[j]), ColunasCelulas(valores)(ks[j]));
    }
    SumByRowsOrColumns(visiveis, ks, LinhasCelulas(valores), ColunasCelulas(valores),
                       SomaLinhaOf(valores), VisiveisNoMesOf(months, visiveis, valores));
  }

  /** Ticking a category's box adds it to the visible ones, unticking removes it; the others keep
      their state. */
  function AlternarVisivel(visiveis: seq<string>, id: string, marcado: bool): (r: seq<string>)
    ensures DistinctKeys(visiveis) ==> DistinctKeys(r)
    ensures forall c :: c in r <==> (if c == id then marcado else c in visiveis)
  {
    if marcado then
      (if id in visiveis then visiveis else visiveis + [id])
    else Remover(visiveis, id)
  }

  /** `Set.prototype.delete`: the keys other than `id`, in their order. */
  function Remover(s: seq<string>, id: string): (r: seq<string>)
    ensures forall c :: c in r <==> c in s && c != id
    ensures DistinctKeys(s) ==> DistinctKeys(r)
  {
    if |s| == 0 then []
    else
      var rest := Remover(s[1..], id);
      assert DistinctKeys(s) ==> s[0] !in s[1..];
      if s[0] == id then rest else [s[0]] + rest
  }

  // ---------------------------------------------------------------------------
  // The monthly rows

  /** `series[k] || 0` */
  function Em(m: map<string, real>, k: string): real {
    if k in m then m[k] else 0.0
  }

  /** The figures of one month column. */
  datatype LinhaMes = LinhaMes(receitaBruta: real, deducoes: real, receitaLiquida: real, taxas: real,
                               frete: real, receitaOperacionalLiquida: real, cmv: real, lucroBruto: real)

  /** The derived rows of month `k`: each channel's series read with a missing month as 0, the two
      channels added, then net revenue, operating net revenue and gross profit. */
  function ColunaDoMes(s: Series, k: string): LinhaMes {
    var bruto := Em(s.meli.receitaBruta, k) + Em(s.shopee.receitaBruta, k);
    var deducoes := Em(s.meli.deducoes, k) + Em(s.shopee.deducoes, k);
    var taxas := Em(s.meli.taxas, k) + Em(s.shopee.taxas, k);
    var frete := Em(s.meli.frete, k) + Em(s.shopee.frete, k);
    var operacional := (bruto - deducoes) - taxas - frete;
    var cmv := Em(s.cmv, k);
    LinhaMes(bruto, deducoes, bruto - deducoes, taxas, frete, operacional, cmv, operacional - cmv)
  }

  /** What a sale keeps after fees and freight: nothing when cancelled. */
  function OperacionalVenda(v: Venda): real {
    LiquidoVenda(v) - TaxaVenda(v) - FreteVenda(v)
  }

  /** What a sale keeps after fees, freight and its cost of goods. */
  function MargemVendaOf(custos: map<string, real>): Venda -> real {
    v => OperacionalVenda(v) - CmvVenda(v, custos)
  }

  /** A month the series do not list shows zeros. */
  lemma ColunaForaDoPeriodo(s: Series, k: string, keys: set<string>)
    requires CanalOver(s.meli, keys) && CanalOver(s.shopee, keys) && s.cmv.Keys == keys
    requires k !in keys
    ensures ColunaDoMes(s, k) == LinhaMes(0.0, 0.0, 0.0, 0.0, 0.0, 0.0, 0.0, 0.0)
  {
  }

  /** For the endpoint's series, each derived row of a requested month is a sum over the sales dated
      in that month: gross revenue counts every sale, net revenue the sales not cancelled, operating
      net revenue those sales less their fees and freight, and gross profit also less their cost of
      goods and the bills of the cost-of-goods categories. */
  lemma ColunaFromRecords(s: Series, keys: set<string>, contas: seq<ContaPagar>, caixa: bool,
                          cmvIds: set<string>, meli: seq<Venda>, shopee: seq<Venda>,
                          custos: map<string, real>, k: string)
    requires SeriesMatches(s, keys, contas, caixa, cmvIds, meli, shopee, custos)
    requires k in keys
    ensures var c := ColunaDoMes(s, k);
      && c.receitaBruta == BrutoNoMes(meli, k) + BrutoNoMes(shopee, k)
      && c.receitaLiquida == AtKeySum(meli, VendaMonth, LiquidoVenda, k) + AtKeySum(shopee, VendaMonth, LiquidoVenda, k)
      && c.receitaOperacionalLiquida == AtKeySum(meli, VendaMonth, OperacionalVenda, k)
                                        + AtKeySum(shopee, VendaMonth, OperacionalVenda, k)
      && c.lucroBruto == AtKeySum(meli, VendaMonth, MargemVendaOf(custos), k)
                         + AtKeySum(shopee, VendaMonth, MargemVendaOf(custos), k)
                         - CmvContasNoMes(contas, caixa, cmvIds, k)
  {
    assert CanalMatches(s.meli, meli, k) && CanalMatches(s.shopee, shopee, k);
    NetRevenueIsConfirmedSales(meli, k);
    NetRevenueIsConfirmedSales(shopee, k);
    ColunaCanal(meli, custos, k);
    ColunaCanal(shopee, custos, k);
  }

  /** One channel's operating figures of month `k` as sums over its sales. */
  lemma ColunaCanal(vendas: seq<Venda>, custos: map<string, real>, k: string)
    ensures AtKeySum(vendas, VendaMonth, LiquidoVenda, k) - TaxasNoMes(vendas, k) - FreteNoMes(vendas, k)
            == AtKeySum(vendas, VendaMonth, OperacionalVenda, k)
    ensures AtKeySum(vendas, VendaMonth, OperacionalVenda, k) - CmvVendasNoMes(vendas, custos, k)
            == AtKeySum(vendas, VendaMonth, MargemVendaOf(custos), k)
  {
    var semFrete := v => LiquidoVenda(v) - TaxaVenda(v);
    AtKeySumLinear(vendas, VendaMonth, semFrete, TaxaVenda, LiquidoVenda, k);
    AtKeySumLinear(vendas, VendaMonth, OperacionalVenda, FreteVenda, semFrete, k);
    AtKeySumLinear(vendas, VendaMonth, MargemVendaOf(custos), CmvVendaOf(custos), OperacionalVenda, k);
  }

  // ---------------------------------------------------------------------------
  // The summary

  datatype Resumo = Resumo(receitaLiquidaTotal: real, receitaOperacionalLiquida: real, cmvTotal: real,
                           lucroBruto: real, margemContribuicao: real, despesasOperacionais: real,
                           ebitda: real, resultadoLiquido: real, lucratividadePct: real)

  /** The summary block: the totals read with no data as 0, net revenue, operating net revenue,
      gross profit (also shown as contribution margin), EBITDA after the visible expenses, the
      result (EBITDA, with no depreciation, interest or tax) and profitability. */
  function ResumoDre(totals: Option<Totals>, despesasVisiveis: real): (r: Resumo)
    ensures r.resultadoLiquido == r.ebitda
    ensures r.margemContribuicao == r.lucroBruto
    ensures r.receitaOperacionalLiquida > 0.0 ==>
              r.lucratividadePct * r.receitaOperacionalLiquida == r.resultadoLiquido
    ensures r.receitaOperacionalLiquida <= 0.0 ==> r.lucratividadePct == 0.0
    ensures totals.None? ==> r.ebitda == -despesasVisiveis && r.lucratividadePct == 0.0
  {
    var t := totals.GetOr(Totals(0.0, 0.0, 0.0, 0.0, 0.0, 0.0, 0.0, 0.0, 0.0, 0.0, 0.0, 0.0, 0.0, 0.0));
    var liquida := t.receitaBrutaTotal - t.deducoesTotal;
    var operacional := liquida - t.taxasTotal - t.freteTotal;
    var lucroBruto := operacional - t.cmv;
    var ebitda := lucroBruto - despesasVisiveis;
    var pct := if operacional > 0.0 then ebitda / operacional else 0.0;
    Resumo(liquida, operacional, t.cmv, lucroBruto, lucroBruto, despesasVisiveis, ebitda, ebitda, pct)
  }

  /** With costs and expenses not negative and a positive operating net revenue, profitability is at
      most 1, and it is negative exactly when the result is a loss. */
  lemma LucratividadeBounds(totals: Totals, despesasVisiveis: real)
    requires totals.cmv >= 0.0 && despesasVisiveis >= 0.0
    ensures var r := ResumoDre(Some(totals), despesasVisiveis);
      r.receitaOperacionalLiquida > 0.0 ==>
        r.lucratividadePct <= 1.0 && (r.lucratividadePct < 0.0 <==> r.resultadoLiquido < 0.0)
  {
    var r := ResumoDre(Some(totals), despesasVisiveis);
    var o := r.receitaOperacionalLiquida;
    var p := r.lucratividadePct;
    if o > 0.0 {
      assert p * o == r.resultadoLiquido;
      assert r.resultadoLiquido <= o;
      assert (1.0 - p) * o >= 0.0;
      assert p <= 1.0;
      assert p < 0.0 ==> p * o < 0.0;
      assert p >= 0.0 ==> p * o >= 0.0;
    }
  }

  function ReceitaLiquidaOf(s: Series): string -> real {
    k => ColunaDoMes(s, k).receitaLiquida
  }

  function OperacionalOf(s: Series): string -> real {
    k => ColunaDoMes(s, k).receitaOperacionalLiquida
  }

  function LucroBrutoOf(s: Series): string -> real {
    k => ColunaDoMes(s, k).lucroBruto
  }

  /** The totals' net revenue, operating net revenue and gross profit are the sums of the monthly
      columns over the months the totals were taken over. */
  lemma {:induction false} TotalsAreSumsOfColumns(s: Series, ks: seq<string>)
    ensures var t := ComputeTotals(s, ks);
      && t.receitaBrutaTotal - t.deducoesTotal == Sum(ks, ReceitaLiquidaOf(s))
      && t.receitaBrutaTotal - t.deducoesTotal - t.taxasTotal - t.freteTotal == Sum(ks, OperacionalOf(s))
      && t.receitaBrutaTotal - t.deducoesTotal - t.taxasTotal - t.freteTotal - t.cmv == Sum(ks, LucroBrutoOf(s))
    decreases |ks|
  {
    if |ks| > 0 {
      var n := |ks| - 1;
      TotalsAreSumsOfColumns(s, ks[..n]);
      TotalOfStep(s.meli.receitaBruta, ks);
      TotalOfStep(s.shopee.receitaBruta, ks);
      TotalOfStep(s.meli.deducoes, ks);
      TotalOfStep(s.shopee.deducoes, ks);
      TotalOfStep(s.meli.taxas, ks);
      TotalOfStep(s.shopee.taxas, ks);
      TotalOfStep(s.meli.frete, ks);
      TotalOfStep(s.shopee.frete, ks);
      TotalOfStep(s.cmv, ks);
    }
  }

  /** The summary's net revenue, operating net revenue and gross profit equal the sums of the
      monthly columns. */
  lemma SummaryIsSumOfColumns(s: Series, ks: seq<string>, despesasVisiveis: real)
    ensures var r := ResumoDre(Some(ComputeTotals(s, ks)), despesasVisiveis);
      && r.receitaLiquidaTotal == Sum(ks, ReceitaLiquidaOf(s))
      && r.receitaOperacionalLiquida == Sum(ks, OperacionalOf(s))
      && r.lucroBruto == Sum(ks, LucroBrutoOf(s))
  {
    TotalsAreSumsOfColumns(s, ks);
  }

  /** The summary of the endpoint's totals as sums over the sales and bills dated in the requested
      months: operating net revenue over the sales not cancelled, and EBITDA after their cost of
      goods, the cost-of-goods bills and the visible expenses. */
  lemma SummaryFromRecords(s: Series, meses: seq<MesInfo>, contas: seq<ContaPagar>, caixa: bool,
                           cmvIds: set<string>, meli: seq<Venda>, shopee: seq<Venda>,
                           custos: map<string, real>, despesasVisiveis: real)
    requires SeriesMatches(s, MonthKeys(meses), contas, caixa, cmvIds, meli, shopee, custos)
    ensures var ks := KeySeq(meses); var r := ResumoDre(Some(ComputeTotals(s, ks)), despesasVisiveis);
      && r.receitaOperacionalLiquida == InKeysSum(meli, VendaMonth, OperacionalVenda, ks)
                                        + InKeysSum(shopee, VendaMonth, OperacionalVenda, ks)
      && r.ebitda == InKeysSum(meli, VendaMonth, MargemVendaOf(custos), ks)
                     + InKeysSum(shopee, VendaMonth, MargemVendaOf(custos), ks)
                     - InKeysSum(contas, ContaMonthOf(caixa), CmvContaOf(cmvIds), ks)
                     - despesasVisiveis
  {
    var ks := KeySeq(meses);
    TotalsCountDatedRecords(s, meses, contas, caixa, cmvIds, meli, shopee, custos);
    SummaryCanal(meli, custos, ks);
    SummaryCanal(shopee, custos, ks);
  }

  /** One channel's operating figures over the keys `ks` as sums over its sales. */
  lemma SummaryCanal(vendas: seq<Venda>, custos: map<string, real>, ks: seq<string>)
    ensures InKeysSum(vendas, VendaMonth, ValorVenda, ks) - InKeysSum(vendas, VendaMonth, DeducaoVenda, ks)
            - InKeysSum(vendas, VendaMonth, TaxaVenda, ks) - InKeysSum(vendas, VendaMonth, FreteVenda, ks)
            == InKeysSum(vendas, VendaMonth, OperacionalVenda, ks)
    ensures InKeysSum(vendas, VendaMonth, OperacionalVenda, ks) - InKeysSum(vendas, VendaMonth, CmvVendaOf(custos), ks)
            == InKeysSum(vendas, VendaMonth, MargemVendaOf(custos), ks)
  {
    var semFrete := v => LiquidoVenda(v) - TaxaVenda(v);
    InKeysSumLinear(vendas, VendaMonth, LiquidoVenda, DeducaoVenda, ValorVenda, ks);
    InKeysSumLinear(vendas, VendaMonth, semFrete, TaxaVenda, LiquidoVenda, ks);
    InKeysSumLinear(vendas, VendaMonth, OperacionalVenda, FreteVenda, semFrete, ks);
    InKeysSumLinear(vendas, VendaMonth, MargemVendaOf(custos), CmvVendaOf(custos), OperacionalVenda, ks);
  }
}
