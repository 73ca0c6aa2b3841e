/** The finance dashboard's headline figures: the sales of the period, cancelled ones excluded,
    added up in one pass (the same pass as the sales dashboard's), the operating expenses of the
    period, and gross and net profit. */
module FinanceiroStats {
  import opened Wrappers
  import opened Strings
  import opened Folds
  import opened Calendar
  import opened JsValues
  import VendasStatus
  import SC = SeriesCategorias
  import DS = DashboardStats

  // ---------------------------------------------------------------------------
  // The period

  /** The period is the one the category series uses: an explicit range runs to the last
      millisecond of its final day, and with no period at all it is everything up to `now`. */
  lemma PeriodoFinanceiro(dataInicio: int, dataFim: int, periodo: Option<string>, now: Date)
    ensures SC.IntervaloDoPedido(Some(dataInicio), Some(dataFim), periodo, now)
            == SC.Intervalo(dataInicio, dataFim + MS_PER_DAY - 1)
    ensures SC.IntervaloDoPedido(None, None, None, now) == SC.Intervalo(0, TimeOf(now))
    ensures SC.IntervaloDoPedido(None, None, Some("todos"), now) == SC.Intervalo(0, TimeOf(now))
  {
  }

  // ---------------------------------------------------------------------------
  // The sales counted

  /** A sale row with the columns the query filters on. */
  datatype VendaFin = VendaFin(dataVenda: Date, status: string, venda: DS.VendaDash)

  /** The query's condition: sold within the period, and the status, in any case, does not
      mention "cancel". */
  predicate Considerada(v: VendaFin, iv: SC.Intervalo) {
    iv.start <= TimeOf(v.dataVenda) <= iv.end && !Contains(ToLower(v.status), "cancel")
  }

  function ConsideradaEm(iv: SC.Intervalo): VendaFin -> bool {
    v => Considerada(v, iv)
  }

  /** The sales one query returns, in order. */
  function VendasDoPeriodo(vendas: seq<VendaFin>, iv: SC.Intervalo): (r: seq<DS.VendaDash>)
    ensures |r| <= |vendas|
    ensures forall i :: 0 <= i < |r| ==> exists v :: v in vendas && Considerada(v, iv) && v.venda == r[i]
  {
    var sel := Filter(vendas, ConsideradaEm(iv));
    var r := seq(|sel|, i requires 0 <= i < |sel| => sel[i].venda);
    assert forall i :: 0 <= i < |r| ==> r[i] == sel[i].venda && sel[i] in vendas && Considerada(sel[i], iv);
    r
  }

  /** The sales counted grow one row at a time, in the rows' order: a row adds its sale exactly
      when it is considered. With no rows, nothing is counted. */
  lemma VendasDoPeriodoPorLinha(a: seq<VendaFin>, v: VendaFin, iv: SC.Intervalo)
    ensures VendasDoPeriodo([], iv) == []
    ensures VendasDoPeriodo(a + [v], iv) == VendasDoPeriodo(a, iv) + (if Considerada(v, iv) then [v.venda] else [])
  {
    var s := a + [v];
    assert s[..|s| - 1] == a;
    var sel := Filter(a, ConsideradaEm(iv));
    assert Filter(s, ConsideradaEm(iv)) == sel + (if Considerada(v, iv) then [v] else []);
  }

  /** Every considered row's sale is counted. */
  lemma VendasDoPeriodoCompleta(vendas: seq<VendaFin>, iv: SC.Intervalo, v: VendaFin)
    requires v in vendas && Considerada(v, iv)
    ensures v.venda in VendasDoPeriodo(vendas, iv)
  {
    FilterMembership(vendas, ConsideradaEm(iv), v);
    var sel := Filter(vendas, ConsideradaEm(iv));
    var j :| 0 <= j < |sel| && sel[j] == v;
    assert VendasDoPeriodo(vendas, iv)[j] == v.venda;
  }

  /** A sale the front end calls cancelled, or one sold outside the period, changes nothing: the
      sales counted are those of the other rows. */
  lemma CanceladaNaoConta(a: seq<VendaFin>, v: VendaFin, b: seq<VendaFin>, iv: SC.Intervalo)
    requires VendasStatus.IsStatusCancelado(v.status) || TimeOf(v.dataVenda) < iv.start || TimeOf(v.dataVenda) > iv.end
    ensures VendasDoPeriodo(a + [v] + b, iv) == VendasDoPeriodo(a + b, iv)
  {
    FiltroSemV(a, v, b, ConsideradaEm(iv));
  }

  lemma FiltroSemV<T>(a: seq<T>, v: T, b: seq<T>, p: T -> bool)
    requires !p(v)
    ensures Filter(a + [v] + b, p) == Filter(a + b, p)
  {
    FilterAppend(a + [v], b, p);
    FilterAppend(a, [v], p);
    FilterAppend(a, b, p);
    assert [v][..0] == [];
  }

  // ---------------------------------------------------------------------------
  // The expenses

  /** `(tipo || "caixa").toLowerCase() === "caixa"`: expenses are dated by payment unless another
      basis is asked for. */
  function RegimeDeCaixa(tipoParam: Option<string>): (r: bool)
    ensures tipoParam.None? || tipoParam == Some("") || tipoParam == Some("caixa") ==> r
    ensures tipoParam == Some("competencia") ==> !r
  {
    var t := if tipoParam.Some? && tipoParam.value != "" then tipoParam.value else "caixa";
    assert ToLower("caixa") == "caixa";
    assert ToLower("competencia") != "caixa" by { assert ToLower("competencia")[0] == 'c' && ToLower("competencia")[1] == 'o'; }
    ToLower(t) == "caixa"
  }

  function SelecionadaEm(caixa: bool, iv: SC.Intervalo, portador: Option<string>, ids: seq<string>)
    : SC.ContaPagar -> bool
  {
    c => SC.PagarSelecionada(c, caixa, iv, portador, ids)
  }

  function ValorDaConta(c: SC.ContaPagar): real {
    SC.ValorOuZero(c.valor)
  }

  /** A bill's amount when the query selects it, 0 otherwise. */
  function ValorSelecionado(caixa: bool, iv: SC.Intervalo, portador: Option<string>, ids: seq<string>)
    : SC.ContaPagar -> real
  {
    c => if SC.PagarSelecionada(c, caixa, iv, portador, ids) then ValorDaConta(c) else 0.0
  }

  /** `despesasOperacionais`: the amounts of the bills the query selects, a missing amount as 0. */
  function DespesasOperacionais(despesas: seq<SC.ContaPagar>, caixa: bool, iv: SC.Intervalo,
                                portador: Option<string>, ids: seq<string>): (r: real)
    ensures r == Sum(despesas, ValorSelecionado(caixa, iv, portador, ids))
  {
    var p := SelecionadaEm(caixa, iv, portador, ids);
    SumFilterAs(despesas, p, ValorDaConta, ValorSelecionado(caixa, iv, portador, ids));
    Sum(Filter(despesas, p), ValorDaConta)
  }

  // ---------------------------------------------------------------------------
  // The response

  datatype Resposta = Resposta(faturamentoBruto: real,
                               taxasTotal: real, taxasMercadoLivre: real, taxasShopee: real,
                               freteTotal: real, freteMercadoLivre: real, freteShopee: real,
                               receitaLiquida: real, cmv: real, lucroBruto: real,
                               despesasOperacionais: real, lucroLiquido: real, periodo: SC.Intervalo)

  /** The figures of one request. `meli` and `shopee` are each channel's sale rows, `custos` the
      SKU costs found for their SKUs, `despesas` the bills of the user; all are what the database
      holds. Gross profit is net revenue less the cost of goods, and net profit is gross profit less
      the operating expenses, that is, each counted sale's net revenue less its cost of goods, added
      up, less the expenses. */
  method Estatisticas(meli: seq<VendaFin>, shopee: seq<VendaFin>, custos: seq<(string, JsValue)>,
                      despesas: seq<SC.ContaPagar>, iv: SC.Intervalo, caixa: bool,
                      portador: Option<string>, ids: seq<string>) returns (r: Resposta)
    ensures var vendas := VendasDoPeriodo(meli, iv) + VendasDoPeriodo(shopee, iv);
            var m := DS.MapaCustos(custos);
      && r.faturamentoBruto == Sum(vendas, DS.Vt)
      && r.receitaLiquida == Sum(vendas, DS.Liquida)
      && r.cmv == Sum(vendas, v => DS.CmvDaVenda(v, m))
      && r.taxasTotal == Sum(vendas, DS.TaxaAbs) && r.freteTotal == Sum(vendas, DS.FreteAbs)
      && r.taxasMercadoLivre == AtKeySum(vendas, DS.Plataforma, DS.TaxaAbs, "Mercado Livre")
      && r.taxasShopee == AtKeySum(vendas, DS.Plataforma, DS.TaxaAbs, "Shopee")
      && r.freteMercadoLivre == AtKeySum(vendas, DS.Plataforma, DS.FreteAbs, "Mercado Livre")
      && r.freteShopee == AtKeySum(vendas, DS.Plataforma, DS.FreteAbs, "Shopee")
      && r.lucroLiquido == Sum(vendas, v => DS.Liquida(v) - DS.CmvDaVenda(v, m)) - r.despesasOperacionais
    ensures r.despesasOperacionais == DespesasOperacionais(despesas, caixa, iv, portador, ids)
    ensures r.lucroBruto == r.receitaLiquida - r.cmv
    ensures r.lucroLiquido == r.receitaLiquida - r.cmv - r.despesasOperacionais
    ensures r.periodo == iv
  {
    var vendas := VendasDoPeriodo(meli, iv) + VendasDoPeriodo(shopee, iv);
    var mapaCustos := DS.MapaCustos(custos);
    var t := DS.Agregar(vendas, mapaCustos);
    var despesasOperacionais := DespesasOperacionais(despesas, caixa, iv, portador, ids);
    var lucroBruto := t.receitaLiquida - t.cmvTotal;
    var lucroLiquido := (t.receitaLiquida - t.cmvTotal) - despesasOperacionais;
    DS.LucroBrutoPorVenda(vendas, mapaCustos, t);
    DS.DaPlataformaSoma(vendas, DS.TaxaAbs, "Mercado Livre");
    DS.DaPlataformaSoma(vendas, DS.TaxaAbs, "Shopee");
    DS.DaPlataformaSoma(vendas, DS.FreteAbs, "Mercado Livre");
    DS.DaPlataformaSoma(vendas, DS.FreteAbs, "Shopee");
    r := Resposta(t.faturamentoTotal,
                  t.taxasTotalAbs, DS.DaPlataforma(t.taxasPorPlataforma, "Mercado Livre"),
                  DS.DaPlataforma(t.taxasPorPlataforma, "Shopee"),
                  t.freteTotalAbs, DS.DaPlataforma(t.fretePorPlataforma, "Mercado Livre"),
                  DS.DaPlataforma(t.fretePorPlataforma, "Shopee"),
                  t.receitaLiquida, t.cmvTotal, lucroBruto, despesasOperacionais, lucroLiquido, iv);
  }
}
