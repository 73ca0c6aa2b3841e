/** The sales dashboard's headline figures: the period a request covers, the sales it counts,
    the totals of one pass over them (revenue, fees, freight, cost of goods, units) with the fees
    and freight split by platform, gross profit, and the month-on-month revenue trend. */
module DashboardStats {
  import opened Wrappers
  import opened Folds
  import opened Money
  import opened JsValues
  import opened Calendar

  // ---------------------------------------------------------------------------
  // The period

  /** The time values a request covers; without `useRange` no date filter is applied. */
  datatype Periodo = Periodo(start: int, end: int, useRange: bool)

  /** A query-string value that is present and not empty. */
  predicate Informado(p: Option<string>) {
    p.Some? && p.value != ""
  }

  /** The period of a request. `dataInicio`, `dataFim`, `start` and `end` are the time values the
      query string's dates parse to. An explicit range runs to the last millisecond of its final
      day; a named period is last month, this month, or everything; the legacy `start`/`end` pair
      defaults each missing end to this month's; with nothing given, everything up to `now`. */
  function PeriodoDoPedido(dataInicio: Option<int>, dataFim: Option<int>, periodo: Option<string>,
                           startParam: Option<int>, endParam: Option<int>, now: Date): (r: Periodo)
    ensures dataInicio.Some? && dataFim.Some? ==>
      r.useRange && r.start == dataInicio.value && r.end + 1 == dataFim.value + MS_PER_DAY
    ensures !(dataInicio.Some? && dataFim.Some?) && periodo == Some("mes_passado") ==>
      r.useRange && r.start == StartOfMonth(now.ano, now.mes - 2) && r.end + 1 == StartOfMonth(now.ano, now.mes - 1)
    ensures !(dataInicio.Some? && dataFim.Some?) && periodo == Some("este_mes") ==>
      r.useRange && r.start <= TimeOf(now) <= r.end
      && r.start == TimeOf(DateTime(now.ano, now.mes, 1, 0))
      && r.end == TimeOf(DateTime(now.ano, now.mes, DaysInMonth(now.ano, now.mes), END_OF_DAY))
    ensures !(dataInicio.Some? && dataFim.Some?) && Informado(periodo)
            && periodo != Some("mes_passado") && periodo != Some("este_mes") ==>
      r == Periodo(0, TimeOf(now), false)
    ensures !(dataInicio.Some? && dataFim.Some?) && !Informado(periodo) && (startParam.Some? || endParam.Some?) ==>
      && r.useRange
      && r.start == (if startParam.Some? then startParam.value else StartOfMonth(now.ano, now.mes - 1))
      && r.end == (if endParam.Some? then endParam.value else EndOfMonth(now.ano, now.mes - 1))
    ensures !(dataInicio.Some? && dataFim.Some?) && !Informado(periodo) && startParam.None? && endParam.None? ==>
      r == Periodo(0, TimeOf(now), false)
  {
    if dataInicio.Some? && dataFim.Some? then
      Periodo(dataInicio.value, dataFim.value + (24 * 60 * 60 * 1000 - 1), true)
    else if Informado(periodo) then
      if periodo.value == "mes_passado" then
        EndOfMonthAdjacent(now.ano, now.mes - 2);
        Periodo(StartOfMonth(now.ano, now.mes - 2), EndOfMonth(now.ano, now.mes - 2), true)
      else if periodo.value == "este_mes" then
        MonthContains(now);
        Periodo(StartOfMonth(now.ano, now.mes - 1), EndOfMonth(now.ano, now.mes - 1), true)
      else Periodo(0, TimeOf(now), false)
    else if startParam.Some? || endParam.Some? then
      Periodo(if startParam.Some? then startParam.value else StartOfMonth(now.ano, now.mes - 1),
              if endParam.Some? then endParam.value else EndOfMonth(now.ano, now.mes - 1), true)
    else Periodo(0, TimeOf(now), false)
  }

  /** The two months the trend compares, whatever period was asked for: last month and the month
      before it, each from its first to its last millisecond. */
  function MesesDaTendencia(now: Date): (r: (Periodo, Periodo))
    ensures r.1.end + 1 == r.0.start && r.0.end + 1 == StartOfMonth(now.ano, now.mes - 1)
  {
    EndOfMonthAdjacent(now.ano, now.mes - 3);
    EndOfMonthAdjacent(now.ano, now.mes - 2);
    (Periodo(StartOfMonth(now.ano, now.mes - 2), EndOfMonth(now.ano, now.mes - 2), true),
     Periodo(StartOfMonth(now.ano, now.mes - 3), EndOfMonth(now.ano, now.mes - 3), true))
  }

  /** The trend's first month is last month, starting on its first day (in the previous year in
      January), and is not empty. */
  lemma TendenciaMesPassado(now: Date)
    ensures var r := MesesDaTendencia(now); var p := MonthsBefore(now.ano, now.mes, 1);
      r.0.start == TimeOf(DateTime(p.0, p.1, 1, 0)) && r.0.start <= r.0.end
  {
    MonthNotEmpty(now.ano, now.mes - 2);
    MonthsBeforeStart(now.ano, now.mes, 1);
    assert now.mes - 1 - 1 == now.mes - 2;
  }

  /** The trend's second month is the month before last, starting on its first day (in the
      previous year in January and February), and is not empty. */
  lemma TendenciaMesRetrasado(now: Date)
    ensures var r := MesesDaTendencia(now); var p := MonthsBefore(now.ano, now.mes, 2);
      r.1.start == TimeOf(DateTime(p.0, p.1, 1, 0)) && r.1.start <= r.1.end
  {
    MonthNotEmpty(now.ano, now.mes - 3);
    MonthsBeforeStart(now.ano, now.mes, 2);
    assert now.mes - 1 - 2 == now.mes - 3;
  }

  // ---------------------------------------------------------------------------
  // The sales counted

  /** The fields of a sale the dashboard reads. */
  datatype VendaDash = VendaDash(valorTotal: JsValue, taxaPlataforma: JsValue, frete: JsValue,
                                 quantidade: JsValue, sku: Option<string>, plataforma: Option<string>)

  /** `toNumber`: `null` and `undefined` are 0, and so is anything `Number` does not read as a
      finite number. */
  function ToNumberOrZero(v: JsValue): (r: real)
    ensures v.JsNumber? ==> r == v.n
    ensures v.JsNull? || v.JsUndefined? || v.JsNaN? || v.JsInfinity? || v.JsObject? ==> r == 0.0
    ensures ToNumber(v).Some? ==> r == ToNumber(v).value
  {
    if v.JsNull? || v.JsUndefined? then 0.0
    else match ToNumber(v)
      case Some(n) => n
      case None => 0.0
  }

  /** The sales of the channel asked for: Mercado Livre's, Shopee's, or both, Mercado Livre's first. */
  function VendasDoCanal<T>(canal: Option<string>, meli: seq<T>, shopee: seq<T>): (r: seq<T>)
    ensures canal == Some("mercado_livre") ==> r == meli
    ensures canal == Some("shopee") ==> r == shopee
    ensures canal != Some("mercado_livre") && canal != Some("shopee") ==> r == meli + shopee
  {
    if canal == Some("mercado_livre") then meli
    else if canal == Some("shopee") then shopee
    else meli + shopee
  }

  /** A sale's SKU when it has a non-empty one. */
  function SkuKey(v: VendaDash): Option<string> {
    if v.sku.Some? && v.sku.value != "" then v.sku else None
  }

  /** `skusUnicos`: the non-empty SKUs of the sales, each once, in first-seen order. */
  function SkusUnicos(vendas: seq<VendaDash>): (r: seq<string>)
    ensures forall i, j :: 0 <= i < j < |r| ==> r[i] != r[j]
  {
    Distinct(KeysOf(vendas, SkuKey))
  }

  /** A SKU is looked up exactly when some sale has it. */
  lemma SkusUnicosMembership(vendas: seq<VendaDash>, sku: string)
    ensures sku in SkusUnicos(vendas) <==> exists i :: 0 <= i < |vendas| && SkuKey(vendas[i]) == Some(sku)
  {
    DistinctMembership(KeysOf(vendas, SkuKey), sku);
    KeysOfMembership(vendas, SkuKey, sku);
  }

  /** `mapaCustos`: each SKU's unit cost read with `toNumber`; a SKU listed twice keeps its last cost. */
  function MapaCustos(custos: seq<(string, JsValue)>): (m: map<string, real>)
    ensures m.Keys == set i | 0 <= i < |custos| :: custos[i].0
    ensures forall i :: 0 <= i < |custos| && (forall j :: i < j < |custos| ==> custos[j].0 != custos[i].0) ==>
      m[custos[i].0] == ToNumberOrZero(custos[i].1)
  {
    var es := seq(|custos|, i requires 0 <= i < |custos| => (custos[i].0, ToNumberOrZero(custos[i].1)));
    assert forall i :: 0 <= i < |es| ==> es[i].0 == custos[i].0;
    assert (set i | 0 <= i < |es| :: es[i].0) == set i | 0 <= i < |custos| :: custos[i].0;
    MapFromEntriesLast(es);
    MapFromEntries(es)
  }

  // ---------------------------------------------------------------------------
  // One sale's figures

  function Vt(v: VendaDash): real { ToNumberOrZero(v.valorTotal) }
  function Tp(v: VendaDash): real { ToNumberOrZero(v.taxaPlataforma) }
  function Fr(v: VendaDash): real { ToNumberOrZero(v.frete) }
  function Qtd(v: VendaDash): real { ToNumberOrZero(v.quantidade) }

  /** `vt + tp + fr`: fees and freight are stored with their sign, so they are added. */
  function Liquida(v: VendaDash): real { Vt(v) + Tp(v) + Fr(v) }

  function TaxaAbs(v: VendaDash): real { Abs(Tp(v)) }
  function FreteAbs(v: VendaDash): real { Abs(Fr(v)) }

  /** The unit cost of a sale's SKU, 0 when it has none or its cost is unknown. */
  function CustoUnitario(v: VendaDash, custos: map<string, real>): (r: real)
    ensures SkuKey(v).Some? && v.sku.value in custos ==> r == custos[v.sku.value]
    ensures SkuKey(v).None? || v.sku.value !in custos ==> r == 0.0
  {
    if v.sku.Some? && v.sku.value != "" && v.sku.value in custos then custos[v.sku.value] else 0.0
  }

  /** `custoUnit * qtd` */
  function CmvDaVenda(v: VendaDash, custos: map<string, real>): real {
    CustoUnitario(v, custos) * Qtd(v)
  }

  /** `v.plataforma || "Mercado Livre"`: a sale without a platform counts as Mercado Livre's. */
  function Plataforma(v: VendaDash): Option<string> {
    if v.plataforma.Some? && v.plataforma.value != "" then v.plataforma else Some("Mercado Livre")
  }

  // ---------------------------------------------------------------------------
  // The aggregation loop

  /** What one pass over the sales adds up. */
  datatype Totais = Totais(faturamentoTotal: real, receitaLiquida: real, cmvTotal: real,
                           vendasRealizadas: nat, unidadesVendidas: real,
                           taxasTotalAbs: real, freteTotalAbs: real,
                           taxasPorPlataforma: map<string, real>, fretePorPlataforma: map<string, real>)

  /** `vt + tp + fr` as a function of the sale. */
  function LiquidaDe<T>(vt: T -> real, tp: T -> real, fr: T -> real): T -> real {
    x => vt(x) + tp(x) + fr(x)
  }

  /** `Math.abs` of a reading, as a function of the sale. */
  function AbsDe<T>(f: T -> real): T -> real {
    x => Abs(f(x))
  }

  /** What the loop adds up over `vendas`, each total defined as a sum over the sales. */
  function TotaisDe<T>(vendas: seq<T>, vt: T -> real, tp: T -> real, fr: T -> real, qtd: T -> real,
                       cmv: T -> real, plataforma: T -> Option<string>): Totais {
    Totais(Sum(vendas, vt), Sum(vendas, LiquidaDe(vt, tp, fr)), Sum(vendas, cmv),
           |vendas|, Sum(vendas, qtd), Sum(vendas, AbsDe(tp)), Sum(vendas, AbsDe(fr)),
           Totals(vendas, plataforma, AbsDe(tp)), Totals(vendas, plataforma, AbsDe(fr)))
  }

  /** One sale's step on the sums. */
  lemma SomasStep<T>(vendas: seq<T>, i: nat, vt: T -> real, tp: T -> real, fr: T -> real, qtd: T -> real,
                     cmv: T -> real, plataforma: T -> Option<string>)
    requires i < |vendas|
    ensures var v := vendas[i];
      var t0 := TotaisDe(vendas[..i], vt, tp, fr, qtd, cmv, plataforma);
      var t1 := TotaisDe(vendas[..i + 1], vt, tp, fr, qtd, cmv, plataforma);
      && t1.faturamentoTotal == t0.faturamentoTotal + vt(v)
      && t1.receitaLiquida == t0.receitaLiquida + (vt(v) + tp(v) + fr(v))
      && t1.cmvTotal == t0.cmvTotal + cmv(v)
      && t1.unidadesVendidas == t0.unidadesVendidas + qtd(v)
      && t1.taxasTotalAbs == t0.taxasTotalAbs + Abs(tp(v))
      && t1.freteTotalAbs == t0.freteTotalAbs + Abs(fr(v))
  {
    SumStep(vendas, i, vt);
    SumStep(vendas, i, LiquidaDe(vt, tp, fr));
    SumStep(vendas, i, cmv);
    SumStep(vendas, i, qtd);
    SumStep(vendas, i, AbsDe(tp));
    SumStep(vendas, i, AbsDe(fr));
  }

  /** One sale's step on the per-platform maps. */
  lemma MapasStep<T>(vendas: seq<T>, i: nat, vt: T -> real, tp: T -> real, fr: T -> real, qtd: T -> real,
                     cmv: T -> real, plataforma: T -> Option<string>)
    requires i < |vendas| && plataforma(vendas[i]).Some?
    ensures var v := vendas[i];
      var p := plataforma(v).value;
      var t0 := TotaisDe(vendas[..i], vt, tp, fr, qtd, cmv, plataforma);
      var t1 := TotaisDe(vendas[..i + 1], vt, tp, fr, qtd, cmv, plataforma);
      && t1.taxasPorPlataforma == t0.taxasPorPlataforma[p := (if p in t0.taxasPorPlataforma then t0.taxasPorPlataforma[p] else 0.0) + Abs(tp(v))]
      && t1.fretePorPlataforma == t0.fretePorPlataforma[p := (if p in t0.fretePorPlataforma then t0.fretePorPlataforma[p] else 0.0) + Abs(fr(v))]
  {
    TotalsStep(vendas, i, plataforma, AbsDe(tp));
    TotalsStep(vendas, i, plataforma, AbsDe(fr));
  }

  /** The totals after one more sale with the given readings and cost: the body of the loop. The
      fees and freight are added as absolute values, in total and under the sale's platform. */
  function Somar(t: Totais, valor: real, taxa: real, frete: real, quantidade: real, cmv: real, plataforma: string)
    : Totais
  {
    var taxaAbs := Abs(taxa);
    var freteAbs := Abs(frete);
    var taxas := t.taxasPorPlataforma;
    var fretes := t.fretePorPlataforma;
    Totais(t.faturamentoTotal + valor, t.receitaLiquida + (valor + taxa + frete), t.cmvTotal + cmv,
           t.vendasRealizadas + 1, t.unidadesVendidas + quantidade,
           t.taxasTotalAbs + taxaAbs, t.freteTotalAbs + freteAbs,
           taxas[plataforma := (if plataforma in taxas then taxas[plataforma] else 0.0) + taxaAbs],
           fretes[plataforma := (if plataforma in fretes then fretes[plataforma] else 0.0) + freteAbs])
  }

  /** One sale's step on the totals. */
  lemma TotaisStep<T>(vendas: seq<T>, i: nat, vt: T -> real, tp: T -> real, fr: T -> real, qtd: T -> real,
                      cmv: T -> real, plataforma: T -> Option<string>)
    requires i < |vendas| && plataforma(vendas[i]).Some?
    ensures var v := vendas[i];
      TotaisDe(vendas[..i + 1], vt, tp, fr, qtd, cmv, plataforma)
        == Somar(TotaisDe(vendas[..i], vt, tp, fr, qtd, cmv, plataforma),
                 vt(v), tp(v), fr(v), qtd(v), cmv(v), plataforma(v).value)
  {
    SomasStep(vendas, i, vt, tp, fr, qtd, cmv, plataforma);
    MapasStep(vendas, i, vt, tp, fr, qtd, cmv, plataforma);
  }

  /** The loop over the sales, with a sale's readings and its cost of goods (`custoUnit * qtd`)
      given as functions: after it, every total is the sum over all the sales (`TotaisDe`). */
  method AgregarCom<T>(vendas: seq<T>, vt: T -> real, tp: T -> real, fr: T -> real, qtd: T -> real,
                       cmv: T -> real, plataforma: T -> Option<string>) returns (t: Totais)
    requires forall i :: 0 <= i < |vendas| ==> plataforma(vendas[i]).Some?
    ensures t == TotaisDe(vendas, vt, tp, fr, qtd, cmv, plataforma)
  {
    t := Totais(0.0, 0.0, 0.0, 0, 0.0, 0.0, 0.0, map[], map[]);
    for i := 0 to |vendas|
      invariant t == TotaisDe(vendas[..i], vt, tp, fr, qtd, cmv, plataforma)
    {
      var v := vendas[i];
      TotaisStep(vendas, i, vt, tp, fr, qtd, cmv, plataforma);
      t := Somar(t, vt(v), tp(v), fr(v), qtd(v), cmv(v), plataforma(v).value);
    }
    assert vendas[..|vendas|] == vendas;
  }

  /** The loop over the dashboard's sales, with `toNumber` readings and the SKU costs: each total is
      the sum of its per-sale figure, the sale count is the number of sales, and the per-platform
      maps hold each platform's fees and freight. */
  method Agregar(vendas: seq<VendaDash>, custos: map<string, real>) returns (t: Totais)
    ensures t.faturamentoTotal == Sum(vendas, Vt)
    ensures t.receitaLiquida == Sum(vendas, Liquida)
    ensures t.cmvTotal == Sum(vendas, v => CmvDaVenda(v, custos))
    ensures t.vendasRealizadas == |vendas|
    ensures t.unidadesVendidas == Sum(vendas, Qtd)
    ensures t.taxasTotalAbs == Sum(vendas, TaxaAbs) && t.freteTotalAbs == Sum(vendas, FreteAbs)
    ensures t.taxasPorPlataforma == Totals(vendas, Plataforma, TaxaAbs)
    ensures t.fretePorPlataforma == Totals(vendas, Plataforma, FreteAbs)
  {
    t := AgregarCom(vendas, Vt, Tp, Fr, Qtd, v => CmvDaVenda(v, custos), Plataforma);
    SumPointwise(vendas, LiquidaDe(Vt, Tp, Fr), Liquida);
    SumPointwise(vendas, AbsDe(Tp), TaxaAbs);
    SumPointwise(vendas, AbsDe(Fr), FreteAbs);
    TotalsPointwise(vendas, Plataforma, AbsDe(Tp), TaxaAbs);
    TotalsPointwise(vendas, Plataforma, AbsDe(Fr), FreteAbs);
  }

  // ---------------------------------------------------------------------------
  // What the totals mean

  /** Net revenue is the gross revenue plus the (signed) fees and freight. */
  lemma ReceitaLiquidaDecomposta(vendas: seq<VendaDash>)
    ensures Sum(vendas, Liquida) == Sum(vendas, Vt) + Sum(vendas, Tp) + Sum(vendas, Fr)
  {
    var vtp := v => Vt(v) + Tp(v);
    SumLinear(vendas, Vt, Tp, vtp);
    SumLinear(vendas, vtp, Fr, Liquida);
  }

  /** Fee and freight totals never go below zero. */
  lemma TotaisAbsNaoNegativos(vendas: seq<VendaDash>)
    ensures Sum(vendas, TaxaAbs) >= 0.0 && Sum(vendas, FreteAbs) >= 0.0
  {
    SumNonneg(vendas, TaxaAbs);
    SumNonneg(vendas, FreteAbs);
  }

  /** `m.get(p) || 0` */
  function DaPlataforma(m: map<string, real>, p: string): real {
    if p in m then m[p] else 0.0
  }

  /** A platform's entry in the per-platform totals is the total over its sales, 0 when it has none. */
  lemma DaPlataformaSoma(vendas: seq<VendaDash>, val: VendaDash -> real, p: string)
    ensures DaPlataforma(Totals(vendas, Plataforma, val), p) == AtKeySum(vendas, Plataforma, val, p)
  {
    if p !in KeysOf(vendas, Plataforma) {
      AtKeySumAbsent(vendas, Plataforma, val, p);
    }
  }

  /** When every sale is Mercado Livre's or Shopee's (a sale without a platform counting as Mercado
      Livre's), a total is the Mercado Livre part plus the Shopee part of the per-platform map. */
  lemma TotalPorPlataforma(vendas: seq<VendaDash>, val: VendaDash -> real)
    requires forall i :: 0 <= i < |vendas| ==> Plataforma(vendas[i]) in {Some("Mercado Livre"), Some("Shopee")}
    ensures var m := Totals(vendas, Plataforma, val);
      Sum(vendas, val) == DaPlataforma(m, "Mercado Livre") + DaPlataforma(m, "Shopee")
  {
    DaPlataformaSoma(vendas, val, "Mercado Livre");
    DaPlataformaSoma(vendas, val, "Shopee");
    SumTwoKeys(vendas, Plataforma, val, "Mercado Livre", "Shopee");
  }

  /** `lucroBruto = receitaLiquida - cmvTotal`: what is left of each sale after its fees, freight
      and cost of goods, added up. */
  function LucroBruto(t: Totais): real {
    t.receitaLiquida - t.cmvTotal
  }

  lemma LucroBrutoPorVenda(vendas: seq<VendaDash>, custos: map<string, real>, t: Totais)
    requires t.receitaLiquida == Sum(vendas, Liquida) && t.cmvTotal == Sum(vendas, v => CmvDaVenda(v, custos))
    ensures LucroBruto(t) == Sum(vendas, v => Liquida(v) - CmvDaVenda(v, custos))
  {
    var cmv := v => CmvDaVenda(v, custos);
    var lucro := v => Liquida(v) - CmvDaVenda(v, custos);
    SumLinear(vendas, lucro, cmv, Liquida);
  }

  /** The revenue of the sales of one month, Mercado Livre's plus Shopee's (`reduce` over `toNumber`). */
  function FaturamentoDoMes(meli: seq<JsValue>, shopee: seq<JsValue>): real {
    Sum(meli, ToNumberOrZero) + Sum(shopee, ToNumberOrZero)
  }

  /** `faturamentoTendencia`: the change from the month before last to last month, as a percentage of
      the former; 0 unless the former is positive. */
  function Tendencia(ultimo: real, anterior: real): (r: real)
    ensures anterior > 0.0 ==> r * anterior == (ultimo - anterior) * 100.0
    ensures anterior <= 0.0 ==> r == 0.0
    ensures anterior > 0.0 ==> (r > 0.0 <==> ultimo > anterior) && (r == 0.0 <==> ultimo == anterior)
  {
    if anterior > 0.0 then ((ultimo - anterior) / Abs(anterior)) * 100.0 else 0.0
  }
}
