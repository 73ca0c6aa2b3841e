/** Revenue by origin: the period a request covers, and the split of the period's sales into those
    that came through an ad ("Com ADS") and the others ("Sem ADS"), with each group's revenue, count
    and shares. */
module FaturamentoPorOrigem {
  import opened Wrappers
  import opened Strings
  import opened Folds
  import opened Money
  import opened JsValues
  import opened Calendar
  import SC = SeriesCategorias
  import DS = DashboardStats

  // ---------------------------------------------------------------------------
  // The period

  /** The periods `getDateRange` knows by name; any other name means everything. */
  datatype NomePeriodo = Hoje | Ontem | Ultimos7d | Ultimos30d | Ultimos12m | EsteMes | MesPassado
                       | Ultimos3Meses | Ultimos6Meses | Todos

  /** The `switch` on the period's name. */
  function NomeDoPeriodo(periodo: string): (r: NomePeriodo)
    ensures r == Todos <==> periodo !in {"hoje", "ontem", "ultimos_7d", "ultimos_30d", "ultimos_12m",
                                         "este_mes", "mes_passado", "ultimos_3_meses", "ultimos_6_meses"}
  {
    if periodo == "hoje" then Hoje
    else if periodo == "ontem" then Ontem
    else if periodo == "ultimos_7d" then Ultimos7d
    else if periodo == "ultimos_30d" then Ultimos30d
    else if periodo == "ultimos_12m" then Ultimos12m
    else if periodo == "este_mes" then EsteMes
    else if periodo == "mes_passado" then MesPassado
    else if periodo == "ultimos_3_meses" then Ultimos3Meses
    else if periodo == "ultimos_6_meses" then Ultimos6Meses
    else Todos
  }

  /** Whole days from midnight of day `a` to 23:59:59.999 of day `b` (`DiasLimites`). */
  function Dias(a: int, b: int): SC.Intervalo {
    SC.Intervalo(MakeDate(a, MakeTime(0, 0, 0, 0)), MakeDate(b, MakeTime(23, 59, 59, 999)))
  }

  /** A window of whole days starts at the first millisecond of its first day and ends one
      millisecond before the day after its last. */
  lemma DiasLimites(a: int, b: int)
    ensures Dias(a, b).start == MakeDate(a, 0) && Dias(a, b).end + 1 == MakeDate(b + 1, 0)
  {
    DiaSeguinte(b);
  }

  /** The months from `m0 - k` to `m0`, from the first millisecond of the first to the last of the
      last: `new Date(y, m0 - k, 1)` to `new Date(y, m0 + 1, 0, 23, 59, 59, 999)` (`MesesLimites`). */
  function Meses(y: int, m0: int, k: nat): SC.Intervalo {
    SC.Intervalo(StartOfMonth(y, m0 - k), EndOfMonth(y, m0))
  }

  /** A window of months starts with its first month, ends one millisecond before the month after
      its last, and covers the whole of its last month. */
  lemma MesesLimites(y: int, m0: int, k: nat)
    ensures var r := Meses(y, m0, k);
      r.start == StartOfMonth(y, m0 - k) && r.end + 1 == StartOfMonth(y, m0 + 1)
    ensures var r := Meses(y, m0, k);
      r.start <= StartOfMonth(y, m0) && r.end == EndOfMonth(y, m0)
  {
    StartOfMonthMonotone(y, m0 - k, m0);
    EndOfMonthAdjacent(y, m0);
  }

  /** `getDateRange`: the named periods, from `now`. Days run from midnight to 23:59:59.999 and
      months from their first to their last millisecond; "todos" is everything up to `now`. The
      days counted back with `setDate` and the year counted back with `setMonth` are day numbers
      here (`DiasSeguidos`, `UmAnoAntes`). */
  function IntervaloDoPeriodo(periodo: NomePeriodo, now: Date): (r: SC.Intervalo)
    ensures periodo == Todos ==> r.start == 0
  {
    var hoje := DayOf(now);
    match periodo
    case Hoje => Dias(hoje, hoje)
    case Ontem => Dias(hoje - 1, hoje - 1)
    case Ultimos7d => Dias(hoje - 6, hoje)
    case Ultimos30d => Dias(hoje - 29, hoje)
    case Ultimos12m => Dias(MakeDay(now.ano - 1, now.mes - 1, now.dia), hoje)
    case EsteMes => Meses(now.ano, now.mes - 1, 0)
    case MesPassado => Meses(now.ano, now.mes - 2, 0)
    case Ultimos3Meses => Meses(now.ano, now.mes - 1, 2)
    case Ultimos6Meses => Meses(now.ano, now.mes - 1, 5)
    case Todos => SC.Intervalo(0, TimeOf(now))
  }

  /** The day periods are windows of whole days: today; yesterday; the last 7 and 30 days, which
      start six and 29 days back and end with today; and the last twelve months, which start on
      the same day a year earlier. Each window holds `now` (`DiaNaJanela`) except yesterday's. */
  lemma PeriodosEmDias(now: Date)
    ensures IntervaloDoPeriodo(Hoje, now) == Dias(DayOf(now), DayOf(now))
    ensures IntervaloDoPeriodo(Ontem, now) == Dias(DayOf(now) - 1, DayOf(now) - 1)
    ensures IntervaloDoPeriodo(Ultimos7d, now) == Dias(DayOf(now) - 6, DayOf(now))
    ensures IntervaloDoPeriodo(Ultimos30d, now) == Dias(DayOf(now) - 29, DayOf(now))
    ensures IntervaloDoPeriodo(Ultimos12m, now) == Dias(MakeDay(now.ano - 1, now.mes - 1, now.dia), DayOf(now))
  {
  }

  /** This month is the calendar month of `now`, from its first to its last millisecond. */
  lemma PeriodoEsteMes(now: Date)
    ensures var r := IntervaloDoPeriodo(EsteMes, now);
      r.start == TimeOf(DateTime(now.ano, now.mes, 1, 0))
      && r.end == TimeOf(DateTime(now.ano, now.mes, DaysInMonth(now.ano, now.mes), END_OF_DAY))
    ensures var r := IntervaloDoPeriodo(EsteMes, now);
      r.start <= TimeOf(now) <= r.end
  {
    MonthContains(now);
  }

  /** Last month is the month before this one, ending a millisecond before this one starts. */
  lemma PeriodoMesPassado(now: Date)
    ensures var r := IntervaloDoPeriodo(MesPassado, now);
      r.start == StartOfMonth(now.ano, now.mes - 2) && r.end + 1 == StartOfMonth(now.ano, now.mes - 1)
  {
    MesesLimites(now.ano, now.mes - 2, 0);
  }

  /** The last 3 months start two months before this one and end with it, holding `now`. */
  lemma PeriodoUltimos3Meses(now: Date)
    ensures var r := IntervaloDoPeriodo(Ultimos3Meses, now);
      r.start == StartOfMonth(now.ano, now.mes - 3) && r.end + 1 == StartOfMonth(now.ano, now.mes)
    ensures var r := IntervaloDoPeriodo(Ultimos3Meses, now);
      r.start <= TimeOf(now) <= r.end
  {
    MesesLimites(now.ano, now.mes - 1, 2);
    MesesAteAgora(now, 2);
  }

  /** The last 6 months start five months before this one and end with it, holding `now`. */
  lemma PeriodoUltimos6Meses(now: Date)
    ensures var r := IntervaloDoPeriodo(Ultimos6Meses, now);
      r.start == StartOfMonth(now.ano, now.mes - 6) && r.end + 1 == StartOfMonth(now.ano, now.mes)
    ensures var r := IntervaloDoPeriodo(Ultimos6Meses, now);
      r.start <= TimeOf(now) <= r.end
  {
    MesesLimites(now.ano, now.mes - 1, 5);
    MesesAteAgora(now, 5);
  }

  /** A window of months that ends with the month of `now` holds `now`. */
  lemma MesesAteAgora(now: Date, k: nat)
    ensures Meses(now.ano, now.mes - 1, k).start <= TimeOf(now) <= Meses(now.ano, now.mes - 1, k).end
  {
    MonthContains(now);
    MesesLimites(now.ano, now.mes - 1, k);
  }

  /** "todos", and any name the `switch` does not know, is everything from the epoch to `now`. */
  lemma PeriodoTodos(now: Date)
    ensures IntervaloDoPeriodo(Todos, now) == SC.Intervalo(0, TimeOf(now))
    ensures IntervaloDoPeriodo(NomeDoPeriodo("ultimos_90d"), now) == SC.Intervalo(0, TimeOf(now))
  {
  }

  /** `setDate(getDate() - k)`, counting days back from a date, moves its day number back by as
      many, across month and year ends. */
  lemma DiasSeguidos(y: int, m0: int, d: int, k: int)
    ensures MakeDay(y, m0, d - k) == MakeDay(y, m0, d) - k
  {
  }

  /** A window of whole days that includes today holds every moment of today; for `now`, the day
      is `DayOf(now)`, the millisecond `now.ms`, and `TimeOf(now)` is `MakeDate` of the two. */
  lemma DiaNaJanela(a: int, hoje: int, ms: int)
    requires a <= hoje && 0 <= ms < MS_PER_DAY
    ensures Dias(a, hoje).start <= MakeDate(hoje, ms) <= Dias(a, hoje).end
  {
    DepoisDoInicio(a, hoje, ms);
    AntesDoFim(a, hoje, ms);
  }

  lemma DepoisDoInicio(a: int, hoje: int, ms: int)
    requires a <= hoje && 0 <= ms < MS_PER_DAY
    ensures Dias(a, hoje).start <= MakeDate(hoje, ms)
  {
  }

  lemma AntesDoFim(a: int, hoje: int, ms: int)
    requires 0 <= ms < MS_PER_DAY
    ensures MakeDate(hoje, ms) <= Dias(a, hoje).end
  {
  }

  /** The last millisecond of a day is one before the first of the next. */
  lemma DiaSeguinte(b: int)
    ensures MakeDate(b, MakeTime(23, 59, 59, 999)) + 1 == MakeDate(b + 1, 0)
  {
    assert MakeTime(23, 59, 59, 999) == MS_PER_DAY - 1;
    assert (b + 1) * MS_PER_DAY == b * MS_PER_DAY + MS_PER_DAY;
  }

  /** The same day a year earlier is not after the day itself. */
  lemma AnoAntesAntes(now: Date)
    ensures MakeDay(now.ano - 1, now.mes - 1, now.dia) <= DayOf(now)
  {
    var m0 := now.mes - 1;
    assert m0 / 12 == 0 && m0 % 12 == m0;
    assert (now.ano - 1) + m0 / 12 == now.ano - 1;
    DayFromYearNext(now.ano - 1);
    DiasAntesDoMesQuaseIguais(now.ano - 1, now.ano, m0);
  }

  /** Two years' months differ by at most February's leap day. */
  lemma {:induction false} DiasAntesDoMesQuaseIguais(a: int, b: int, m0: int)
    requires 0 <= m0 <= 12
    ensures DaysBeforeMonth(a, m0) <= DaysBeforeMonth(b, m0) + 1
    ensures m0 <= 1 ==> DaysBeforeMonth(a, m0) == DaysBeforeMonth(b, m0)
  {
    if m0 > 0 {
      DiasAntesDoMesQuaseIguais(a, b, m0 - 1);
    }
  }

  /** `setMonth(getMonth() - 12)`: twelve months back is the same month and day of the year before,
      which is where the twelve-month window starts. */
  lemma UmAnoAntes(y: int, m0: int, d: int)
    ensures MakeDay(y, m0 - 12, d) == MakeDay(y - 1, m0, d)
  {
    assert (m0 - 12) / 12 == m0 / 12 - 1;
    assert (m0 - 12) % 12 == m0 % 12;
  }

  /** The period of a request: an explicit range runs to the last millisecond of its final day;
      otherwise the named period (by default "todos"), where "todos" applies no date filter at all
      (`None`). */
  function PeriodoDoPedido(dataInicio: Option<int>, dataFim: Option<int>, periodo: Option<string>, now: Date)
    : (r: Option<SC.Intervalo>)
    ensures dataInicio.Some? && dataFim.Some? ==>
      r == Some(SC.Intervalo(dataInicio.value, dataFim.value + MS_PER_DAY - 1))
    ensures !(dataInicio.Some? && dataFim.Some?) && (periodo.None? || periodo == Some("") || periodo == Some("todos")) ==>
      r.None?
    ensures !(dataInicio.Some? && dataFim.Some?) && periodo.Some? && periodo.value !in {"", "todos"} ==>
      r == Some(IntervaloDoPeriodo(NomeDoPeriodo(periodo.value), now))
  {
    var periodoParam := if periodo.Some? && periodo.value != "" then periodo.value else "todos";
    if dataInicio.Some? && dataFim.Some? then
      Some(SC.Intervalo(dataInicio.value, dataFim.value + (24 * 60 * 60 * 1000 - 1)))
    else if periodoParam == "todos" then None
    else Some(IntervaloDoPeriodo(NomeDoPeriodo(periodoParam), now))
  }

  // ---------------------------------------------------------------------------
  // The sales and the split

  /** The columns of a sale the split reads. Shopee's sales have no ad column (`None`). */
  datatype VendaOrigem = VendaOrigem(valorTotal: JsValue, ads: Option<string>)

  /** The sales of the channel asked for; Shopee's count as sales without an ad. */
  function VendasDoCanal(canal: Option<string>, meli: seq<VendaOrigem>, shopee: seq<VendaOrigem>)
    : (r: seq<VendaOrigem>)
    ensures canal == Some("mercado_livre") ==> r == meli
    ensures canal == Some("shopee") ==> |r| == |shopee| && forall i :: 0 <= i < |r| ==> r[i] == shopee[i].(ads := None)
    ensures canal != Some("mercado_livre") && canal != Some("shopee") ==>
      |r| == |meli| + |shopee| && r[..|meli|] == meli
      && forall i :: 0 <= i < |shopee| ==> r[|meli| + i] == shopee[i].(ads := None)
  {
    var semAds := seq(|shopee|, i requires 0 <= i < |shopee| => shopee[i].(ads := None));
    DS.VendasDoCanal(canal, meli, semAds)
  }

  /** A sale came through an ad when its ad column is present, not empty, not "null" in any case,
      and not blank. */
  predicate TemAds(v: VendaOrigem) {
    v.ads.Some? && v.ads.value != "" && ToLower(v.ads.value) != "null" && Trim(v.ads.value) != ""
  }

  predicate SemAds(v: VendaOrigem) {
    !TemAds(v)
  }

  function Valor(v: VendaOrigem): real {
    DS.ToNumberOrZero(v.valorTotal)
  }

  function ValorComAds(v: VendaOrigem): real {
    if TemAds(v) then Valor(v) else 0.0
  }

  function ValorSemAds(v: VendaOrigem): real {
    if TemAds(v) then 0.0 else Valor(v)
  }

  /** A sale's amount when the test holds, 0 otherwise. */
  function SeTem<T>(tem: T -> bool, valor: T -> real): T -> real {
    x => if tem(x) then valor(x) else 0.0
  }

  /** A sale's amount when the test fails, 0 otherwise. */
  function SeNaoTem<T>(tem: T -> bool, valor: T -> real): T -> real {
    x => if tem(x) then 0.0 else valor(x)
  }

  function Nao<T>(tem: T -> bool): T -> bool {
    x => !tem(x)
  }

  /** The loop over the sales, with the ad test and the amount given as functions: it adds each
      sale's amount and a count of 1 to exactly one of the two groups. */
  method AgruparCom<T>(vendas: seq<T>, temAds: T -> bool, valor: T -> real)
    returns (faturamentoComAds: real, faturamentoSemAds: real, quantidadeComAds: nat, quantidadeSemAds: nat)
    ensures faturamentoComAds == Sum(vendas, SeTem(temAds, valor))
    ensures faturamentoSemAds == Sum(vendas, SeNaoTem(temAds, valor))
    ensures quantidadeComAds == Count(vendas, temAds)
    ensures quantidadeSemAds == Count(vendas, Nao(temAds))
  {
    faturamentoComAds, faturamentoSemAds := 0.0, 0.0;
    quantidadeComAds, quantidadeSemAds := 0, 0;
    for i := 0 to |vendas|
      invariant faturamentoComAds == Sum(vendas[..i], SeTem(temAds, valor))
      invariant faturamentoSemAds == Sum(vendas[..i], SeNaoTem(temAds, valor))
      invariant quantidadeComAds == Count(vendas[..i], temAds)
      invariant quantidadeSemAds == Count(vendas[..i], Nao(temAds))
    {
      var venda := vendas[i];
      SumStep(vendas, i, SeTem(temAds, valor));
      SumStep(vendas, i, SeNaoTem(temAds, valor));
      CountStep(vendas, i, temAds);
      CountStep(vendas, i, Nao(temAds));
      var v := valor(venda);
      if temAds(venda) {
        faturamentoComAds := faturamentoComAds + v;
        quantidadeComAds := quantidadeComAds + 1;
      } else {
        faturamentoSemAds := faturamentoSemAds + v;
        quantidadeSemAds := quantidadeSemAds + 1;
      }
    }
    assert vendas[..|vendas|] == vendas;
  }

  /** Every sale lands in exactly one group: the counts add up to the number of sales and the two
      revenues to the revenue of all of them. */
  method Agrupar(vendas: seq<VendaOrigem>)
    returns (faturamentoComAds: real, faturamentoSemAds: real, quantidadeComAds: nat, quantidadeSemAds: nat)
    ensures faturamentoComAds == Sum(vendas, ValorComAds) && faturamentoSemAds == Sum(vendas, ValorSemAds)
    ensures quantidadeComAds == Count(vendas, TemAds) && quantidadeSemAds == Count(vendas, SemAds)
    ensures quantidadeComAds + quantidadeSemAds == |vendas|
    ensures faturamentoComAds + faturamentoSemAds == Sum(vendas, Valor)
  {
    faturamentoComAds, faturamentoSemAds, quantidadeComAds, quantidadeSemAds := AgruparCom(vendas, TemAds, Valor);
    SumPointwise(vendas, SeTem(TemAds, Valor), ValorComAds);
    SumPointwise(vendas, SeNaoTem(TemAds, Valor), ValorSemAds);
    CountPointwise(vendas, Nao(TemAds), SemAds);
    CountComplement(vendas, TemAds, SemAds);
    SumLinear(vendas, ValorComAds, ValorSemAds, Valor);
  }

  // ---------------------------------------------------------------------------
  // The result

  /** A share in percent; 0 when the total is not positive. */
  function Percentual(parte: real, total: real): (r: real)
    ensures total > 0.0 ==> r * total == parte * 100.0
    ensures total <= 0.0 ==> r == 0.0
  {
    if total > 0.0 then (parte / total) * 100.0 else 0.0
  }

  /** Two parts of a positive total have shares that add up to 100. */
  lemma PercentuaisSomam100(a: real, b: real)
    requires a + b > 0.0
    ensures Percentual(a, a + b) + Percentual(b, a + b) == 100.0
  {
    var t := a + b;
    var p, q := Percentual(a, t), Percentual(b, t);
    assert p * t == a * 100.0 && q * t == b * 100.0;
    assert (p + q - 100.0) * t == p * t + q * t - 100.0 * t;
    assert (p + q - 100.0) * t == 0.0;
  }

  datatype Grupo = Grupo(origem: string, faturamento: real, quantidade: nat, percentual: real,
                         percentualFaturamento: real, percentualQuantidade: real)

  /** One group's entry, its amounts to the cent. */
  function GrupoDe(origem: string, faturamento: real, quantidade: nat, faturamentoTotal: real, quantidadeTotal: nat)
    : (g: Grupo)
    ensures g.origem == origem && g.quantidade == quantidade && g.faturamento == RoundCents(faturamento)
    ensures g.percentual == g.percentualFaturamento == RoundCents(Percentual(faturamento, faturamentoTotal))
    ensures g.percentualQuantidade == RoundCents(Percentual(quantidade as real, quantidadeTotal as real))
  {
    var pf := Percentual(faturamento, faturamentoTotal);
    var pq := Percentual(quantidade as real, quantidadeTotal as real);
    Grupo(origem, RoundCents(faturamento), quantidade, RoundCents(pf), RoundCents(pf), RoundCents(pq))
  }

  /** The result: "Com ADS" and then "Sem ADS", each only when its revenue is positive. */
  function Resultado(faturamentoComAds: real, faturamentoSemAds: real, quantidadeComAds: nat, quantidadeSemAds: nat)
    : (r: seq<Grupo>)
    ensures |r| == (if faturamentoComAds > 0.0 then 1 else 0) + (if faturamentoSemAds > 0.0 then 1 else 0)
    ensures (exists i :: 0 <= i < |r| && r[i].origem == "Com ADS") <==> faturamentoComAds > 0.0
    ensures (exists i :: 0 <= i < |r| && r[i].origem == "Sem ADS") <==> faturamentoSemAds > 0.0
    ensures forall i :: 0 <= i < |r| ==> r[i].faturamento >= 0.0
    ensures faturamentoComAds > 0.0 ==>
      r[0] == GrupoDe("Com ADS", faturamentoComAds, quantidadeComAds,
                      faturamentoComAds + faturamentoSemAds, quantidadeComAds + quantidadeSemAds)
    ensures faturamentoSemAds > 0.0 ==>
      r[|r| - 1] == GrupoDe("Sem ADS", faturamentoSemAds, quantidadeSemAds,
                            faturamentoComAds + faturamentoSemAds, quantidadeComAds + quantidadeSemAds)
  {
    var faturamentoTotal := faturamentoComAds + faturamentoSemAds;
    var quantidadeTotal := quantidadeComAds + quantidadeSemAds;
    var com := if faturamentoComAds > 0.0 then [GrupoDe("Com ADS", faturamentoComAds, quantidadeComAds, faturamentoTotal, quantidadeTotal)] else [];
    var sem := if faturamentoSemAds > 0.0 then [GrupoDe("Sem ADS", faturamentoSemAds, quantidadeSemAds, faturamentoTotal, quantidadeTotal)] else [];
    RoundCentsSign(faturamentoComAds);
    RoundCentsSign(faturamentoSemAds);
    Origens(com, sem);
    com + sem
  }

  /** Which labels occur in the concatenation of an optional "Com ADS" entry and an optional
      "Sem ADS" entry. */
  lemma Origens(com: seq<Grupo>, sem: seq<Grupo>)
    requires |com| <= 1 && |sem| <= 1
    requires forall i :: 0 <= i < |com| ==> com[i].origem == "Com ADS"
    requires forall i :: 0 <= i < |sem| ==> sem[i].origem == "Sem ADS"
    ensures (exists i :: 0 <= i < |com + sem| && (com + sem)[i].origem == "Com ADS") <==> |com| == 1
    ensures (exists i :: 0 <= i < |com + sem| && (com + sem)[i].origem == "Sem ADS") <==> |sem| == 1
  {
    var r := com + sem;
    assert "Com ADS" != "Sem ADS" by { assert "Com ADS"[0] != "Sem ADS"[0]; }
    if |com| == 1 { assert r[0].origem == "Com ADS"; }
    if |sem| == 1 { assert r[|com|].origem == "Sem ADS"; }
  }
}
