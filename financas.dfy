/** The accounts payable and receivable screen: the period filter, the combined filters on the
    accounts, and the client-side pagination of the filtered lists. Dates are local day numbers. */
module Financas {
  import opened Wrappers
  import opened Folds
  import opened Calendar
  import VendasPagination

  // ---------------------------------------------------------------------------
  // Periods

  /** The period choices: "hoje", "ontem", "este_mes", "mes_passado", "personalizado", "todos". */
  datatype FiltroPeriodo = Hoje | Ontem | EsteMes | MesPassado | Personalizado | Todos

  /** A period: its first and last day, both included. */
  datatype Periodo = Periodo(inicio: int, fim: int)

  /** `calcularPeriodo`: the period a choice names, from today's date and the custom dates; none
      for "todos", and for a custom period missing either date. */
  function CalcularPeriodo(periodo: FiltroPeriodo, hoje: DateTime, dataInicio: Option<int>, dataFim: Option<int>)
    : (r: Option<Periodo>)
    ensures r.None? <==> periodo == Todos || (periodo == Personalizado && (dataInicio.None? || dataFim.None?))
    ensures periodo == Personalizado && r.Some? ==> r.value == Periodo(dataInicio.value, dataFim.value)
    ensures (periodo == Hoje || periodo == Ontem) ==> r.value.inicio == r.value.fim
  {
    match periodo
    case Hoje => Some(Periodo(DayOf(hoje), DayOf(hoje)))
    case Ontem => Some(Periodo(MakeDay(hoje.ano, hoje.mes - 1, hoje.dia - 1), MakeDay(hoje.ano, hoje.mes - 1, hoje.dia - 1)))
    case EsteMes => Some(Periodo(MakeDay(hoje.ano, hoje.mes - 1, 1), MakeDay(hoje.ano, hoje.mes, 0)))
    case MesPassado => Some(Periodo(MakeDay(hoje.ano, hoje.mes - 2, 1), MakeDay(hoje.ano, hoje.mes - 1, 0)))
    case Personalizado =>
      if dataInicio.Some? && dataFim.Some? then Some(Periodo(dataInicio.value, dataFim.value)) else None
    case Todos => None
  }

  /** "hoje" is today alone and "ontem" the day before it. */
  lemma HojeEOntem(hoje: DateTime)
    ensures CalcularPeriodo(Hoje, hoje, None, None) == Some(Periodo(DayOf(hoje), DayOf(hoje)))
    ensures CalcularPeriodo(Ontem, hoje, None, None) == Some(Periodo(DayOf(hoje) - 1, DayOf(hoje) - 1))
  {
  }

  /** "este_mes" runs from the first to the last day of the current month, and holds today. */
  lemma PeriodoEsteMes(hoje: DateTime)
    requires ValidDateTime(hoje)
    ensures var p := CalcularPeriodo(EsteMes, hoje, None, None).value;
      p.inicio == MakeDay(hoje.ano, hoje.mes - 1, 1)
      && p.fim == MakeDay(hoje.ano, hoje.mes - 1, DaysInMonth(hoje.ano, hoje.mes))
      && p.inicio <= DayOf(hoje) <= p.fim
      && p.fim - p.inicio + 1 == DaysInMonth(hoje.ano, hoje.mes)
  {
    DayZeroIsLastDay(hoje.ano, hoje.mes - 1);
  }

  /** "mes_passado" ends the day before "este_mes" starts. */
  lemma MesPassadoAntesDoEsteMes(hoje: DateTime)
    requires ValidDateTime(hoje)
    ensures var q := CalcularPeriodo(MesPassado, hoje, None, None).value;
      q.fim + 1 == CalcularPeriodo(EsteMes, hoje, None, None).value.inicio && q.inicio <= q.fim
  {
    MonthNotEmpty(hoje.ano, hoje.mes - 2);
    EndOfMonthAdjacent(hoje.ano, hoje.mes - 2);
  }

  // ---------------------------------------------------------------------------
  // Filters

  /** The fields of an account the filters read. */
  datatype Conta = Conta(vencimento: int, categoriaId: Option<string>, status: string, origem: string)

  /** The filter state; "todas" and "todos" are the values that impose nothing. */
  datatype Filtros = Filtros(periodo: FiltroPeriodo, dataInicio: Option<int>, dataFim: Option<int>,
                             categoria: string, status: string, origem: string)

  /** The test of `aplicarFiltros` for one account: the due day within the period, when there is
      one, and each of category, status and origin equal to the chosen value unless it is the
      catch-all value. */
  predicate Passa(f: Filtros, hoje: DateTime, c: Conta)
    ensures f.periodo == Todos && f.categoria == "todas" && f.status == "todos" && f.origem == "todas" ==> Passa(f, hoje, c)
    ensures Passa(f, hoje, c) && f.categoria != "todas" ==> c.categoriaId == Some(f.categoria)
  {
    var periodo := CalcularPeriodo(f.periodo, hoje, f.dataInicio, f.dataFim);
    && (periodo.None? || (periodo.value.inicio <= c.vencimento <= periodo.value.fim))
    && (f.categoria == "todas" || c.categoriaId == Some(f.categoria))
    && (f.status == "todos" || c.status == f.status)
    && (f.origem == "todas" || c.origem == f.origem)
  }

  function Passam(f: Filtros, hoje: DateTime): Conta -> bool {
    c => Passa(f, hoje, c)
  }

  /** `aplicarFiltros`: the accounts that pass, in their order. */
  function AplicarFiltros(f: Filtros, hoje: DateTime, contas: seq<Conta>): (r: seq<Conta>)
    ensures |r| <= |contas|
  {
    Filter(contas, Passam(f, hoje))
  }

  /** An account is kept exactly when it satisfies every filter. */
  lemma FiltrosCombinados(f: Filtros, hoje: DateTime, contas: seq<Conta>, c: Conta)
    ensures c in AplicarFiltros(f, hoje, contas) <==> c in contas && Passa(f, hoje, c)
  {
    FilterMembership(contas, Passam(f, hoje), c);
  }

  /** The filters keep the list's order: filtering two consecutive stretches separately and
      joining the results is filtering the whole list. */
  lemma FiltrosMantemOrdem(f: Filtros, hoje: DateTime, a: seq<Conta>, b: seq<Conta>)
    ensures AplicarFiltros(f, hoje, a + b) == AplicarFiltros(f, hoje, a) + AplicarFiltros(f, hoje, b)
  {
    FilterAppend(a, b, Passam(f, hoje));
  }

  /** With every filter on its catch-all value nothing is dropped. */
  lemma SemFiltros(hoje: DateTime, dataInicio: Option<int>, dataFim: Option<int>, contas: seq<Conta>)
    ensures AplicarFiltros(Filtros(Todos, dataInicio, dataFim, "todas", "todos", "todas"), hoje, contas) == contas
  {
    FilterAll(contas, Passam(Filtros(Todos, dataInicio, dataFim, "todas", "todos", "todas"), hoje));
  }

  /** A custom period with a date missing filters nothing by date. */
  lemma PersonalizadoIncompleto(f: Filtros, hoje: DateTime, c: Conta)
    requires f.periodo == Personalizado && (f.dataInicio.None? || f.dataFim.None?)
    ensures Passa(f, hoje, c) <==> Passa(f.(periodo := Todos), hoje, c)
  {
  }

  // ---------------------------------------------------------------------------
  // Pagination

  const ITENS_POR_PAGINA := 15

  /** `Math.max(1, Math.ceil(n / 15))`. */
  function TotalDePaginas(n: nat): (r: int)
    ensures r >= 1
  {
    VendasPagination.TotalDePaginas(n, ITENS_POR_PAGINA)
  }

  /** `xs.slice(a, b)`: negative positions count from the end, and both ends are clamped to the
      list. */
  function Slice<T>(xs: seq<T>, a: int, b: int): (r: seq<T>)
    ensures |r| <= |xs|
  {
    var n := |xs|;
    var i := if a < 0 then VendasPagination.Max(n + a, 0) else VendasPagination.Min(a, n);
    var j := if b < 0 then VendasPagination.Max(n + b, 0) else VendasPagination.Min(b, n);
    if i < j then xs[i..j] else []
  }

  /** The items of page `p`: `slice((p - 1) * 15, p * 15)`. */
  function Pagina<T>(xs: seq<T>, p: int): (r: seq<T>)
    ensures |r| <= ITENS_POR_PAGINA
  {
    var r := Slice(xs, (p - 1) * ITENS_POR_PAGINA, p * ITENS_POR_PAGINA);
    assert |r| <= ITENS_POR_PAGINA by {
      if p >= 1 {
        assert p * ITENS_POR_PAGINA - (p - 1) * ITENS_POR_PAGINA == ITENS_POR_PAGINA;
      }
    }
    r
  }

  /** The pages from the first: page `p`, for `p >= 1`, is the run of at most 15 items from
      position `(p - 1) * 15`. */
  lemma PaginaEhTrecho<T>(xs: seq<T>, p: int)
    requires p >= 1
    ensures (p - 1) * ITENS_POR_PAGINA <= |xs| ==>
      Pagina(xs, p) == xs[(p - 1) * ITENS_POR_PAGINA .. VendasPagination.Min(p * ITENS_POR_PAGINA, |xs|)]
    ensures (p - 1) * ITENS_POR_PAGINA >= |xs| ==> Pagina(xs, p) == []
  {
  }

  /** The pages 1 to k, one after the other. */
  function PrimeirasPaginas<T>(xs: seq<T>, k: nat): seq<T> {
    if k == 0 then [] else PrimeirasPaginas(xs, k - 1) + Pagina(xs, k)
  }

  /** The first k pages are the first `15 * k` items (or all of them). */
  lemma {:induction false} PrimeirasPaginasSaoPrefixo<T>(xs: seq<T>, k: nat)
    ensures PrimeirasPaginas(xs, k) == xs[..VendasPagination.Min(k * ITENS_POR_PAGINA, |xs|)]
  {
    if k > 0 {
      PrimeirasPaginasSaoPrefixo(xs, k - 1);
      PaginaEhTrecho(xs, k);
      var a := VendasPagination.Min((k - 1) * ITENS_POR_PAGINA, |xs|);
      var b := VendasPagination.Min(k * ITENS_POR_PAGINA, |xs|);
      assert xs[..b] == xs[..a] + xs[a..b];
    }
  }

  /** The pages, 1 to the last, hold every filtered account exactly once, in order, and no page
      but the last is short. */
  lemma PaginasParticionam<T>(xs: seq<T>)
    ensures PrimeirasPaginas(xs, TotalDePaginas(|xs|)) == xs
    ensures forall p :: 1 <= p < TotalDePaginas(|xs|) ==> |Pagina(xs, p)| == ITENS_POR_PAGINA
  {
    var t := TotalDePaginas(|xs|);
    PrimeirasPaginasSaoPrefixo(xs, t);
    assert |xs| <= t * ITENS_POR_PAGINA;
    forall p | 1 <= p < t ensures |Pagina(xs, p)| == ITENS_POR_PAGINA {
      PaginaEhTrecho(xs, p);
      VendasPagination.MulMonotone(p, t - 1, ITENS_POR_PAGINA);
    }
  }

  /** The effect that keeps the current page within the list: a page past the last becomes the last. */
  function AjustarPagina(pagina: int, totalPaginas: int): (r: int)
    ensures r <= totalPaginas
    ensures pagina <= totalPaginas ==> r == pagina
  {
    if pagina > totalPaginas then totalPaginas else pagina
  }

  /** After the adjustment a page that started at 1 or later names an existing page, one holding
      items unless the list is empty. */
  lemma PaginaAjustadaExiste<T>(xs: seq<T>, pagina: int)
    requires pagina >= 1
    ensures 1 <= AjustarPagina(pagina, TotalDePaginas(|xs|)) <= TotalDePaginas(|xs|)
    ensures |xs| > 0 ==> |Pagina(xs, AjustarPagina(pagina, TotalDePaginas(|xs|)))| > 0
  {
    var p := AjustarPagina(pagina, TotalDePaginas(|xs|));
    PaginaEhTrecho(xs, p);
  }
}
