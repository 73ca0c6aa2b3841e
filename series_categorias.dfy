/** The finance dashboard's series by category: the period it covers, the bills it selects, and
    `buildCategorySeries`, which adds the amounts up by day and by category, keeps the five
    categories with the largest totals and folds the others into "Outras". */
module SeriesCategorias {
  import opened Wrappers
  import opened Strings
  import opened Folds
  import opened Sorting
  import opened Calendar

  // ---------------------------------------------------------------------------
  // The period

  /** A closed interval of time values, in milliseconds. */
  datatype Intervalo = Intervalo(start: int, end: int)

  /** The period of a request: an explicit range runs to the last millisecond of its final day;
      otherwise last month, this month, or everything from the epoch up to `now`. The range ends
      are the time values the query string's dates parse to. */
  function IntervaloDoPedido(dataInicio: Option<int>, dataFim: Option<int>, periodo: Option<string>, now: Date)
    : (r: Intervalo)
    ensures dataInicio.Some? && dataFim.Some? ==> r.start == dataInicio.value && r.end + 1 == dataFim.value + MS_PER_DAY
    ensures !(dataInicio.Some? && dataFim.Some?) && periodo == Some("mes_passado") ==>
      r.start == StartOfMonth(now.ano, now.mes - 2) && r.end + 1 == StartOfMonth(now.ano, now.mes - 1)
    ensures !(dataInicio.Some? && dataFim.Some?) && periodo == Some("este_mes") ==>
      r.start <= TimeOf(now) <= r.end
      && r.start == TimeOf(DateTime(now.ano, now.mes, 1, 0))
      && r.end == TimeOf(DateTime(now.ano, now.mes, DaysInMonth(now.ano, now.mes), END_OF_DAY))
    ensures !(dataInicio.Some? && dataFim.Some?) && periodo != Some("mes_passado") && periodo != Some("este_mes") ==>
      r == Intervalo(0, TimeOf(now))
  {
    if dataInicio.Some? && dataFim.Some? then
      Intervalo(dataInicio.value, dataFim.value + (24 * 60 * 60 * 1000 - 1))
    else if periodo == Some("mes_passado") then
      EndOfMonthAdjacent(now.ano, now.mes - 2);
      Intervalo(StartOfMonth(now.ano, now.mes - 2), EndOfMonth(now.ano, now.mes - 2))
    else if periodo == Some("este_mes") then
      MonthContains(now);
      Intervalo(StartOfMonth(now.ano, now.mes - 1), EndOfMonth(now.ano, now.mes - 1))
    else Intervalo(0, TimeOf(now))
  }

  /** Last month ends the millisecond before this month starts. */
  lemma MesPassadoAntesDoAtual(now: Date)
    ensures IntervaloDoPedido(None, None, Some("mes_passado"), now).end + 1
            == IntervaloDoPedido(None, None, Some("este_mes"), now).start
  {
    MonthContains(now);
  }

  // ---------------------------------------------------------------------------
  // The query

  datatype CategoriaRef = CategoriaRef(id: string, nome: Option<string>, descricao: Option<string>)

  datatype ContaReceber = ContaReceber(valor: Option<real>, dataRecebimento: Option<Date>,
                                       dataVencimento: Option<Date>, formaPagamentoId: Option<string>,
                                       categoria: Option<CategoriaRef>)

  datatype ContaPagar = ContaPagar(valor: Option<real>, dataPagamento: Option<Date>, dataVencimento: Option<Date>,
                                   dataCompetencia: Option<Date>, formaPagamentoId: Option<string>,
                                   categoria: Option<CategoriaRef>)

  /** One amount to chart: its date (if any), its value and its category name. */
  datatype Row = Row(date: Option<Date>, valor: real, categoria: string)

  predicate NaoVazio(s: string) {
    s != ""
  }

  /** `categoriaIds.split(",").filter(Boolean)`; no parameter gives no ids. */
  function CategoriaIds(param: Option<string>): (r: seq<string>)
    ensures forall i :: 0 <= i < |r| ==> r[i] != "" && ',' !in r[i]
    ensures param.Some? && param.value != "" && ',' !in param.value ==> r == [param.value]
    ensures param.None? || param.value == "" ==> r == []
  {
    if param.None? || param.value == "" then []
    else
      var parts := Split(param.value, ',');
      if ',' !in param.value then
        SplitNoSeparator(param.value, ',');
        FilterAll(parts, NaoVazio);
        Filter(parts, NaoVazio)
      else Filter(parts, NaoVazio)
  }

  /** The ids are the non-empty pieces between the commas. */
  lemma CategoriaIdsMembros(param: Option<string>, id: string)
    requires param.Some?
    ensures id in CategoriaIds(param) <==> id in Split(param.value, ',') && id != ""
  {
    if param.value == "" {
      assert Split(param.value, ',') == [""];
    } else {
      FilterMembership(Split(param.value, ','), NaoVazio, id);
    }
  }

  /** Non-empty ids joined by commas are read back as the same ids, in the same order. */
  lemma CategoriaIdsJoin(ids: seq<string>)
    requires |ids| >= 1
    requires forall i :: 0 <= i < |ids| ==> ids[i] != "" && ',' !in ids[i]
    ensures CategoriaIds(Some(Join(ids, ","))) == ids
  {
    SplitJoin(ids, ',');
    FilterAll(ids, NaoVazio);
    JoinNaoVazio(ids);
  }

  lemma {:induction false} JoinNaoVazio(ids: seq<string>)
    requires |ids| >= 1 && ids[0] != ""
    ensures Join(ids, ",") != ""
  {
    if |ids| > 1 {
      assert Join(ids, ",") == ids[0] + "," + Join(ids[1..], ",");
    }
  }

  /** The main date, or the due date when there is none. */
  function DataEfetiva(principal: Option<Date>, vencimento: Option<Date>): Option<Date> {
    if principal.Some? then principal else vencimento
  }

  predicate NoIntervalo(d: Option<Date>, iv: Intervalo) {
    d.Some? && iv.start <= TimeOf(d.value) <= iv.end
  }

  /** The `OR` of the query: the main date is in the period, or there is none and the due date is. */
  predicate CasaPeriodo(principal: Option<Date>, vencimento: Option<Date>, iv: Intervalo) {
    NoIntervalo(principal, iv) || (principal.None? && NoIntervalo(vencimento, iv))
  }

  /** The query's date condition is the date the series uses lying in the period. */
  lemma CasaPeriodoIsDataEfetiva(principal: Option<Date>, vencimento: Option<Date>, iv: Intervalo)
    ensures CasaPeriodo(principal, vencimento, iv) <==> NoIntervalo(DataEfetiva(principal, vencimento), iv)
  {
  }

  /** The optional filters: a payment method when one is given, and a category among the listed ids
      when there are any. */
  predicate CasaFiltros(forma: Option<string>, cat: Option<CategoriaRef>, portador: Option<string>, ids: seq<string>) {
    && (portador.None? || portador.value == "" || forma == portador)
    && (|ids| == 0 || (cat.Some? && cat.value.id in ids))
  }

  /** `categoria?.descricao || categoria?.nome || "Sem categoria"` */
  function NomeCategoria(cat: Option<CategoriaRef>): (r: string)
    ensures r != ""
    ensures cat.Some? && cat.value.descricao.Some? && cat.value.descricao.value != "" ==> r == cat.value.descricao.value
    ensures cat.None? ==> r == "Sem categoria"
  {
    if cat.Some? && cat.value.descricao.Some? && cat.value.descricao.value != "" then cat.value.descricao.value
    else if cat.Some? && cat.value.nome.Some? && cat.value.nome.value != "" then cat.value.nome.value
    else "Sem categoria"
  }

  /** `toNumber(valor)`: a missing amount counts as 0. */
  function ValorOuZero(v: Option<real>): real {
    if v.Some? then v.value else 0.0
  }

  predicate ReceberSelecionada(c: ContaReceber, iv: Intervalo, portador: Option<string>, ids: seq<string>) {
    CasaPeriodo(c.dataRecebimento, c.dataVencimento, iv) && CasaFiltros(c.formaPagamentoId, c.categoria, portador, ids)
  }

  predicate PagarSelecionada(c: ContaPagar, caixa: bool, iv: Intervalo, portador: Option<string>, ids: seq<string>) {
    CasaPeriodo(if caixa then c.dataPagamento else c.dataCompetencia, c.dataVencimento, iv)
    && CasaFiltros(c.formaPagamentoId, c.categoria, portador, ids)
  }

  function RowDeReceber(c: ContaReceber): Row {
    Row(DataEfetiva(c.dataRecebimento, c.dataVencimento), ValorOuZero(c.valor), NomeCategoria(c.categoria))
  }

  /** A bill's row: by payment date on a cash basis, by accrual date otherwise, the due date
      standing in for either. */
  function RowDePagar(c: ContaPagar, caixa: bool): Row {
    Row(DataEfetiva(if caixa then c.dataPagamento else c.dataCompetencia, c.dataVencimento),
        ValorOuZero(c.valor), NomeCategoria(c.categoria))
  }

  function ReceberSelecionadaEm(iv: Intervalo, portador: Option<string>, ids: seq<string>): ContaReceber -> bool {
    c => ReceberSelecionada(c, iv, portador, ids)
  }

  function PagarSelecionadaEm(caixa: bool, iv: Intervalo, portador: Option<string>, ids: seq<string>): ContaPagar -> bool {
    c => PagarSelecionada(c, caixa, iv, portador, ids)
  }

  /** The rows of the receivables the query returns: each is the row of a receivable that passes
      the date and filter conditions, dated inside the period and with a category name. */
  function LinhasReceber(contas: seq<ContaReceber>, iv: Intervalo, portador: Option<string>, ids: seq<string>)
    : (r: seq<Row>)
    ensures |r| <= |contas|
    ensures forall i :: 0 <= i < |r| ==>
      exists c :: c in contas && ReceberSelecionada(c, iv, portador, ids) && r[i] == RowDeReceber(c)
    ensures forall i :: 0 <= i < |r| ==> NoIntervalo(r[i].date, iv) && r[i].categoria != ""
  {
    var sel := Filter(contas, ReceberSelecionadaEm(iv, portador, ids));
    var r := seq(|sel|, i requires 0 <= i < |sel| => RowDeReceber(sel[i]));
    assert forall i :: 0 <= i < |r| ==>
      sel[i] in contas && ReceberSelecionada(sel[i], iv, portador, ids) && r[i] == RowDeReceber(sel[i]);
    r
  }

  /** The receivable rows follow the accounts one at a time, in their order: an account adds its
      row exactly when it is selected. With no accounts there are no rows. */
  lemma LinhasReceberPorConta(a: seq<ContaReceber>, c: ContaReceber, iv: Intervalo, portador: Option<string>,
                              ids: seq<string>)
    ensures LinhasReceber([], iv, portador, ids) == []
    ensures LinhasReceber(a + [c], iv, portador, ids)
            == LinhasReceber(a, iv, portador, ids) + (if ReceberSelecionada(c, iv, portador, ids) then [RowDeReceber(c)] else [])
  {
    var s := a + [c];
    assert s[..|s| - 1] == a;
    var p := ReceberSelecionadaEm(iv, portador, ids);
    assert Filter(s, p) == Filter(a, p) + (if p(c) then [c] else []);
  }

  /** Every selected receivable gives its row. */
  lemma LinhasReceberCompleta(contas: seq<ContaReceber>, c: ContaReceber, iv: Intervalo, portador: Option<string>,
                              ids: seq<string>)
    requires c in contas && ReceberSelecionada(c, iv, portador, ids)
    ensures RowDeReceber(c) in LinhasReceber(contas, iv, portador, ids)
  {
    var p := ReceberSelecionadaEm(iv, portador, ids);
    FilterMembership(contas, p, c);
    var sel := Filter(contas, p);
    var j :| 0 <= j < |sel| && sel[j] == c;
    assert LinhasReceber(contas, iv, portador, ids)[j] == RowDeReceber(c);
  }

  /** The rows of the bills the query returns: each is the row of a bill that passes the date
      condition of the chosen basis and the filters, dated inside the period and with a category
      name. */
  function LinhasPagar(contas: seq<ContaPagar>, caixa: bool, iv: Intervalo, portador: Option<string>, ids: seq<string>)
    : (r: seq<Row>)
    ensures |r| <= |contas|
    ensures forall i :: 0 <= i < |r| ==>
      exists c :: c in contas && PagarSelecionada(c, caixa, iv, portador, ids) && r[i] == RowDePagar(c, caixa)
    ensures forall i :: 0 <= i < |r| ==> NoIntervalo(r[i].date, iv) && r[i].categoria != ""
  {
    var sel := Filter(contas, PagarSelecionadaEm(caixa, iv, portador, ids));
    var r := seq(|sel|, i requires 0 <= i < |sel| => RowDePagar(sel[i], caixa));
    assert forall i :: 0 <= i < |r| ==>
      sel[i] in contas && PagarSelecionada(sel[i], caixa, iv, portador, ids) && r[i] == RowDePagar(sel[i], caixa);
    r
  }

  /** The bill rows follow the bills one at a time, in their order: a bill adds its row exactly
      when it is selected. With no bills there are no rows. */
  lemma LinhasPagarPorConta(a: seq<ContaPagar>, c: ContaPagar, caixa: bool, iv: Intervalo, portador: Option<string>,
                            ids: seq<string>)
    ensures LinhasPagar([], caixa, iv, portador, ids) == []
    ensures LinhasPagar(a + [c], caixa, iv, portador, ids)
            == LinhasPagar(a, caixa, iv, portador, ids)
               + (if PagarSelecionada(c, caixa, iv, portador, ids) then [RowDePagar(c, caixa)] else [])
  {
    var s := a + [c];
    assert s[..|s| - 1] == a;
    var p := PagarSelecionadaEm(caixa, iv, portador, ids);
    assert Filter(s, p) == Filter(a, p) + (if p(c) then [c] else []);
  }

  /** Every selected bill gives its row. */
  lemma LinhasPagarCompleta(contas: seq<ContaPagar>, c: ContaPagar, caixa: bool, iv: Intervalo,
                            portador: Option<string>, ids: seq<string>)
    requires c in contas && PagarSelecionada(c, caixa, iv, portador, ids)
    ensures RowDePagar(c, caixa) in LinhasPagar(contas, caixa, iv, portador, ids)
  {
    var p := PagarSelecionadaEm(caixa, iv, portador, ids);
    FilterMembership(contas, p, c);
    var sel := Filter(contas, p);
    var j :| 0 <= j < |sel| && sel[j] == c;
    assert LinhasPagar(contas, caixa, iv, portador, ids)[j] == RowDePagar(c, caixa);
  }

  // ---------------------------------------------------------------------------
  // Totals the series is built from

  /** The `YYYY-MM-DD` key of a row's local day, if it has a date. */
  function RowDay(r: Row): Option<string> {
    if r.date.Some? then Some(DayKey(r.date.value.ano, r.date.value.mes, r.date.value.dia)) else None
  }

  /** `r.categoria || "Sem categoria"` */
  function RowCat(r: Row): string {
    if r.categoria == "" then "Sem categoria" else r.categoria
  }

  function Valor(r: Row): real {
    r.valor
  }

  // ---------------------------------------------------------------------------
  // The first loop: by day and by category
  //
  // The loop is written over any rows, with the day key, the category and the amount of a row
  // given as functions, and applied to `RowDay`, `RowCat` and `Valor`.

  /** The category of a row dated on day `d`. */
  function DayCatOf<T, D(==), C>(day: T -> Option<D>, cat: T -> C, d: D): T -> Option<C> {
    r => if day(r) == Some(d) then Some(cat(r)) else None
  }

  /** The category of a dated row. */
  function DatedCatOf<T, D, C>(day: T -> Option<D>, cat: T -> C): T -> Option<C> {
    r => if day(r).Some? then Some(cat(r)) else None
  }

  /** Day `d`'s amounts by category. */
  function DayTotals<T, D(==), C(==)>(rows: seq<T>, day: T -> Option<D>, cat: T -> C, val: T -> real, d: D)
    : map<C, real>
  {
    Totals(rows, DayCatOf(day, cat, d), val)
  }

  /** The total of every category of a dated row. */
  function CatTotals<T, D, C(==)>(rows: seq<T>, day: T -> Option<D>, cat: T -> C, val: T -> real): map<C, real> {
    Totals(rows, DatedCatOf(day, cat), val)
  }

  /** A day no row is dated on has no amounts. */
  lemma DayTotalsEmpty<T, D, C>(rows: seq<T>, day: T -> Option<D>, cat: T -> C, val: T -> real, d: D)
    requires d !in KeysOf(rows, day)
    ensures DayTotals(rows, day, cat, val, d) == map[]
  {
    KeysOfEmpty(rows, day, DayCatOf(day, cat, d), d);
  }

  /** A row not dated on day `d` leaves that day's amounts as they were. */
  lemma DayTotalsOther<T, D, C>(rows: seq<T>, i: nat, day: T -> Option<D>, cat: T -> C, val: T -> real, d: D)
    requires i < |rows| && day(rows[i]) != Some(d)
    ensures DayTotals(rows[..i + 1], day, cat, val, d) == DayTotals(rows[..i], day, cat, val, d)
  {
    assert DayCatOf(day, cat, d)(rows[i]).None?;
    TotalsStep(rows, i, DayCatOf(day, cat, d), val);
  }

  /** A dated row adds its amount to its category on its own day. */
  lemma DayTotalsOwn<T, D, C>(rows: seq<T>, i: nat, day: T -> Option<D>, cat: T -> C, val: T -> real)
    requires i < |rows| && day(rows[i]).Some?
    ensures var d := day(rows[i]).value;
      DayTotals(rows[..i + 1], day, cat, val, d) == AddTo(DayTotals(rows[..i], day, cat, val, d), cat(rows[i]), val(rows[i]))
  {
    var d := day(rows[i]).value;
    assert DayCatOf(day, cat, d)(rows[i]) == Some(cat(rows[i]));
    TotalsStep(rows, i, DayCatOf(day, cat, d), val);
  }

  /** A dated row adds its amount to its category's total. */
  lemma CatTotalsStep<T, D, C>(rows: seq<T>, i: nat, day: T -> Option<D>, cat: T -> C, val: T -> real, m: map<C, real>)
    requires i < |rows| && day(rows[i]).Some? && m == CatTotals(rows[..i], day, cat, val)
    ensures CatTotals(rows[..i + 1], day, cat, val) == AddTo(m, cat(rows[i]), val(rows[i]))
  {
    assert DatedCatOf(day, cat)(rows[i]) == Some(cat(rows[i]));
    TotalsStep(rows, i, DatedCatOf(day, cat), val);
  }

  /** A row without a date changes nothing. */
  lemma UndatedStep<T, D, C>(rows: seq<T>, i: nat, day: T -> Option<D>, cat: T -> C, val: T -> real)
    requires i < |rows| && day(rows[i]).None?
    ensures KeysOf(rows[..i + 1], day) == KeysOf(rows[..i], day)
    ensures KeysOf(rows[..i + 1], DatedCatOf(day, cat)) == KeysOf(rows[..i], DatedCatOf(day, cat))
    ensures CatTotals(rows[..i + 1], day, cat, val) == CatTotals(rows[..i], day, cat, val)
    ensures forall d :: DayTotals(rows[..i + 1], day, cat, val, d) == DayTotals(rows[..i], day, cat, val, d)
  {
    KeysOfStep(rows, i, day);
    KeysOfStep(rows, i, DatedCatOf(day, cat));
    TotalsStep(rows, i, DatedCatOf(day, cat), val);
    forall d ensures DayTotals(rows[..i + 1], day, cat, val, d) == DayTotals(rows[..i], day, cat, val, d) {
      DayTotalsOther(rows, i, day, cat, val, d);
    }
  }

  /** A dated row appends its day and its category to the key orders when they are new. */
  lemma DatedKeysStep<T, D, C>(rows: seq<T>, i: nat, day: T -> Option<D>, cat: T -> C)
    requires i < |rows| && day(rows[i]).Some?
    ensures var ks := Distinct(KeysOf(rows[..i], day));
      var k := day(rows[i]).value;
      Distinct(KeysOf(rows[..i + 1], day)) == if k in ks then ks else ks + [k]
    ensures var cs := Distinct(KeysOf(rows[..i], DatedCatOf(day, cat)));
      var c := cat(rows[i]);
      Distinct(KeysOf(rows[..i + 1], DatedCatOf(day, cat))) == if c in cs then cs else cs + [c]
  {
    KeysOfStep(rows, i, day);
    KeysOfStep(rows, i, DatedCatOf(day, cat));
    DistinctSnoc(KeysOf(rows[..i], day), day(rows[i]).value);
    DistinctSnoc(KeysOf(rows[..i], DatedCatOf(day, cat)), cat(rows[i]));
  }

  /** `m` with `v` added to `c`'s amount, a missing amount counting as 0 (`(m.get(c) || 0) + v`). */
  function AddTo<C>(m: map<C, real>, c: C, v: real): (r: map<C, real>)
    ensures r.Keys == m.Keys + {c} && r[c] == (if c in m then m[c] else 0.0) + v
    ensures forall k :: k in m && k != c ==> r[k] == m[k]
  {
    m[c := (if c in m then m[c] else 0.0) + v]
  }

  /** What the first loop knows about the days after `i` rows. */
  ghost predicate DaysInv<T, D(!new), C>(rows: seq<T>, i: nat, day: T -> Option<D>, cat: T -> C, val: T -> real,
                                   byDay: map<D, map<C, real>>, days: seq<D>)
    requires i <= |rows|
  {
    && days == Distinct(KeysOf(rows[..i], day))
    && (forall d :: d in byDay <==> d in days)
    && (forall d :: d in byDay ==> byDay[d] == DayTotals(rows[..i], day, cat, val, d))
  }

  /** What the first loop knows about the categories after `i` rows. */
  ghost predicate CatsInv<T, D, C(!new)>(rows: seq<T>, i: nat, day: T -> Option<D>, cat: T -> C, val: T -> real,
                                   catTotals: map<C, real>, cats: seq<C>)
    requires i <= |rows|
  {
    && cats == Distinct(KeysOf(rows[..i], DatedCatOf(day, cat)))
    && (forall c :: c in catTotals <==> c in cats)
    && catTotals == CatTotals(rows[..i], day, cat, val)
  }

  /** A row without a date keeps both invariants with nothing changed. */
  lemma UndatedInv<T, D(!new), C(!new)>(rows: seq<T>, i: nat, day: T -> Option<D>, cat: T -> C, val: T -> real,
                            byDay: map<D, map<C, real>>, days: seq<D>, catTotals: map<C, real>, cats: seq<C>)
    requires i < |rows| && day(rows[i]).None?
    requires DaysInv(rows, i, day, cat, val, byDay, days) && CatsInv(rows, i, day, cat, val, catTotals, cats)
    ensures DaysInv(rows, i + 1, day, cat, val, byDay, days) && CatsInv(rows, i + 1, day, cat, val, catTotals, cats)
  {
    UndatedStep(rows, i, day, cat, val);
  }

  /** A day listed by no row before `i` has no amounts before `i`. */
  lemma NewDayEmpty<T, D, C>(rows: seq<T>, i: nat, day: T -> Option<D>, cat: T -> C, val: T -> real, days: seq<D>, key: D)
    requires i <= |rows| && days == Distinct(KeysOf(rows[..i], day)) && key !in days
    ensures DayTotals(rows[..i], day, cat, val, key) == map[]
  {
    DistinctMembership(KeysOf(rows[..i], day), key);
    DayTotalsEmpty(rows[..i], day, cat, val, key);
  }

  /** A dated row: its amount is added to its (day, category) cell and no other day changes. */
  lemma DatedDayValues<T, D, C>(rows: seq<T>, i: nat, day: T -> Option<D>, cat: T -> C, val: T -> real,
                                days: seq<D>, byDay: map<D, map<C, real>>, byDay': map<D, map<C, real>>)
    requires i < |rows| && day(rows[i]).Some?
    requires days == Distinct(KeysOf(rows[..i], day)) && (forall d :: d in byDay <==> d in days)
    requires forall d :: d in byDay ==> byDay[d] == DayTotals(rows[..i], day, cat, val, d)
    requires var key := day(rows[i]).value;
      && byDay'.Keys == byDay.Keys + {key}
      && byDay'[key] == AddTo(if key in byDay then byDay[key] else map[], cat(rows[i]), val(rows[i]))
      && (forall d :: d in byDay && d != key ==> byDay'[d] == byDay[d])
    ensures forall d :: d in byDay' ==> byDay'[d] == DayTotals(rows[..i + 1], day, cat, val, d)
  {
    var key := day(rows[i]).value;
    DayTotalsOwn(rows, i, day, cat, val);
    if key !in byDay {
      NewDayEmpty(rows, i, day, cat, val, days, key);
    }
    forall d | d in byDay' ensures byDay'[d] == DayTotals(rows[..i + 1], day, cat, val, d) {
      if d != key {
        DayTotalsOther(rows, i, day, cat, val, d);
      }
    }
  }

  /** Adding the same key to a map and to its key order keeps them in step. */
  lemma SameKeys<D(!new), V>(m: map<D, V>, ks: seq<D>, m': map<D, V>, ks': seq<D>, key: D)
    requires (forall d :: d in m <==> d in ks) && m'.Keys == m.Keys + {key}
    requires ks' == if key in m then ks else ks + [key]
    ensures forall d :: d in m' <==> d in ks'
  {
  }

  /** The three facts that make up `DaysInv`. */
  lemma DaysInvIntro<T, D(!new), C>(rows: seq<T>, i: nat, day: T -> Option<D>, cat: T -> C, val: T -> real,
                                   byDay: map<D, map<C, real>>, days: seq<D>)
    requires i <= |rows|
    requires days == Distinct(KeysOf(rows[..i], day))
    requires forall d :: d in byDay <==> d in days
    requires forall d :: d in byDay ==> byDay[d] == DayTotals(rows[..i], day, cat, val, d)
    ensures DaysInv(rows, i, day, cat, val, byDay, days)
  {
  }

  /** A dated row: its day is appended when new, and its amount is added to its (day, category) cell. */
  lemma DatedDayInv<T, D(!new), C>(rows: seq<T>, i: nat, day: T -> Option<D>, cat: T -> C, val: T -> real,
                             byDay: map<D, map<C, real>>, days: seq<D>, byDay': map<D, map<C, real>>, days': seq<D>)
    requires i < |rows| && day(rows[i]).Some?
    requires DaysInv(rows, i, day, cat, val, byDay, days)
    requires var key := day(rows[i]).value;
      && days' == (if key in byDay then days else days + [key])
      && byDay'.Keys == byDay.Keys + {key}
      && byDay'[key] == AddTo(if key in byDay then byDay[key] else map[], cat(rows[i]), val(rows[i]))
      && (forall d :: d in byDay && d != key ==> byDay'[d] == byDay[d])
    ensures days' == Distinct(KeysOf(rows[..i + 1], day))
    ensures forall d :: d in byDay' <==> d in days'
    ensures forall d :: d in byDay' ==> byDay'[d] == DayTotals(rows[..i + 1], day, cat, val, d)
  {
    DatedKeysStep(rows, i, day, cat);
    SameKeys(byDay, days, byDay', days', day(rows[i]).value);
    DatedDayValues(rows, i, day, cat, val, days, byDay, byDay');
  }

  /** A dated row: its category is appended when new, and its amount is added to the category's total. */
  lemma DatedCatInv<T, D, C(!new)>(rows: seq<T>, i: nat, day: T -> Option<D>, cat: T -> C, val: T -> real,
                             catTotals: map<C, real>, cats: seq<C>, catTotals': map<C, real>, cats': seq<C>)
    requires i < |rows| && day(rows[i]).Some?
    requires CatsInv(rows, i, day, cat, val, catTotals, cats)
    requires var c := cat(rows[i]);
      && cats' == (if c in catTotals then cats else cats + [c])
      && catTotals' == AddTo(catTotals, c, val(rows[i]))
    ensures CatsInv(rows, i + 1, day, cat, val, catTotals', cats')
  {
    DatedKeysStep(rows, i, day, cat);
    CatTotalsStep(rows, i, day, cat, val, catTotals);
    forall c ensures c in catTotals' <==> c in cats' {
    }
  }

  /** The first loop of `buildCategorySeries`: the rows without a date are skipped; the others add
      their amount to their (day, category) cell and to their category's total. `days` and `cats`
      are the key orders of the two `Map`s. */
  method Accumulate<T, D(==,!new), C(==,!new)>(rows: seq<T>, day: T -> Option<D>, cat: T -> C, val: T -> real)
    returns (byDay: map<D, map<C, real>>, days: seq<D>, catTotals: map<C, real>, cats: seq<C>)
    ensures days == Distinct(KeysOf(rows, day)) && (forall d :: d in byDay <==> d in days)
    ensures forall d :: d in byDay ==> byDay[d] == DayTotals(rows, day, cat, val, d)
    ensures cats == Distinct(KeysOf(rows, DatedCatOf(day, cat))) && catTotals == CatTotals(rows, day, cat, val)
    ensures forall c :: c in catTotals <==> c in cats
  {
    byDay, days, catTotals, cats := map[], [], map[], [];
    for i := 0 to |rows|
      invariant DaysInv(rows, i, day, cat, val, byDay, days)
      invariant CatsInv(rows, i, day, cat, val, catTotals, cats)
    {
      var r := rows[i];
      if day(r).None? {
        UndatedInv(rows, i, day, cat, val, byDay, days, catTotals, cats);
        continue;
      }
      ghost var byDay0, days0, catTotals0, cats0 := byDay, days, catTotals, cats;
      var key := day(r).value;
      var c := cat(r);
      var v := val(r);
      if key !in byDay {
        byDay := byDay[key := map[]];
        days := days + [key];
      }
      var dayMap := byDay[key];
      byDay := byDay[key := AddTo(dayMap, c, v)];
      if c !in catTotals {
        cats := cats + [c];
      }
      catTotals := AddTo(catTotals, c, v);
      DatedDayInv(rows, i, day, cat, val, byDay0, days0, byDay, days);
      DaysInvIntro(rows, i + 1, day, cat, val, byDay, days);
      DatedCatInv(rows, i, day, cat, val, catTotals0, cats0, catTotals, cats);
    }
    assert rows[..|rows|] == rows;
  }

  /** A row without a date adds nothing: it changes neither the days, nor any day's amounts, nor the
      categories and their totals. */
  lemma UndatedIgnored<T, D, C>(rows: seq<T>, r: T, day: T -> Option<D>, cat: T -> C, val: T -> real)
    requires day(r).None?
    ensures KeysOf(rows + [r], day) == KeysOf(rows, day)
    ensures KeysOf(rows + [r], DatedCatOf(day, cat)) == KeysOf(rows, DatedCatOf(day, cat))
    ensures CatTotals(rows + [r], day, cat, val) == CatTotals(rows, day, cat, val)
    ensures forall d :: DayTotals(rows + [r], day, cat, val, d) == DayTotals(rows, day, cat, val, d)
  {
    var xs := rows + [r];
    assert xs[..|rows|] == rows && xs[..|rows| + 1] == xs;
    UndatedStep(xs, |rows|, day, cat, val);
  }

  // ---------------------------------------------------------------------------
  // The top categories

  const TOP_N := 5

  /** The comparator `(a, b) => b[1] - a[1]`: the larger total first. */
  predicate ByTotalDesc<C>(a: (C, real), b: (C, real)) {
    a.1 >= b.1
  }

  lemma ByTotalDescIsTotalPreorder<C(!new)>()
    ensures TotalPreorder(ByTotalDesc<C>)
  {
  }

  /** `Array.from(catTotals.entries())`: each category with its total, in first-seen order. */
  function Entries<C>(cats: seq<C>, totals: map<C, real>): (r: seq<(C, real)>)
    requires forall i :: 0 <= i < |cats| ==> cats[i] in totals
    ensures |r| == |cats|
    ensures forall i :: 0 <= i < |r| ==> r[i] == (cats[i], totals[cats[i]])
  {
    seq(|cats|, i requires 0 <= i < |cats| => (cats[i], totals[cats[i]]))
  }

  /** `sortedCats`: the entries, largest total first; equal totals keep first-seen order. */
  function SortedCats<C(!new)>(cats: seq<C>, totals: map<C, real>): (r: seq<(C, real)>)
    requires forall i :: 0 <= i < |cats| ==> cats[i] in totals
    ensures multiset(r) == multiset(Entries(cats, totals)) && |r| == |cats|
    ensures forall i, j :: 0 <= i < j < |r| ==> r[i].1 >= r[j].1
  {
    ByTotalDescIsTotalPreorder<C>();
    Sort(Entries(cats, totals), ByTotalDesc)
  }

  /** `topCats`: the names of the first `TOP_N` sorted entries. */
  function TopCats<C(!new)>(cats: seq<C>, totals: map<C, real>): (top: seq<C>)
    requires forall i :: 0 <= i < |cats| ==> cats[i] in totals
    ensures |top| == if |cats| < TOP_N then |cats| else TOP_N
    ensures forall i :: 0 <= i < |top| ==> top[i] in cats
    ensures forall i, j :: 0 <= i < j < |top| ==> totals[top[i]] >= totals[top[j]]
  {
    var sorted := SortedCats(cats, totals);
    var n := if |sorted| < TOP_N then |sorted| else TOP_N;
    var top := seq(n, i requires 0 <= i < n => sorted[i].0);
    assert forall i :: 0 <= i < n ==> top[i] in cats && top[i] in totals && sorted[i].1 == totals[top[i]] by {
      forall i | 0 <= i < n ensures top[i] in cats && top[i] in totals && sorted[i].1 == totals[top[i]] {
        EntryOfSorted(cats, totals, i);
      }
    }
    top
  }

  /** Every sorted entry is one of the original entries. */
  lemma EntryOfSorted<C(!new)>(cats: seq<C>, totals: map<C, real>, i: nat)
    requires forall i :: 0 <= i < |cats| ==> cats[i] in totals
    requires i < |cats|
    ensures var e := SortedCats(cats, totals)[i]; e.0 in cats && e.0 in totals && e.1 == totals[e.0]
  {
    var es := Entries(cats, totals);
    var e := SortedCats(cats, totals)[i];
    assert e in multiset(es);
    var k :| 0 <= k < |es| && es[k] == e;
  }

  /** A category left out of the top has a total no larger than any top category's. */
  lemma {:induction false} TopCatsDominate<C(!new)>(cats: seq<C>, totals: map<C, real>, c: C)
    requires forall i :: 0 <= i < |cats| ==> cats[i] in totals
    requires c in cats
    ensures var top := TopCats(cats, totals);
      c in top || forall t :: t in top ==> totals[t] >= totals[c]
  {
    var es := Entries(cats, totals);
    var sorted := SortedCats(cats, totals);
    var top := TopCats(cats, totals);
    var j :| 0 <= j < |cats| && cats[j] == c;
    assert es[j] == (c, totals[c]);
    assert es[j] in multiset(sorted);
    var k :| 0 <= k < |sorted| && sorted[k] == (c, totals[c]);
    if k < |top| {
      EntryOfSorted(cats, totals, k);
      assert top[k] == sorted[k].0;
    } else {
      forall t | t in top ensures totals[t] >= totals[c] {
        var m :| 0 <= m < |top| && top[m] == t;
        EntryOfSorted(cats, totals, m);
        assert sorted[m].1 >= sorted[k].1;
      }
    }
  }

  /** The top categories are distinct when the categories are. */
  lemma TopCatsDistinct<C(!new)>(cats: seq<C>, totals: map<C, real>)
    requires forall i :: 0 <= i < |cats| ==> cats[i] in totals
    requires forall i, j :: 0 <= i < j < |cats| ==> cats[i] != cats[j]
    ensures var top := TopCats(cats, totals); forall i, j :: 0 <= i < j < |top| ==> top[i] != top[j]
  {
    var es := Entries(cats, totals);
    var sorted := SortedCats(cats, totals);
    var top := TopCats(cats, totals);
    forall i, j | 0 <= i < j < |top| ensures top[i] != top[j] {
      DistinctPreserved(es, sorted, i, j);
      EntryOfSorted(cats, totals, i);
      EntryOfSorted(cats, totals, j);
    }
  }

  /** `categories`: the top categories, then "Outras" exactly when more than `TOP_N` categories
      have a total. */
  function Categories(cats: seq<string>, totals: map<string, real>): (r: seq<string>)
    requires forall i :: 0 <= i < |cats| ==> cats[i] in totals
    ensures |cats| <= TOP_N ==> r == TopCats(cats, totals)
    ensures |cats| > TOP_N ==> r == TopCats(cats, totals) + ["Outras"] && |r| == TOP_N + 1
  {
    TopCats(cats, totals) + if |cats| > TOP_N then ["Outras"] else []
  }

  // ---------------------------------------------------------------------------
  // The series

  /** One point of the series: its day and an amount per listed category. */
  datatype Entry = Entry(date: string, values: map<string, real>)

  /** The amounts of the categories outside `top`. */
  ghost function Outside<C(!new)>(dayMap: map<C, real>, top: seq<C>): (r: map<C, real>)
    ensures forall c :: c in r <==> c in dayMap && c !in top
  {
    map c | c in dayMap && c !in top :: dayMap[c]
  }

  /** The day's total over the categories outside `top`. */
  ghost function Others<C(!new)>(dayMap: map<C, real>, top: seq<C>): real {
    MapSum(Outside(dayMap, top))
  }

  /** Taking one category out of what is left to visit. */
  lemma OthersRemove<C(!new)>(rest: map<C, real>, top: seq<C>, c: C)
    requires c in rest
    ensures c in top ==> Others(rest, top) == Others(rest - {c}, top)
    ensures c !in top ==> Others(rest, top) == rest[c] + Others(rest - {c}, top)
  {
    if c in top {
      assert Outside(rest, top) == Outside(rest - {c}, top);
    } else {
      MapSumRemove(Outside(rest, top), c);
      assert Outside(rest, top) - {c} == Outside(rest - {c}, top);
    }
  }

  /** The loop over one day's categories: the top ones are copied, the others are added up. */
  method SplitDay(dayMap: map<string, real>, top: seq<string>) returns (entry: map<string, real>, others: real)
    ensures others == Others(dayMap, top)
    ensures forall c :: c in entry <==> c in dayMap && c in top
    ensures forall c :: c in entry ==> entry[c] == dayMap[c]
  {
    entry := map[];
    others := 0.0;
    var rest := dayMap;
    while rest != map[]
      invariant forall c :: c in rest ==> c in dayMap && rest[c] == dayMap[c]
      invariant others + Others(rest, top) == Others(dayMap, top)
      invariant forall c :: c in entry <==> c in dayMap && c !in rest && c in top
      invariant forall c :: c in entry ==> entry[c] == dayMap[c]
      decreases |rest|
    {
      var c :| c in rest;
      OthersRemove(rest, top, c);
      if c in top {
        entry := entry[c := rest[c]];
      } else {
        others := others + rest[c];
      }
      rest := rest - {c};
    }
    assert Outside(rest, top) == map[];
  }

  /** `for (const c of topCats) entry[c] = entry[c] || 0`: every top category gets an amount, 0 when
      it had none. */
  method FillZeros(base: map<string, real>, top: seq<string>) returns (entry: map<string, real>)
    ensures entry.Keys == base.Keys + (set c | c in top)
    ensures forall c :: c in entry ==> entry[c] == if c in base then base[c] else 0.0
  {
    entry := base;
    for j := 0 to |top|
      invariant entry.Keys == base.Keys + (set k | 0 <= k < j :: top[k])
      invariant forall c :: c in entry ==> entry[c] == if c in base then base[c] else 0.0
    {
      var c := top[j];
      entry := entry[c := if c in entry then entry[c] else 0.0];
      assert (set k | 0 <= k < j + 1 :: top[k]) == (set k | 0 <= k < j :: top[k]) + {c};
    }
    assert (set k | 0 <= k < |top| :: top[k]) == (set c | c in top);
  }

  /** What a day's entry holds: every top category, and "Outras" when the other categories add up to
      a positive amount; "Outras" carries that sum, a top category its amount on the day or 0. */
  ghost predicate EntryValues(entry: map<string, real>, dayMap: map<string, real>, top: seq<string>) {
    var o := Others(dayMap, top);
    && entry.Keys == (set c | c in top) + (if o > 0.0 then {"Outras"} else {})
    && forall c :: c in entry ==>
         entry[c] == if c == "Outras" && o > 0.0 then o else if c in dayMap then dayMap[c] else 0.0
  }

  /** One day's entry: the top categories' amounts, the sum of the others under "Outras" when it
      is positive, and 0 for every top category the day does not have. */
  method BuildEntry(dayMap: map<string, real>, top: seq<string>) returns (entry: map<string, real>)
    ensures EntryValues(entry, dayMap, top)
  {
    var split, others := SplitDay(dayMap, top);
    if others > 0.0 {
      split := split["Outras" := others];
    }
    entry := FillZeros(split, top);
  }

  /** The whole series, over rows with any day key, category and amount: the categories to plot
      and one entry per day with a dated row, in ascending day order. */
  method Series<T>(rows: seq<T>, day: T -> Option<string>, cat: T -> string, val: T -> real)
    returns (categories: seq<string>, data: seq<Entry>)
    ensures var days := Distinct(KeysOf(rows, day));
      |data| == |days|
      && (forall j :: 0 <= j < |data| ==> data[j].date in days)
      && (forall j, k :: 0 <= j < k < |data| ==> LexLe(data[j].date, data[k].date) && data[j].date != data[k].date)
    ensures var cats := Distinct(KeysOf(rows, DatedCatOf(day, cat)));
      var totals := CatTotals(rows, day, cat, val);
      (forall i :: 0 <= i < |cats| ==> cats[i] in totals)
      && categories == Categories(cats, totals)
    ensures var top := TopCats(Distinct(KeysOf(rows, DatedCatOf(day, cat))), CatTotals(rows, day, cat, val));
      forall j :: 0 <= j < |data| ==> EntryValues(data[j].values, DayTotals(rows, day, cat, val, data[j].date), top)
  {
    var byDay, days, catTotals, cats := Accumulate(rows, day, cat, val);
    var top := TopCats(cats, catTotals);
    categories := Categories(cats, catTotals);
    var dates := SortKeys(days);
    forall j | 0 <= j < |dates| ensures dates[j] in days {
      assert dates[j] in multiset(dates);
    }
    data := Points(dates, byDay, top);
  }

  /** `dates.map(...)`: the entry of each day, in the given day order. */
  method Points(dates: seq<string>, byDay: map<string, map<string, real>>, top: seq<string>) returns (data: seq<Entry>)
    requires forall j :: 0 <= j < |dates| ==> dates[j] in byDay
    ensures |data| == |dates|
    ensures forall j :: 0 <= j < |data| ==> data[j].date == dates[j] && EntryValues(data[j].values, byDay[dates[j]], top)
  {
    data := [];
    for j := 0 to |dates|
      invariant |data| == j
      invariant forall k :: 0 <= k < j ==> data[k].date == dates[k] && EntryValues(data[k].values, byDay[dates[k]], top)
    {
      var entry := BuildEntry(byDay[dates[j]], top);
      data := data + [Entry(dates[j], entry)];
    }
  }

  /** `buildCategorySeries`: the series of the selected rows, by local day and category. */
  method BuildCategorySeries(rows: seq<Row>) returns (categories: seq<string>, data: seq<Entry>)
    ensures var days := Distinct(KeysOf(rows, RowDay));
      |data| == |days|
      && (forall j :: 0 <= j < |data| ==> data[j].date in days)
      && (forall j, k :: 0 <= j < k < |data| ==> LexLe(data[j].date, data[k].date) && data[j].date != data[k].date)
    ensures var cats := Distinct(KeysOf(rows, DatedCatOf(RowDay, RowCat)));
      var totals := CatTotals(rows, RowDay, RowCat, Valor);
      (forall i :: 0 <= i < |cats| ==> cats[i] in totals)
      && categories == Categories(cats, totals)
    ensures var top := TopCats(Distinct(KeysOf(rows, DatedCatOf(RowDay, RowCat))), CatTotals(rows, RowDay, RowCat, Valor));
      forall j :: 0 <= j < |data| ==> EntryValues(data[j].values, DayTotals(rows, RowDay, RowCat, Valor, data[j].date), top)
  {
    categories, data := Series(rows, RowDay, RowCat, Valor);
  }
}
