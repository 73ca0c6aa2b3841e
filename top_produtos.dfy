/** The best-selling products by revenue: the period's sales grouped by a key the request chooses
    (SKU or title, first or second hierarchy level, kit or individual product), each group's
    revenue, quantity and average ticket, and the ten groups with the highest revenue. */
module TopProdutos {
  import opened Wrappers
  import opened Folds
  import opened Sorting
  import opened Calendar
  import opened JsValues
  import SC = SeriesCategorias
  import DS = DashboardStats
  import FO = FaturamentoPorOrigem

  // ---------------------------------------------------------------------------
  // The period

  /** This route's `getDateRange`: the four month periods, the same windows as revenue by origin;
      every other name, the daily ones included, is everything from the epoch to `now`. */
  function IntervaloDoPeriodo(periodo: string, now: Date): (r: SC.Intervalo)
    ensures periodo == "este_mes" ==> r == FO.IntervaloDoPeriodo(FO.EsteMes, now)
    ensures periodo == "mes_passado" ==> r == FO.IntervaloDoPeriodo(FO.MesPassado, now)
    ensures periodo == "ultimos_3_meses" ==> r == FO.IntervaloDoPeriodo(FO.Ultimos3Meses, now)
    ensures periodo == "ultimos_6_meses" ==> r == FO.IntervaloDoPeriodo(FO.Ultimos6Meses, now)
    ensures periodo !in {"este_mes", "mes_passado", "ultimos_3_meses", "ultimos_6_meses"} ==>
      r == SC.Intervalo(0, TimeOf(now))
  {
    if periodo == "este_mes" then FO.Meses(now.ano, now.mes - 1, 0)
    else if periodo == "mes_passado" then FO.Meses(now.ano, now.mes - 2, 0)
    else if periodo == "ultimos_3_meses" then FO.Meses(now.ano, now.mes - 1, 2)
    else if periodo == "ultimos_6_meses" then FO.Meses(now.ano, now.mes - 1, 5)
    else SC.Intervalo(0, TimeOf(now))
  }

  /** The period of a request: an explicit range runs to the last millisecond of its final day;
      "todos" (the default) applies no date filter (`None`); otherwise the named period. */
  function PeriodoDoPedido(dataInicio: Option<int>, dataFim: Option<int>, periodo: Option<string>, now: Date)
    : (r: Option<SC.Intervalo>)
    ensures dataInicio.Some? && dataFim.Some? ==> r == FO.PeriodoDoPedido(dataInicio, dataFim, periodo, now)
    ensures !(dataInicio.Some? && dataFim.Some?) && (periodo.None? || periodo == Some("") || periodo == Some("todos")) ==>
      r.None?
  {
    var periodoParam := if periodo.Some? && periodo.value != "" then periodo.value else "todos";
    if dataInicio.Some? && dataFim.Some? then
      Some(SC.Intervalo(dataInicio.value, dataFim.value + (24 * 60 * 60 * 1000 - 1)))
    else if periodoParam == "todos" then None
    else Some(IntervaloDoPeriodo(periodoParam, now))
  }

  /** On the month periods and "todos" the period agrees with revenue by origin. */
  lemma PeriodoComoOrigem(dataInicio: Option<int>, dataFim: Option<int>, periodo: Option<string>, now: Date)
    requires periodo.None? || periodo.value in {"", "todos", "este_mes", "mes_passado", "ultimos_3_meses", "ultimos_6_meses"}
    ensures PeriodoDoPedido(dataInicio, dataFim, periodo, now) == FO.PeriodoDoPedido(dataInicio, dataFim, periodo, now)
  {
    if !(dataInicio.Some? && dataFim.Some?) && periodo.Some? && periodo.value !in {"", "todos"} {
      var p := periodo.value;
      if p == "este_mes" {
        assert FO.NomeDoPeriodo(p) == FO.EsteMes;
      } else if p == "mes_passado" {
        assert FO.NomeDoPeriodo(p) == FO.MesPassado;
      } else if p == "ultimos_3_meses" {
        assert FO.NomeDoPeriodo(p) == FO.Ultimos3Meses;
      } else {
        assert FO.NomeDoPeriodo(p) == FO.Ultimos6Meses;
      }
    }
  }

  /** Every other name, the daily ones included, which this route does not know, selects
      everything from the epoch to `now`. */
  lemma PeriodoDesconhecido(dataInicio: Option<int>, dataFim: Option<int>, periodo: Option<string>, now: Date)
    requires !(dataInicio.Some? && dataFim.Some?) && periodo.Some?
    requires periodo.value !in {"", "todos", "este_mes", "mes_passado", "ultimos_3_meses", "ultimos_6_meses"}
    ensures PeriodoDoPedido(dataInicio, dataFim, periodo, now) == Some(SC.Intervalo(0, TimeOf(now)))
  {
  }

  // ---------------------------------------------------------------------------
  // The grouping key and the display name

  /** The columns of a sale the ranking reads. */
  datatype VendaTop = VendaTop(titulo: string, sku: Option<string>, valorTotal: JsValue, quantidade: JsValue)

  /** The columns of a registered SKU the grouping reads. */
  datatype DadosSku = DadosSku(sku: string, tipo: string, hierarquia1: Option<string>, hierarquia2: Option<string>)

  /** `skuMap`: each registered SKU by its code; a code listed twice keeps its last record. */
  function MapaSkus(skus: seq<DadosSku>): (m: map<string, DadosSku>)
    ensures m.Keys == set i | 0 <= i < |skus| :: skus[i].sku
    ensures forall i :: 0 <= i < |skus| && (forall j :: i < j < |skus| ==> skus[j].sku != skus[i].sku) ==>
      m[skus[i].sku] == skus[i]
  {
    var es := seq(|skus|, i requires 0 <= i < |skus| => (skus[i].sku, skus[i]));
    assert forall i :: 0 <= i < |skus| ==> es[i].0 == skus[i].sku;
    MapFromEntriesLast(es);
    MapFromEntries(es)
  }

  /** The request's `agrupamentoSKU`; a missing, empty or unknown value groups as "mlb". */
  datatype Agrupamento = PorSku | PorHierarquia1 | PorHierarquia2 | PorKit | PorMlb

  function AgrupamentoDe(param: Option<string>): (a: Agrupamento)
    ensures a == PorSku <==> param == Some("sku")
    ensures a == PorHierarquia1 <==> param == Some("hierarquia1")
    ensures a == PorHierarquia2 <==> param == Some("hierarquia2")
    ensures a == PorKit <==> param == Some("kit")
  {
    if param == Some("sku") then PorSku
    else if param == Some("hierarquia1") then PorHierarquia1
    else if param == Some("hierarquia2") then PorHierarquia2
    else if param == Some("kit") then PorKit
    else PorMlb
  }

  /** `skuMap.get(venda.sku || "")`. */
  function DadosDaVenda(v: VendaTop, skuMap: map<string, DadosSku>): Option<DadosSku> {
    var k := StringOr(v.sku, "");
    if k in skuMap then Some(skuMap[k]) else None
  }

  /** `getGroupingKey`: the SKU, or the title when there is none ("sku" and "mlb"); the SKU's first
      or second hierarchy level, or a fixed label when the SKU or the level is missing; "Kits" for
      a sale of a kit SKU and "Produtos Individuais" for every other. */
  function ChaveDeAgrupamento(v: VendaTop, skuMap: map<string, DadosSku>, modo: Agrupamento): (k: string)
    ensures modo == PorSku || modo == PorMlb ==>
      (k == "" <==> (v.sku.None? || v.sku.value == "") && v.titulo == "")
      && (v.sku.Some? && v.sku.value != "" ==> k == v.sku.value)
    ensures modo == PorHierarquia1 ==>
      k != "" && (k == "Sem Hierarquia 1" || (DadosDaVenda(v, skuMap).Some? && DadosDaVenda(v, skuMap).value.hierarquia1 == Some(k)))
    ensures modo == PorHierarquia2 ==>
      k != "" && (k == "Sem Hierarquia 2" || (DadosDaVenda(v, skuMap).Some? && DadosDaVenda(v, skuMap).value.hierarquia2 == Some(k)))
    ensures modo == PorKit ==>
      (k == "Kits" <==> DadosDaVenda(v, skuMap).Some? && DadosDaVenda(v, skuMap).value.tipo == "pai")
      && (k == "Kits" || k == "Produtos Individuais")
  {
    var dados := DadosDaVenda(v, skuMap);
    match modo
    case PorSku => StringOr(v.sku, v.titulo)
    case PorHierarquia1 => StringOr(if dados.Some? then dados.value.hierarquia1 else None, "Sem Hierarquia 1")
    case PorHierarquia2 => StringOr(if dados.Some? then dados.value.hierarquia2 else None, "Sem Hierarquia 2")
    case PorKit => if dados.Some? && dados.value.tipo == "pai" then "Kits" else "Produtos Individuais"
    case PorMlb => StringOr(v.sku, v.titulo)
  }

  /** A title of more than 30 characters is cut to its first 30 and given "...". */
  function Truncar(titulo: string): (r: string)
    ensures |titulo| <= 30 ==> r == titulo
    ensures |titulo| > 30 ==> |r| == 33 && r[..30] == titulo[..30] && r[30..] == "..."
    ensures |r| <= 33
  {
    if |titulo| > 30 then titulo[..30] + "..." else titulo
  }

  /** `getDisplayName`: the shortened title when grouping by SKU or title, the key itself otherwise. */
  function NomeDeExibicao(v: VendaTop, chave: string, modo: Agrupamento): (r: string)
    ensures modo == PorSku || modo == PorMlb ==> r == Truncar(v.titulo)
    ensures modo != PorSku && modo != PorMlb ==> r == chave
  {
    match modo
    case PorSku => Truncar(v.titulo)
    case PorMlb => Truncar(v.titulo)
    case _ => chave
  }

  function ChaveDe(skuMap: map<string, DadosSku>, modo: Agrupamento): VendaTop -> string {
    v => ChaveDeAgrupamento(v, skuMap, modo)
  }

  function NomeDe(skuMap: map<string, DadosSku>, modo: Agrupamento): VendaTop -> string {
    v => NomeDeExibicao(v, ChaveDeAgrupamento(v, skuMap, modo), modo)
  }

  /** `toNumber(venda.valorTotal)`. */
  function Faturamento(v: VendaTop): real {
    DS.ToNumberOrZero(v.valorTotal)
  }

  /** `toNumber(venda.quantidade)`. */
  function Quantidade(v: VendaTop): real {
    DS.ToNumberOrZero(v.quantidade)
  }

  /** `venda.sku || ""`. */
  function SkuDaVenda(v: VendaTop): string {
    StringOr(v.sku, "")
  }

  // ---------------------------------------------------------------------------
  // The groups

  /** One entry of `produtosMap`. */
  datatype Produto = Produto(produto: string, sku: string, faturamento: real, quantidade: real)

  function Chaveada<T>(chave: T -> string): T -> Option<string> {
    x => Some(chave(x))
  }

  /** The first element filed under `k`, if any. */
  function Primeira<T>(xs: seq<T>, chave: T -> string, k: string): (r: Option<T>)
    ensures r.Some? ==> exists j :: 0 <= j < |xs| && xs[j] == r.value && chave(xs[j]) == k
                                   && forall i :: 0 <= i < j ==> chave(xs[i]) != k
    ensures r.None? ==> forall i :: 0 <= i < |xs| ==> chave(xs[i]) != k
  {
    if |xs| == 0 then None
    else
      var n := |xs| - 1;
      var p := Primeira(xs[..n], chave, k);
      assert forall i :: 0 <= i < n ==> xs[..n][i] == xs[i];
      if p.Some? then p
      else if chave(xs[n]) == k then Some(xs[n])
      else None
  }

  /** What the loop holds for key `k` after the elements `xs`: nothing when no element is filed
      under `k`; otherwise the name and SKU of the first such element, and the revenue and the
      quantity summed over all of them. */
  function Grupo<T>(xs: seq<T>, chave: T -> string, fat: T -> real, qtd: T -> real, nome: T -> string,
                    sku: T -> string, k: string): Option<Produto>
  {
    var p := Primeira(xs, chave, k);
    if p.None? then None
    else Some(Produto(nome(p.value), sku(p.value), AtKeySum(xs, Chaveada(chave), fat, k),
                      AtKeySum(xs, Chaveada(chave), qtd, k)))
  }

  /** One sale added to its group: a new entry, or the existing one with the sale's revenue and
      quantity added. */
  function Juntar(g: Option<Produto>, nome: string, sku: string, fat: real, qtd: real): Produto {
    if g.None? then Produto(nome, sku, fat, qtd)
    else g.value.(faturamento := g.value.faturamento + fat, quantidade := g.value.quantidade + qtd)
  }

  /** One step of the loop, for every key: only the sale's own key changes, and it changes by
      `Juntar`. */
  lemma GrupoStep<T>(xs: seq<T>, i: nat, chave: T -> string, fat: T -> real, qtd: T -> real,
                     nome: T -> string, sku: T -> string, k: string)
    requires i < |xs|
    ensures Grupo(xs[..i + 1], chave, fat, qtd, nome, sku, k)
      == if chave(xs[i]) == k
         then Some(Juntar(Grupo(xs[..i], chave, fat, qtd, nome, sku, k), nome(xs[i]), sku(xs[i]), fat(xs[i]), qtd(xs[i])))
         else Grupo(xs[..i], chave, fat, qtd, nome, sku, k)
  {
    var a, b := xs[..i], xs[..i + 1];
    assert b[..i] == a;
    AtKeySumStep(xs, i, Chaveada(chave), fat, k);
    AtKeySumStep(xs, i, Chaveada(chave), qtd, k);
    if Primeira(a, chave, k).None? {
      KeysOfMembership(a, Chaveada(chave), k);
      AtKeySumAbsent(a, Chaveada(chave), fat, k);
      AtKeySumAbsent(a, Chaveada(chave), qtd, k);
    }
  }

  /** A key some element has always has a group. */
  lemma GrupoPresente<T>(xs: seq<T>, chave: T -> string, fat: T -> real, qtd: T -> real,
                         nome: T -> string, sku: T -> string, k: string)
    requires k in KeysOf(xs, Chaveada(chave))
    ensures Grupo(xs, chave, fat, qtd, nome, sku, k).Some?
  {
    KeysOfMembership(xs, Chaveada(chave), k);
  }

  /** Every key's entry in `grupos` is its `Grupo` over `ys`. */
  ghost predicate GruposDe<T>(ys: seq<T>, chave: T -> string, fat: T -> real, qtd: T -> real, nome: T -> string,
                        sku: T -> string, grupos: map<string, Produto>)
  {
    forall k :: Grupo(ys, chave, fat, qtd, nome, sku, k) == if k in grupos then Some(grupos[k]) else None
  }

  /** One step of the loop on the whole map: filing element `i` under its key by `Juntar` keeps
      every key's entry equal to its `Grupo`. */
  lemma GruposStep<T>(xs: seq<T>, i: nat, chave: T -> string, fat: T -> real, qtd: T -> real,
                      nome: T -> string, sku: T -> string, grupos: map<string, Produto>, grupos': map<string, Produto>)
    requires i < |xs|
    requires GruposDe(xs[..i], chave, fat, qtd, nome, sku, grupos)
    requires var k := chave(xs[i]);
      grupos' == grupos[k := Juntar(if k in grupos then Some(grupos[k]) else None, nome(xs[i]), sku(xs[i]), fat(xs[i]), qtd(xs[i]))]
    ensures GruposDe(xs[..i + 1], chave, fat, qtd, nome, sku, grupos')
  {
    forall k ensures Grupo(xs[..i + 1], chave, fat, qtd, nome, sku, k) == if k in grupos' then Some(grupos'[k]) else None {
      GrupoStep(xs, i, chave, fat, qtd, nome, sku, k);
    }
  }

  /** One step of the loop on the insertion order: a key is appended exactly when it has no entry yet. */
  lemma OrdemStep<T>(xs: seq<T>, i: nat, chave: T -> string, ordem: seq<string>, novo: bool)
    requires i < |xs|
    requires ordem == Distinct(KeysOf(xs[..i], Chaveada(chave)))
    requires novo <==> chave(xs[i]) !in ordem
    ensures (if novo then ordem + [chave(xs[i])] else ordem) == Distinct(KeysOf(xs[..i + 1], Chaveada(chave)))
  {
    assert Chaveada(chave)(xs[i]) == Some(chave(xs[i]));
    KeysOfStep(xs, i, Chaveada(chave));
    DistinctSnoc(KeysOf(xs[..i], Chaveada(chave)), chave(xs[i]));
  }

  /** The loop that fills `produtosMap`, with the key, the amounts and the first sale's name and
      SKU given as functions. `ordem` is the map's insertion order. */
  method AgruparCom<T>(xs: seq<T>, chave: T -> string, fat: T -> real, qtd: T -> real, nome: T -> string,
                       sku: T -> string)
    returns (ordem: seq<string>, grupos: map<string, Produto>)
    ensures ordem == Distinct(KeysOf(xs, Chaveada(chave)))
    ensures forall k :: k in grupos <==> k in ordem
    ensures GruposDe(xs, chave, fat, qtd, nome, sku, grupos)
  {
    ordem, grupos := [], map[];
    for i := 0 to |xs|
      invariant ordem == Distinct(KeysOf(xs[..i], Chaveada(chave)))
      invariant forall k :: k in grupos <==> k in ordem
      invariant GruposDe(xs[..i], chave, fat, qtd, nome, sku, grupos)
    {
      var x := xs[i];
      var k := chave(x);
      var existente := if k in grupos then Some(grupos[k]) else None;
      var grupos' := grupos[k := Juntar(existente, nome(x), sku(x), fat(x), qtd(x))];
      GruposStep(xs, i, chave, fat, qtd, nome, sku, grupos, grupos');
      assert Chaveada(chave)(x) == Some(k);
      OrdemStep(xs, i, chave, ordem, existente.None?);
      if existente.None? {
        ordem := ordem + [k];
      }
      grupos := grupos';
    }
    assert xs[..|xs|] == xs;
  }

  /** The groups split the elements: their totals, over the keys in insertion order, add up to the
      total of all the elements. */
  lemma SomaDosGrupos<T>(xs: seq<T>, chave: T -> string, val: T -> real)
    ensures Sum(Distinct(KeysOf(xs, Chaveada(chave))), k => AtKeySum(xs, Chaveada(chave), val, k)) == Sum(xs, val)
  {
    var key := Chaveada(chave);
    var ks := Distinct(KeysOf(xs, key));
    var m := map k | k in ks :: AtKeySum(xs, key, val, k);
    TotalOverKeys(m, ks, xs, key, val);
    SumPointwise(ks, k => if k in m then m[k] else 0.0, k => AtKeySum(xs, key, val, k));
    forall i | 0 <= i < |xs| ensures key(xs[i]).Some? && key(xs[i]).value in ks {
      KeysOfMembership(xs, key, chave(xs[i]));
      DistinctMembership(KeysOf(xs, key), chave(xs[i]));
    }
    InKeysSumAll(xs, key, val, ks);
  }

  // ---------------------------------------------------------------------------
  // The ranking

  /** A group with its average ticket. */
  datatype Linha = Linha(produto: string, sku: string, faturamento: real, quantidade: real, ticketMedio: real)

  /** The average ticket: revenue per unit when some units were sold, 0 otherwise. */
  function ComTicket(p: Produto): (l: Linha)
    ensures l.produto == p.produto && l.sku == p.sku && l.faturamento == p.faturamento && l.quantidade == p.quantidade
    ensures p.quantidade > 0.0 ==> l.ticketMedio * p.quantidade == p.faturamento
    ensures p.quantidade <= 0.0 ==> l.ticketMedio == 0.0
  {
    Linha(p.produto, p.sku, p.faturamento, p.quantidade,
          if p.quantidade > 0.0 then p.faturamento / p.quantidade else 0.0)
  }

  /** The comparator `(a, b) => b.faturamento - a.faturamento`: `a` may come first when its revenue
      is not lower. */
  predicate MaisFaturamento(a: Linha, b: Linha) {
    a.faturamento >= b.faturamento
  }

  lemma MaisFaturamentoIsTotalPreorder()
    ensures TotalPreorder(MaisFaturamento)
  {
  }

  /** The rows sorted by revenue, highest first, and cut to ten: no more than ten rows, all taken
      from the input, in descending revenue, and no row left out has more revenue than a row kept. */
  function Top10(linhas: seq<Linha>): (r: seq<Linha>)
    ensures |r| == if |linhas| < 10 then |linhas| else 10
    ensures multiset(r) <= multiset(linhas)
    ensures forall i, j :: 0 <= i < j < |r| ==> r[i].faturamento >= r[j].faturamento
    ensures forall l, i :: l in multiset(linhas) - multiset(r) && 0 <= i < |r| ==> l.faturamento <= r[i].faturamento
  {
    MaisFaturamentoIsTotalPreorder();
    var s := Sort(linhas, MaisFaturamento);
    var n := if |s| < 10 then |s| else 10;
    TopDeOrdenada(s, n);
    s[..n]
  }

  /** The first `n` rows of a sorted list: what is left out earns no more than what is kept. */
  lemma TopDeOrdenada(s: seq<Linha>, n: nat)
    requires n <= |s| && Sorted(s, MaisFaturamento)
    ensures multiset(s[..n]) <= multiset(s)
    ensures forall i, j :: 0 <= i < j < n ==> s[..n][i].faturamento >= s[..n][j].faturamento
    ensures forall l, i :: l in multiset(s) - multiset(s[..n]) && 0 <= i < n ==> l.faturamento <= s[i].faturamento
  {
    assert s == s[..n] + s[n..];
    assert multiset(s) == multiset(s[..n]) + multiset(s[n..]);
    forall i, j | 0 <= i < j < n ensures s[..n][i].faturamento >= s[..n][j].faturamento {
      assert MaisFaturamento(s[i], s[j]);
    }
    forall l, i | l in multiset(s) - multiset(s[..n]) && 0 <= i < n
      ensures l.faturamento <= s[i].faturamento
    {
      assert l in multiset(s[n..]);
      var j :| 0 <= j < |s[n..]| && s[n..][j] == l;
      assert MaisFaturamento(s[i], s[n + j]);
    }
  }

  /** The groups of the sales, in the map's insertion order, each with its average ticket. */
  function Linhas(vendas: seq<VendaTop>, skuMap: map<string, DadosSku>, modo: Agrupamento): (r: seq<Linha>)
    ensures |r| == |Distinct(KeysOf(vendas, Chaveada(ChaveDe(skuMap, modo))))|
  {
    var chave := ChaveDe(skuMap, modo);
    var ordem := Distinct(KeysOf(vendas, Chaveada(chave)));
    seq(|ordem|, j requires 0 <= j < |ordem| => LinhaDoGrupo(vendas, skuMap, modo, ordem[j]))
  }

  /** The row of the group of key `k`, which some sale has. */
  function LinhaDoGrupo(vendas: seq<VendaTop>, skuMap: map<string, DadosSku>, modo: Agrupamento, k: string): Linha
    requires k in KeysOf(vendas, Chaveada(ChaveDe(skuMap, modo)))
  {
    GrupoPresente(vendas, ChaveDe(skuMap, modo), Faturamento, Quantidade, NomeDe(skuMap, modo), SkuDaVenda, k);
    ComTicket(Grupo(vendas, ChaveDe(skuMap, modo), Faturamento, Quantidade, NomeDe(skuMap, modo), SkuDaVenda, k).value)
  }

  /** The rows of the loop's groups, in insertion order, each with its average ticket. */
  function LinhasDe(ordem: seq<string>, grupos: map<string, Produto>): (r: seq<Linha>)
    requires forall k :: k in ordem ==> k in grupos
    ensures |r| == |ordem| && forall j :: 0 <= j < |ordem| ==> r[j] == ComTicket(grupos[ordem[j]])
  {
    seq(|ordem|, j requires 0 <= j < |ordem| => ComTicket(grupos[ordem[j]]))
  }

  /** The rows built from the loop's map are the groups `Linhas` defines. */
  lemma LinhasDosGrupos(vendas: seq<VendaTop>, skuMap: map<string, DadosSku>, modo: Agrupamento,
                        ordem: seq<string>, grupos: map<string, Produto>)
    requires ordem == Distinct(KeysOf(vendas, Chaveada(ChaveDe(skuMap, modo))))
    requires forall k :: k in grupos <==> k in ordem
    requires GruposDe(vendas, ChaveDe(skuMap, modo), Faturamento, Quantidade, NomeDe(skuMap, modo), SkuDaVenda, grupos)
    ensures LinhasDe(ordem, grupos) == Linhas(vendas, skuMap, modo)
  {
    var chave, nome := ChaveDe(skuMap, modo), NomeDe(skuMap, modo);
    var a, b := LinhasDe(ordem, grupos), Linhas(vendas, skuMap, modo);
    assert |a| == |b|;
    forall j | 0 <= j < |ordem| ensures a[j] == b[j] {
      var g := Grupo(vendas, chave, Faturamento, Quantidade, nome, SkuDaVenda, ordem[j]);
      assert g == Some(grupos[ordem[j]]);
      assert b[j] == LinhaDoGrupo(vendas, skuMap, modo, ordem[j]);
    }
  }

  /** The route after the query: the sales of the channel asked for, grouped, with their average
      ticket, and the ten with the highest revenue. */
  method TopProdutosFaturamento(canal: Option<string>, meli: seq<VendaTop>, shopee: seq<VendaTop>,
                                skus: seq<DadosSku>, agrupamento: Option<string>)
    returns (top: seq<Linha>)
    ensures top == Top10(Linhas(DS.VendasDoCanal(canal, meli, shopee), MapaSkus(skus), AgrupamentoDe(agrupamento)))
  {
    var vendas := DS.VendasDoCanal(canal, meli, shopee);
    var skuMap := MapaSkus(skus);
    var modo := AgrupamentoDe(agrupamento);
    var ordem, grupos := AgruparCom(vendas, ChaveDe(skuMap, modo), Faturamento, Quantidade, NomeDe(skuMap, modo), SkuDaVenda);
    LinhasDosGrupos(vendas, skuMap, modo, ordem, grupos);
    top := Top10(LinhasDe(ordem, grupos));
  }

  function FaturamentoDaLinha(l: Linha): real { l.faturamento }

  function QuantidadeDaLinha(l: Linha): real { l.quantidade }

  /** Every sale is counted in exactly one group: the groups' revenues add up to the revenue of all
      the sales, and their quantities to the units sold. */
  lemma GruposSomamTudo(vendas: seq<VendaTop>, skuMap: map<string, DadosSku>, modo: Agrupamento)
    ensures Sum(Linhas(vendas, skuMap, modo), FaturamentoDaLinha) == Sum(vendas, Faturamento)
    ensures Sum(Linhas(vendas, skuMap, modo), QuantidadeDaLinha) == Sum(vendas, Quantidade)
  {
    var chave := ChaveDe(skuMap, modo);
    var ks := Distinct(KeysOf(vendas, Chaveada(chave)));
    var ls := Linhas(vendas, skuMap, modo);
    forall j | 0 <= j < |ks|
      ensures FaturamentoDaLinha(ls[j]) == AtKeySum(vendas, Chaveada(chave), Faturamento, ks[j])
      ensures QuantidadeDaLinha(ls[j]) == AtKeySum(vendas, Chaveada(chave), Quantidade, ks[j])
    {
      GrupoPresente(vendas, chave, Faturamento, Quantidade, NomeDe(skuMap, modo), SkuDaVenda, ks[j]);
    }
    SumAligned(ls, ks, FaturamentoDaLinha, k => AtKeySum(vendas, Chaveada(chave), Faturamento, k));
    SumAligned(ls, ks, QuantidadeDaLinha, k => AtKeySum(vendas, Chaveada(chave), Quantidade, k));
    SomaDosGrupos(vendas, chave, Faturamento);
    SomaDosGrupos(vendas, chave, Quantidade);
  }
}
