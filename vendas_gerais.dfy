/** The combined sales list: each channel's sales with their cost of goods and contribution
    margin worked out, merged and ordered newest first, and the time of the latest sync. */
module VendasGerais {
  import opened Wrappers
  import opened Folds
  import opened Money
  import opened Sorting

  /** The columns of a stored sale the list computes with. Times are time values in milliseconds. */
  datatype Venda = Venda(orderId: string, dataVenda: int, valorTotal: real, quantidade: int,
                         taxaPlataforma: Option<real>, frete: real, sku: Option<string>,
                         sincronizadoEm: int)

  /** The computed part of a listed sale. */
  datatype VendaFormatada = VendaFormatada(id: string, dataVenda: int, valorTotal: real,
                                           taxaPlataforma: Option<real>, frete: real,
                                           cmv: Option<real>, margemContribuicao: real,
                                           isMargemReal: bool, sincronizadoEm: int)

  /** The cost of goods of a sale: unit cost times quantity, to the cent, when its SKU has a known
      cost; unknown (`null`) otherwise. `custos` is `mapaCustos`, the `MapFromEntries` of the
      (SKU, unit cost) pairs. */
  function Cmv(v: Venda, custos: map<string, real>): (r: Option<real>)
    ensures r.Some? <==> v.sku.Some? && v.sku.value != "" && v.sku.value in custos
    ensures r.Some? ==> IsCents(r.value)
    ensures r.Some? ==>
      var bruto := custos[v.sku.value] * v.quantidade as real;
      bruto - 0.005 < r.value <= bruto + 0.005
  {
    if v.sku.Some? && v.sku.value != "" && v.sku.value in custos then
      Some(RoundCents(custos[v.sku.value] * v.quantidade as real))
    else None
  }

  /** The contribution margin of a sale, to the cent, and whether it is "real": it is total plus
      fee plus freight, less the cost of goods when that is known and positive, in which case the
      margin is real. A missing fee counts as 0. */
  function Margem(valorTotal: real, taxa: Option<real>, frete: real, cmv: Option<real>): (r: (real, bool))
    ensures r.1 <==> cmv.Some? && cmv.value > 0.0
    ensures var bruta := valorTotal + taxa.GetOr(0.0) + frete;
      r.0 == RoundCents(if r.1 then bruta - cmv.value else bruta)
  {
    var taxaPlataforma := if taxa.Some? then taxa.value else 0.0;
    if cmv.Some? && cmv.value > 0.0 then
      (RoundCents(valorTotal + taxaPlataforma + frete - cmv.value), true)
    else
      (RoundCents(valorTotal + taxaPlataforma + frete), false)
  }

  /** A positive cost of goods only ever lowers the margin. */
  lemma MargemRealMenor(valorTotal: real, taxa: Option<real>, frete: real, cmv: Option<real>)
    ensures Margem(valorTotal, taxa, frete, cmv).0 <= Margem(valorTotal, taxa, frete, None).0
    ensures Margem(valorTotal, taxa, frete, None) == (RoundCents(valorTotal + taxa.GetOr(0.0) + frete), false)
  {
    var bruta := valorTotal + taxa.GetOr(0.0) + frete;
    if cmv.Some? && cmv.value > 0.0 {
      RoundCentsMonotone(bruta - cmv.value, bruta);
    }
  }

  /** One stored sale as listed. */
  function Formatar(v: Venda, custos: map<string, real>): (f: VendaFormatada)
    ensures f.id == v.orderId && f.dataVenda == v.dataVenda && f.valorTotal == v.valorTotal
    ensures f.taxaPlataforma == v.taxaPlataforma && f.frete == v.frete && f.sincronizadoEm == v.sincronizadoEm
    ensures f.cmv == Cmv(v, custos)
    ensures (f.margemContribuicao, f.isMargemReal) == Margem(v.valorTotal, v.taxaPlataforma, v.frete, Cmv(v, custos))
  {
    var cmv := Cmv(v, custos);
    var (margem, isReal) := Margem(v.valorTotal, v.taxaPlataforma, v.frete, cmv);
    VendaFormatada(v.orderId, v.dataVenda, v.valorTotal, v.taxaPlataforma, v.frete, cmv, margem, isReal,
                   v.sincronizadoEm)
  }

  /** The comparator `(a, b) => b.dataVenda - a.dataVenda`: `a` may come first when it is not older. */
  predicate MaisRecentePrimeiro(a: VendaFormatada, b: VendaFormatada) {
    a.dataVenda >= b.dataVenda
  }

  lemma MaisRecentePrimeiroIsTotalPreorder()
    ensures TotalPreorder(MaisRecentePrimeiro)
  {
  }

  /** Both channels' sales, formatted, Mercado Livre's then Shopee's, then sorted newest first:
      the same sales, each exactly as often, in descending order of sale time. */
  function TodasVendas(meli: seq<Venda>, shopee: seq<Venda>, custos: map<string, real>): (r: seq<VendaFormatada>)
    ensures |r| == |meli| + |shopee|
    ensures multiset(r) == multiset(seq(|meli|, i requires 0 <= i < |meli| => Formatar(meli[i], custos)))
                         + multiset(seq(|shopee|, i requires 0 <= i < |shopee| => Formatar(shopee[i], custos)))
    ensures forall i, j :: 0 <= i < j < |r| ==> r[i].dataVenda >= r[j].dataVenda
  {
    var fm := seq(|meli|, i requires 0 <= i < |meli| => Formatar(meli[i], custos));
    var fs := seq(|shopee|, i requires 0 <= i < |shopee| => Formatar(shopee[i], custos));
    MaisRecentePrimeiroIsTotalPreorder();
    Sort(fm + fs, MaisRecentePrimeiro)
  }

  /** The time of the latest sync: each channel's is the sync time of its first sale as the database
      returns them (newest sale first), and the later of the two is taken; none without sales. */
  function UltimaSync(meli: seq<Venda>, shopee: seq<Venda>): (r: Option<int>)
    ensures r.None? <==> |meli| == 0 && |shopee| == 0
    ensures |meli| > 0 ==> r.Some? && r.value >= meli[0].sincronizadoEm
    ensures |shopee| > 0 ==> r.Some? && r.value >= shopee[0].sincronizadoEm
    ensures r.Some? ==> (|meli| > 0 && r.value == meli[0].sincronizadoEm)
                        || (|shopee| > 0 && r.value == shopee[0].sincronizadoEm)
  {
    var ultimaMeli := if |meli| > 0 then Some(meli[0].sincronizadoEm) else None;
    var ultimaShopee := if |shopee| > 0 then Some(shopee[0].sincronizadoEm) else None;
    if ultimaMeli.Some? && ultimaShopee.Some? then
      Some(if ultimaMeli.value > ultimaShopee.value then ultimaMeli.value else ultimaShopee.value)
    else if ultimaMeli.Some? then ultimaMeli
    else ultimaShopee
  }
}
