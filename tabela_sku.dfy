/** The SKU management table: the order in which kits and their items are listed, the form for a
    new SKU (its field updates and validation) and the record it submits. */
module TabelaSku {
  import opened Wrappers
  import opened Strings
  import opened Folds
  import opened Sorting

  // ---------------------------------------------------------------------------
  // SKUs and the listing order

  /** A kit ("pai") or an individual item ("filho"). */
  datatype TipoSku = Pai | Filho

  /** The fields of a SKU the listing reads. `skusFilhos` is a kit's list of item SKUs; a list
      stored as JSON text is taken here as the array it parses to. */
  datatype Sku = Sku(id: string, sku: string, produto: string, tipo: TipoSku, skuPai: Option<string>,
                     skusFilhos: Option<seq<string>>)

  predicate EhPai(s: Sku) { s.tipo == Pai }

  predicate EhFilho(s: Sku) { s.tipo == Filho }

  /** The kit an item names: none when `skuPai` is missing or empty. */
  function PaiDe(f: Sku): (r: Option<string>)
    ensures r.Some? <==> f.skuPai.Some? && f.skuPai.value != ""
    ensures r.Some? ==> r.value == f.skuPai.value && r.value != ""
  {
    if f.skuPai.Some? && f.skuPai.value != "" then f.skuPai else None
  }

  /** The items that name kit `k`. */
  function ComPai(k: string): Sku -> bool {
    f => PaiDe(f) == Some(k)
  }

  /** `filhosPorPai.get(k) || []`: the items naming kit `k`, in their order. */
  function FilhosPorPai(filhos: seq<Sku>, k: string): seq<Sku> {
    Filter(filhos, ComPai(k))
  }

  /** The items listed under a kit in the plain view: those naming it. */
  function FilhosViaPai(filhos: seq<Sku>): Sku -> seq<Sku> {
    (p: Sku) => FilhosPorPai(filhos, p.sku)
  }

  /** The ids of a list. */
  function Ids(xs: seq<Sku>): (r: set<string>)
    ensures forall id :: id in r <==> exists i :: 0 <= i < |xs| && xs[i].id == id
  {
    if |xs| == 0 then {}
    else
      var n := |xs| - 1;
      var r := Ids(xs[..n]);
      assert forall i :: 0 <= i < n ==> xs[..n][i] == xs[i];
      r + {xs[n].id}
  }

  /** Each kit followed by the items `filhosDo` lists under it. */
  function Blocos(pais: seq<Sku>, filhosDo: Sku -> seq<Sku>): seq<Sku> {
    if |pais| == 0 then []
    else
      var n := |pais| - 1;
      Blocos(pais[..n], filhosDo) + [pais[n]] + filhosDo(pais[n])
  }

  /** `usados`: the ids of the items listed under some kit. */
  function Usados(pais: seq<Sku>, filhosDo: Sku -> seq<Sku>): set<string> {
    if |pais| == 0 then {}
    else
      var n := |pais| - 1;
      Usados(pais[..n], filhosDo) + Ids(filhosDo(pais[n]))
  }

  function NaoUsado(usados: set<string>): Sku -> bool {
    (f: Sku) => f.id !in usados
  }

  /** The listing: the kit blocks, then the items not listed under any kit, in their order. */
  function Ordem(pais: seq<Sku>, filhos: seq<Sku>, filhosDo: Sku -> seq<Sku>): seq<Sku> {
    Blocos(pais, filhosDo) + Filter(filhos, NaoUsado(Usados(pais, filhosDo)))
  }

  /** `filhosPorPai.get(k) || []`. */
  function Obter(m: map<string, seq<Sku>>, k: string): seq<Sku> {
    if k in m then m[k] else []
  }

  /** The loop that fills `filhosPorPai`: each item that names a kit is appended to that kit's list. */
  method AgruparPorPai(filhos: seq<Sku>) returns (porPai: map<string, seq<Sku>>)
    ensures forall k :: Obter(porPai, k) == FilhosPorPai(filhos, k)
  {
    porPai := map[];
    for i := 0 to |filhos|
      invariant forall k :: Obter(porPai, k) == FilhosPorPai(filhos[..i], k)
    {
      var f := filhos[i];
      ghost var antes := porPai;
      if f.skuPai.Some? && f.skuPai.value != "" {
        var k := f.skuPai.value;
        porPai := porPai[k := Obter(porPai, k) + [f]];
      }
      AgruparStep(filhos, i, antes, porPai);
    }
    assert filhos[..|filhos|] == filhos;
  }

  /** One step of the grouping loop: the map after item `i` holds the filter of the longer prefix. */
  lemma AgruparStep(filhos: seq<Sku>, i: nat, antes: map<string, seq<Sku>>, depois: map<string, seq<Sku>>)
    requires i < |filhos|
    requires forall k :: Obter(antes, k) == FilhosPorPai(filhos[..i], k)
    requires depois == (if filhos[i].skuPai.Some? && filhos[i].skuPai.value != ""
                        then antes[filhos[i].skuPai.value := Obter(antes, filhos[i].skuPai.value) + [filhos[i]]]
                        else antes)
    ensures forall k :: Obter(depois, k) == FilhosPorPai(filhos[..i + 1], k)
  {
    var f := filhos[i];
    assert filhos[..i + 1][..i] == filhos[..i];
    forall k
      ensures Obter(depois, k) == FilhosPorPai(filhos[..i + 1], k)
    {
      assert FilhosPorPai(filhos[..i + 1], k) == FilhosPorPai(filhos[..i], k) + (if ComPai(k)(f) then [f] else []);
    }
  }

  /** `skusOrdenados`: kits, each followed by the items naming it, then the remaining items. */
  method SkusOrdenados(skus: seq<Sku>) returns (resultado: seq<Sku>)
    ensures resultado == Ordem(Filter(skus, EhPai), Filter(skus, EhFilho), FilhosViaPai(Filter(skus, EhFilho)))
  {
    var pais := Filter(skus, EhPai);
    var filhos := Filter(skus, EhFilho);
    var porPai := AgruparPorPai(filhos);
    ghost var filhosDo := FilhosViaPai(filhos);
    assert forall j :: 0 <= j < |pais| ==> Obter(porPai, pais[j].sku) == filhosDo(pais[j]);
    var usados;
    resultado, usados := ListarKits(pais, porPai, filhosDo);
    resultado := AcrescentarNaoUsados(resultado, filhos, usados);
  }

  /** The loop over the kits of the plain view: each kit, then the items its map entry lists. */
  method ListarKits(pais: seq<Sku>, porPai: map<string, seq<Sku>>, ghost filhosDo: Sku -> seq<Sku>)
    returns (resultado: seq<Sku>, usados: set<string>)
    requires forall j :: 0 <= j < |pais| ==> Obter(porPai, pais[j].sku) == filhosDo(pais[j])
    ensures resultado == Blocos(pais, filhosDo) && usados == Usados(pais, filhosDo)
  {
    resultado, usados := [], {};
    for j := 0 to |pais|
      invariant resultado == Blocos(pais[..j], filhosDo)
      invariant usados == Usados(pais[..j], filhosDo)
    {
      var p := pais[j];
      assert pais[..j + 1][..j] == pais[..j];
      resultado := resultado + [p];
      var filhosDoPai := Obter(porPai, p.sku);
      resultado, usados := AcrescentarFilhos(resultado, usados, filhosDoPai);
    }
    assert pais[..|pais|] == pais;
  }

  /** The inner loop of both orderings: a kit's items are appended and their ids marked as used. */
  method AcrescentarFilhos(inicio: seq<Sku>, usados0: set<string>, filhosDoPai: seq<Sku>)
    returns (resultado: seq<Sku>, usados: set<string>)
    ensures resultado == inicio + filhosDoPai
    ensures usados == usados0 + Ids(filhosDoPai)
  {
    resultado, usados := inicio, usados0;
    for t := 0 to |filhosDoPai|
      invariant resultado == inicio + filhosDoPai[..t]
      invariant usados == usados0 + Ids(filhosDoPai[..t])
    {
      assert filhosDoPai[..t + 1][..t] == filhosDoPai[..t];
      resultado := resultado + [filhosDoPai[t]];
      usados := usados + {filhosDoPai[t].id};
    }
    assert filhosDoPai[..|filhosDoPai|] == filhosDoPai;
  }

  /** The last loop of both orderings: every item whose id is not in `usados`, in order. */
  method AcrescentarNaoUsados(inicio: seq<Sku>, filhos: seq<Sku>, usados: set<string>) returns (resultado: seq<Sku>)
    ensures resultado == inicio + Filter(filhos, NaoUsado(usados))
  {
    resultado := inicio;
    for t := 0 to |filhos|
      invariant resultado == inicio + Filter(filhos[..t], NaoUsado(usados))
    {
      assert filhos[..t + 1][..t] == filhos[..t];
      if filhos[t].id !in usados {
        resultado := resultado + [filhos[t]];
      }
    }
    assert filhos[..|filhos|] == filhos;
  }

  // ---------------------------------------------------------------------------
  // What the listing order guarantees

  /** Where kit `j`'s block starts. */
  function InicioDoBloco(pais: seq<Sku>, filhosDo: Sku -> seq<Sku>, j: nat): nat
    requires j <= |pais|
  {
    |Blocos(pais[..j], filhosDo)|
  }

  lemma {:induction false} BlocosPrefixo(pais: seq<Sku>, filhosDo: Sku -> seq<Sku>, j: nat)
    requires j <= |pais|
    ensures |Blocos(pais[..j], filhosDo)| <= |Blocos(pais, filhosDo)|
    ensures Blocos(pais, filhosDo)[..|Blocos(pais[..j], filhosDo)|] == Blocos(pais[..j], filhosDo)
    decreases |pais|
  {
    if j == |pais| {
      assert pais[..j] == pais;
    } else {
      var n := |pais| - 1;
      assert pais[..n][..j] == pais[..j];
      BlocosPrefixo(pais[..n], filhosDo, j);
    }
  }

  /** In the listing, every kit is immediately followed by exactly the items listed under it. */
  lemma KitSeguidoDosFilhos(pais: seq<Sku>, filhos: seq<Sku>, filhosDo: Sku -> seq<Sku>, j: nat)
    requires j < |pais|
    ensures InicioDoBloco(pais, filhosDo, j) + 1 + |filhosDo(pais[j])| <= |Ordem(pais, filhos, filhosDo)|
    ensures Ordem(pais, filhos, filhosDo)[InicioDoBloco(pais, filhosDo, j)] == pais[j]
    ensures Ordem(pais, filhos, filhosDo)[InicioDoBloco(pais, filhosDo, j) + 1
                                          .. InicioDoBloco(pais, filhosDo, j) + 1 + |filhosDo(pais[j])|]
            == filhosDo(pais[j])
  {
    BlocosPrefixo(pais, filhosDo, j + 1);
    assert pais[..j + 1][..j] == pais[..j];
    var o := InicioDoBloco(pais, filhosDo, j);
    var bloco := Blocos(pais[..j + 1], filhosDo);
    assert bloco == Blocos(pais[..j], filhosDo) + [pais[j]] + filhosDo(pais[j]);
    var b := Blocos(pais, filhosDo);
    assert b[..|bloco|] == bloco;
    assert Ordem(pais, filhos, filhosDo)[..|b|] == b;
    assert bloco[o] == pais[j];
    assert bloco[o + 1..] == filhosDo(pais[j]);
  }

  /** After the kit blocks come exactly the items not listed under any kit, in their order; in the
      plain view, every kit is among the blocks. */
  lemma OrfaosNoFim(skus: seq<Sku>, filhosDo: Sku -> seq<Sku>)
    ensures var pais, filhos := Filter(skus, EhPai), Filter(skus, EhFilho);
      var b := |Blocos(pais, filhosDo)|;
      var r := Ordem(pais, filhos, filhosDo);
      && (forall i :: b <= i < |r| ==> r[i] in skus && EhFilho(r[i]) && r[i].id !in Usados(pais, filhosDo))
      && (forall f :: f in skus && EhFilho(f) && f.id !in Usados(pais, filhosDo) ==> f in r[b..])
      && (forall x :: x in skus && EhPai(x) ==> x in r[..b])
  {
    var pais, filhos := Filter(skus, EhPai), Filter(skus, EhFilho);
    var b := Blocos(pais, filhosDo);
    var r := Ordem(pais, filhos, filhosDo);
    var u := Usados(pais, filhosDo);
    assert r[|b|..] == Filter(filhos, NaoUsado(u));
    forall f | f in skus && EhFilho(f) && f.id !in u ensures f in r[|b|..] {
      FilterMembership(skus, EhFilho, f);
      FilterMembership(filhos, NaoUsado(u), f);
    }
    forall x | x in skus && EhPai(x) ensures x in r[..|b|] {
      FilterMembership(skus, EhPai, x);
      var j :| 0 <= j < |pais| && pais[j] == x;
      KitSeguidoDosFilhos(pais, filhos, filhosDo, j);
      BlocosPrefixo(pais, filhosDo, j + 1);
      assert pais[..j + 1][..j] == pais[..j];
      assert r[..|b|] == b;
      assert b[InicioDoBloco(pais, filhosDo, j)] == x;
    }
  }

  /** The kit SKUs of a list. */
  function SkusDe(pais: seq<Sku>): (r: set<string>)
    ensures forall k :: k in r <==> exists i :: 0 <= i < |pais| && pais[i].sku == k
  {
    if |pais| == 0 then {}
    else
      var n := |pais| - 1;
      assert forall i :: 0 <= i < n ==> pais[..n][i] == pais[i];
      SkusDe(pais[..n]) + {pais[n].sku}
  }

  /** The items that name one of the kits `ks`. */
  function PaiEm(ks: set<string>): Sku -> bool {
    (f: Sku) => PaiDe(f).Some? && PaiDe(f).value in ks
  }

  /** No two kits share a SKU. */
  predicate KitsDistintos(pais: seq<Sku>) {
    forall i, j :: 0 <= i < j < |pais| ==> pais[i].sku != pais[j].sku
  }

  /** Two records with the same id are the same record. */
  predicate IdIdentifica(xs: seq<Sku>) {
    forall i, j :: 0 <= i < |xs| && 0 <= j < |xs| && xs[i].id == xs[j].id ==> xs[i] == xs[j]
  }

  /** Naming one of `init`'s kits or naming kit `k` (not among them) is naming one of `init + [k]`'s. */
  lemma PartilhaDosKits(filhos: seq<Sku>, ks: set<string>, k: string)
    requires k !in ks
    ensures forall i :: 0 <= i < |filhos| ==>
      (PaiEm(ks + {k})(filhos[i]) <==> PaiEm(ks)(filhos[i]) || ComPai(k)(filhos[i]))
      && !(PaiEm(ks)(filhos[i]) && ComPai(k)(filhos[i]))
  {
  }

  lemma NenhumKit(filhos: seq<Sku>)
    ensures Filter(filhos, PaiEm({})) == []
  {
  }

  /** In the plain view the kit blocks hold the kits and exactly the items naming one of them. */
  lemma {:induction false} BlocosSaoKitsEFilhos(pais: seq<Sku>, filhos: seq<Sku>)
    requires KitsDistintos(pais)
    ensures multiset(Blocos(pais, FilhosViaPai(filhos)))
            == multiset(pais) + multiset(Filter(filhos, PaiEm(SkusDe(pais))))
    decreases |pais|
  {
    if |pais| == 0 {
      NenhumKit(filhos);
    } else {
      var n := |pais| - 1;
      var init, p := pais[..n], pais[n];
      assert KitsDistintos(init);
      BlocosSaoKitsEFilhos(init, filhos);
      var ks := SkusDe(init);
      assert p.sku !in ks;
      assert SkusDe(pais) == ks + {p.sku};
      PartilhaDosKits(filhos, ks, p.sku);
      FilterUnion(filhos, PaiEm(ks), ComPai(p.sku), PaiEm(ks + {p.sku}));
      assert pais == init + [p];
      SomaDoBloco(Blocos(init, FilhosViaPai(filhos)), init, p, FilhosPorPai(filhos, p.sku),
                  Filter(filhos, PaiEm(ks)), Filter(filhos, PaiEm(SkusDe(pais))));
    }
  }

  /** Appending a kit and its items to blocks that hold the earlier kits and their items. */
  lemma SomaDoBloco(blocos: seq<Sku>, init: seq<Sku>, p: Sku, lista: seq<Sku>,
                    antes: seq<Sku>, depois: seq<Sku>)
    requires multiset(blocos) == multiset(init) + multiset(antes)
    requires multiset(depois) == multiset(antes) + multiset(lista)
    ensures multiset(blocos + [p] + lista) == multiset(init + [p]) + multiset(depois)
  {
  }

  /** An item is marked as used exactly when it names one of the kits (ids identify records). */
  lemma {:induction false} UsadoSseTemKit(pais: seq<Sku>, filhos: seq<Sku>, f: Sku)
    requires IdIdentifica(filhos) && f in filhos
    ensures f.id in Usados(pais, FilhosViaPai(filhos)) <==> PaiEm(SkusDe(pais))(f)
    decreases |pais|
  {
    if |pais| > 0 {
      var n := |pais| - 1;
      var init, p := pais[..n], pais[n];
      UsadoSseTemKit(init, filhos, f);
      var lista := FilhosPorPai(filhos, p.sku);
      FilterMembership(filhos, ComPai(p.sku), f);
      if f.id in Ids(lista) {
        var i :| 0 <= i < |lista| && lista[i].id == f.id;
        assert lista[i] in filhos && ComPai(p.sku)(lista[i]);
        assert lista[i] == f;
      }
      if ComPai(p.sku)(f) {
        var i :| 0 <= i < |lista| && lista[i] == f;
      }
    }
  }

  /** The plain view lists every SKU exactly once, when kits have distinct SKUs and ids identify
      records. */
  lemma ListagemEhPermutacao(skus: seq<Sku>)
    requires IdIdentifica(skus)
    requires KitsDistintos(Filter(skus, EhPai))
    ensures var pais, filhos := Filter(skus, EhPai), Filter(skus, EhFilho);
      multiset(Ordem(pais, filhos, FilhosViaPai(filhos))) == multiset(skus)
  {
    var pais, filhos := Filter(skus, EhPai), Filter(skus, EhFilho);
    var filhosDo := FilhosViaPai(filhos);
    var blocos, orfaos := Blocos(pais, filhosDo), Filter(filhos, NaoUsado(Usados(pais, filhosDo)));
    var comKit := Filter(filhos, PaiEm(SkusDe(pais)));
    BlocosSaoKitsEFilhos(pais, filhos);
    FilhosPartidos(skus);
    FilterComplement(skus, EhPai, EhFilho);
    SomaDasPartes(blocos, orfaos, pais, comKit, filhos, skus);
  }

  /** The items split into those that name a kit and those left for the end. */
  lemma FilhosPartidos(skus: seq<Sku>)
    requires IdIdentifica(skus)
    ensures var pais, filhos := Filter(skus, EhPai), Filter(skus, EhFilho);
      multiset(Filter(filhos, PaiEm(SkusDe(pais))))
      + multiset(Filter(filhos, NaoUsado(Usados(pais, FilhosViaPai(filhos))))) == multiset(filhos)
  {
    IdIdentificaFiltro(skus, EhFilho);
    OrfaosSaoOsSemKit(Filter(skus, EhPai), Filter(skus, EhFilho));
  }

  /** Kit blocks made of the kits and the items naming one, followed by the other items, hold
      every record once. */
  lemma SomaDasPartes(blocos: seq<Sku>, orfaos: seq<Sku>, pais: seq<Sku>, comKit: seq<Sku>,
                      filhos: seq<Sku>, skus: seq<Sku>)
    requires multiset(blocos) == multiset(pais) + multiset(comKit)
    requires multiset(comKit) + multiset(orfaos) == multiset(filhos)
    requires multiset(pais) + multiset(filhos) == multiset(skus)
    ensures multiset(blocos + orfaos) == multiset(skus)
  {
  }

  /** The items left for the end are, as a multiset, the items that name no kit. */
  lemma OrfaosSaoOsSemKit(pais: seq<Sku>, filhos: seq<Sku>)
    requires IdIdentifica(filhos)
    ensures multiset(Filter(filhos, PaiEm(SkusDe(pais))))
            + multiset(Filter(filhos, NaoUsado(Usados(pais, FilhosViaPai(filhos))))) == multiset(filhos)
  {
    var u := Usados(pais, FilhosViaPai(filhos));
    var temKit := PaiEm(SkusDe(pais));
    forall i | 0 <= i < |filhos| ensures temKit(filhos[i]) != NaoUsado(u)(filhos[i]) {
      UsadoSseTemKit(pais, filhos, filhos[i]);
    }
    FilterComplement(filhos, temKit, NaoUsado(u));
  }

  lemma IdIdentificaFiltro(xs: seq<Sku>, p: Sku -> bool)
    requires IdIdentifica(xs)
    ensures IdIdentifica(Filter(xs, p))
  {
    forall x | x in Filter(xs, p) ensures x in xs {
      FilterMembership(xs, p, x);
    }
  }

  // ---------------------------------------------------------------------------
  // The hierarchical view: items named by a kit's own list join those naming the kit

  /** A kit's own list of item SKUs; none is an empty list. */
  function ListaDoKit(p: Sku): seq<string> {
    if p.skusFilhos.Some? then p.skusFilhos.value else []
  }

  /** `listaKit.includes(f.sku)`. */
  function NaLista(lista: seq<string>): Sku -> bool {
    (f: Sku) => f.sku in lista
  }

  /** No two records of the list share an id. */
  predicate IdsDistintos(xs: seq<Sku>) {
    forall i, j :: 0 <= i < j < |xs| ==> xs[i].id != xs[j].id
  }

  /** `pushUnique(arr)`: appends, in order, each record of `arr` whose id is not yet in the list. */
  function AcrescentarUnicos(c: seq<Sku>, arr: seq<Sku>): (r: seq<Sku>)
    ensures |c| <= |r| && r[..|c|] == c
    ensures Ids(r) == Ids(c) + Ids(arr)
  {
    if |arr| == 0 then c
    else
      var n := |arr| - 1;
      var r := AcrescentarUnicos(c, arr[..n]);
      assert Ids(arr) == Ids(arr[..n]) + {arr[n].id};
      if arr[n].id in Ids(r) then r
      else
        assert (r + [arr[n]])[..|r|] == r;
        r + [arr[n]]
  }

  /** `pushUnique` only adds records of the array. */
  lemma {:induction false} AcrescentarUnicosMembros(c: seq<Sku>, arr: seq<Sku>)
    ensures forall x :: x in AcrescentarUnicos(c, arr) ==> x in c || x in arr
  {
    if |arr| > 0 {
      var n := |arr| - 1;
      var r := AcrescentarUnicos(c, arr[..n]);
      AcrescentarUnicosMembros(c, arr[..n]);
      forall x | x in AcrescentarUnicos(c, arr) ensures x in c || x in arr {
        if x in r {
          if x in arr[..n] {
            var k :| 0 <= k < n && arr[..n][k] == x;
            assert arr[k] == x;
          }
        } else {
          assert x == arr[n];
        }
      }
    }
  }

  /** `pushUnique` never repeats an id. */
  lemma {:induction false} AcrescentarUnicosDistintos(c: seq<Sku>, arr: seq<Sku>)
    requires IdsDistintos(c)
    ensures IdsDistintos(AcrescentarUnicos(c, arr))
  {
    if |arr| > 0 {
      var n := |arr| - 1;
      AcrescentarUnicosDistintos(c, arr[..n]);
      var r := AcrescentarUnicos(c, arr[..n]);
      if arr[n].id !in Ids(r) {
        var r2 := r + [arr[n]];
        forall i, j | 0 <= i < j < |r2| ensures r2[i].id != r2[j].id {
          assert r2[i] == r[i];
          if j == |r| {
            assert r2[j] == arr[n];
          } else {
            assert r2[j] == r[j];
          }
        }
      }
    }
  }

  /** `pushUnique`'s loop. */
  method PushUnique(combinados: seq<Sku>, arr: seq<Sku>) returns (r: seq<Sku>)
    ensures r == AcrescentarUnicos(combinados, arr)
  {
    r := combinados;
    for t := 0 to |arr|
      invariant r == AcrescentarUnicos(combinados, arr[..t])
    {
      var item := arr[t];
      PushUniqueStep(combinados, arr, t);
      if !(exists i :: 0 <= i < |r| && r[i].id == item.id) {
        r := r + [item];
      }
    }
    assert arr[..|arr|] == arr;
  }

  /** One step of `pushUnique`'s loop: the next record is appended exactly when its id is new. */
  lemma PushUniqueStep(c: seq<Sku>, arr: seq<Sku>, t: nat)
    requires t < |arr|
    ensures var r := AcrescentarUnicos(c, arr[..t]);
      AcrescentarUnicos(c, arr[..t + 1])
      == if exists i :: 0 <= i < |r| && r[i].id == arr[t].id then r else r + [arr[t]]
  {
    assert arr[..t + 1][..t] == arr[..t];
  }

  /** `a.sku.localeCompare(b.sku)`, taken as code-unit order. */
  predicate SkuAntes(a: Sku, b: Sku) {
    LexLe(a.sku, b.sku)
  }

  lemma SkuAntesIsTotalPreorder()
    ensures TotalPreorder(SkuAntes)
  {
    forall a: Sku, b: Sku ensures SkuAntes(a, b) || SkuAntes(b, a) { LexLeTotal(a.sku, b.sku); }
    forall a: Sku, b: Sku, c: Sku | SkuAntes(a, b) && SkuAntes(b, c) ensures SkuAntes(a, c) {
      LexLeTransitive(a.sku, b.sku, c.sku);
    }
  }

  /** The items listed under kit `p` in the hierarchical view: those naming it, then those its own
      list names, without repeated ids, sorted by SKU. */
  function FilhosDoKitDe(filhos: seq<Sku>, p: Sku): seq<Sku> {
    SkuAntesIsTotalPreorder();
    Sort(Combinados(filhos, p), SkuAntes)
  }

  function FilhosDoKit(filhos: seq<Sku>): Sku -> seq<Sku> {
    (p: Sku) => FilhosDoKitDe(filhos, p)
  }

  /** The body of the kit loop of the hierarchical view, up to appending the items. */
  method CombinarFilhos(p: Sku, filhos: seq<Sku>, porPai: map<string, seq<Sku>>) returns (ordenados: seq<Sku>)
    requires forall k :: Obter(porPai, k) == FilhosPorPai(filhos, k)
    ensures ordenados == FilhosDoKitDe(filhos, p)
  {
    var viaFilho := Obter(porPai, p.sku);
    var listaKit := ListaDoKit(p);
    var viaKitLista := Filter(filhos, NaLista(listaKit));
    var combinados := PushUnique([], viaFilho);
    combinados := PushUnique(combinados, viaKitLista);
    SkuAntesIsTotalPreorder();
    ordenados := Sort(combinados, SkuAntes);
  }

  /** The loop over the kits of the hierarchical view. */
  method ListarKitsHier(pais: seq<Sku>, filhos: seq<Sku>, porPai: map<string, seq<Sku>>)
    returns (resultado: seq<Sku>, usados: set<string>)
    requires forall k :: Obter(porPai, k) == FilhosPorPai(filhos, k)
    ensures resultado == Blocos(pais, FilhosDoKit(filhos)) && usados == Usados(pais, FilhosDoKit(filhos))
  {
    resultado, usados := [], {};
    for j := 0 to |pais|
      invariant resultado == Blocos(pais[..j], FilhosDoKit(filhos))
      invariant usados == Usados(pais[..j], FilhosDoKit(filhos))
    {
      var p := pais[j];
      assert pais[..j + 1][..j] == pais[..j];
      resultado := resultado + [p];
      var combinados := CombinarFilhos(p, filhos, porPai);
      resultado, usados := AcrescentarFilhos(resultado, usados, combinados);
    }
    assert pais[..|pais|] == pais;
  }

  /** `skusOrdenadosHier`: kits, each followed by its items sorted by SKU, then the remaining items. */
  method SkusOrdenadosHier(skus: seq<Sku>) returns (resultado: seq<Sku>)
    ensures resultado == Ordem(Filter(skus, EhPai), Filter(skus, EhFilho), FilhosDoKit(Filter(skus, EhFilho)))
  {
    var pais := Filter(skus, EhPai);
    var filhos := Filter(skus, EhFilho);
    var porPai := AgruparPorPai(filhos);
    var usados;
    resultado, usados := ListarKitsHier(pais, filhos, porPai);
    resultado := AcrescentarNaoUsados(resultado, filhos, usados);
  }

  lemma {:induction false} NoMaximoUmaVez(s: seq<Sku>, x: Sku)
    requires IdsDistintos(s)
    ensures multiset(s)[x] <= 1
    decreases |s|
  {
    if |s| > 0 {
      var n := |s| - 1;
      var init := s[..n];
      assert IdsDistintos(init);
      NoMaximoUmaVez(init, x);
      assert s == init + [s[n]];
      if s[n] == x {
        assert x !in init;
      }
    }
  }

  lemma DuasVezes(r: seq<Sku>, i: nat, j: nat)
    requires i < j < |r| && r[i] == r[j]
    ensures multiset(r)[r[i]] >= 2
  {
    assert r == r[..j] + [r[j]] + r[j + 1..];
    assert r[i] in r[..j];
  }

  /** Reordering a list does not create repeated ids. */
  lemma PermutacaoPreservaIds(s: seq<Sku>, r: seq<Sku>)
    requires multiset(r) == multiset(s) && IdsDistintos(s)
    ensures IdsDistintos(r)
  {
    forall i, j | 0 <= i < j < |r| ensures r[i].id != r[j].id {
      if r[i] == r[j] {
        DuasVezes(r, i, j);
        NoMaximoUmaVez(s, r[i]);
      } else {
        assert r[i] in multiset(s) && r[j] in multiset(s);
        var a :| 0 <= a < |s| && s[a] == r[i];
        var b :| 0 <= b < |s| && s[b] == r[j];
        assert a != b;
      }
    }
  }

  /** A reordered list has the same records and the same ids. */
  lemma PermutacaoMesmosRegistros(s: seq<Sku>, r: seq<Sku>)
    requires multiset(r) == multiset(s)
    ensures forall x :: x in r <==> x in s
    ensures Ids(r) == Ids(s)
  {
    forall x ensures x in r <==> x in s {
      assert x in r <==> x in multiset(r);
      assert x in s <==> x in multiset(s);
    }
    forall id ensures id in Ids(r) <==> id in Ids(s) {
      if id in Ids(r) {
        var i :| 0 <= i < |r| && r[i].id == id;
        assert r[i] in s;
      }
      if id in Ids(s) {
        var i :| 0 <= i < |s| && s[i].id == id;
        assert s[i] in r;
      }
    }
  }

  /** The two lists a kit's items are combined from. */
  function Combinados(filhos: seq<Sku>, p: Sku): seq<Sku> {
    AcrescentarUnicos(AcrescentarUnicos([], FilhosPorPai(filhos, p.sku)), Filter(filhos, NaLista(ListaDoKit(p))))
  }

  /** Whether item `f` belongs under kit `p`: it names the kit, or the kit's own list names it. */
  predicate PertenceAoKit(f: Sku, p: Sku) {
    PaiDe(f) == Some(p.sku) || f.sku in ListaDoKit(p)
  }

  lemma CombinadosSaoDoKit(filhos: seq<Sku>, p: Sku)
    ensures IdsDistintos(Combinados(filhos, p))
    ensures forall x :: x in Combinados(filhos, p) ==> x in filhos && PertenceAoKit(x, p)
    ensures forall f :: f in filhos && PertenceAoKit(f, p) ==> f.id in Ids(Combinados(filhos, p))
  {
    var viaFilho := FilhosPorPai(filhos, p.sku);
    AcrescentarUnicosDistintos([], viaFilho);
    AcrescentarUnicosDistintos(AcrescentarUnicos([], viaFilho), Filter(filhos, NaLista(ListaDoKit(p))));
    CombinadosMembros(filhos, p);
    CombinadosCobrem(filhos, p);
  }

  /** The combined list holds only items of the kit. */
  lemma CombinadosMembros(filhos: seq<Sku>, p: Sku)
    ensures forall x :: x in Combinados(filhos, p) ==> x in filhos && PertenceAoKit(x, p)
  {
    var viaFilho := FilhosPorPai(filhos, p.sku);
    var viaLista := Filter(filhos, NaLista(ListaDoKit(p)));
    AcrescentarUnicosMembros([], viaFilho);
    AcrescentarUnicosMembros(AcrescentarUnicos([], viaFilho), viaLista);
    forall x | x in Combinados(filhos, p) ensures x in filhos && PertenceAoKit(x, p) {
      FilterMembership(filhos, ComPai(p.sku), x);
      FilterMembership(filhos, NaLista(ListaDoKit(p)), x);
    }
  }

  /** Every item of the kit has its id in the combined list. */
  lemma CombinadosCobrem(filhos: seq<Sku>, p: Sku)
    ensures forall f :: f in filhos && PertenceAoKit(f, p) ==> f.id in Ids(Combinados(filhos, p))
  {
    var viaFilho := FilhosPorPai(filhos, p.sku);
    var viaLista := Filter(filhos, NaLista(ListaDoKit(p)));
    forall f | f in filhos && PertenceAoKit(f, p) ensures f.id in Ids(Combinados(filhos, p)) {
      FilterMembership(filhos, ComPai(p.sku), f);
      FilterMembership(filhos, NaLista(ListaDoKit(p)), f);
      if f in viaFilho {
        var i :| 0 <= i < |viaFilho| && viaFilho[i] == f;
      } else {
        var i :| 0 <= i < |viaLista| && viaLista[i] == f;
      }
    }
  }

  /** Under a kit, the hierarchical view lists, sorted by SKU and without repeated ids, exactly the
      items that name the kit or that the kit's own list names (by id; by record when ids identify
      records). */
  lemma FilhosDoKitCorretos(filhos: seq<Sku>, p: Sku)
    ensures Sorted(FilhosDoKitDe(filhos, p), SkuAntes)
    ensures IdsDistintos(FilhosDoKitDe(filhos, p))
    ensures forall x :: x in FilhosDoKitDe(filhos, p) ==> x in filhos && PertenceAoKit(x, p)
    ensures forall f :: f in filhos && PertenceAoKit(f, p) ==> f.id in Ids(FilhosDoKitDe(filhos, p))
    ensures IdIdentifica(filhos) ==>
      forall f :: f in filhos && PertenceAoKit(f, p) ==> f in FilhosDoKitDe(filhos, p)
  {
    var combinados := Combinados(filhos, p);
    var r := FilhosDoKitDe(filhos, p);
    SkuAntesIsTotalPreorder();
    assert r == Sort(combinados, SkuAntes);
    CombinadosSaoDoKit(filhos, p);
    PermutacaoPreservaIds(combinados, r);
    PermutacaoMesmosRegistros(combinados, r);
    if IdIdentifica(filhos) {
      forall f | f in filhos && PertenceAoKit(f, p) ensures f in r {
        var i :| 0 <= i < |r| && r[i].id == f.id;
        assert r[i] in filhos;
      }
    }
  }

  // ---------------------------------------------------------------------------
  // The form for a new SKU

  /** The form state. Numbers are `None` when the input holds no number (`NaN`). */
  datatype NovoSku = NovoSku(sku: string, produto: string, tipo: TipoSku, skuPai: string,
                             custoUnitario: Option<real>, quantidade: Option<real>,
                             hierarquia1: string, hierarquia2: string, ativo: bool, temEstoque: bool,
                             skusFilhos: seq<string>)

  /** The empty form: an individual item with quantity 1, in stock. */
  const NOVO_SKU_INICIAL := NovoSku("", "", Filho, "", Some(0.0), Some(1.0), "", "", true, true, [])

  /** A field's value, whatever its type. */
  datatype ValorForm = Texto(s: string) | Numero(x: Option<real>) | DeTipo(t: TipoSku) | Booleano(b: bool)
                     | Lista(l: seq<string>)

  /** `handleFormChange(campo, valor)`: one field and its new value. */
  datatype Alteracao =
    | MudaSku(s: string) | MudaProduto(s: string) | MudaTipo(t: TipoSku) | MudaSkuPai(s: string)
    | MudaCusto(x: Option<real>) | MudaQuantidade(x: Option<real>) | MudaHierarquia1(s: string)
    | MudaHierarquia2(s: string) | MudaAtivo(b: bool) | MudaTemEstoque(b: bool) | MudaSkusFilhos(l: seq<string>)

  /** The field an alteration names, as the form and its error record key it. */
  function NomeDoCampo(a: Alteracao): CampoForm {
    match a
    case MudaSku(_) => CampoSku
    case MudaProduto(_) => CampoProduto
    case MudaTipo(_) => CampoTipo
    case MudaSkuPai(_) => CampoSkuPai
    case MudaCusto(_) => CampoCusto
    case MudaQuantidade(_) => CampoQuantidade
    case MudaHierarquia1(_) => CampoHierarquia1
    case MudaHierarquia2(_) => CampoHierarquia2
    case MudaAtivo(_) => CampoAtivo
    case MudaTemEstoque(_) => CampoTemEstoque
    case MudaSkusFilhos(_) => CampoSkusFilhos
  }

  function ValorDe(a: Alteracao): ValorForm {
    match a
    case MudaSku(v) => Texto(v)
    case MudaProduto(v) => Texto(v)
    case MudaTipo(t) => DeTipo(t)
    case MudaSkuPai(v) => Texto(v)
    case MudaCusto(x) => Numero(x)
    case MudaQuantidade(x) => Numero(x)
    case MudaHierarquia1(v) => Texto(v)
    case MudaHierarquia2(v) => Texto(v)
    case MudaAtivo(b) => Booleano(b)
    case MudaTemEstoque(b) => Booleano(b)
    case MudaSkusFilhos(l) => Lista(l)
  }

  /** The fields of the form, as `keyof NovoSkuState` names them. */
  datatype CampoForm = CampoSku | CampoProduto | CampoTipo | CampoSkuPai | CampoCusto | CampoQuantidade
                     | CampoHierarquia1 | CampoHierarquia2 | CampoAtivo | CampoTemEstoque | CampoSkusFilhos

  /** The value of a form field. */
  function Campo(n: NovoSku, c: CampoForm): ValorForm {
    match c
    case CampoSku => Texto(n.sku)
    case CampoProduto => Texto(n.produto)
    case CampoTipo => DeTipo(n.tipo)
    case CampoSkuPai => Texto(n.skuPai)
    case CampoCusto => Numero(n.custoUnitario)
    case CampoQuantidade => Numero(n.quantidade)
    case CampoHierarquia1 => Texto(n.hierarquia1)
    case CampoHierarquia2 => Texto(n.hierarquia2)
    case CampoAtivo => Booleano(n.ativo)
    case CampoTemEstoque => Booleano(n.temEstoque)
    case CampoSkusFilhos => Lista(n.skusFilhos)
  }

  /** The fields a change of type resets besides the type itself. */
  function ResetadosPeloTipo(t: TipoSku): set<CampoForm> {
    if t == Pai then {CampoQuantidade, CampoSkuPai} else {CampoQuantidade, CampoSkusFilhos}
  }

  /** The state update of `handleFormChange`: the named field takes the value; turning the form into
      a kit also sets the quantity to 0 and clears the parent, and turning it into an item sets the
      quantity to 1 and clears the list of items. Every other field keeps its value. */
  function AlterarCampo(n: NovoSku, a: Alteracao): (r: NovoSku)
    ensures Campo(r, NomeDoCampo(a)) == ValorDe(a)
    ensures a == MudaTipo(Pai) ==> r.quantidade == Some(0.0) && r.skuPai == ""
    ensures a == MudaTipo(Filho) ==> r.quantidade == Some(1.0) && r.skusFilhos == []
    ensures forall k :: k != NomeDoCampo(a) && !(a.MudaTipo? && k in ResetadosPeloTipo(a.t)) ==>
      Campo(r, k) == Campo(n, k)
  {
    match a
    case MudaSku(v) => n.(sku := v)
    case MudaProduto(v) => n.(produto := v)
    case MudaTipo(t) =>
      (match t
       case Pai => n.(tipo := Pai, quantidade := Some(0.0), skuPai := "")
       case Filho => n.(tipo := Filho, quantidade := Some(1.0), skusFilhos := []))
    case MudaSkuPai(v) => n.(skuPai := v)
    case MudaCusto(x) => n.(custoUnitario := x)
    case MudaQuantidade(x) => n.(quantidade := x)
    case MudaHierarquia1(v) => n.(hierarquia1 := v)
    case MudaHierarquia2(v) => n.(hierarquia2 := v)
    case MudaAtivo(b) => n.(ativo := b)
    case MudaTemEstoque(b) => n.(temEstoque := b)
    case MudaSkusFilhos(l) => n.(skusFilhos := l)
  }

  /** The error update of `handleFormChange`: a non-empty message for the changed field is replaced
      by the empty one; the key stays, and every other entry is kept. */
  function LimparErro(erros: map<CampoForm, string>, campo: CampoForm): (r: map<CampoForm, string>)
    ensures r.Keys == erros.Keys
    ensures campo in r ==> r[campo] == ""
    ensures forall k :: k in erros && k != campo ==> r[k] == erros[k]
  {
    if campo in erros && erros[campo] != "" then erros[campo := ""] else erros
  }

  const ERRO_SKU := "Informe o SKU"
  const ERRO_PRODUTO := "Informe o produto"
  const ERRO_CUSTO := "Custo deve ser maior ou igual a 0"
  const ERRO_QUANTIDADE := "Quantidade deve ser maior que 0"
  const ERRO_SKU_PAI := "Um kit não pode ter SKU pai"
  const ERRO_SKUS_FILHOS := "Selecione ao menos um SKU filho"

  predicate CustoValido(x: Option<real>) { x.Some? && x.value >= 0.0 }

  predicate QuantidadeValida(x: Option<real>) { x.Some? && x.value > 0.0 }

  /** Whether `validateForm`'s check on field `c` fails, given that field's value and the type;
      each check reads its own field and, for the kit- and item-only checks, the type. */
  predicate Falha(c: CampoForm, v: ValorForm, t: TipoSku) {
    match c
    case CampoSku => v.Texto? && IsBlank(v.s)
    case CampoProduto => v.Texto? && IsBlank(v.s)
    case CampoCusto => v.Numero? && !CustoValido(v.x)
    case CampoQuantidade => t == Filho && v.Numero? && !QuantidadeValida(v.x)
    case CampoSkuPai => t == Pai && v.Texto? && v.s != ""
    case CampoSkusFilhos => t == Pai && v.Lista? && |v.l| == 0
    case _ => false
  }

  function Mensagem(c: CampoForm): string {
    match c
    case CampoSku => ERRO_SKU
    case CampoProduto => ERRO_PRODUTO
    case CampoCusto => ERRO_CUSTO
    case CampoQuantidade => ERRO_QUANTIDADE
    case CampoSkuPai => ERRO_SKU_PAI
    case _ => ERRO_SKUS_FILHOS
  }

  const CAMPOS_VALIDADOS: set<CampoForm> :=
    {CampoSku, CampoProduto, CampoCusto, CampoQuantidade, CampoSkuPai, CampoSkusFilhos}

  /** `validateForm`'s record of errors, one entry per failed check. */
  function ValidarFormulario(n: NovoSku): (r: map<CampoForm, string>)
    ensures CampoSku in r <==> IsBlank(n.sku)
    ensures CampoProduto in r <==> IsBlank(n.produto)
    ensures CampoCusto in r <==> !CustoValido(n.custoUnitario)
    ensures CampoQuantidade in r <==> n.tipo == Filho && !QuantidadeValida(n.quantidade)
    ensures CampoSkuPai in r <==> n.tipo == Pai && n.skuPai != ""
    ensures CampoSkusFilhos in r <==> n.tipo == Pai && |n.skusFilhos| == 0
    ensures r.Keys <= CAMPOS_VALIDADOS
    ensures forall k :: k in r ==> r[k] != ""
  {
    map c | c in CAMPOS_VALIDADOS && Falha(c, Campo(n, c), n.tipo) :: Mensagem(c)
  }

  /** The form can be submitted: every check passes. */
  predicate FormularioValido(n: NovoSku) {
    !IsBlank(n.sku) && !IsBlank(n.produto) && CustoValido(n.custoUnitario)
    && (n.tipo == Filho ==> QuantidadeValida(n.quantidade))
    && (n.tipo == Pai ==> n.skuPai == "" && |n.skusFilhos| > 0)
  }

  /** `Object.keys(errors).length === 0` exactly when every check passes. */
  lemma SemErrosSseValido(n: NovoSku)
    ensures |ValidarFormulario(n)| == 0 <==> FormularioValido(n)
  {
    var r := ValidarFormulario(n);
    if |r| == 0 {
      assert r == map[];
    } else {
      var k :| k in r;
    }
  }

  /** The record `onCreateSKU` receives. */
  datatype NovoSkuPayload = NovoSkuPayload(sku: string, produto: string, tipo: TipoSku, custoUnitario: real,
                                           quantidade: int, skuPai: Option<string>, hierarquia1: Option<string>,
                                           hierarquia2: Option<string>, ativo: bool, temEstoque: bool,
                                           skusFilhos: Option<seq<string>>)

  /** `s.trim() || undefined`. */
  function TextoOuAusente(s: string): (r: Option<string>)
    ensures r.None? <==> IsBlank(s)
    ensures r.Some? ==> r.value == Trim(s) && r.value != ""
  {
    TrimEmptyIffBlank(s);
    if Trim(s) == "" then None else Some(Trim(s))
  }

  /** `handleCreateSku`: nothing is sent when the table has no `onCreateSKU` handler
      (`temHandler` false) or validation fails; otherwise the trimmed record, with quantity 0 for a
      kit and 1 for an item whatever the form holds, always in stock, and the list of items only for
      a kit. */
  function CriarSku(n: NovoSku, temHandler: bool): (r: Option<NovoSkuPayload>)
    ensures r.Some? <==> temHandler && FormularioValido(n)
    ensures r.Some? ==> r.value.sku == Trim(n.sku) && r.value.sku != ""
                        && r.value.produto == Trim(n.produto) && r.value.produto != ""
    ensures r.Some? ==> r.value.tipo == n.tipo && n.custoUnitario.Some?
                        && r.value.custoUnitario == n.custoUnitario.value && r.value.custoUnitario >= 0.0
                        && r.value.temEstoque && r.value.ativo == n.ativo
    ensures r.Some? ==> r.value.skuPai == TextoOuAusente(n.skuPai)
                        && r.value.hierarquia1 == TextoOuAusente(n.hierarquia1)
                        && r.value.hierarquia2 == TextoOuAusente(n.hierarquia2)
    ensures r.Some? && n.tipo == Pai ==>
      r.value.quantidade == 0 && r.value.skuPai.None? && r.value.skusFilhos == Some(n.skusFilhos)
      && |n.skusFilhos| > 0
    ensures r.Some? && n.tipo == Filho ==> r.value.quantidade == 1 && r.value.skusFilhos.None?
  {
    SemErrosSseValido(n);
    TrimEmptyIffBlank(n.sku);
    TrimEmptyIffBlank(n.produto);
    TrimEmptyIffBlank(n.skuPai);
    if !temHandler then None
    else if |ValidarFormulario(n)| != 0 then None
    else
      Some(NovoSkuPayload(Trim(n.sku), Trim(n.produto), n.tipo, n.custoUnitario.value,
                          if n.tipo == Pai then 0 else 1, TextoOuAusente(n.skuPai),
                          TextoOuAusente(n.hierarquia1), TextoOuAusente(n.hierarquia2), n.ativo, true,
                          if n.tipo == Pai && |n.skusFilhos| > 0 then Some(n.skusFilhos) else None))
  }

  /** Changing the type never leaves an error the type change itself would make: a kit has no
      parent and needs no quantity, an item has no list of items to miss. */
  lemma TrocarTipoSemErrosDoTipo(n: NovoSku, t: TipoSku)
    ensures var e := ValidarFormulario(AlterarCampo(n, MudaTipo(t)));
      CampoSkuPai !in e && CampoQuantidade !in e && (t == Filho ==> CampoSkusFilhos !in e)
  {
  }

  /** Changing a field other than the type changes its own entry of the error record only. */
  lemma ValidacaoPorCampo(n: NovoSku, a: Alteracao, k: CampoForm)
    requires !a.MudaTipo? && k != NomeDoCampo(a)
    ensures k in ValidarFormulario(AlterarCampo(n, a)) <==> k in ValidarFormulario(n)
  {
    var r := AlterarCampo(n, a);
    assert Campo(r, CampoTipo) == Campo(n, CampoTipo);
    assert Campo(r, k) == Campo(n, k);
  }

  /** The empty form fails only for the missing SKU and product name. */
  lemma FormularioInicial()
    ensures ValidarFormulario(NOVO_SKU_INICIAL).Keys == {CampoSku, CampoProduto}
  {
    var r := ValidarFormulario(NOVO_SKU_INICIAL);
    assert CampoSku in r && CampoProduto in r;
  }
}
