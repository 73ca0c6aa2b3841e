/** The sales synchronisation dialog: grouping the new orders by account, preselecting the
    accounts, toggling the selection, choosing the order ids sent for the selected accounts, and the
    progress percentage. */
module ModalSyncVendas {
  import opened Wrappers
  import opened Folds
  import opened Money

  // ---------------------------------------------------------------------------
  // New orders by account

  /** A new order as the check endpoint lists it. */
  datatype Pedido = Pedido(orderId: string, accountId: Option<string>, shopId: Option<string>)

  /** `order.accountId || order.shopId`, when that is non-empty: the account an order belongs to. */
  function ContaDoPedido(o: Pedido): (r: Option<string>)
    ensures r.Some? ==> r.value != ""
    ensures r.None? <==> (o.accountId.None? || o.accountId.value == "") && (o.shopId.None? || o.shopId.value == "")
    ensures o.accountId.Some? && o.accountId.value != "" ==> r == o.accountId
  {
    if o.accountId.Some? && o.accountId.value != "" then o.accountId
    else if o.shopId.Some? && o.shopId.value != "" then o.shopId
    else None
  }

  /** The ids of the orders of account `k`, in their order. */
  function PedidosDaConta(pedidos: seq<Pedido>, k: string): seq<string> {
    if |pedidos| == 0 then []
    else
      var n := |pedidos| - 1;
      PedidosDaConta(pedidos[..n], k) + (if ContaDoPedido(pedidos[n]) == Some(k) then [pedidos[n].orderId] else [])
  }

  /** An order id is listed under an account exactly when some order with that id belongs to it. */
  lemma {:induction false} PedidosDaContaMembros(pedidos: seq<Pedido>, k: string, id: string)
    ensures id in PedidosDaConta(pedidos, k) <==>
      exists i :: 0 <= i < |pedidos| && pedidos[i].orderId == id && ContaDoPedido(pedidos[i]) == Some(k)
    decreases |pedidos|
  {
    if |pedidos| > 0 {
      var n := |pedidos| - 1;
      PedidosDaContaMembros(pedidos[..n], k, id);
      if exists i :: 0 <= i < |pedidos| && pedidos[i].orderId == id && ContaDoPedido(pedidos[i]) == Some(k) {
        var i :| 0 <= i < |pedidos| && pedidos[i].orderId == id && ContaDoPedido(pedidos[i]) == Some(k);
        if i < n {
          assert pedidos[..n][i] == pedidos[i];
        }
      }
    }
  }

  function Obter(m: map<string, seq<string>>, k: string): seq<string> {
    if k in m then m[k] else []
  }

  /** The loop that builds `ordersByAccount`: each order with an account is appended to its list;
      an account has an entry only when it has an order. */
  method AgruparPorConta(pedidos: seq<Pedido>) returns (porConta: map<string, seq<string>>)
    ensures forall k :: Obter(porConta, k) == PedidosDaConta(pedidos, k)
    ensures forall k :: k in porConta ==> |porConta[k]| > 0
  {
    porConta := map[];
    for i := 0 to |pedidos|
      invariant forall k :: Obter(porConta, k) == PedidosDaConta(pedidos[..i], k)
      invariant forall k :: k in porConta ==> |porConta[k]| > 0
    {
      var o := pedidos[i];
      ghost var antes := porConta;
      var conta := if o.accountId.Some? && o.accountId.value != "" then o.accountId else o.shopId;
      if conta.Some? && conta.value != "" {
        var k := conta.value;
        porConta := porConta[k := Obter(porConta, k) + [o.orderId]];
      }
      AgruparStep(pedidos, i, antes, porConta);
    }
    assert pedidos[..|pedidos|] == pedidos;
  }

  /** One step of the grouping loop: after order `i` the map holds the lists of the longer prefix. */
  lemma AgruparStep(pedidos: seq<Pedido>, i: nat, antes: map<string, seq<string>>, depois: map<string, seq<string>>)
    requires i < |pedidos|
    requires forall k :: Obter(antes, k) == PedidosDaConta(pedidos[..i], k)
    requires forall k :: k in antes ==> |antes[k]| > 0
    requires depois == match ContaDoPedido(pedidos[i])
                         case Some(k) => antes[k := Obter(antes, k) + [pedidos[i].orderId]]
                         case None => antes
    ensures forall k :: Obter(depois, k) == PedidosDaConta(pedidos[..i + 1], k)
    ensures forall k :: k in depois ==> |depois[k]| > 0
  {
    assert pedidos[..i + 1][..i] == pedidos[..i];
  }

  /** An account has an entry exactly when one of the orders belongs to it; orders with neither
      account nor shop are in no entry. */
  lemma ContasComPedidos(pedidos: seq<Pedido>, porConta: map<string, seq<string>>, k: string)
    requires forall k :: Obter(porConta, k) == PedidosDaConta(pedidos, k)
    requires forall k :: k in porConta ==> |porConta[k]| > 0
    ensures k in porConta <==> exists i :: 0 <= i < |pedidos| && ContaDoPedido(pedidos[i]) == Some(k)
  {
    if exists i :: 0 <= i < |pedidos| && ContaDoPedido(pedidos[i]) == Some(k) {
      var i :| 0 <= i < |pedidos| && ContaDoPedido(pedidos[i]) == Some(k);
      PedidosDaContaMembros(pedidos, k, pedidos[i].orderId);
    }
    if k in porConta {
      var id := porConta[k][0];
      PedidosDaContaMembros(pedidos, k, id);
    }
  }

  // ---------------------------------------------------------------------------
  // Accounts and their selection

  /** An account of the dialog. */
  datatype ContaInfo = ContaInfo(id: string)

  /** `newOrdersByAccount[conta.id] || 0`. */
  function NovasDaConta(novas: map<string, int>, id: string): int {
    if id in novas then novas[id] else 0
  }

  function ComVendas(novas: map<string, int>): ContaInfo -> bool {
    (c: ContaInfo) => NovasDaConta(novas, c.id) > 0
  }

  /** `contas.map((c) => c.id)`. */
  function IdsDe(contas: seq<ContaInfo>): (r: seq<string>)
    ensures |r| == |contas| && forall i :: 0 <= i < |r| ==> r[i] == contas[i].id
  {
    seq(|contas|, i requires 0 <= i < |contas| => contas[i].id)
  }

  /** Some account has new orders. */
  predicate AlgumaComVendas(contas: seq<ContaInfo>, novas: map<string, int>) {
    exists i :: 0 <= i < |contas| && NovasDaConta(novas, contas[i].id) > 0
  }

  /** The accounts preselected once the check is done: those with new orders, or every account if
      none has any. */
  function Preselecao(contas: seq<ContaInfo>, novas: map<string, int>): (r: seq<string>)
    ensures !AlgumaComVendas(contas, novas) ==> r == IdsDe(contas)
    ensures |r| > 0 <==> |contas| > 0
  {
    var com := Filter(contas, ComVendas(novas));
    if |com| > 0 then
      assert com[0] in contas;
      var i :| 0 <= i < |contas| && contas[i] == com[0];
      assert NovasDaConta(novas, contas[i].id) > 0;
      IdsDe(com)
    else
      IdsDe(contas)
  }

  /** When some account has new orders, an id is preselected exactly when it is the id of an
      account with new orders. */
  lemma PreselecaoComVendas(contas: seq<ContaInfo>, novas: map<string, int>, id: string)
    requires AlgumaComVendas(contas, novas)
    ensures id in Preselecao(contas, novas) <==>
      exists i :: 0 <= i < |contas| && contas[i].id == id && NovasDaConta(novas, id) > 0
  {
    var com := Filter(contas, ComVendas(novas));
    var k :| 0 <= k < |contas| && NovasDaConta(novas, contas[k].id) > 0;
    FilterMembership(contas, ComVendas(novas), contas[k]);
    assert Preselecao(contas, novas) == IdsDe(com);
    if id in IdsDe(com) {
      var j :| 0 <= j < |com| && IdsDe(com)[j] == id;
      FilterMembership(contas, ComVendas(novas), com[j]);
      var i :| 0 <= i < |contas| && contas[i] == com[j];
      assert contas[i].id == id;
    }
    if exists i :: 0 <= i < |contas| && contas[i].id == id && NovasDaConta(novas, id) > 0 {
      var i :| 0 <= i < |contas| && contas[i].id == id && NovasDaConta(novas, id) > 0;
      FilterMembership(contas, ComVendas(novas), contas[i]);
      var j :| 0 <= j < |com| && com[j] == contas[i];
      assert IdsDe(com)[j] == id;
    }
  }

  /** No id listed twice. */
  predicate SemRepeticao(s: seq<string>) {
    forall i, j :: 0 <= i < j < |s| ==> s[i] != s[j]
  }

  function Diferente(id: string): string -> bool {
    (x: string) => x != id
  }

  lemma {:induction false} FilterSemRepeticao(s: seq<string>, p: string -> bool)
    ensures SemRepeticao(s) ==> SemRepeticao(Filter(s, p))
    decreases |s|
  {
    if |s| > 0 && SemRepeticao(s) {
      var n := |s| - 1;
      assert SemRepeticao(s[..n]);
      FilterSemRepeticao(s[..n], p);
      FilterMembership(s[..n], p, s[n]);
    }
  }

  /** `toggleAccountSelection`: the account leaves the selection if it was in it and joins it
      otherwise; every other account keeps its state, and no account is listed twice. */
  function AlternarConta(selecao: seq<string>, id: string): (r: seq<string>)
    ensures id in r <==> id !in selecao
    ensures forall x :: x != id ==> (x in r <==> x in selecao)
    ensures SemRepeticao(selecao) ==> SemRepeticao(r)
  {
    assert forall x :: x in Filter(selecao, Diferente(id)) <==> x in selecao && x != id by {
      forall x ensures x in Filter(selecao, Diferente(id)) <==> x in selecao && x != id {
        FilterMembership(selecao, Diferente(id), x);
      }
    }
    FilterSemRepeticao(selecao, Diferente(id));
    if id in selecao then Filter(selecao, Diferente(id)) else selecao + [id]
  }

  /** Toggling the same account twice gives back the same set of selected accounts. */
  lemma AlternarDuasVezes(selecao: seq<string>, id: string, x: string)
    ensures x in AlternarConta(AlternarConta(selecao, id), id) <==> x in selecao
  {
  }

  /** `toggleSelectAll`: clears the selection when it is as long as the list of accounts, and
      otherwise selects every account. */
  function AlternarTodas(selecao: seq<string>, contas: seq<ContaInfo>): (r: seq<string>)
    ensures |selecao| == |contas| ==> r == []
    ensures |selecao| != |contas| ==> r == IdsDe(contas)
  {
    if |selecao| == |contas| then [] else IdsDe(contas)
  }

  function Elementos(s: seq<string>): set<string> {
    set x | x in s
  }

  lemma {:induction false} ElementosDistintos(s: seq<string>)
    requires SemRepeticao(s)
    ensures |Elementos(s)| == |s|
    decreases |s|
  {
    if |s| > 0 {
      var n := |s| - 1;
      assert SemRepeticao(s[..n]);
      ElementosDistintos(s[..n]);
      assert Elementos(s) == Elementos(s[..n]) + {s[n]};
      assert s[n] !in Elementos(s[..n]);
    }
  }

  lemma SubconjuntoDeMesmoTamanho(a: set<string>, b: set<string>)
    requires a <= b && |a| == |b|
    ensures a == b
  {
    assert |b - a| == |b| - |a|;
  }

  /** Comparing lengths decides "everything is selected" correctly as long as the selection holds
      distinct ids of listed accounts and accounts have distinct ids, which toggling keeps. */
  lemma TodasSelecionadasSse(selecao: seq<string>, contas: seq<ContaInfo>)
    requires SemRepeticao(selecao) && SemRepeticao(IdsDe(contas))
    requires forall x :: x in selecao ==> x in IdsDe(contas)
    ensures |selecao| == |contas| <==> forall i :: 0 <= i < |contas| ==> contas[i].id in selecao
  {
    var a, b := Elementos(selecao), Elementos(IdsDe(contas));
    ElementosDistintos(selecao);
    ElementosDistintos(IdsDe(contas));
    assert a <= b;
    if |selecao| == |contas| {
      SubconjuntoDeMesmoTamanho(a, b);
      forall i | 0 <= i < |contas| ensures contas[i].id in selecao {
        assert IdsDe(contas)[i] in b;
      }
    }
    if forall i :: 0 <= i < |contas| ==> contas[i].id in selecao {
      forall x | x in b ensures x in a {
        var i :| 0 <= i < |contas| && IdsDe(contas)[i] == x;
      }
      assert a == b;
    }
  }
  /** "Selecionar todas" clears the selection exactly when every account is already selected, and
      otherwise selects every account. */
  lemma AlternarTodasInverte(selecao: seq<string>, contas: seq<ContaInfo>)
    requires SemRepeticao(selecao) && SemRepeticao(IdsDe(contas))
    requires forall x :: x in selecao ==> x in IdsDe(contas)
    ensures (forall i :: 0 <= i < |contas| ==> contas[i].id in selecao) ==> AlternarTodas(selecao, contas) == []
    ensures !(forall i :: 0 <= i < |contas| ==> contas[i].id in selecao) ==>
      AlternarTodas(selecao, contas) == IdsDe(contas)
  {
    TodasSelecionadasSse(selecao, contas);
  }


  // ---------------------------------------------------------------------------
  // What is sent to the synchronisation

  /** The order ids sent for the chosen accounts: with a selection, the entries of the selected
      accounts that have one; with none, every entry. */
  function PedidosFiltrados(selecao: seq<string>, porConta: map<string, seq<string>>): (r: map<string, seq<string>>)
    ensures forall k :: k in r ==> k in porConta && r[k] == porConta[k]
    ensures |selecao| == 0 ==> r == porConta
  {
    if |selecao| > 0 then map k | k in porConta && k in selecao :: porConta[k] else porConta
  }

  /** The loop that fills `filteredOrderIds`. */
  method FiltrarPedidos(selecao: seq<string>, porConta: map<string, seq<string>>)
    returns (filtrado: map<string, seq<string>>)
    ensures filtrado == PedidosFiltrados(selecao, porConta)
  {
    if |selecao| > 0 {
      filtrado := map[];
      for i := 0 to |selecao|
        invariant filtrado == map k | k in porConta && k in selecao[..i] :: porConta[k]
      {
        assert selecao[..i + 1] == selecao[..i] + [selecao[i]];
        if selecao[i] in porConta {
          filtrado := filtrado[selecao[i] := porConta[selecao[i]]];
        }
      }
      assert selecao[..|selecao|] == selecao;
    } else {
      filtrado := porConta;
    }
  }

  /** Every account in what is sent is a selected account (when any is selected) and carries its own
      list unchanged; every selected account with orders is sent. */
  lemma FiltradosSaoSelecionados(selecao: seq<string>, porConta: map<string, seq<string>>)
    ensures forall k :: k in PedidosFiltrados(selecao, porConta) ==>
      k in porConta && PedidosFiltrados(selecao, porConta)[k] == porConta[k] && (|selecao| > 0 ==> k in selecao)
    ensures forall k :: k in porConta && (|selecao| == 0 || k in selecao) ==> k in PedidosFiltrados(selecao, porConta)
  {
  }

  // ---------------------------------------------------------------------------
  // Progress

  /** `calculateProgress`: 0 while the expected or the fetched count is missing or zero, otherwise
      the rounded percentage fetched. */
  function CalcularProgresso(esperado: Option<real>, obtidos: Option<real>): (r: int)
    ensures esperado.None? || obtidos.None? ==> r == 0
    ensures esperado.Some? && esperado.value != 0.0 && obtidos.Some? ==>
      var x := obtidos.value / esperado.value * 100.0;
      x - 0.5 < r as real <= x + 0.5
  {
    if esperado.None? || esperado.value == 0.0 || obtidos.None? || obtidos.value == 0.0 then 0
    else MathRound(obtidos.value / esperado.value * 100.0)
  }

  /** While no more than expected has been fetched the percentage is between 0 and 100, and it is
      100 once everything has; it never decreases as more is fetched. */
  lemma ProgressoEntre0e100(esperado: real, obtidos: real)
    requires 0.0 <= obtidos <= esperado
    ensures 0 <= CalcularProgresso(Some(esperado), Some(obtidos)) <= 100
    ensures obtidos == esperado && esperado > 0.0 ==> CalcularProgresso(Some(esperado), Some(obtidos)) == 100
  {
    if esperado > 0.0 && obtidos > 0.0 {
      assert obtidos / esperado <= 1.0;
      if obtidos == esperado {
        assert obtidos / esperado == 1.0;
      }
    }
  }

  /** Dividing by the same positive amount keeps the order. */
  lemma DivisaoMonotona(a: real, b: real, d: real)
    requires d > 0.0 && a <= b
    ensures a / d <= b / d
  {
    var x, y := a / d, b / d;
    assert x * d == a && y * d == b;
    assert (y - x) * d == b - a;
  }

  lemma ProgressoMonotono(esperado: real, a: real, b: real)
    requires esperado > 0.0 && 0.0 <= a <= b
    ensures CalcularProgresso(Some(esperado), Some(a)) <= CalcularProgresso(Some(esperado), Some(b))
  {
    if a > 0.0 {
      DivisaoMonotona(a, b, esperado);
    }
  }
}
