/** The onboarding notices: which of the four notices show, given whether the user has connected
    accounts and has sales and which notices were dismissed. The dismissed notices are stored in the
    browser; the model takes the stored set as a parameter and returns the set to store. */
module UserGuidance {
  import opened Wrappers

  /** The four notices, by the name of their flag. */
  datatype Aviso = ConnectAccounts | SyncVendas | ViewVendas | ViewDashboard

  datatype Estado = Estado(
    hasAccounts: Option<bool>,
    hasSales: Option<bool>,
    isLoading: bool,
    showConnectAccounts: bool,
    showSyncVendas: bool,
    showViewVendas: bool,
    showViewDashboard: bool)

  /** The state before the first update: nothing known, loading, no notice. */
  const ESTADO_INICIAL := Estado(None, None, true, false, false, false, false)

  /** The flag of a notice. */
  function Mostra(s: Estado, a: Aviso): bool {
    match a
    case ConnectAccounts => s.showConnectAccounts
    case SyncVendas => s.showSyncVendas
    case ViewVendas => s.showViewVendas
    case ViewDashboard => s.showViewDashboard
  }

  /** `updateGuidanceState(hasAccounts, hasSales)` with the dismissed set read from storage. */
  function Atualizar(prev: Estado, dispensados: set<Aviso>, hasAccounts: bool, hasSales: bool): (r: Estado)
    ensures r.hasAccounts == Some(hasAccounts) && r.hasSales == Some(hasSales) && !r.isLoading
    ensures Mostra(r, ConnectAccounts) <==> !hasAccounts && ConnectAccounts !in dispensados
    ensures Mostra(r, SyncVendas) <==> hasAccounts && !hasSales && SyncVendas !in dispensados
    ensures Mostra(r, ViewVendas) <==> hasAccounts && hasSales && ViewVendas !in dispensados
    ensures Mostra(r, ViewDashboard) <==> hasAccounts && hasSales && ViewDashboard !in dispensados
  {
    prev.(hasAccounts := Some(hasAccounts), hasSales := Some(hasSales), isLoading := false,
          showConnectAccounts := !hasAccounts && ConnectAccounts !in dispensados,
          showSyncVendas := hasAccounts && !hasSales && SyncVendas !in dispensados,
          showViewVendas := hasAccounts && hasSales && ViewVendas !in dispensados,
          showViewDashboard := hasAccounts && hasSales && ViewDashboard !in dispensados)
  }

  /** `dismissNotification(a)`: the stored set gains the notice and only its flag turns off. */
  function Dispensar(prev: Estado, dispensados: set<Aviso>, a: Aviso): (r: (Estado, set<Aviso>))
    ensures r.1 == dispensados + {a}
    ensures !Mostra(r.0, a)
    ensures forall b :: b != a ==> Mostra(r.0, b) == Mostra(prev, b)
    ensures r.0.hasAccounts == prev.hasAccounts && r.0.hasSales == prev.hasSales && r.0.isLoading == prev.isLoading
  {
    var s := match a
      case ConnectAccounts => prev.(showConnectAccounts := false)
      case SyncVendas => prev.(showSyncVendas := false)
      case ViewVendas => prev.(showViewVendas := false)
      case ViewDashboard => prev.(showViewDashboard := false);
    (s, dispensados + {a})
  }

  /** The sync notice and the view-sales notice never show together. */
  predicate Coerente(s: Estado) {
    !(s.showSyncVendas && s.showViewVendas)
  }

  /** The initial state is coherent, and updates and dismissals keep every state coherent. */
  lemma CoerenciaPreservada(prev: Estado, dispensados: set<Aviso>, hasAccounts: bool, hasSales: bool, a: Aviso)
    ensures Coerente(ESTADO_INICIAL)
    ensures Coerente(Atualizar(prev, dispensados, hasAccounts, hasSales))
    ensures Coerente(prev) ==> Coerente(Dispensar(prev, dispensados, a).0)
  {
    var r := Dispensar(prev, dispensados, a).0;
    if Coerente(prev) {
      assert Mostra(r, SyncVendas) ==> Mostra(prev, SyncVendas);
      assert Mostra(r, ViewVendas) ==> Mostra(prev, ViewVendas);
    }
  }

  /** At most one notice shows about the accounts and sales: connecting comes before syncing, and
      syncing before viewing. */
  lemma UmaEtapaPorVez(prev: Estado, dispensados: set<Aviso>, hasAccounts: bool, hasSales: bool)
    ensures var r := Atualizar(prev, dispensados, hasAccounts, hasSales);
      !(r.showConnectAccounts && (r.showSyncVendas || r.showViewVendas || r.showViewDashboard))
      && !(r.showSyncVendas && r.showViewDashboard)
  {
  }

  /** A dismissed notice never shows again: after the dismissal, every later update with the stored
      set (or any set holding it) keeps it off. */
  lemma DispensadoNuncaVolta(prev: Estado, dispensados: set<Aviso>, a: Aviso,
                             depois: set<Aviso>, hasAccounts: bool, hasSales: bool)
    requires Dispensar(prev, dispensados, a).1 <= depois
    ensures !Mostra(Atualizar(Dispensar(prev, dispensados, a).0, depois, hasAccounts, hasSales), a)
  {
    assert a in depois;
  }
}
