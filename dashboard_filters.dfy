/** The dashboard's shared query filters: each helper turns one query-string parameter into a
    condition on one text column of a sale, matched case-insensitively by the database. */
module DashboardFilters {
  import opened Wrappers
  import opened Strings
  import VendasStatus

  /** The text columns the filters look at. */
  datatype Campo = Status | Plataforma | TipoAnuncio | LogisticType

  /** The filter records the helpers return: `{}`; an `OR` of `contains` conditions on one column
      (a single `contains` being an `OR` of one); a `NOT` of such conditions. */
  datatype Where =
    | SemFiltro
    | Algum(campo: Campo, padroes: seq<string>)
    | Nenhum(campo: Campo, padroes: seq<string>)

  /** The columns of a sale the filters read; any of them may be null. */
  datatype Venda = Venda(status: Option<string>, plataforma: Option<string>, tipoAnuncio: Option<string>,
                         logisticType: Option<string>)

  function Coluna(v: Venda, c: Campo): Option<string> {
    match c
    case Status => v.status
    case Plataforma => v.plataforma
    case TipoAnuncio => v.tipoAnuncio
    case LogisticType => v.logisticType
  }

  /** `{ contains: p, mode: "insensitive" }` with a lower-case pattern: the column, lowercased,
      contains `p`. A null column satisfies no condition on it, negated or not. */
  predicate ContemInsensivel(x: Option<string>, p: string) {
    x.Some? && Contains(ToLower(x.value), p)
  }

  /** Whether a sale satisfies a filter. */
  predicate Casa(w: Where, v: Venda) {
    match w
    case SemFiltro => true
    case Algum(c, ps) => exists i :: 0 <= i < |ps| && ContemInsensivel(Coluna(v, c), ps[i])
    case Nenhum(c, ps) => Coluna(v, c).Some? && forall i :: 0 <= i < |ps| ==> !ContemInsensivel(Coluna(v, c), ps[i])
  }

  lemma CasaAlgum2(v: Venda, c: Campo, p: string, q: string)
    ensures Casa(Algum(c, [p, q]), v) <==> ContemInsensivel(Coluna(v, c), p) || ContemInsensivel(Coluna(v, c), q)
  {
    if ContemInsensivel(Coluna(v, c), p) { assert [p, q][0] == p; }
    if ContemInsensivel(Coluna(v, c), q) { assert [p, q][1] == q; }
  }

  lemma CasaAlgum1(v: Venda, c: Campo, p: string)
    ensures Casa(Algum(c, [p]), v) <==> ContemInsensivel(Coluna(v, c), p)
  {
    if ContemInsensivel(Coluna(v, c), p) { assert [p][0] == p; }
  }

  lemma CasaNenhum2(v: Venda, c: Campo, p: string, q: string)
    ensures Casa(Nenhum(c, [p, q]), v) <==>
      Coluna(v, c).Some? && !ContemInsensivel(Coluna(v, c), p) && !ContemInsensivel(Coluna(v, c), q)
  {
    assert [p, q][0] == p && [p, q][1] == q;
  }

  // ---------------------------------------------------------------------------
  // The helpers

  /** `getStatusWhere`: "cancelados" keeps the sales whose status mentions "cancel", "todos" keeps
      every sale, and anything else (the default) keeps the paid or completed ones. */
  function GetStatusWhere(statusParam: Option<string>): (w: Where)
    ensures statusParam == Some("todos") ==> w == SemFiltro
    ensures statusParam != Some("todos") ==> w.Algum? && w.campo == Status
  {
    if statusParam == Some("cancelados") then Algum(Status, ["cancel", "cancelled"])
    else if statusParam == Some("todos") then SemFiltro
    else Algum(Status, ["paid", "completed"])
  }

  /** What the status filter keeps. The "cancelled" condition adds nothing to "cancel", so the
      cancelled filter keeps exactly the sales the front end calls cancelled. */
  lemma StatusWhereSemantica(statusParam: Option<string>, v: Venda)
    ensures statusParam == Some("cancelados") ==>
      (Casa(GetStatusWhere(statusParam), v) <==> ContemInsensivel(v.status, "cancel"))
    ensures statusParam == Some("cancelados") ==>
      (Casa(GetStatusWhere(statusParam), v) <==> v.status.Some? && VendasStatus.IsStatusCancelado(v.status.value))
    ensures statusParam == Some("todos") ==> Casa(GetStatusWhere(statusParam), v)
    ensures statusParam != Some("cancelados") && statusParam != Some("todos") ==>
      (Casa(GetStatusWhere(statusParam), v) <==> ContemInsensivel(v.status, "paid") || ContemInsensivel(v.status, "completed"))
  {
    CasaAlgum2(v, Status, "cancel", "cancelled");
    CasaAlgum2(v, Status, "paid", "completed");
    if v.status.Some? {
      var s := ToLower(v.status.value);
      if Contains(s, "cancelled") {
        ContainsAt("cancelled", "cancel", 0);
        ContainsTransitive(s, "cancelled", "cancel");
      }
    }
  }

  /** `getCanalWhere`: Shopee's and Mercado Livre's sales by the platform's name; any other channel
      is not a filter. */
  function GetCanalWhere(canalParam: Option<string>): (w: Where)
    ensures canalParam != Some("shopee") && canalParam != Some("mercado_livre") <==> w == SemFiltro
  {
    if canalParam == Some("shopee") then Algum(Plataforma, ["shopee"])
    else if canalParam == Some("mercado_livre") then Algum(Plataforma, ["mercado"])
    else SemFiltro
  }

  lemma CanalWhereSemantica(canalParam: Option<string>, v: Venda)
    ensures canalParam == Some("shopee") ==> (Casa(GetCanalWhere(canalParam), v) <==> ContemInsensivel(v.plataforma, "shopee"))
    ensures canalParam == Some("mercado_livre") ==>
      (Casa(GetCanalWhere(canalParam), v) <==> ContemInsensivel(v.plataforma, "mercado"))
    ensures canalParam != Some("shopee") && canalParam != Some("mercado_livre") ==> Casa(GetCanalWhere(canalParam), v)
  {
    CasaAlgum1(v, Plataforma, "shopee");
    CasaAlgum1(v, Plataforma, "mercado");
  }

  /** `getTipoAnuncioWhere`: catalogue and own listings, each under its accented and its plain
      spelling; any other value is not a filter. */
  function GetTipoAnuncioWhere(tipoParam: Option<string>): (w: Where)
    ensures tipoParam != Some("catalogo") && tipoParam != Some("proprio") <==> w == SemFiltro
  {
    if tipoParam == Some("catalogo") then Algum(TipoAnuncio, ["catalog", "catálogo"])
    else if tipoParam == Some("proprio") then Algum(TipoAnuncio, ["proprio", "próprio"])
    else SemFiltro
  }

  lemma TipoAnuncioWhereSemantica(tipoParam: Option<string>, v: Venda)
    ensures tipoParam == Some("catalogo") ==>
      (Casa(GetTipoAnuncioWhere(tipoParam), v) <==> ContemInsensivel(v.tipoAnuncio, "catalog") || ContemInsensivel(v.tipoAnuncio, "catálogo"))
    ensures tipoParam == Some("proprio") ==>
      (Casa(GetTipoAnuncioWhere(tipoParam), v) <==> ContemInsensivel(v.tipoAnuncio, "proprio") || ContemInsensivel(v.tipoAnuncio, "próprio"))
    ensures tipoParam != Some("catalogo") && tipoParam != Some("proprio") ==> Casa(GetTipoAnuncioWhere(tipoParam), v)
  {
    CasaAlgum2(v, TipoAnuncio, "catalog", "catálogo");
    CasaAlgum2(v, TipoAnuncio, "proprio", "próprio");
  }

  /** "catalog" does not occur in "catálogo". */
  lemma CatalogNaoOcorreEmCatalogo()
    ensures !Contains("catálogo", "catalog")
  {
    var s := "catálogo";
    assert s[..7][3] != "catalog"[3];
    assert s[1..][..7][0] != "catalog"[0];
    NotContainsShort(s[2..], "catalog");
    assert s[1..][1..] == s[2..];
  }

  lemma MinusculasDeCatalogo()
    ensures ToLower("Catálogo") == "catálogo" && ToLower("CATALOGO") == "catalogo"
  {
  }

  /** The accented spelling is needed: "catalog" does not occur in "catálogo", yet the catalogue
      filter keeps a listing typed either way, in any case. */
  lemma CatalogoAcentuado(v: Venda, w: Venda)
    requires v.tipoAnuncio == Some("Catálogo") && w.tipoAnuncio == Some("CATALOGO")
    ensures !Contains("catálogo", "catalog")
    ensures Casa(GetTipoAnuncioWhere(Some("catalogo")), v) && Casa(GetTipoAnuncioWhere(Some("catalogo")), w)
  {
    CatalogNaoOcorreEmCatalogo();
    MinusculasDeCatalogo();
    TipoAnuncioWhereSemantica(Some("catalogo"), v);
    TipoAnuncioWhereSemantica(Some("catalogo"), w);
    ContainsAt("catálogo", "catálogo", 0);
    ContainsAt("catalogo", "catalog", 0);
  }

  /** `getModalidadeWhere`: Full by "fulfill", Flex by "flex", and "me" (Mercado Envios) for the
      types that are neither; any other value is not a filter. */
  function GetModalidadeWhere(modalidadeParam: Option<string>): (w: Where)
    ensures modalidadeParam != Some("full") && modalidadeParam != Some("flex") && modalidadeParam != Some("me")
            <==> w == SemFiltro
  {
    if modalidadeParam == Some("full") then Algum(LogisticType, ["fulfill"])
    else if modalidadeParam == Some("flex") then Algum(LogisticType, ["flex"])
    else if modalidadeParam == Some("me") then Nenhum(LogisticType, ["fulfill", "flex"])
    else SemFiltro
  }

  /** The three shipping modes cover every sale with a logistic type, and "me" shares no sale with
      the other two. */
  lemma ModalidadesCobrem(v: Venda)
    ensures Casa(GetModalidadeWhere(Some("me")), v) ==>
      !Casa(GetModalidadeWhere(Some("full")), v) && !Casa(GetModalidadeWhere(Some("flex")), v)
    ensures v.logisticType.Some? ==>
      Casa(GetModalidadeWhere(Some("me")), v) || Casa(GetModalidadeWhere(Some("full")), v)
      || Casa(GetModalidadeWhere(Some("flex")), v)
    ensures v.logisticType.None? ==>
      !Casa(GetModalidadeWhere(Some("me")), v) && !Casa(GetModalidadeWhere(Some("full")), v)
      && !Casa(GetModalidadeWhere(Some("flex")), v)
  {
    CasaAlgum1(v, LogisticType, "fulfill");
    CasaAlgum1(v, LogisticType, "flex");
    CasaNenhum2(v, LogisticType, "fulfill", "flex");
  }
}
