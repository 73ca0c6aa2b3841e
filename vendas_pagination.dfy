/** The pagination bar under the sales and accounts tables: the range of items shown, the window of
    page buttons, and the previous and next buttons. Pages are numbered from 1. */
module VendasPagination {

  function Min(a: int, b: int): int { if a <= b then a else b }

  function Max(a: int, b: int): int { if a >= b then a else b }

  /** `Math.ceil(a / b)` for a positive `b`. */
  function DivCeil(a: int, b: int): (r: int)
    requires b > 0
    ensures (r - 1) * b < a <= r * b
  {
    (a + b - 1) / b
  }

  /** The first item shown ("Mostrando x - y de n"): none when there are no items. */
  function PrimeiroMostrado(pagina: int, porPagina: int, total: int): (r: int)
    ensures total == 0 ==> r == 0
    ensures total != 0 && pagina >= 1 && porPagina >= 0 ==> r >= 1
  {
    if total == 0 then 0 else (pagina - 1) * porPagina + 1
  }

  /** The last item shown. */
  function UltimoMostrado(pagina: int, porPagina: int, total: int): (r: int)
    ensures r <= total && r <= pagina * porPagina
    ensures r == total || r == pagina * porPagina
  {
    Min(pagina * porPagina, total)
  }

  /** The number of pages the callers pass: `Math.max(1, Math.ceil(total / porPagina))`. */
  function TotalDePaginas(total: nat, porPagina: int): (r: int)
    requires porPagina > 0
    ensures r >= 1
    ensures (r - 1) * porPagina < total || (total == 0 && r == 1)
    ensures total <= r * porPagina
  {
    Max(1, DivCeil(total, porPagina))
  }

  /** On any existing page the range shown is a non-empty run of at most `porPagina` items within
      1..total, and it starts right after the previous page's last item; with no items it is 0 - 0. */
  lemma FaixaMostrada(pagina: int, porPagina: int, total: nat)
    requires porPagina > 0 && 1 <= pagina <= TotalDePaginas(total, porPagina)
    ensures total == 0 ==> PrimeiroMostrado(pagina, porPagina, total) == 0 == UltimoMostrado(pagina, porPagina, total)
    ensures total > 0 ==>
      1 <= PrimeiroMostrado(pagina, porPagina, total) <= UltimoMostrado(pagina, porPagina, total) <= total
      && UltimoMostrado(pagina, porPagina, total) - PrimeiroMostrado(pagina, porPagina, total) < porPagina
    ensures total > 0 && pagina > 1 ==>
      PrimeiroMostrado(pagina, porPagina, total) == UltimoMostrado(pagina - 1, porPagina, total) + 1
    ensures pagina < TotalDePaginas(total, porPagina) ==>
      UltimoMostrado(pagina, porPagina, total) - PrimeiroMostrado(pagina, porPagina, total) + 1 == porPagina
  {
    var t := TotalDePaginas(total, porPagina);
    if total == 0 {
      assert pagina == 1;
    } else {
      MulMonotone(pagina - 1, t - 1, porPagina);
      assert pagina * porPagina == (pagina - 1) * porPagina + porPagina;
      MulMonotone(0, pagina - 1, porPagina);
      if pagina < t {
        MulMonotone(pagina, t - 1, porPagina);
      }
    }
  }

  lemma MulMonotone(x: int, y: int, b: int)
    requires x <= y && b >= 0
    ensures x * b <= y * b
  {
    assert y * b - x * b == (y - x) * b;
  }

  /** The largest number of page buttons shown at once. */
  const MAX_VISIVEIS := 10

  /** The first button of the window: pages come in groups of ten, 1-10, 11-20, ...; the window is
      the group of the current page, `(Math.ceil(pagina / 10) - 1) * 10 + 1`. */
  function InicioDaJanela(pagina: int): (r: int)
    ensures r <= pagina < r + MAX_VISIVEIS
    ensures (r - 1) % MAX_VISIVEIS == 0
  {
    (DivCeil(pagina, MAX_VISIVEIS) - 1) * MAX_VISIVEIS + 1
  }

  /** The last button of the window: the group's last page, or the last page if that comes first. */
  function FimDaJanela(pagina: int, totalPaginas: int): (r: int)
    ensures r <= totalPaginas && r < InicioDaJanela(pagina) + MAX_VISIVEIS
    ensures pagina <= totalPaginas ==> pagina <= r
  {
    Min(InicioDaJanela(pagina) + MAX_VISIVEIS - 1, totalPaginas)
  }

  /** The loop that lists the page buttons, from the window's first page to its last. */
  method PaginasVisiveis(pagina: int, totalPaginas: int) returns (paginas: seq<int>)
    ensures |paginas| == Max(0, FimDaJanela(pagina, totalPaginas) - InicioDaJanela(pagina) + 1)
    ensures forall k :: 0 <= k < |paginas| ==> paginas[k] == InicioDaJanela(pagina) + k
  {
    var inicio := InicioDaJanela(pagina);
    var fim := FimDaJanela(pagina, totalPaginas);
    paginas := [];
    var i := inicio;
    while i <= fim
      invariant inicio <= i <= Max(inicio, fim + 1)
      invariant |paginas| == i - inicio
      invariant forall k :: 0 <= k < |paginas| ==> paginas[k] == inicio + k
      decreases fim - i
    {
      paginas := paginas + [i];
      i := i + 1;
    }
  }

  /** On an existing page the window holds between one and ten consecutive pages, all existing,
      including the current one, starting at a page 1 more than a multiple of ten. */
  lemma JanelaContemPagina(pagina: int, totalPaginas: int)
    requires 1 <= pagina <= totalPaginas
    ensures 1 <= InicioDaJanela(pagina) <= pagina <= FimDaJanela(pagina, totalPaginas) <= totalPaginas
    ensures FimDaJanela(pagina, totalPaginas) - InicioDaJanela(pagina) < MAX_VISIVEIS
    ensures (InicioDaJanela(pagina) - 1) % MAX_VISIVEIS == 0
  {
  }

  /** "Anterior": the previous page, never below 1. */
  function PaginaAnterior(pagina: int): (r: int)
    ensures r >= 1 && r >= pagina - 1
    ensures pagina >= 1 ==> r <= pagina
  {
    Max(pagina - 1, 1)
  }

  /** "Próxima": the next page, never past the last. */
  function ProximaPagina(pagina: int, totalPaginas: int): (r: int)
    ensures r <= totalPaginas && r <= pagina + 1
    ensures pagina < totalPaginas ==> r == pagina + 1
  {
    Min(pagina + 1, totalPaginas)
  }

  /** From an existing page both buttons lead to an existing page one step away, and each stays
      put exactly where the bar disables it: on the first page and on the last. */
  lemma AnteriorEProxima(pagina: int, totalPaginas: int)
    requires 1 <= pagina <= totalPaginas
    ensures 1 <= PaginaAnterior(pagina) <= pagina && pagina - PaginaAnterior(pagina) <= 1
    ensures PaginaAnterior(pagina) == pagina <==> pagina == 1
    ensures pagina <= ProximaPagina(pagina, totalPaginas) <= totalPaginas
    ensures ProximaPagina(pagina, totalPaginas) - pagina <= 1
    ensures ProximaPagina(pagina, totalPaginas) == pagina <==> pagina == totalPaginas
  {
  }
}
