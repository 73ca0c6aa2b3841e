/** The breadcrumb of the top bar: the path is cut into segments, each segment gets a link to the
    path up to it and a label, and the crumbs after the fixed "Dashboard" link leave out the one
    that points to "/dashboard". */
module Topbar {
  import opened Folds
  import opened Strings

  /** The labels of the known path segments. */
  const LABEL_MAP: map<string, string> := map[
    "dashboard" := "Dashboard",
    "vendas" := "Central de Vendas",
    "geral" := "Vendas Geral",
    "mercado-livre" := "Vendas Mercado Livre",
    "shopee" := "Vendas Shopee",
    "sku" := "Gestão de SKU",
    "contas" := "Contas de plataforma",
    "financeiro" := "Financeiro",
    "dashboardfinanceiro" := "Dashboard Financeiro",
    "financas" := "Finanças",
    "dre" := "DRE",
    "aliquotas" := "Alíquotas de Impostos"
  ]

  // ---------------------------------------------------------------------------
  // Labels

  /** A character of the regular-expression class `\w`: ASCII letters, digits and `_`. */
  predicate IsWordChar(c: char) {
    IsAsciiLower(c) || IsAsciiUpper(c) || IsDigit(c) || c == '_'
  }

  /** `toUpperCase` of a `\w` character: only `a`-`z` change. */
  function MaiusculaAscii(c: char): (r: char)
    ensures IsAsciiLower(c) ==> IsAsciiUpper(r) && r as int + 32 == c as int
    ensures !IsAsciiLower(c) ==> r == c
  {
    if IsAsciiLower(c) then (c as int - 32) as char else c
  }

  /** `replace(/-/g, " ")` */
  function TrocarHifens(s: string): (r: string)
    ensures |r| == |s| && '-' !in r
    ensures forall i :: 0 <= i < |s| ==> r[i] == if s[i] == '-' then ' ' else s[i]
  {
    seq(|s|, i requires 0 <= i < |s| => if s[i] == '-' then ' ' else s[i])
  }

  /** Position `i` of `s` is where `\b\w` matches: a `\w` character not preceded by one (`anterior`
      says whether the character before `s` is one). */
  predicate InicioDePalavra(s: string, i: nat, anterior: bool)
    requires i < |s|
  {
    IsWordChar(s[i]) && !(if i == 0 then anterior else IsWordChar(s[i - 1]))
  }

  /** `replace(/\b\w/g, s => s.toUpperCase())`, scanning from the front. */
  function Capitalizar(s: string, anterior: bool): (r: string)
    ensures |r| == |s|
    ensures forall i :: 0 <= i < |s| ==>
      r[i] == if InicioDePalavra(s, i, anterior) then MaiusculaAscii(s[i]) else s[i]
    decreases |s|
  {
    if |s| == 0 then []
    else
      var c := if IsWordChar(s[0]) && !anterior then MaiusculaAscii(s[0]) else s[0];
      var resto := Capitalizar(s[1..], IsWordChar(s[0]));
      assert forall i :: 1 <= i < |s| ==> InicioDePalavra(s[1..], i - 1, IsWordChar(s[0])) == InicioDePalavra(s, i, anterior);
      [c] + resto
  }

  /** `toLabel(slug)`: the label of a known segment; otherwise hyphens become spaces and each word
      starts with a capital. */
  function ToLabel(slug: string): (r: string)
    ensures slug in LABEL_MAP ==> r == LABEL_MAP[slug]
    ensures slug !in LABEL_MAP ==> |r| == |slug| && '-' !in r
  {
    if slug in LABEL_MAP then LABEL_MAP[slug] else Capitalizar(TrocarHifens(slug), false)
  }

  /** An unknown segment's label differs from the segment only in case and in hyphens: lowercased,
      it is the lowercased segment with spaces for hyphens, and every word starts with a capital. */
  lemma RotuloSoMudaCaixa(slug: string)
    requires slug !in LABEL_MAP
    ensures ToLower(ToLabel(slug)) == ToLower(TrocarHifens(slug))
    ensures forall i :: 0 <= i < |slug| && InicioDePalavra(TrocarHifens(slug), i, false) ==>
      !IsAsciiLower(ToLabel(slug)[i])
  {
    var t := TrocarHifens(slug);
    var r := ToLabel(slug);
    forall i | 0 <= i < |t| ensures ToLowerChar(r[i]) == ToLowerChar(t[i]) {
      if IsAsciiLower(t[i]) && InicioDePalavra(t, i, false) {
        assert IsUpperLetter(r[i]);
      }
    }
  }

  /** Words joined by hyphens become capitalised words. */
  lemma RotuloComHifen()
    ensures ToLabel("novo-item") == "Novo Item"
  {
    assert "novo-item" !in LABEL_MAP;
    assert TrocarHifens("novo-item") == "novo item";
    var r := Capitalizar("novo item", false);
    assert r[0] == 'N' && r[5] == 'I';
    assert r == "Novo Item";
  }

  /** A letter after a non-ASCII letter counts as a word start, as JavaScript's `\b` sees it. */
  lemma RotuloNaoAscii()
    ensures ToLabel("aço") == "AçO"
  {
    assert "aço" !in LABEL_MAP;
    assert TrocarHifens("aço") == "aço";
    var q := Capitalizar("aço", false);
    assert q[0] == 'A' && q[2] == 'O';
  }

  // ---------------------------------------------------------------------------
  // Crumbs

  function NaoVazio(s: string): bool { s != "" }

  /** `(usePathname() || "/").split("/").filter(Boolean)` */
  function Segmentos(pathname: string): (r: seq<string>)
    ensures forall i :: 0 <= i < |r| ==> r[i] != "" && '/' !in r[i]
  {
    var p := if pathname == "" then "/" else pathname;
    Filter(Split(p, '/'), NaoVazio)
  }

  datatype Crumb = Crumb(href: string, rotulo: string)

  function Href(segmentos: seq<string>, i: nat): string
    requires i < |segmentos|
  {
    "/" + Join(segmentos[..i + 1], "/")
  }

  /** The crumbs: one per segment, linking to the path up to it. */
  function Crumbs(pathname: string): (r: seq<Crumb>)
    ensures var segs := Segmentos(pathname);
      |r| == |segs| && forall i :: 0 <= i < |r| ==> r[i] == Crumb(Href(segs, i), ToLabel(segs[i]))
  {
    var segs := Segmentos(pathname);
    seq(|segs|, i requires 0 <= i < |segs| => Crumb(Href(segs, i), ToLabel(segs[i])))
  }

  /** Each crumb's link extends the previous one by a slash and its own segment, and names exactly
      the segments up to it: read back by splitting, it gives those segments. */
  lemma HrefNomeiaPrefixo(pathname: string, i: nat)
    requires i < |Segmentos(pathname)|
    ensures var segs := Segmentos(pathname);
      Href(segs, i)[0] == '/' && Split(Href(segs, i)[1..], '/') == segs[..i + 1]
    ensures var segs := Segmentos(pathname);
      i + 1 < |segs| ==> Href(segs, i + 1) == Href(segs, i) + "/" + segs[i + 1]
  {
    var segs := Segmentos(pathname);
    assert ("/" + Join(segs[..i + 1], "/"))[1..] == Join(segs[..i + 1], "/");
    SplitJoin(segs[..i + 1], '/');
    if i + 1 < |segs| {
      JoinSnoc(segs[..i + 1], segs[i + 1], "/");
      assert segs[..i + 2] == segs[..i + 1] + [segs[i + 1]];
    }
  }

  lemma {:induction false} JoinSnoc(parts: seq<string>, x: string, sep: string)
    requires |parts| >= 1
    ensures Join(parts + [x], sep) == Join(parts, sep) + sep + x
    decreases |parts|
  {
    if |parts| > 1 {
      JoinSnoc(parts[1..], x, sep);
      assert (parts + [x])[1..] == parts[1..] + [x];
    }
  }

  /** A segment is never empty, so the path "/" and the empty path have no crumbs, and a path
      without empty segments is read back in full by the last crumb. */
  lemma SemSegmentosVazios(pathname: string)
    ensures pathname == "" || pathname == "/" ==> Crumbs(pathname) == []
    ensures forall i :: 0 <= i < |Crumbs(pathname)| ==> |Crumbs(pathname)[i].href| >= 2
  {
    if pathname == "" || pathname == "/" {
      assert Split("", '/') == [""];
      assert Split("/", '/') == ["", ""];
      assert Filter([""], NaoVazio) == [];
      assert Filter(["", ""], NaoVazio) == Filter([""], NaoVazio);
    }
  }

  function NaoEhDashboard(c: Crumb): bool { c.href != "/dashboard" }

  /** The crumbs shown after the fixed "Dashboard" link. */
  function CrumbsVisiveis(pathname: string): (r: seq<Crumb>)
    ensures forall i :: 0 <= i < |r| ==> r[i].href != "/dashboard"
  {
    Filter(Crumbs(pathname), NaoEhDashboard)
  }

  /** The link of the first crumb is the first segment alone; any later one holds a second slash. */
  lemma HrefsDosCrumbs(segs: seq<string>, i: nat)
    requires i < |segs|
    requires forall k :: 0 <= k < |segs| ==> '/' !in segs[k]
    ensures i == 0 ==> Href(segs, i) == "/" + segs[0]
    ensures i > 0 ==> '/' in Href(segs, i)[1..]
  {
    if i > 0 {
      var j := Join(segs[..i + 1], "/");
      assert segs[..i + 1][1..] == segs[1..i + 1];
      assert j == segs[0] + "/" + Join(segs[1..i + 1], "/");
      assert j[|segs[0]|] == '/';
      assert Href(segs, i)[1..] == j;
    }
  }

  /** Only the first crumb can point to "/dashboard", and it does exactly when the path starts with
      that segment: the crumbs shown are all of them, less that first one then. */
  lemma DashboardNaoSeRepete(pathname: string)
    ensures var segs := Segmentos(pathname); var cs := Crumbs(pathname);
      CrumbsVisiveis(pathname) == if |segs| > 0 && segs[0] == "dashboard" then cs[1..] else cs
  {
    var segs := Segmentos(pathname);
    var cs := Crumbs(pathname);
    forall i | 1 <= i < |cs| ensures NaoEhDashboard(cs[i]) {
      HrefsDosCrumbs(segs, i);
      assert '/' !in "dashboard";
      assert "/dashboard"[1..] == "dashboard";
    }
    if |cs| > 0 {
      HrefsDosCrumbs(segs, 0);
      assert ("/" + segs[0])[1..] == segs[0];
      assert "/dashboard" == "/" + "dashboard";
      assert NaoEhDashboard(cs[0]) <==> segs[0] != "dashboard";
    }
    FiltroSoNoPrimeiro(cs, NaoEhDashboard);
  }

  /** A filter every element but the first passes drops at most the first. */
  lemma {:induction false} FiltroSoNoPrimeiro<T>(s: seq<T>, p: T -> bool)
    requires forall i :: 1 <= i < |s| ==> p(s[i])
    ensures Filter(s, p) == if |s| > 0 && !p(s[0]) then s[1..] else s
    decreases |s|
  {
    if |s| > 1 {
      var init := s[..|s| - 1];
      FiltroSoNoPrimeiro(init, p);
      assert init[1..] + [s[|s| - 1]] == s[1..];
      assert init + [s[|s| - 1]] == s;
    } else if |s| == 1 {
      assert s[..0] == [];
    }
  }
}
