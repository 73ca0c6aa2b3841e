/** The freight helpers shared by the screens (src/lib/frete.ts): the split of a Shopee freight
    into what Shopee, the seller and the buyer pay, the subsidy summary, and the classification of
    logistic types and freight values. Currency formatting is not part of this model. */
module Frete {
  import opened Wrappers
  import opened Strings
  import opened Money

  /** The freight fields of a Shopee order; each is a number, or missing. */
  datatype FreteData = FreteData(
    actualShippingFee: Option<real>,
    shopeeShippingRebate: Option<real>,
    buyerPaidShippingFee: Option<real>,
    shippingFeeDiscountFrom3pl: Option<real>)

  datatype FreteShopee = FreteShopee(freteOriginal: real, subsidioShopee: real, subsidioVendedor: real,
                                     freteComprador: real)

  /** `formatarFreteShopee`: missing fields count as 0; Shopee pays its rebate plus the carrier's
      discount, the buyer what they paid, and the seller the rest of the original freight, never
      less than 0. */
  function FormatarFreteShopee(d: FreteData): (r: FreteShopee)
    ensures r.freteOriginal == d.actualShippingFee.GetOr(0.0)
    ensures r.freteComprador == d.buyerPaidShippingFee.GetOr(0.0)
    ensures r.subsidioShopee == d.shopeeShippingRebate.GetOr(0.0) + d.shippingFeeDiscountFrom3pl.GetOr(0.0)
    ensures r.subsidioVendedor >= 0.0
    ensures r.subsidioVendedor >= r.freteOriginal - r.subsidioShopee - r.freteComprador
    ensures r.subsidioVendedor == 0.0 || r.subsidioVendedor == r.freteOriginal - r.subsidioShopee - r.freteComprador
  {
    var actual := d.actualShippingFee.GetOr(0.0);
    var rebate := d.shopeeShippingRebate.GetOr(0.0);
    var buyer := d.buyerPaidShippingFee.GetOr(0.0);
    var discount3pl := d.shippingFeeDiscountFrom3pl.GetOr(0.0);
    FreteShopee(actual, rebate + discount3pl, Max(0.0, actual - rebate - discount3pl - buyer), buyer)
  }

  /** Whenever the seller pays something, Shopee, the seller and the buyer together pay exactly the
      original freight; otherwise Shopee and the buyer already cover it. */
  lemma FreteShopeeParts(d: FreteData)
    ensures var r := FormatarFreteShopee(d);
      if r.subsidioVendedor > 0.0 then r.subsidioShopee + r.subsidioVendedor + r.freteComprador == r.freteOriginal
      else r.subsidioShopee + r.freteComprador >= r.freteOriginal
  {
  }

  datatype Subsidio = Subsidio(temSubsidio: bool, valorSubsidio: real, percentualSubsidio: real)

  /** `detectarSubsidioFrete`: the subsidy is Shopee's part plus the seller's; there is one when it
      is positive; its percentage of the original freight is 0 when there is no original freight. */
  function DetectarSubsidioFrete(d: FreteData): (r: Subsidio)
    ensures var f := FormatarFreteShopee(d);
      && r.valorSubsidio == f.subsidioShopee + f.subsidioVendedor
      && (r.temSubsidio <==> r.valorSubsidio > 0.0)
      && (f.freteOriginal > 0.0 ==> r.percentualSubsidio * f.freteOriginal == r.valorSubsidio * 100.0)
      && (f.freteOriginal <= 0.0 ==> r.percentualSubsidio == 0.0)
  {
    var resultado := FormatarFreteShopee(d);
    var totalSubsidio := resultado.subsidioShopee + resultado.subsidioVendedor;
    Subsidio(totalSubsidio > 0.0, totalSubsidio,
             if resultado.freteOriginal > 0.0 then (totalSubsidio / resultado.freteOriginal) * 100.0 else 0.0)
  }

  /** With non-negative fields and a Shopee part no larger than the freight, the subsidy never
      exceeds the original freight, so its percentage is at most 100. */
  lemma SubsidioAtMostFrete(d: FreteData)
    requires var f := FormatarFreteShopee(d);
      0.0 <= f.subsidioShopee <= f.freteOriginal && f.freteComprador >= 0.0
    ensures var r := DetectarSubsidioFrete(d);
      r.valorSubsidio <= FormatarFreteShopee(d).freteOriginal
      && (FormatarFreteShopee(d).freteOriginal > 0.0 ==> 0.0 <= r.percentualSubsidio <= 100.0)
  {
    var f := FormatarFreteShopee(d);
    var r := DetectarSubsidioFrete(d);
    assert 0.0 <= r.valorSubsidio <= f.freteOriginal;
    if f.freteOriginal > 0.0 {
      var o := f.freteOriginal;
      var pct := r.percentualSubsidio;
      assert pct == r.valorSubsidio / o * 100.0;
      FractionAtMostOne(r.valorSubsidio, o);
    }
  }

  lemma FractionAtMostOne(v: real, o: real)
    requires 0.0 <= v <= o && o > 0.0
    ensures 0.0 <= v / o <= 1.0
  {
    var q := v / o;
    assert q * o == v;
    assert (1.0 - q) * o == o - v;
  }

  /** The three patterns shared by `classifyLogisticType` and `classifyFrete`, on the lower-cased type. */
  function ClassifyLowered(t: string, original: string): (r: string)
    ensures var flex := Contains(t, "flex") || t == "self_service";
            var agencia := Contains(t, "drop") || Contains(t, "agencia") || t == "xd_drop_off";
            var coleta := Contains(t, "coleta");
      && (flex ==> r == "FLEX")
      && (!flex && agencia ==> r == "Agência")
      && (!flex && !agencia && coleta ==> r == "Coleta")
      && (!flex && !agencia && !coleta ==> r == original)
  {
    if Contains(t, "flex") || t == "self_service" then "FLEX"
    else if Contains(t, "drop") || Contains(t, "agencia") || t == "xd_drop_off" then "Agência"
    else if Contains(t, "coleta") then "Coleta"
    else original
  }

  /** `classifyLogisticType`: "Desconhecido" without a type; "FLEX", "Agência" or "Coleta" when the
      lower-cased type mentions them; otherwise the type as given. */
  function ClassifyLogisticType(lt: Option<string>): (r: string)
    ensures lt.None? || lt.value == "" ==> r == "Desconhecido"
    ensures lt.Some? && lt.value != "" ==> r == ClassifyLowered(ToLower(lt.value), lt.value)
  {
    if lt.None? || lt.value == "" then "Desconhecido" else ClassifyLowered(ToLower(lt.value), lt.value)
  }

  /** A type already in lower case is classified as it is. */
  lemma ClassifyLowerCase(s: string)
    requires s != "" && forall i :: 0 <= i < |s| ==> !IsUpperLetter(s[i])
    ensures ClassifyLogisticType(Some(s)) == ClassifyLowered(s, s)
  {
    assert ToLower(s) == s;
  }

  /** A name whose lower case mentions none of the patterns is given back. */
  lemma ClassifyUnmatched(s: string, t: string, cf: char, cd: char, ca: char, cc: char)
    requires s != "" && ToLower(s) == t && t != "self_service" && t != "xd_drop_off"
    requires cf in "flex" && cf !in t && cd in "drop" && cd !in t
    requires ca in "agencia" && ca !in t && cc in "coleta" && cc !in t
    ensures ClassifyLogisticType(Some(s)) == s
  {
    NotContainsMissingChar(t, "flex", cf);
    NotContainsMissingChar(t, "drop", cd);
    NotContainsMissingChar(t, "agencia", ca);
    NotContainsMissingChar(t, "coleta", cc);
  }

  /** Flex in any case is FLEX. */
  lemma ClassifySelfService(s: string)
    requires ToLower(s) == "self_service"
    ensures ClassifyLogisticType(Some(s)) == "FLEX"
  {
  }

  /** Both drop-off kinds, in any case, are Agência. */
  lemma ClassifyDropOff(s: string)
    requires ToLower(s) == "xd_drop_off" || ToLower(s) == "drop_off"
    ensures ClassifyLogisticType(Some(s)) == "Agência"
  {
    var t := ToLower(s);
    NotContainsMissingChar(t, "flex", 'l');
    if t == "drop_off" {
      assert StartsWith(t, "drop");
    } else {
      assert t[3..7] == "drop";
      ContainsAt(t, "drop", 3);
    }
  }

  /** Collection (`cross_docking`) does not mention "coleta", so it is given back as it is. */
  lemma ClassifyCrossDocking(s: string)
    requires s == "cross_docking"
    ensures ClassifyLogisticType(Some(s)) == s
  {
    ClassifyLowerCase(s);
    ClassifyUnmatched(s, s, 'f', 'p', 'e', 'l');
  }

  /** Each class name is its own class. */
  lemma ClassNameFlex(r: string)
    requires r == "FLEX"
    ensures ClassifyLogisticType(Some(r)) == r
  {
    var t := ToLower(r);
    assert t == "flex";
    assert StartsWith(t, "flex");
  }

  lemma ClassNameAgencia(r: string)
    requires r == "Agência"
    ensures ClassifyLogisticType(Some(r)) == r
  {
    var t := ToLower(r);
    assert t == "agência";
    ClassifyUnmatched(r, t, 'f', 'd', 'e', 'o');
  }

  lemma ClassNameColeta(r: string)
    requires r == "Coleta"
    ensures ClassifyLogisticType(Some(r)) == r
  {
    var t := ToLower(r);
    assert t == "coleta";
    NotContainsMissingChar(t, "flex", 'f');
    NotContainsMissingChar(t, "drop", 'd');
    NotContainsMissingChar(t, "agencia", 'g');
    assert StartsWith(t, "coleta");
  }

  lemma ClassNameDesconhecido(r: string)
    requires r == "Desconhecido"
    ensures ClassifyLogisticType(Some(r)) == r
  {
    var t := ToLower(r);
    assert t == "desconhecido";
    ClassifyUnmatched(r, t, 'f', 'r', 'g', 'l');
  }

  /** Classifying a class name gives it back. */
  lemma ClassifyLogisticTypeIdempotent(lt: Option<string>)
    ensures ClassifyLogisticType(Some(ClassifyLogisticType(lt))) == ClassifyLogisticType(lt)
  {
    var r := ClassifyLogisticType(lt);
    if r == "FLEX" {
      ClassNameFlex(r);
    } else if r == "Agência" {
      ClassNameAgencia(r);
    } else if r == "Coleta" {
      ClassNameColeta(r);
    } else if r == "Desconhecido" {
      ClassNameDesconhecido(r);
    }
  }

  /** What `classifyFrete` receives: a freight value, a logistic type, or nothing. */
  datatype FreteArg = FreteValue(n: real) | FreteType(s: string) | FreteMissing

  /** `classifyFrete`: a value is banded (0 free, below 10 low, below 20 medium, otherwise high);
      a type is classified as by `classifyLogisticType`. */
  function ClassifyFrete(v: FreteArg): (r: string)
    ensures v.FreteValue? ==> (r == "Grátis" <==> v.n == 0.0)
    ensures v.FreteValue? && v.n != 0.0 ==>
      r == (if v.n < 10.0 then "Baixo" else if v.n < 20.0 then "Médio" else "Alto")
    ensures v.FreteType? ==> r == ClassifyLogisticType(Some(v.s))
    ensures v.FreteMissing? ==> r == ClassifyLogisticType(None)
  {
    match v
    case FreteValue(n) =>
      if n == 0.0 then "Grátis" else if n < 10.0 then "Baixo" else if n < 20.0 then "Médio" else "Alto"
    case FreteType(s) =>
      if s == "" then "Desconhecido" else ClassifyLowered(ToLower(s), s)
    case FreteMissing => "Desconhecido"
  }

  /** The band of a value, as a rank: Grátis 0, Baixo 1, Médio 2, Alto 3. */
  function FaixaRank(faixa: string): nat {
    if faixa == "Grátis" then 0 else if faixa == "Baixo" then 1 else if faixa == "Médio" then 2 else 3
  }

  /** For positive values a larger freight never lands in a lower band. */
  lemma ClassifyFreteMonotone(a: real, b: real)
    requires 0.0 < a <= b
    ensures FaixaRank(ClassifyFrete(FreteValue(a))) <= FaixaRank(ClassifyFrete(FreteValue(b)))
  {
  }
}
