/** The freight adjustment of a Mercado Livre order (`calcularFreteAdjust` of
    test-frete-fix-inline.js): what the seller pays or receives for shipping, by logistic type,
    from the shipment's base, list and charged costs and the order's unit price. */
module FreteAdjust {
  import opened Wrappers
  import opened Strings
  import opened Money

  /** The unit price under which an order is below the free-shipping threshold. */
  const LIMITE_UNITARIO: real := 79.0

  /** `normalizeLogisticType`: lower case, with the agency spellings read as `xd_drop_off`. */
  function NormalizeLogisticType(lt: string): (r: string)
    ensures lt == "" ==> r == ""
    ensures ToLower(lt) == "agência" || ToLower(lt) == "agencia" ==> r == "xd_drop_off"
    ensures ToLower(lt) != "agência" && ToLower(lt) != "agencia" ==> r == ToLower(lt)
  {
    if lt == "" then ""
    else
      var t := ToLower(lt);
      if t == "agência" || t == "agencia" then "xd_drop_off" else t
  }

  /** A string with no upper-case letter is its own lower case. */
  lemma ToLowerOfLower(s: string)
    requires forall i :: 0 <= i < |s| ==> !IsUpperLetter(s[i])
    ensures ToLower(s) == s
  {
  }

  /** Normalising is idempotent and ignores case. */
  lemma NormalizeLogisticTypeLaws(lt: string)
    ensures NormalizeLogisticType(NormalizeLogisticType(lt)) == NormalizeLogisticType(lt)
    ensures NormalizeLogisticType(ToLower(lt)) == NormalizeLogisticType(lt)
    ensures NormalizeLogisticType(ToUpper(lt)) == NormalizeLogisticType(lt)
  {
    ToLowerIdempotent(lt);
    ToLowerOfLower("xd_drop_off");
    assert forall i :: 0 <= i < |lt| ==> ToLowerChar(ToUpperChar(lt[i])) == ToLowerChar(lt[i]);
    assert ToLower(ToUpper(lt)) == ToLower(lt);
  }

  /** What the function reads of its argument. `quantity` is `null` when absent; the shipping
      option cost the callers also pass is never read. */
  datatype Params = Params(logisticType: string, baseCost: Option<real>, listCost: Option<real>,
                           shipmentCost: Option<real>, orderCost: Option<real>, quantity: Option<real>)

  /** `order_cost / quantity`, when the quantity is present and not zero. */
  function Unitario(p: Params): (r: Option<real>)
    ensures r.Some? <==> p.quantity.Some? && p.quantity.value != 0.0
    ensures r.Some? ==> r.value * p.quantity.value == p.orderCost.GetOr(0.0)
  {
    if p.quantity.Some? && p.quantity.value != 0.0 then Some(p.orderCost.GetOr(0.0) / p.quantity.value)
    else None
  }

  predicate AbaixoDoLimite(p: Params) {
    Unitario(p).Some? && Unitario(p).value < LIMITE_UNITARIO
  }

  predicate AcimaDoLimite(p: Params) {
    Unitario(p).Some? && Unitario(p).value > LIMITE_UNITARIO
  }

  predicate IsFlex(lt: string) {
    lt == "self_service" || lt == "flex"
  }

  predicate IsElegivel(lt: string) {
    lt == "drop_off" || lt == "xd_drop_off" || lt == "fulfillment"
  }

  /** The list cost, or the base cost when the list cost is missing or zero. */
  function ListaEfetiva(p: Params): (r: real)
    ensures p.listCost.GetOr(0.0) != 0.0 ==> r == p.listCost.value
    ensures p.listCost.GetOr(0.0) == 0.0 ==> r == p.baseCost.GetOr(0.0)
  {
    var list := p.listCost.GetOr(0.0);
    var base := p.baseCost.GetOr(0.0);
    if list == 0.0 && base != 0.0 then base else list
  }

  /** `calcularFreteAdjust`: positive for a flex order (what the platform pays the seller),
      negative for a cost, 0 for a cheap order, and the sentinel -999 when no rule applies. */
  function CalcularFreteAdjust(p: Params): (r: real)
    ensures IsCents(r)
  {
    var lt := NormalizeLogisticType(p.logisticType);
    var base := p.baseCost.GetOr(0.0);
    var list := p.listCost.GetOr(0.0);
    var ship := p.shipmentCost.GetOr(0.0);
    if IsFlex(lt) then
      var b := if RoundCents(base - list) == 0.0 then (if AbaixoDoLimite(p) then 15.9 else 1.59)
               else base - list;
      RoundCents(b * 1.0)
    else if lt == "cross_docking" then
      if AbaixoDoLimite(p) then 0.0 else RoundCents((ListaEfetiva(p) - ship) * -1.0)
    else if IsElegivel(lt) then
      var b := ListaEfetiva(p) - ship;
      if AcimaDoLimite(p) then RoundCents(Abs(b) * -1.0) else RoundCents(b * -1.0)
    else if AbaixoDoLimite(p) then RoundCents(0.0 * -1.0)
    else RoundCents(999.0 * -1.0)
  }

  /** Flex: when base and list cost round to the same amount, a fixed 15.90 below the threshold and
      1.59 otherwise; else the difference, rounded. */
  lemma FlexAdjust(p: Params)
    requires IsFlex(NormalizeLogisticType(p.logisticType))
    ensures var d := p.baseCost.GetOr(0.0) - p.listCost.GetOr(0.0);
      CalcularFreteAdjust(p) == if RoundCents(d) == 0.0 then (if AbaixoDoLimite(p) then 15.9 else 1.59)
                                else RoundCents(d)
  {
    RoundCentsOfCents(15.9);
    RoundCentsOfCents(1.59);
  }

  /** Collection (`cross_docking`) below the threshold costs nothing. */
  lemma CrossDockingBelowLimit(p: Params)
    requires NormalizeLogisticType(p.logisticType) == "cross_docking" && AbaixoDoLimite(p)
    ensures CalcularFreteAdjust(p) == 0.0
  {
  }

  /** Collection (`cross_docking`) that is not below the threshold (unit price 79 or more, or no
      unit price) costs the effective list cost less the shipment cost, rounded: a negative
      adjustment when the list cost is the larger. */
  lemma CrossDockingAtOrAboveLimit(p: Params)
    requires NormalizeLogisticType(p.logisticType) == "cross_docking" && !AbaixoDoLimite(p)
    ensures CalcularFreteAdjust(p) == RoundCents(-(ListaEfetiva(p) - p.shipmentCost.GetOr(0.0)))
  {
    var d := ListaEfetiva(p) - p.shipmentCost.GetOr(0.0);
    assert d * -1.0 == -d;
  }

  /** The eligible types (`drop_off`, `xd_drop_off`, `fulfillment`): above the threshold, minus the
      absolute difference between the effective list cost and the shipment cost; otherwise minus
      that difference itself, both rounded. */
  lemma EligibleValue(p: Params)
    requires IsElegivel(NormalizeLogisticType(p.logisticType))
    ensures var d := ListaEfetiva(p) - p.shipmentCost.GetOr(0.0);
      AcimaDoLimite(p) ==> CalcularFreteAdjust(p) == RoundCents(-Abs(d))
    ensures var d := ListaEfetiva(p) - p.shipmentCost.GetOr(0.0);
      !AcimaDoLimite(p) ==> CalcularFreteAdjust(p) == RoundCents(-d)
  {
    var d := ListaEfetiva(p) - p.shipmentCost.GetOr(0.0);
    assert d * -1.0 == -d;
    assert Abs(d) * -1.0 == -Abs(d);
  }

  /** For collection and the eligible types, a zero list cost is read as the base cost. */
  lemma ZeroListFallsBackToBase(p: Params)
    requires var lt := NormalizeLogisticType(p.logisticType); lt == "cross_docking" || IsElegivel(lt)
    requires p.listCost.GetOr(0.0) == 0.0
    ensures CalcularFreteAdjust(p) == CalcularFreteAdjust(p.(listCost := p.baseCost))
  {
    var q := p.(listCost := p.baseCost);
    assert ListaEfetiva(p) == ListaEfetiva(q);
    assert Unitario(p) == Unitario(q);
  }

  /** The eligible types above the threshold always come out as a cost (or 0). */
  lemma EligibleAboveLimitNonPositive(p: Params)
    requires IsElegivel(NormalizeLogisticType(p.logisticType)) && AcimaDoLimite(p)
    ensures CalcularFreteAdjust(p) <= 0.0
  {
    RoundCentsSign(Abs(ListaEfetiva(p) - p.shipmentCost.GetOr(0.0)) * -1.0);
  }

  /** Any other type: 0 below the threshold, otherwise the sentinel -999. */
  lemma OtherTypes(p: Params)
    requires var lt := NormalizeLogisticType(p.logisticType);
      !IsFlex(lt) && lt != "cross_docking" && !IsElegivel(lt)
    ensures CalcularFreteAdjust(p) == if AbaixoDoLimite(p) then 0.0 else -999.0
  {
    RoundCentsOfCents(0.0);
    RoundCentsOfCents(-999.0);
  }

  /** The six scenarios of the script: collection with a list cost, collection and agency with a zero
      list cost, agency spelled out with a list cost, collection with no costs, and collection below
      the threshold. */
  lemma Scenarios()
    ensures CalcularFreteAdjust(Params("cross_docking", Some(177.8), Some(71.12), None, Some(261.7), Some(2.0))) == -71.12
    ensures CalcularFreteAdjust(Params("cross_docking", Some(50.0), Some(0.0), None, Some(298.0), Some(2.0))) == -50.0
    ensures CalcularFreteAdjust(Params("xd_drop_off", Some(40.0), Some(0.0), None, Some(250.0), Some(2.0))) == -40.0
    ensures CalcularFreteAdjust(Params("agencia", Some(50.0), Some(39.83), None, Some(218.0), Some(2.0))) == -39.83
    ensures CalcularFreteAdjust(Params("cross_docking", Some(0.0), Some(0.0), None, Some(298.0), Some(2.0))) == 0.0
    ensures CalcularFreteAdjust(Params("cross_docking", Some(30.0), Some(25.0), None, Some(150.0), Some(2.0))) == 0.0
  {
    ToLowerOfLower("cross_docking");
    ToLowerOfLower("xd_drop_off");
    ToLowerOfLower("agencia");
    RoundCentsOfCents(-71.12);
    RoundCentsOfCents(-50.0);
    RoundCentsOfCents(-40.0);
    RoundCentsOfCents(-39.83);
    RoundCentsOfCents(0.0);
  }
}
