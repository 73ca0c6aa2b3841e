/** The per-order money rules of the Mercado Livre sales sync: reading numbers from the order
    payload, the freight record of an order, the freight adjustment, the sale fee, the contribution
    margin, and the removal of repeated orders before they are saved. */
module MeliSync {
  import opened Wrappers
  import opened Strings
  import opened Money
  import opened Folds
  import opened JsValues
  import FreteAdjust

  // ------------------------------------------------------------------ Order items and quantities

  /** The fields of an order item that the sync reads; a missing field is `JsUndefined`. */
  datatype OrderItem = OrderItem(quantity: JsValue, unitPrice: JsValue, saleFee: JsValue)

  predicate HasQuantity(it: OrderItem) {
    ToFiniteNumber(it.quantity).Some?
  }

  /** `toFiniteNumber(item.quantity) ?? 0` */
  function QuantityOrZero(it: OrderItem): real {
    ToFiniteNumber(it.quantity).GetOr(0.0)
  }

  /** What `sumOrderQuantities` returns for an array of items. */
  function OrderQuantities(items: seq<OrderItem>): Option<real> {
    if exists i :: 0 <= i < |items| && HasQuantity(items[i]) then Some(Sum(items, QuantityOrZero))
    else None
  }

  /** `sumOrderQuantities`: `None` for a value that is not an array or when no item has a finite
      quantity; otherwise the sum of the finite quantities. */
  method SumOrderQuantities(items: Option<seq<OrderItem>>) returns (r: Option<real>)
    ensures items.None? ==> r == None
    ensures items.Some? ==> (r.Some? <==> exists i :: 0 <= i < |items.value| && HasQuantity(items.value[i]))
    ensures r.Some? ==> r.value == Sum(items.value, QuantityOrZero)
    ensures items.Some? ==> r == OrderQuantities(items.value)
  {
    if items.None? {
      return None;
    }
    var xs := items.value;
    var total := 0.0;
    var counted := false;
    for i := 0 to |xs|
      invariant total == Sum(xs[..i], QuantityOrZero)
      invariant counted <==> exists j :: 0 <= j < i && HasQuantity(xs[j])
    {
      SumStep(xs, i, QuantityOrZero);
      AnyQuantityStep(xs, i);
      if HasQuantity(xs[i]) {
        total := total + QuantityOrZero(xs[i]);
        counted := true;
      }
    }
    assert xs[..|xs|] == xs;
    r := if counted then Some(total) else None;
  }

  /** An item with a quantity among the first `i + 1` is one among the first `i`, or item `i`. */
  lemma AnyQuantityStep(xs: seq<OrderItem>, i: nat)
    requires i < |xs|
    ensures (exists j :: 0 <= j < i + 1 && HasQuantity(xs[j])) <==>
      (exists j :: 0 <= j < i && HasQuantity(xs[j])) || HasQuantity(xs[i])
  {
    if exists j :: 0 <= j < i + 1 && HasQuantity(xs[j]) {
      var j :| 0 <= j < i + 1 && HasQuantity(xs[j]);
      if j < i { assert exists k :: 0 <= k < i && HasQuantity(xs[k]); }
    }
  }

  // ------------------------------------------------------------------ Names

  /** `convertLogisticTypeName`: the display name of the three renamed logistic types; any other
      type, including the empty string, is kept. */
  function ConvertLogisticTypeName(lt: Option<string>): (r: Option<string>)
    ensures r.None? <==> lt.None?
    ensures lt == Some("xd_drop_off") ==> r == Some("Agência")
    ensures lt == Some("self_service") ==> r == Some("FLEX")
    ensures lt == Some("cross_docking") ==> r == Some("Coleta")
    ensures (lt.Some? && lt.value != "xd_drop_off" && lt.value != "self_service" && lt.value != "cross_docking")
            ==> r == lt
  {
    if lt.None? || lt.value == "" then lt
    else if lt.value == "xd_drop_off" then Some("Agência")
    else if lt.value == "self_service" then Some("FLEX")
    else if lt.value == "cross_docking" then Some("Coleta")
    else lt
  }

  /** Converting a converted name changes nothing. */
  lemma ConvertLogisticTypeNameIdempotent(lt: Option<string>)
    ensures ConvertLogisticTypeName(ConvertLogisticTypeName(lt)) == ConvertLogisticTypeName(lt)
  {
  }

  /** `mapListingTypeToExposure`: "Premium" for `gold_pro` in any case, "Clássico" for every other
      listing type, `None` when there is none. */
  function MapListingTypeToExposure(lt: Option<string>): (r: Option<string>)
    ensures r.None? <==> lt.None? || lt.value == ""
    ensures r.Some? ==> (r.value == "Premium" <==> ToLower(lt.value) == "gold_pro")
    ensures r.Some? ==> r.value == "Premium" || r.value == "Clássico"
  {
    if lt.None? || lt.value == "" then None
    else
      var normalized := ToLower(lt.value);
      if normalized == "gold_pro" then Some("Premium")
      else if StartsWith(normalized, "gold") then Some("Clássico")
      else if normalized == "silver" then Some("Clássico")
      else Some("Clássico")
  }

  // ------------------------------------------------------------------ Freight adjustment

  datatype Adjustment = Adjustment(adjustedCost: Option<real>, adjustmentSource: Option<string>)

  /** The label stored with an adjustment, from the raw logistic type. */
  function AdjustmentLabel(lt: string): (r: string)
    ensures lt == "self_service" ==> r == "FLEX"
    ensures lt == "drop_off" ==> r == "Correios"
    ensures lt == "xd_drop_off" ==> r == "Agência"
    ensures lt == "fulfillment" ==> r == "FULL"
    ensures lt == "cross_docking" ==> r == "Coleta"
    ensures (lt != "self_service" && lt != "drop_off" && lt != "xd_drop_off" && lt != "fulfillment"
             && lt != "cross_docking") ==> r == lt
  {
    if lt == "self_service" then "FLEX"
    else if lt == "drop_off" then "Correios"
    else if lt == "xd_drop_off" then "Agência"
    else if lt == "fulfillment" then "FULL"
    else if lt == "cross_docking" then "Coleta"
    else lt
  }

  /** The order cost handed to the freight rule: unit price times quantity, when the unit price is
      known and the quantity is neither missing nor 0. */
  function OrderCost(unitPrice: Option<real>, quantity: Option<real>): (r: Option<real>)
    ensures r.Some? <==> unitPrice.Some? && quantity.Some? && quantity.value != 0.0
  {
    if unitPrice.Some? && quantity.Some? && quantity.value != 0.0 then Some(unitPrice.value * quantity.value)
    else None
  }

  function AdjustParams(lt: string, unitPrice: Option<real>, quantity: Option<real>, baseCost: Option<real>,
                        listCost: Option<real>, shipmentCost: Option<real>): FreteAdjust.Params
  {
    FreteAdjust.Params(lt, baseCost, listCost, shipmentCost, OrderCost(unitPrice, quantity), Some(quantity.GetOr(0.0)))
  }

  /** The freight rule sees the order's own unit price (order cost over quantity), a missing unit
      price reading as 0; with no quantity it sees no unit price at all. */
  lemma AdjustParamsUnitPrice(lt: string, unitPrice: Option<real>, quantity: Option<real>, baseCost: Option<real>,
                              listCost: Option<real>, shipmentCost: Option<real>)
    ensures var u := FreteAdjust.Unitario(AdjustParams(lt, unitPrice, quantity, baseCost, listCost, shipmentCost));
      u == if quantity.Some? && quantity.value != 0.0 then Some(unitPrice.GetOr(0.0)) else None
  {
    if quantity.Some? && quantity.value != 0.0 {
      var q := quantity.value;
      var u := FreteAdjust.Unitario(AdjustParams(lt, unitPrice, quantity, baseCost, listCost, shipmentCost));
      assert u.value * q == unitPrice.GetOr(0.0) * q;
    }
  }

  /** `calculateFreightAdjustment`: no adjustment without a logistic type or when the rule answers
      the ±999 sentinel; otherwise the rule's value, which is already whole cents, and a label. */
  function CalculateFreightAdjustment(logisticType: Option<string>, unitPrice: Option<real>, quantity: Option<real>,
                                      baseCost: Option<real>, listCost: Option<real>,
                                      shippingOptionCost: Option<real>, shipmentCost: Option<real>): (r: Adjustment)
    ensures r.adjustedCost.Some? <==> r.adjustmentSource.Some?
    ensures logisticType.None? || logisticType.value == "" ==> r.adjustedCost.None?
    ensures logisticType.Some? && logisticType.value != "" ==>
      var a := FreteAdjust.CalcularFreteAdjust(AdjustParams(logisticType.value, unitPrice, quantity, baseCost, listCost, shipmentCost));
      (r.adjustedCost.None? <==> Abs(a) == 999.0) && (r.adjustedCost.Some? ==> r.adjustedCost.value == a)
    ensures r.adjustmentSource.Some? ==> r.adjustmentSource.value == AdjustmentLabel(logisticType.value)
  {
    if logisticType.None? || logisticType.value == "" then Adjustment(None, None)
    else
      var freteAdjust := FreteAdjust.CalcularFreteAdjust(
        AdjustParams(logisticType.value, unitPrice, quantity, baseCost, listCost, shipmentCost));
      if Abs(freteAdjust) == 999.0 then Adjustment(None, None)
      else
        RoundCentsOfCents(freteAdjust);
        Adjustment(Some(RoundCents(freteAdjust)), Some(AdjustmentLabel(logisticType.value)))
  }

  /** The sentinel: a type with no rule, for an order not below the threshold, gets no override. */
  lemma SentinelMeansNoOverride(logisticType: string, unitPrice: Option<real>, quantity: Option<real>,
                                baseCost: Option<real>, listCost: Option<real>,
                                shippingOptionCost: Option<real>, shipmentCost: Option<real>)
    requires var lt := FreteAdjust.NormalizeLogisticType(logisticType);
      logisticType != "" && !FreteAdjust.IsFlex(lt) && lt != "cross_docking" && !FreteAdjust.IsElegivel(lt)
    requires !(quantity.Some? && quantity.value != 0.0 && unitPrice.GetOr(0.0) < FreteAdjust.LIMITE_UNITARIO)
    ensures CalculateFreightAdjustment(Some(logisticType), unitPrice, quantity, baseCost, listCost,
                                       shippingOptionCost, shipmentCost).adjustedCost.None?
  {
    var p := AdjustParams(logisticType, unitPrice, quantity, baseCost, listCost, shipmentCost);
    AdjustParamsUnitPrice(logisticType, unitPrice, quantity, baseCost, listCost, shipmentCost);
    FreteAdjust.OtherTypes(p);
  }

  /** 0 is a real override: a collection order below the threshold (or with no unit price) is
      saved with freight 0. */
  lemma ZeroIsAnOverride(unitPrice: Option<real>, quantity: Option<real>, baseCost: Option<real>,
                         listCost: Option<real>, shippingOptionCost: Option<real>, shipmentCost: Option<real>)
    requires quantity.Some? && quantity.value != 0.0
    requires unitPrice.GetOr(0.0) < FreteAdjust.LIMITE_UNITARIO
    ensures CalculateFreightAdjustment(Some("cross_docking"), unitPrice, quantity, baseCost, listCost,
                                       shippingOptionCost, shipmentCost) == Adjustment(Some(0.0), Some("Coleta"))
  {
    AdjustParamsUnitPrice("cross_docking", unitPrice, quantity, baseCost, listCost, shipmentCost);
    FreteAdjust.ToLowerOfLower("cross_docking");
  }

  // ------------------------------------------------------------------ Freight record

  datatype FreightSource = FromShippingOption | FromShipment | FromOrder

  /** What `calculateFreight` reads of an order and its shipment. The strings are `None` when the
      field is not a string, the numbers are raw payload values (`JsUndefined` when absent), and
      `items` is empty when `order_items` is not an array. */
  datatype FreightInput = FreightInput(
    shippingMode: Option<string>,
    logisticType: Option<string>,
    baseCost: JsValue,
    optionCost: JsValue,
    listCost: JsValue,
    shipmentCost: JsValue,
    orderShippingCost: JsValue,
    totalAmount: JsValue,
    items: seq<OrderItem>)

  datatype Freight = Freight(
    logisticType: Option<string>,
    logisticTypeSource: Option<FreightSource>,
    shippingMode: Option<string>,
    baseCost: Option<real>,
    listCost: Option<real>,
    shippingOptionCost: Option<real>,
    shipmentCost: Option<real>,
    orderCostFallback: Option<real>,
    finalCost: Option<real>,
    finalCostSource: Option<FreightSource>,
    chargedCost: Option<real>,
    chargedCostSource: Option<FreightSource>,
    discount: Option<real>,
    totalAmount: Option<real>,
    quantity: Option<real>,
    unitPrice: Option<real>,
    diffBaseList: Option<real>,
    adjustedCost: Option<real>,
    adjustmentSource: Option<string>)

  function RoundOpt(v: Option<real>): (r: Option<real>)
    ensures r.Some? <==> v.Some?
  {
    if v.Some? then Some(RoundCents(v.value)) else None
  }

  /** The order's quantity: the summed item quantities, else the number of items, else 1 when
      there is a total. */
  function FreightQuantity(items: seq<OrderItem>, totalAmount: Option<real>): (r: Option<real>)
    ensures OrderQuantities(items).Some? ==> r == OrderQuantities(items)
    ensures r.None? <==> |items| == 0 && totalAmount.None?
  {
    var q := OrderQuantities(items);
    if q.Some? then q
    else if |items| > 0 then Some(|items| as real)
    else if totalAmount.Some? then Some(1.0)
    else None
  }

  /** The unit price: the total over a positive quantity, else the total itself, in cents. */
  function FreightUnitPrice(totalAmount: Option<real>, quantity: Option<real>): (r: Option<real>)
    ensures r.Some? <==> totalAmount.Some?
    ensures r.Some? ==> IsCents(r.value)
    ensures r.Some? && quantity.Some? && quantity.value > 0.0 ==>
      totalAmount.value / quantity.value - 0.005 < r.value <= totalAmount.value / quantity.value + 0.005
    ensures r.Some? ==> r.value == RoundCents(if quantity.Some? && quantity.value > 0.0
                                              then totalAmount.value / quantity.value else totalAmount.value)
  {
    if totalAmount.Some? && quantity.Some? && quantity.value > 0.0 then Some(RoundCents(totalAmount.value / quantity.value))
    else if totalAmount.Some? then Some(RoundCents(totalAmount.value))
    else None
  }

  /** The charged cost before rounding and where it came from: the shipping option's cost, else
      the shipment's, else the order's. */
  function Charged(opt: Option<real>, ship: Option<real>, ord: Option<real>): (r: (Option<real>, Option<FreightSource>))
    ensures r.1 == Some(FromShippingOption) <==> opt.Some?
    ensures r.1 == Some(FromShipment) <==> opt.None? && ship.Some?
    ensures r.1 == Some(FromOrder) <==> opt.None? && ship.None? && ord.Some?
    ensures r.0.Some? <==> r.1.Some?
    ensures r.1 == Some(FromShippingOption) ==> r.0 == opt
    ensures r.1 == Some(FromShipment) ==> r.0 == ship
    ensures r.1 == Some(FromOrder) ==> r.0 == ord
  {
    if opt.Some? then (opt, Some(FromShippingOption))
    else if ship.Some? then (ship, Some(FromShipment))
    else if ord.Some? then (ord, Some(FromOrder))
    else (None, None)
  }

  /** Where the logistic type came from: the shipment when it has a non-empty one, else the order's
      shipping mode when that is non-empty. */
  function LogisticTypeSource(raw: Option<string>, mode: Option<string>): (r: Option<FreightSource>)
    ensures r == Some(FromShipment) <==> raw.Some? && raw.value != ""
    ensures r.None? ==> (raw.None? || raw.value == "") && (mode.None? || mode.value == "")
    ensures r != Some(FromShippingOption)
  {
    if raw.Some? && raw.value != "" then Some(FromShipment)
    else if mode.Some? && mode.value != "" then Some(FromOrder)
    else None
  }

  /** `a - b` rounded to cents, present exactly when both are. */
  function RoundedDifference(a: Option<real>, b: Option<real>): (r: Option<real>)
    ensures r.Some? <==> a.Some? && b.Some?
    ensures r.Some? ==> r.value == RoundCents(a.value - b.value) && IsCents(r.value)
  {
    if a.Some? && b.Some? then Some(RoundCents(a.value - b.value)) else None
  }

  /** `calculateFreight`: the freight record of an order. The charged cost is the shipping option's
      cost, else the shipment's, else the order's, rounded to cents; the discount exists only when
      both the list cost and the charged cost do. */
  function CalculateFreight(inp: FreightInput): (r: Freight)
    ensures var opt := ToFiniteNumber(inp.optionCost);
            var ship := ToFiniteNumber(inp.shipmentCost);
            var ord := ToFiniteNumber(inp.orderShippingCost);
      && (r.chargedCostSource == Some(FromShippingOption) <==> opt.Some?)
      && (r.chargedCostSource == Some(FromShipment) <==> opt.None? && ship.Some?)
      && (r.chargedCostSource == Some(FromOrder) <==> opt.None? && ship.None? && ord.Some?)
      && (r.chargedCost.Some? <==> r.chargedCostSource.Some?)
    ensures r.chargedCostSource == Some(FromShippingOption) ==> r.chargedCost == r.shippingOptionCost
    ensures r.chargedCostSource == Some(FromShipment) ==> r.chargedCost == r.shipmentCost
    ensures r.chargedCostSource == Some(FromOrder) ==> r.chargedCost == r.orderCostFallback
    ensures r.finalCost == r.chargedCost && r.finalCostSource == r.chargedCostSource
    ensures r.discount == RoundedDifference(r.listCost, r.chargedCost)
    ensures r.diffBaseList == RoundedDifference(r.baseCost, r.listCost)
    ensures var opt := ToFiniteNumber(inp.optionCost);
            var ship := ToFiniteNumber(inp.shipmentCost);
            var ord := ToFiniteNumber(inp.orderShippingCost);
      && r.chargedCost == RoundOpt(Charged(opt, ship, ord).0)
      && r.shippingOptionCost == RoundOpt(opt) && r.shipmentCost == RoundOpt(ship) && r.orderCostFallback == RoundOpt(ord)
    ensures r.listCost == ToFiniteNumber(inp.listCost) && r.baseCost == ToFiniteNumber(inp.baseCost)
    ensures r.totalAmount == ToFiniteNumber(inp.totalAmount)
    ensures r.quantity == FreightQuantity(inp.items, r.totalAmount)
    ensures r.unitPrice == FreightUnitPrice(r.totalAmount, r.quantity)
    ensures var adj := CalculateFreightAdjustment(if inp.logisticType.Some? then inp.logisticType else inp.shippingMode,
                                                  r.unitPrice, r.quantity, r.baseCost, r.listCost,
                                                  ToFiniteNumber(inp.optionCost), ToFiniteNumber(inp.shipmentCost));
      r.adjustedCost == adj.adjustedCost && r.adjustmentSource == adj.adjustmentSource
  {
    var logisticType := if inp.logisticType.Some? then inp.logisticType else inp.shippingMode;
    var baseCost := ToFiniteNumber(inp.baseCost);
    var optCost := ToFiniteNumber(inp.optionCost);
    var listCost := ToFiniteNumber(inp.listCost);
    var shipCost := ToFiniteNumber(inp.shipmentCost);
    var orderCost := ToFiniteNumber(inp.orderShippingCost);
    var charged := Charged(optCost, shipCost, orderCost);
    var chargedCost := RoundOpt(charged.0);
    var discount := RoundedDifference(listCost, chargedCost);
    var totalAmount := ToFiniteNumber(inp.totalAmount);
    var quantity := FreightQuantity(inp.items, totalAmount);
    var unitPrice := FreightUnitPrice(totalAmount, quantity);
    var diffBaseList := RoundedDifference(baseCost, listCost);
    var adj := CalculateFreightAdjustment(logisticType, unitPrice, quantity, baseCost, listCost, optCost, shipCost);
    Freight(ConvertLogisticTypeName(logisticType), LogisticTypeSource(inp.logisticType, inp.shippingMode),
            inp.shippingMode, baseCost, listCost,
            RoundOpt(optCost), RoundOpt(shipCost), RoundOpt(orderCost),
            chargedCost, charged.1, chargedCost, charged.1,
            discount, totalAmount, quantity, unitPrice, diffBaseList, adj.adjustedCost, adj.adjustmentSource)
  }

  /** The quantity is missing only for an order without items and without a total; the unit price
      exists exactly when the total does; an adjusted cost is in cents and has a logistic type. */
  lemma FreightQuantityAndPrice(inp: FreightInput)
    ensures var r := CalculateFreight(inp);
      && (r.quantity.None? <==> |inp.items| == 0 && r.totalAmount.None?)
      && (r.unitPrice.Some? <==> r.totalAmount.Some?)
      && (r.adjustedCost.Some? ==> r.logisticType.Some? && IsCents(r.adjustedCost.value))
  {
  }

  /** The logistic type is the shipment's, else the order's shipping mode, under its display name;
      it is marked as the shipment's exactly when the shipment has a non-empty one. */
  lemma FreightLogisticType(inp: FreightInput)
    ensures var r := CalculateFreight(inp);
      && (r.logisticTypeSource == Some(FromShipment) <==> inp.logisticType.Some? && inp.logisticType.value != "")
      && (r.logisticTypeSource.None? ==> r.logisticType.None? || r.logisticType == Some(""))
      && r.logisticType == ConvertLogisticTypeName(if inp.logisticType.Some? then inp.logisticType else inp.shippingMode)
  {
  }

  // ------------------------------------------------------------------ Contribution margin

  datatype Margem = Margem(valor: real, isMargemReal: bool)

  /** `calculateMargemContribuicao`: total + platform fee (already negative, missing counts as 0)
      + freight, minus the CMV when it is known and positive; only then is it a real margin. */
  function CalculateMargemContribuicao(valorTotal: real, taxaPlataforma: Option<real>, frete: real, cmv: Option<real>): (r: Margem)
    ensures r.isMargemReal <==> cmv.Some? && cmv.value > 0.0
    ensures IsCents(r.valor)
    ensures var receitaLiquida := valorTotal + taxaPlataforma.GetOr(0.0) + frete;
      r.valor == RoundCents(if r.isMargemReal then receitaLiquida - cmv.value else receitaLiquida)
  {
    var taxa := taxaPlataforma.GetOr(0.0);
    if cmv.Some? && cmv.value > 0.0 then Margem(RoundCents(valorTotal + taxa + frete - cmv.value), true)
    else Margem(RoundCents(valorTotal + taxa + frete), false)
  }

  /** A real margin never exceeds the net revenue reported when the CMV is unknown, and a CMV that is
      not positive is the same as an unknown one. */
  lemma MargemBelowReceitaLiquida(valorTotal: real, taxaPlataforma: Option<real>, frete: real, cmv: Option<real>)
    ensures var semCmv := CalculateMargemContribuicao(valorTotal, taxaPlataforma, frete, None);
      && !semCmv.isMargemReal
      && CalculateMargemContribuicao(valorTotal, taxaPlataforma, frete, cmv).valor <= semCmv.valor
      && (cmv.None? || cmv.value <= 0.0 ==> CalculateMargemContribuicao(valorTotal, taxaPlataforma, frete, cmv) == semCmv)
  {
    var receita := valorTotal + taxaPlataforma.GetOr(0.0) + frete;
    if cmv.Some? && cmv.value > 0.0 {
      RoundCentsMonotone(receita - cmv.value, receita);
    }
  }

  // ------------------------------------------------------------------ Per-order money fields

  /** `toFiniteNumber(item.quantity) ?? 0` times `toFiniteNumber(item.unit_price) ?? 0` */
  function LineAmount(it: OrderItem): real {
    QuantityOrZero(it) * ToFiniteNumber(it.unitPrice).GetOr(0.0)
  }

  /** The item's sale fee, which the API gives per unit, times its quantity (a missing fee counts as
      0, a missing quantity as 1). */
  function LineFee(it: OrderItem): real {
    ToFiniteNumber(it.saleFee).GetOr(0.0) * ToFiniteNumber(it.quantity).GetOr(1.0)
  }

  /** The money fields the sync stores for an order. */
  datatype VendaMoney = VendaMoney(
    quantidade: real,
    valorTotal: real,
    saleFee: real,
    unitario: real,
    taxaPlataforma: Option<real>,
    frete: real,
    cmv: Option<real>,
    margem: Margem)

  /** The money fields of one order, from its items, its total, its freight record and the unit
      cost of its SKU (`None` when the order has no SKU or the SKU has no known cost). */
  function VendaMoneyOf(items: seq<OrderItem>, totalAmount: JsValue, freight: Freight, custoUnitario: Option<real>): (r: VendaMoney)
    ensures r.quantidade == Sum(items, QuantityOrZero)
    ensures ToFiniteNumber(totalAmount).Some? ==> r.valorTotal == ToFiniteNumber(totalAmount).value
    ensures ToFiniteNumber(totalAmount).None? ==> r.valorTotal == Sum(items, LineAmount)
    ensures r.saleFee == Sum(items, LineFee)
    ensures r.taxaPlataforma.Some? <==> r.saleFee > 0.0
    ensures r.taxaPlataforma.Some? ==> r.taxaPlataforma.value <= 0.0 && r.taxaPlataforma.value == -RoundCents(r.saleFee)
    ensures freight.adjustedCost.Some? ==> r.frete == freight.adjustedCost.value
    ensures freight.adjustedCost.None? && freight.finalCost.Some? ==> r.frete == freight.finalCost.value
    ensures freight.adjustedCost.None? && freight.finalCost.None? ==> r.frete == freight.orderCostFallback.GetOr(0.0)
    ensures r.cmv == CmvOf(custoUnitario, r.quantidade)
    ensures r.margem == CalculateMargemContribuicao(r.valorTotal, r.taxaPlataforma, r.frete, r.cmv)
    ensures |items| > 0 && ToFiniteNumber(items[0].unitPrice).Some? ==> r.unitario == ToFiniteNumber(items[0].unitPrice).value
    ensures (|items| == 0 || ToFiniteNumber(items[0].unitPrice).None?) ==>
      r.unitario == if r.quantidade > 0.0 then RoundCents(r.valorTotal / r.quantidade) else 0.0
  {
    var quantity := Sum(items, QuantityOrZero);
    var total := if ToFiniteNumber(totalAmount).Some? then ToFiniteNumber(totalAmount).value else Sum(items, LineAmount);
    var saleFee := Sum(items, LineFee);
    var firstPrice := if |items| > 0 then ToFiniteNumber(items[0].unitPrice) else None;
    var unitario := if firstPrice.Some? then firstPrice.value
                    else if quantity > 0.0 then RoundCents(total / quantity) else 0.0;
    var taxaPlataforma := if saleFee > 0.0 then Some(-RoundCents(saleFee)) else None;
    RoundCentsSign(saleFee);
    var frete := if freight.adjustedCost.Some? then freight.adjustedCost.value
                 else if freight.finalCost.Some? then freight.finalCost.value
                 else freight.orderCostFallback.GetOr(0.0);
    var cmv := CmvOf(custoUnitario, quantity);
    VendaMoney(quantity, total, saleFee, unitario, taxaPlataforma, frete, cmv,
               CalculateMargemContribuicao(total, taxaPlataforma, frete, cmv))
  }

  /** The CMV of an order: its SKU's unit cost times the order quantity, in cents, when known. */
  function CmvOf(custoUnitario: Option<real>, quantidade: real): (r: Option<real>)
    ensures r.Some? <==> custoUnitario.Some?
    ensures r.Some? ==> IsCents(r.value) && r.value == RoundCents(custoUnitario.value * quantidade)
  {
    if custoUnitario.Some? then Some(RoundCents(custoUnitario.value * quantidade)) else None
  }

  /** The quantity stored with an order is the one `sumOrderQuantities` computes, or 0 when that
      finds no quantity. */
  lemma VendaQuantityMatchesOrderQuantities(items: seq<OrderItem>, totalAmount: JsValue, freight: Freight,
                                            custoUnitario: Option<real>)
    ensures var q := VendaMoneyOf(items, totalAmount, freight, custoUnitario).quantidade;
      OrderQuantities(items) == (if q == 0.0 && OrderQuantities(items).None? then None else Some(q))
  {
    if OrderQuantities(items).None? {
      SumZero(items, QuantityOrZero);
    }
  }

  /** With non-negative per-unit fees and quantities the sale fee is non-negative, and with every
      quantity 1 it is the sum of the fees. */
  lemma SaleFeeLaws(items: seq<OrderItem>)
    ensures (forall i :: 0 <= i < |items| ==> LineFee(items[i]) >= 0.0) ==> Sum(items, LineFee) >= 0.0
    ensures (forall i :: 0 <= i < |items| ==> ToFiniteNumber(items[i].quantity).GetOr(1.0) == 1.0) ==>
      Sum(items, LineFee) == Sum(items, FeeOf)
  {
    if forall i :: 0 <= i < |items| ==> LineFee(items[i]) >= 0.0 {
      SumNonneg(items, LineFee);
    }
    if forall i :: 0 <= i < |items| ==> ToFiniteNumber(items[i].quantity).GetOr(1.0) == 1.0 {
      forall i | 0 <= i < |items| ensures LineFee(items[i]) == FeeOf(items[i]) {
        var fee := ToFiniteNumber(items[i].saleFee).GetOr(0.0);
        assert LineFee(items[i]) == fee * 1.0;
      }
      SumPointwise(items, LineFee, FeeOf);
    }
  }

  /** `toFiniteNumber(item.sale_fee) ?? 0` */
  function FeeOf(it: OrderItem): real {
    ToFiniteNumber(it.saleFee).GetOr(0.0)
  }

  // ------------------------------------------------------------------ Repeated orders

  /** An order id as the payload holds it: Mercado Livre sends numbers, other sources strings. */
  datatype IdValue = IdNumber(n: nat) | IdText(s: string)

  datatype RawOrder = RawOrder(id: Option<IdValue>, items: seq<OrderItem>, totalAmount: JsValue)

  datatype MeliOrderPayload = MeliOrderPayload(accountId: string, order: Option<RawOrder>)

  /** `String(id)` */
  function IdString(id: IdValue): string {
    match id
    case IdNumber(n) => NatToString(n)
    case IdText(s) => s
  }

  /** `extractOrderIdFromPayload`: the trimmed id, or `None` when the order, its id or the trimmed
      text is missing. */
  function ExtractOrderId(p: MeliOrderPayload): (r: Option<string>)
    ensures r.Some? <==> p.order.Some? && p.order.value.id.Some? && !IsBlank(IdString(p.order.value.id.value))
    ensures r.Some? ==> r.value == Trim(IdString(p.order.value.id.value)) && r.value != ""
  {
    if p.order.None? || p.order.value.id.None? then None
    else
      var id := Trim(IdString(p.order.value.id.value));
      TrimEmptyIffBlank(IdString(p.order.value.id.value));
      if |id| == 0 then None else Some(id)
  }

  /** A numeric id always yields its decimal digits. */
  lemma NumericIdExtracted(p: MeliOrderPayload, n: nat)
    requires p.order.Some? && p.order.value.id == Some(IdNumber(n))
    ensures ExtractOrderId(p) == Some(NatToString(n))
  {
    TrimOfDigits(NatToString(n));
  }

  // The removal of repeated orders is written for any key function, so that the proofs about it do
  // not look inside `ExtractOrderId`.

  /** The keys of the elements of `s`. */
  function SeenKeys<T, K(==)>(s: seq<T>, key: T -> Option<K>): set<K> {
    if |s| == 0 then {}
    else SeenKeys(s[..|s| - 1], key) + (if key(s[|s| - 1]).Some? then {key(s[|s| - 1]).value} else {})
  }

  lemma {:induction false} SeenKeysMembership<T, K>(s: seq<T>, key: T -> Option<K>, x: K)
    ensures x in SeenKeys(s, key) <==> exists j :: 0 <= j < |s| && key(s[j]) == Some(x)
    decreases |s|
  {
    if |s| > 0 {
      var init := s[..|s| - 1];
      SeenKeysMembership(init, key, x);
      assert forall j :: 0 <= j < |init| ==> init[j] == s[j];
    }
  }

  /** The elements kept, in order: every element without a key, and an element with a key only
      when no earlier element had that key. */
  function Unique<T, K(==)>(s: seq<T>, key: T -> Option<K>): (r: seq<T>)
    ensures |r| <= |s|
  {
    if |s| == 0 then []
    else
      var init := s[..|s| - 1];
      var o := s[|s| - 1];
      if key(o).None? || key(o).value !in SeenKeys(init, key) then Unique(init, key) + [o] else Unique(init, key)
  }

  /** The prefix of `s` one element longer: its last element is `s[i]`. */
  lemma PrefixStep<T, K>(s: seq<T>, key: T -> Option<K>, i: nat)
    requires i < |s|
    ensures SeenKeys(s[..i + 1], key) == SeenKeys(s[..i], key) + (if key(s[i]).Some? then {key(s[i]).value} else {})
    ensures Unique(s[..i + 1], key) ==
      if key(s[i]).None? || key(s[i]).value !in SeenKeys(s[..i], key) then Unique(s[..i], key) + [s[i]] else Unique(s[..i], key)
  {
    var t := s[..i + 1];
    assert t[..|t| - 1] == s[..i];
    assert t[|t| - 1] == s[i];
  }

  /** A step of the walk over an element without a key: it is kept and nothing is remembered. */
  lemma StepKeyless<T, K>(s: seq<T>, key: T -> Option<K>, i: nat)
    requires i < |s| && key(s[i]).None?
    ensures SeenKeys(s[..i + 1], key) == SeenKeys(s[..i], key)
    ensures Unique(s[..i + 1], key) == Unique(s[..i], key) + [s[i]]
  {
    PrefixStep(s, key, i);
  }

  /** A step over the first element with its key: it is kept and its key is remembered. */
  lemma StepFirstSeen<T, K>(s: seq<T>, key: T -> Option<K>, i: nat)
    requires i < |s| && key(s[i]).Some? && key(s[i]).value !in SeenKeys(s[..i], key)
    ensures SeenKeys(s[..i + 1], key) == SeenKeys(s[..i], key) + {key(s[i]).value}
    ensures Unique(s[..i + 1], key) == Unique(s[..i], key) + [s[i]]
  {
    PrefixStep(s, key, i);
  }

  /** A step over a repeated key: the element is dropped and nothing changes. */
  lemma StepDuplicate<T, K>(s: seq<T>, key: T -> Option<K>, i: nat)
    requires i < |s| && key(s[i]).Some? && key(s[i]).value in SeenKeys(s[..i], key)
    ensures SeenKeys(s[..i + 1], key) == SeenKeys(s[..i], key)
    ensures Unique(s[..i + 1], key) == Unique(s[..i], key)
  {
    PrefixStep(s, key, i);
  }

  /** `deduplicateOrders`: the orders without repeated ids, and how many were dropped. */
  method DeduplicateOrders(orders: seq<MeliOrderPayload>) returns (uniqueOrders: seq<MeliOrderPayload>, duplicates: nat)
    ensures uniqueOrders == Unique(orders, ExtractOrderId)
    ensures |uniqueOrders| + duplicates == |orders|
  {
    var seen: set<string> := {};
    uniqueOrders := [];
    duplicates := 0;
    for i := 0 to |orders|
      invariant seen == SeenKeys(orders[..i], ExtractOrderId)
      invariant uniqueOrders == Unique(orders[..i], ExtractOrderId)
      invariant |uniqueOrders| + duplicates == i
    {
      var orderId := ExtractOrderId(orders[i]);
      if orderId.None? {
        StepKeyless(orders, ExtractOrderId, i);
        uniqueOrders := uniqueOrders + [orders[i]];
        continue;
      }
      if orderId.value in seen {
        StepDuplicate(orders, ExtractOrderId, i);
        duplicates := duplicates + 1;
        continue;
      }
      StepFirstSeen(orders, ExtractOrderId, i);
      seen := seen + {orderId.value};
      uniqueOrders := uniqueOrders + [orders[i]];
    }
    assert orders[..|orders|] == orders;
  }

  /** No two elements with a key share it. */
  predicate DistinctKeys<T, K(==)>(s: seq<T>, key: T -> Option<K>) {
    forall i, j :: 0 <= i < j < |s| && key(s[i]).Some? ==> key(s[i]) != key(s[j])
  }

  /** The kept elements carry every key of the input, each only once, and are drawn from it. */
  lemma {:induction false} UniqueKeys<T, K>(s: seq<T>, key: T -> Option<K>)
    ensures SeenKeys(Unique(s, key), key) == SeenKeys(s, key)
    ensures DistinctKeys(Unique(s, key), key)
    ensures forall i :: 0 <= i < |Unique(s, key)| ==> Unique(s, key)[i] in s
    decreases |s|
  {
    if |s| > 0 {
      var init := s[..|s| - 1];
      var o := s[|s| - 1];
      UniqueKeys(init, key);
      var k := Unique(init, key);
      if key(o).None? || key(o).value !in SeenKeys(init, key) {
        var k2 := k + [o];
        assert k2[..|k2| - 1] == k;
        forall i, j | 0 <= i < j < |k2| && key(k2[i]).Some?
          ensures key(k2[i]) != key(k2[j])
        {
          if j == |k2| - 1 {
            assert k2[i] == k[i];
            SeenKeysMembership(k, key, key(k[i]).value);
          } else {
            assert k2[i] == k[i] && k2[j] == k[j];
          }
        }
      }
    }
  }

  predicate HasNoKey<T, K>(key: T -> Option<K>, o: T) {
    key(o).None?
  }

  /** Elements without a key are all kept, in their order. */
  lemma {:induction false} UniqueKeyless<T, K>(s: seq<T>, key: T -> Option<K>)
    ensures Filter(Unique(s, key), o => HasNoKey(key, o)) == Filter(s, o => HasNoKey(key, o))
    decreases |s|
  {
    if |s| > 0 {
      var init := s[..|s| - 1];
      var o := s[|s| - 1];
      UniqueKeyless(init, key);
      var k := Unique(init, key);
      if key(o).None? || key(o).value !in SeenKeys(init, key) {
        assert (k + [o])[..|k + [o]| - 1] == k;
      }
    }
  }

  /** The first element with a given key is kept. */
  lemma {:induction false} FirstOccurrenceKept<T, K>(s: seq<T>, key: T -> Option<K>, i: nat)
    requires i < |s|
    requires forall j :: 0 <= j < i ==> key(s[j]) != key(s[i]) || key(s[i]).None?
    ensures s[i] in Unique(s, key)
    decreases |s|
  {
    var init := s[..|s| - 1];
    if i == |s| - 1 {
      if key(s[i]).Some? {
        SeenKeysMembership(init, key, key(s[i]).value);
        forall j | 0 <= j < |init| ensures key(init[j]) != key(s[i]) {
          assert init[j] == s[j];
        }
      }
    } else {
      assert forall j :: 0 <= j <= i ==> init[j] == s[j];
      FirstOccurrenceKept(init, key, i);
    }
  }

  /** Elements whose keys are already distinct are all kept. */
  lemma {:induction false} UniqueOfDistinct<T, K>(s: seq<T>, key: T -> Option<K>)
    requires DistinctKeys(s, key)
    ensures Unique(s, key) == s
    decreases |s|
  {
    if |s| > 0 {
      var init := s[..|s| - 1];
      var o := s[|s| - 1];
      assert DistinctKeys(init, key) by {
        forall i, j | 0 <= i < j < |init| && key(init[i]).Some?
          ensures key(init[i]) != key(init[j])
        {
          assert init[i] == s[i] && init[j] == s[j];
        }
      }
      UniqueOfDistinct(init, key);
      if key(o).Some? {
        SeenKeysMembership(init, key, key(o).value);
        forall j | 0 <= j < |init| ensures key(init[j]) != key(o) {
          assert init[j] == s[j];
        }
      }
      assert s == init + [o];
    }
  }

  /** Removing repeated orders twice removes nothing more. */
  lemma UniqueIdempotent<T, K>(s: seq<T>, key: T -> Option<K>)
    ensures Unique(Unique(s, key), key) == Unique(s, key)
  {
    UniqueKeys(s, key);
    UniqueOfDistinct(Unique(s, key), key);
  }
}
