/** The Shopee sales sync: the time windows it asks the Shopee API for, where it starts, and the
    money fields it derives for each order (platform fee, net freight with the automatic rebate,
    and margin). The API calls and the database writes are not part of this model. */
module ShopeeSync {
  import opened Wrappers
  import opened Money
  import opened Folds
  import opened JsValues

  const DAY_MS: int := 24 * 60 * 60 * 1000
  const MAX_WINDOW_DAYS: int := 15
  const MAX_WINDOW_MS: int := MAX_WINDOW_DAYS * DAY_MS

  /** `epochSeconds`: whole seconds since the epoch, rounded down, of a time in milliseconds. */
  function EpochSeconds(ms: int): (r: int)
    ensures r * 1000 <= ms < r * 1000 + 1000
  {
    ms / 1000
  }

  // ------------------------------------------------------------------ Windows

  /** A window of milliseconds, both ends included. */
  datatype Window = Window(start: int, end: int)

  /** `ws` tiles `[since, now)`: consecutive windows of at most 15 days, each starting 1 ms after
      the previous one ends, the first at `since`, the last ending at `now` -- or at `now - 1` when a
      full 15-day window ends there, since the next window would start at `now` and the loop stops. */
  predicate Tiles(ws: seq<Window>, since: int, now: int) {
    && (since >= now ==> ws == [])
    && (since < now ==> |ws| > 0 && ws[0].start == since && now - 1 <= ws[|ws| - 1].end)
    && (forall i :: 0 <= i < |ws| ==> ws[i].start < ws[i].end <= now && ws[i].end - ws[i].start <= MAX_WINDOW_MS)
    && (forall i :: 0 < i < |ws| ==> ws[i].start == ws[i - 1].end + 1)
  }

  /** The windows of `fetchAllShopeeOrdersSince`, in the order they are fetched. */
  method SyncWindows(since: int, now: int) returns (ws: seq<Window>)
    ensures Tiles(ws, since, now)
  {
    ws := [];
    var windowStart := since;
    while windowStart < now
      invariant since >= now ==> ws == [] && windowStart == since
      invariant since < now ==> (|ws| == 0 <==> windowStart == since)
      invariant |ws| > 0 ==> ws[0].start == since && windowStart == ws[|ws| - 1].end + 1 && ws[|ws| - 1].end <= now
      invariant forall i :: 0 <= i < |ws| ==> ws[i].start < ws[i].end <= now && ws[i].end - ws[i].start <= MAX_WINDOW_MS
      invariant forall i :: 0 < i < |ws| ==> ws[i].start == ws[i - 1].end + 1
      decreases now - windowStart
    {
      var windowEnd := if windowStart + MAX_WINDOW_MS < now then windowStart + MAX_WINDOW_MS else now;
      ws := ws + [Window(windowStart, windowEnd)];
      windowStart := windowEnd + 1;
    }
  }

  /** Every millisecond of `[since, now)` falls in exactly one window of a tiling. */
  lemma {:induction false} TilesCover(ws: seq<Window>, since: int, now: int, t: int)
    requires Tiles(ws, since, now) && since <= t < now
    ensures exists i :: 0 <= i < |ws| && ws[i].start <= t <= ws[i].end
    ensures forall i, j :: 0 <= i < |ws| && 0 <= j < |ws| && ws[i].start <= t <= ws[i].end && ws[j].start <= t <= ws[j].end ==> i == j
  {
    OrderedWindows(ws, since, now);
    var i := 0;
    while i < |ws| - 1 && ws[i].end < t
      invariant 0 <= i < |ws| && ws[i].start <= t
      decreases |ws| - i
    {
      i := i + 1;
    }
  }

  /** In a tiling a later window starts after every earlier one ends. */
  lemma OrderedWindows(ws: seq<Window>, since: int, now: int)
    requires Tiles(ws, since, now)
    ensures forall i, j :: 0 <= i < j < |ws| ==> ws[i].end < ws[j].start
  {
    forall i, j | 0 <= i < j < |ws| ensures ws[i].end < ws[j].start {
      var k := i + 1;
      while k < j
        invariant i + 1 <= k <= j && ws[i].end < ws[k].start
      {
        k := k + 1;
      }
    }
  }

  /** Where a sync starts: a day before the account's last sale, or 180 days back without one. */
  function SyncSince(lastSale: Option<int>, now: int): (r: int)
    ensures lastSale.Some? ==> r + DAY_MS == lastSale.value
    ensures lastSale.None? ==> now - r == 180 * DAY_MS
  {
    if lastSale.Some? then lastSale.value - DAY_MS else now - 180 * DAY_MS
  }

  // ------------------------------------------------------------------ Money of one order

  /** The fields of `escrow_details.order_income` the sync reads. */
  datatype OrderIncome = OrderIncome(commissionFee: JsValue, serviceFee: JsValue, actualShippingFee: JsValue,
                                     reverseShippingFee: JsValue, shopeeShippingRebate: JsValue,
                                     buyerPaidShippingFee: JsValue, shippingFeeDiscountFrom3pl: JsValue)

  datatype ShopeeItem = ShopeeItem(quantityPurchased: JsValue, originalPrice: JsValue)

  datatype ShopeeOrder = ShopeeOrder(createTime: JsValue, totalAmount: JsValue, items: seq<ShopeeItem>, income: OrderIncome)

  function QuantityOf(it: ShopeeItem): real {
    ToFiniteNumber(it.quantityPurchased).GetOr(0.0)
  }

  /** The automatic rebate: when the order has freight, no rebate, and the buyer paid (almost) all
      of it, the rebate becomes what the buyer did not pay. */
  function AutoRebate(actual: real, rebate: real, buyer: real): (r: real)
    ensures !(actual > 0.0 && rebate == 0.0) ==> r == rebate
    ensures actual > 0.0 && rebate == 0.0 && actual - buyer < 0.01 ==> r + buyer == actual
    ensures actual > 0.0 && rebate == 0.0 && actual - buyer >= 0.01 ==> r == 0.0
  {
    if actual > 0.0 && rebate == 0.0 && actual - buyer < 0.01 then actual - buyer else rebate
  }

  /** The net freight cost: what was charged for delivery and return, less what Shopee and the buyer
      paid. */
  function CustoLiquidoFrete(actual: real, reverse: real, rebate: real, buyer: real): real {
    (actual + reverse) - (rebate + buyer)
  }

  datatype VendaShopee = VendaShopee(
    dataVendaMs: real,
    quantidade: real,
    valorTotal: real,
    unitario: real,
    taxaPlataforma: real,
    shopeeShippingRebate: real,
    custoLiquidoFrete: real,
    frete: real,
    margem: real,
    subsidioAutomatico: bool)

  /** The unit price: the total per unit in cents, else the first item's original price. */
  function PrecoUnitario(total: real, quantidade: real, items: seq<ShopeeItem>): (r: real)
    ensures quantidade > 0.0 ==> total / quantidade - 0.005 < r <= total / quantidade + 0.005
    ensures quantidade <= 0.0 && |items| > 0 ==> r == ToFiniteNumber(items[0].originalPrice).GetOr(0.0)
    ensures quantidade <= 0.0 && |items| == 0 ==> r == 0.0
  {
    if quantidade > 0.0 then RoundCents(total / quantidade)
    else if |items| > 0 then ToFiniteNumber(items[0].originalPrice).GetOr(0.0) else 0.0
  }

  /** The money fields the sync stores for one Shopee order. */
  function MapOrder(o: ShopeeOrder): (r: VendaShopee)
    ensures r.dataVendaMs == ToFiniteNumber(o.createTime).GetOr(0.0) * 1000.0
    ensures r.quantidade == Sum(o.items, QuantityOf)
    ensures r.valorTotal == ToFiniteNumber(o.totalAmount).GetOr(0.0)
    ensures var inc := o.income;
      r.taxaPlataforma == RoundCents(ToFiniteNumber(inc.commissionFee).GetOr(0.0) + ToFiniteNumber(inc.serviceFee).GetOr(0.0))
    ensures var inc := o.income;
      r.custoLiquidoFrete == CustoLiquidoFrete(ToFiniteNumber(inc.actualShippingFee).GetOr(0.0),
        ToFiniteNumber(inc.reverseShippingFee).GetOr(0.0), r.shopeeShippingRebate, ToFiniteNumber(inc.buyerPaidShippingFee).GetOr(0.0))
    ensures r.frete == RoundCents(r.custoLiquidoFrete)
    ensures r.margem == RoundCents(r.valorTotal - r.taxaPlataforma - r.frete)
    ensures r.unitario == PrecoUnitario(r.valorTotal, r.quantidade, o.items)
    ensures var inc := o.income;
      r.shopeeShippingRebate == AutoRebate(ToFiniteNumber(inc.actualShippingFee).GetOr(0.0),
        ToFiniteNumber(inc.shopeeShippingRebate).GetOr(0.0), ToFiniteNumber(inc.buyerPaidShippingFee).GetOr(0.0))
    ensures r.subsidioAutomatico <==> r.shopeeShippingRebate > 0.0 && o.income.shopeeShippingRebate == JsNumber(0.0)
  {
    var inc := o.income;
    var quantidade := Sum(o.items, QuantityOf);
    var totalAmount := ToFiniteNumber(o.totalAmount).GetOr(0.0);
    var unitario := PrecoUnitario(totalAmount, quantidade, o.items);
    var commissionFee := ToFiniteNumber(inc.commissionFee).GetOr(0.0);
    var serviceFee := ToFiniteNumber(inc.serviceFee).GetOr(0.0);
    var taxaPlataforma := RoundCents(commissionFee + serviceFee);
    var actual := ToFiniteNumber(inc.actualShippingFee).GetOr(0.0);
    var reverse := ToFiniteNumber(inc.reverseShippingFee).GetOr(0.0);
    var rebate0 := ToFiniteNumber(inc.shopeeShippingRebate).GetOr(0.0);
    var buyer := ToFiniteNumber(inc.buyerPaidShippingFee).GetOr(0.0);
    var rebate := AutoRebate(actual, rebate0, buyer);
    var custo := CustoLiquidoFrete(actual, reverse, rebate, buyer);
    var frete := RoundCents(custo);
    var margem := RoundCents(totalAmount - taxaPlataforma - frete);
    VendaShopee(ToFiniteNumber(o.createTime).GetOr(0.0) * 1000.0, quantidade, totalAmount, unitario, taxaPlataforma,
                rebate, custo, frete, margem, rebate > 0.0 && inc.shopeeShippingRebate == JsNumber(0.0))
  }

  /** When the automatic rebate applies, the net freight is only the return freight (0 when nothing
      was returned): the delivery freight is cancelled whatever the buyer paid. */
  lemma AutoRebateCancelsFreight(actual: real, reverse: real, buyer: real)
    requires actual > 0.0 && actual - buyer < 0.01
    ensures CustoLiquidoFrete(actual, reverse, AutoRebate(actual, 0.0, buyer), buyer) == reverse
  {
  }

  /** An order whose income carries a zero Shopee rebate and whose buyer paid the delivery freight
      to within a cent is stored with the automatic rebate: its net freight is only the return
      freight, and it is flagged exactly when the rebate created is positive. */
  lemma MapOrderSubsidioAutomatico(o: ShopeeOrder)
    requires o.income.shopeeShippingRebate == JsNumber(0.0)
    requires var actual := ToFiniteNumber(o.income.actualShippingFee).GetOr(0.0);
      actual > 0.0 && actual - ToFiniteNumber(o.income.buyerPaidShippingFee).GetOr(0.0) < 0.01
    ensures MapOrder(o).custoLiquidoFrete == ToFiniteNumber(o.income.reverseShippingFee).GetOr(0.0)
    ensures MapOrder(o).subsidioAutomatico <==>
      ToFiniteNumber(o.income.actualShippingFee).GetOr(0.0) > ToFiniteNumber(o.income.buyerPaidShippingFee).GetOr(0.0)
  {
    var inc := o.income;
    var actual := ToFiniteNumber(inc.actualShippingFee).GetOr(0.0);
    var buyer := ToFiniteNumber(inc.buyerPaidShippingFee).GetOr(0.0);
    assert ToFiniteNumber(inc.shopeeShippingRebate).GetOr(0.0) == 0.0;
    AutoRebateCancelsFreight(actual, ToFiniteNumber(inc.reverseShippingFee).GetOr(0.0), buyer);
  }

  /** The stored title: the first item's name cut to 500 characters, or "Pedido" when that is empty. */
  function Titulo(itemName: Option<string>): (r: string)
    ensures 0 < |r| <= 500
    ensures itemName.Some? && itemName.value != "" ==> r == itemName.value[..if |itemName.value| <= 500 then |itemName.value| else 500]
    ensures itemName.None? || itemName.value == "" ==> r == "Pedido"
  {
    var t := TruncateString(itemName, 500);
    if t == "" then "Pedido" else t
  }

  /** The stored margin is the total less the fee and the net freight, up to three roundings. */
  lemma MargemNearExact(o: ShopeeOrder)
    ensures var r := MapOrder(o);
      var inc := o.income;
      var exact := r.valorTotal - (ToFiniteNumber(inc.commissionFee).GetOr(0.0) + ToFiniteNumber(inc.serviceFee).GetOr(0.0))
                   - r.custoLiquidoFrete;
      exact - 0.015 < r.margem < exact + 0.015
  {
  }

  /** A Shopee order's stored quantity: the summed quantities, or 1 when they add up to 0. */
  function QuantidadeSalva(r: VendaShopee): (q: real)
    ensures r.quantidade != 0.0 ==> q == r.quantidade
    ensures r.quantidade == 0.0 ==> q == 1.0
  {
    if r.quantidade != 0.0 then r.quantidade else 1.0
  }
}
