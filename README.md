# Finance core of a marketplace-seller back office, in Dafny

The modelled system is a back office for a seller on Mercado Livre and Shopee. It imports
the seller's orders from both marketplaces and works out, per order:

- the freight and its adjustment;
- the sale fee;
- the contribution margin.

It keeps the seller's bills, categories and payment methods, some of them imported from a
spreadsheet. From all of that it builds the following views.

- **DRE.** The income statement: gross revenue per channel, deductions, net revenue, fees and
  freight, operating net revenue, cost of goods sold, gross profit, expenses, EBITDA, result and
  profitability, month by month.
- **Dashboards.** Totals, trends, revenue by ADS origin, the top ten products, and a day-by-category
  series of expenses.
- **Screens.** Sales and finance screens with filters and pagination, a SKU table with kits and
  their components, and a sync dialog.
- **Front-end helpers.** A client-side response cache, toasts, a breadcrumb, the sign-up form's
  validation, onboarding notices and the API URL builder.

Each modelled source file is one Dafny module. A few shared modules stand for JavaScript's own
behaviour:

- `Wrappers`: `Option` and `Result`.
- `Strings`: `trim`, `toLowerCase`, `split`, `includes`, decimal writing.
- `Folds`: sums, filters, grouping and map totals.
- `Sorting`: `Array.prototype.sort` with a consistent comparator.
- `Money`: `Math.round` and rounding to cents.
- `Calendar`: the `Date` constructor's arithmetic on day numbers.
- `JsValues`: the loosely typed JSON values and `Number`, `parseFloat` and `parseInt` on them.

How the modules are written depends on the source.

- Route handlers that fill records and maps in loops are methods. Their loops carry invariants,
  and each is proved against a function that states the aggregate.
- The module-wide response cache is a class whose methods update its map.
- Pure helpers are functions. The lemmas beside them state what the code promises: round trips,
  partitions, totals that add up, the order of error checks, and the bounds of pagination windows.

Database queries, HTTP calls, server-sent events and the clock are not modelled. The rows they
return, the responses they give and the times they read are parameters.

## Model

| member | source | states |
|---|---|---|
| Money.MathRound | src/app/api/meli/vendas/sync/route.ts:119 | the nearest integer, within half a unit either way |
| Money.RoundCents | src/app/api/meli/vendas/sync/route.ts:118-121 | a whole number of cents within half a cent of the value |
| Money.RoundCentsOfCents | src/app/api/meli/vendas/sync/route.ts:118-121 | a value already in whole cents is unchanged |
| Money.RoundCentsIdempotent | src/app/api/meli/vendas/sync/route.ts:118-121 | rounding twice is rounding once |
| Money.RoundCentsMonotone | src/app/api/meli/vendas/sync/route.ts:118-121 | rounding keeps the order of two values |
| Money.RoundCentsSign | src/app/api/meli/vendas/sync/route.ts:118-121 | a value keeps its sign through rounding, or becomes zero |
| Money.Abs | src/app/api/dashboard/stats/route.ts:198-199 | `Math.abs` is never negative |
| Money.Max | src/lib/frete.ts:23 | `Math.max` is one of its arguments and no smaller than either |
| JsValues.DigitRun | src/app/api/financeiro/import-excel/route.ts:414 | the digits at the front, up to the first character that is not one |
| JsValues.ScanUnsignedDecimal | src/app/api/financeiro/import-excel/route.ts:414 | a decimal literal found at the front has a non-negative value and a length within the text |
| JsValues.ScanDecimal | src/app/api/meli/vendas/sync/route.ts:112 | a signed literal found at the front has a positive length within the text |
| JsValues.StringToNumber | src/app/api/meli/vendas/sync/route.ts:112 | `Number` on a text: a blank text reads as 0 |
| JsValues.ParseFloat | src/app/api/financeiro/import-excel/route.ts:414 | text that cannot start a number reads as NaN |
| JsValues.ToNumber | src/app/api/dashboard/stats/route.ts:18 | `Number(v)`: a number is itself and null is 0, while undefined, NaN, infinities and objects that `Number` reads as NaN give no finite number |
| JsValues.NumberOrZero | src/app/api/financeiro/dre/series/route.ts:187 | a falsy value reads as 0 and a number as itself |
| JsValues.ToFiniteNumber | src/app/api/meli/vendas/sync/route.ts:109-116 | a finite number is itself, a non-blank text is what Number reads from it, and nothing else gives a number |
| JsValues.StringOr | src/app/api/dashboard/top-produtos-faturamento/route.ts:179 | the text unless it is missing or empty, else the fallback |
| JsValues.ParseInt | src/app/api/financeiro/import-excel/route.ts:374 | a non-empty string of digits reads as its value, and blank text as NaN |
| JsValues.ParseIntOfNatToString | src/app/api/financeiro/import-excel/route.ts:374 | an index written as text reads back as itself |
| JsValues.TruncateString | src/app/api/meli/vendas/sync/route.ts:123-126 | missing text gives the empty string; otherwise a prefix of at most maxLength characters, and the whole text when it fits |
| JsValues.NatLiteral | src/app/api/meli/vendas/sync/route.ts:112 | `Number` reads a whole number written out in decimal back as itself |
| Calendar.DaysInMonth | src/app/components/views/Financas.tsx:667-676 | a month has between 28 and 31 days, leap years included |
| Calendar.DayZeroIsLastDay | src/app/components/views/Financas.tsx:669 | day 0 of the next month is the last day of this month |
| Calendar.DayFromYearNext | src/app/components/views/Financas.tsx:667-676 | years follow each other without gaps |
| Calendar.MonthLength | src/app/components/views/Financas.tsx:667-676 | the next month starts as many days after this month's first day as this month has days |
| Calendar.EndOfMonthAdjacent | src/app/api/dashboard/faturamento-por-origem/route.ts:51-70 | one month ends a millisecond before the next starts |
| Calendar.MonthNormal | src/app/components/views/Financas.tsx:673 | a month number out of range names the same month as its normalised year and month |
| Calendar.MonthNotEmpty | src/app/api/dashboard/faturamento-por-origem/route.ts:51-70 | every month, even one named out of range, ends no earlier than it starts |
| Calendar.StartOfMonthMonotone | src/app/api/dashboard/faturamento-por-origem/route.ts:51-70 | an earlier month starts no later than a later one |
| Calendar.MonthContains | src/app/api/dashboard/faturamento-por-origem/route.ts:51-70 | a date lies within the month of its own fields, which starts on day 1 at midnight, ends on its last day at 23:59:59.999 and spans exactly its days |
| Sorting.Sort | src/app/api/financeiro/dre/series/route.ts:66 | `Array.prototype.sort` with a consistent comparator: a permutation of the input, in order |
| Strings.Split | src/app/components/views/ui/Topbar.tsx:43 | `split`: at least one part, none holding the separator |
| Strings.SplitJoin | src/app/components/views/ui/Topbar.tsx:43-46 | parts without the separator, joined by it, split back into the same parts |
| Strings.JoinSplit | src/app/components/views/ui/Topbar.tsx:43-46 | the parts of a split, joined by the separator, give the text back |
| Strings.Trim | src/app/components/views/Cadastro.tsx:115-118 | `trim()`: no longer than the text, with no white space at either end |
| Strings.TrimEmptyIffBlank | src/app/components/views/Cadastro.tsx:115-118 | trimming leaves nothing exactly when the text is blank |
| Strings.TrimUnchanged | src/app/components/views/Cadastro.tsx:115-118 | a text with no white space at either end is its own trim |
| Strings.ToLower | src/app/components/views/Cadastro.tsx:115-118 | `toLowerCase()`: the same length, each character lowercased |
| Strings.ToLowerIdempotent | src/app/components/views/Cadastro.tsx:115-118 | lowercasing twice is lowercasing once |
| DreSeries.ParseMesKey | src/app/api/financeiro/dre/series/route.ts:9-18 | a key parses exactly when it is four digits, a dash and two digits; the parsed month is 1..12 and the numbers are the digits' values |
| DreSeries.ParsedMonthSpan | src/app/api/financeiro/dre/series/route.ts:15-16 | a parsed month runs from the first millisecond of its first day to the last millisecond of its last day, in the year `new Date` reads (0..99 as 1900..1999; a four-digit year as itself) |
| DreSeries.MonthKeyParses | src/app/api/financeiro/dre/series/route.ts:20-24 | the key written for a four-digit year and a month 1..12 parses back to that year and month |
| DreSeries.ParsedKeyRoundTrip | src/app/api/financeiro/dre/series/route.ts:67-72 | the key rebuilt from a parsed month equals the requested key exactly when the year has no leading zero |
| DreSeries.ListParam | src/app/api/financeiro/dre/series/route.ts:46-47 | the comma-separated parameter gives non-empty parts without commas and with no white space at either end |
| DreSeries.ParseAll | src/app/api/financeiro/dre/series/route.ts:61 | the parsed months are exactly those of the keys that parse, none invented |
| DreSeries.ParseAllExactly | src/app/api/financeiro/dre/series/route.ts:61 | every parsed month comes from a key, and every key that parses gives its month |
| DreSeries.ParseAllEmpty | src/app/api/financeiro/dre/series/route.ts:61-64 | no month parses exactly when every key fails to parse, which is when "Meses inválidos" is answered |
| DreSeries.SortMonths | src/app/api/financeiro/dre/series/route.ts:66 | the same months, as a permutation, sorted by year and then by month |
| DreSeries.SortedMonths | src/app/api/financeiro/dre/series/route.ts:56-66 | no months gives "Meses não informados"; months of which none parses (ParseAllEmpty) give "Meses inválidos"; otherwise it succeeds, with the parsed months sorted by (ano, mes), as a permutation |
| DreSeries.ToMesInfos | src/app/api/financeiro/dre/series/route.ts:67-72 | one response month per parsed month, same order, keyed by its zero-padded key |
| DreSeries.ToMesInfosLabels | src/app/api/financeiro/dre/series/route.ts:67-72 | each response month is its parsed month with the `YYYY-MM` key and the `MM/YYYY` label |
| DreSeries.RequestedMonths | src/app/api/financeiro/dre/series/route.ts:56-72 | fails exactly when the sorted months fail; otherwise one ascending response month per valid key (which months: RequestedMonthFromKey and KeyGivesRequestedMonth) |
| DreSeries.RequestedMonthsOk | src/app/api/financeiro/dre/series/route.ts:61-72 | with at least one valid key the response months are the sorted parsed months, each turned into a response month |
| DreSeries.SortedMonthsMembers | src/app/api/financeiro/dre/series/route.ts:66 | sorting keeps exactly the parsed months |
| DreSeries.RequestedMonthFromKey | src/app/api/financeiro/dre/series/route.ts:56-72 | every response month is the month of some requested key that parses |
| DreSeries.KeyGivesRequestedMonth | src/app/api/financeiro/dre/series/route.ts:56-72 | every requested key that parses makes the request succeed and gives a response month |
| DreSeries.ParsedFromKey | src/app/api/financeiro/dre/series/route.ts:61 | each parsed month comes from some key |
| DreSeries.KeyIsParsed | src/app/api/financeiro/dre/series/route.ts:61 | a key that parses gives one of the parsed months |
| DreSeries.IsCMVCategoryEitherField | src/app/api/financeiro/dre/series/route.ts:30-33 | a category is a CMV category exactly when its name or its description mentions cmv, cpv or csp (the joining space creates no match) |
| DreSeries.CatId | src/app/api/financeiro/dre/series/route.ts:264 | the bill's category: its own id, else the joined category's id, else "sem_categoria"; never empty |
| DreSeries.ZeroSeries | src/app/api/financeiro/dre/series/route.ts:235-246 | every series has exactly the requested month keys, each at 0; no category rows yet |
| DreSeries.CmvCategoryIds | src/app/api/financeiro/dre/series/route.ts:249-252 | the loop collects exactly the ids of the expense categories that are CMV categories |
| DreSeries.AddToCategoria | src/app/api/financeiro/dre/series/route.ts:265-266 | adds the value to one category-month cell, creating the row or cell at 0 when missing; other rows unchanged |
| DreSeries.AddConta | src/app/api/financeiro/dre/series/route.ts:255-272 | a bill dated in a requested month adds its value to its category cell, the month's expenses and, for a CMV category, the month's CMV; any other bill changes nothing |
| DreSeries.AddContasPagar | src/app/api/financeiro/dre/series/route.ts:255-272 | after the loop each month's expenses, CMV and category cells are the old values plus the sums over the bills dated in that month |
| DreSeries.AddVenda | src/app/api/financeiro/dre/series/route.ts:281-303 | a sale dated in a requested month adds its total to gross revenue and, unless cancelled, its absolute fee, absolute freight and cost of goods; other sales change nothing |
| DreSeries.AddVendas | src/app/api/financeiro/dre/series/route.ts:281-328 | after the loop each month's gross revenue, fees, freight and CMV are the old values plus the sums over that month's sales |
| DreSeries.AddDeducoes | src/app/api/financeiro/dre/series/route.ts:334-353 | each month's deductions grow by the totals of the given sales dated in it; keys unchanged |
| DreSeries.DeducoesOfCanceladas | src/app/api/financeiro/dre/series/route.ts:166-169 | summing the totals of the cancelled sales equals summing each sale's deduction (its total if cancelled, else 0) |
| DreSeries.NetRevenueIsConfirmedSales | src/app/api/financeiro/dre/series/route.ts:281-288 | per month, gross revenue minus deductions is the revenue of the sales that were not cancelled |
| DreSeries.DeduzCanceladas | src/app/api/financeiro/dre/series/route.ts:334-342 | only the deductions change, each growing by the cancelled sales of its month |
| DreSeries.AddCanais | src/app/api/financeiro/dre/series/route.ts:281-353 | both channels' series and the CMV match the per-month sums over their sales; expenses and category cells untouched |
| DreSeries.BuildContas | src/app/api/financeiro/dre/series/route.ts:235-272 | the zeroed series plus the bill loop match the per-month sums over the bills |
| DreSeries.BuildSeries | src/app/api/financeiro/dre/series/route.ts:235-353 | every series of the endpoint equals the sum over the records dated in that month |
| DreSeries.KeySeq | src/app/api/financeiro/dre/series/route.ts:361-374 | the month keys the totals run over: each requested key once |
| DreSeries.ComputeTotals | src/app/api/financeiro/dre/series/route.ts:361-374 | each channel-split total is the sum of the two channels' totals |
| DreSeries.CanalTotals | src/app/api/financeiro/dre/series/route.ts:361-372 | a channel's totals count every sale dated in a requested month once and no other sale |
| DreSeries.NetRevenueTotal | src/app/api/financeiro/dre/series/route.ts:361-366 | over the requested months, gross revenue minus deductions is the revenue of the sales not cancelled |
| DreSeries.TotalsCountDatedRecords | src/app/api/financeiro/dre/series/route.ts:361-374 | every total is the sum over the records dated in a requested month; records dated elsewhere or undated do not count |
| DreSeries.CategoriasOut | src/app/api/financeiro/dre/series/route.ts:355-358 | every expense category is listed, in order (the filter's last test always holds) |
| DreSeries.Get | src/app/api/financeiro/dre/series/route.ts:44-409 | fails exactly when the requested months do, with the same message; otherwise the months and series built as above |
| DreSeries.Responder | src/app/api/financeiro/dre/series/route.ts:66-409 | the response echoes the months, carries the series of those months, the totals over them and the expense categories listed |
| DreView.CalcularMeses | src/app/components/views/DRE.tsx:159-161 | the requested months are the selected keys, each once, in strictly ascending code-unit order |
| DreView.AscendingFirst | src/app/components/views/DRE.tsx:159-161 | the first of the sorted months comes before every selected month |
| DreView.StrictlyAscendingUnique | src/app/components/views/DRE.tsx:159-161 | two strictly ascending lists holding the same keys are equal |
| DreView.CalcularMesesOrderIndependent | src/app/components/views/DRE.tsx:159-161 | the months requested do not depend on the order in which they were ticked |
| DreView.Requisicao | src/app/components/views/DRE.tsx:164-183 | no request exactly when no month is selected; otherwise the chosen view and a category parameter exactly when the joined categories are not empty |
| DreView.ListParamOfJoin | src/app/api/financeiro/dre/series/route.ts:46-47 | the endpoint's split of the joined parameter gives back the list the screen joined |
| DreView.ListParamOfEmpty | src/app/api/financeiro/dre/series/route.ts:46-47 | an empty parameter reads as no keys |
| DreView.TrimAllUnchanged | src/app/api/financeiro/dre/series/route.ts:46-47 | trimming keys without blanks or commas changes none of them |
| DreView.EndpointReadsRequestedMonths | src/app/components/views/DRE.tsx:178-183 | the endpoint parses exactly the months the screen requested, in ascending order |
| DreView.CategoriaNaColunaOnce | src/app/components/views/DRE.tsx:281-287 | with each month listed once, a category adds its own value to a listed month's column and nothing to any other key |
| DreView.ZeroColumns | src/app/components/views/DRE.tsx:280 | the column map holds every listed month, each at 0 |
| DreView.AddCategoria | src/app/components/views/DRE.tsx:282-286 | adding one category's row raises each listed month by that category's value there and keeps the keys |
| DreView.DespesasPorMesVisiveis | src/app/components/views/DRE.tsx:277-289 | no data gives no columns; otherwise each listed month holds the sum over the visible categories of their value in it |
| DreView.VisibleExpensesAreVisibleBills | src/app/components/views/DRE.tsx:277-289 | for the endpoint's series, a month's visible expenses are the bills of the visible categories dated in that month |
| DreView.SumValues | src/app/components/views/DRE.tsx:256-257 | a row's total is the sum of its values, whatever their order |
| DreView.DespesasVisiveis | src/app/components/views/DRE.tsx:267-274 | 0 without data; otherwise the sum over the visible categories of each category's row total |
| DreView.VisibleTotalIsSumOfColumns | src/app/components/views/DRE.tsx:267-289 | the visible expense total equals the sum over the months of the monthly visible expense row |
| DreView.AlternarVisivel | src/app/components/views/DRE.tsx:777-784 | ticking adds the category to the visible ones, unticking removes it, every other category keeps its state, and no key is repeated |
| DreView.Remover | src/app/components/views/DRE.tsx:782 | deleting keeps exactly the other keys, without repeats |
| DreView.ColunaForaDoPeriodo | src/app/components/views/DRE.tsx:414 | a month the series do not list shows zero in every row |
| DreView.ColunaFromRecords | src/app/components/views/DRE.tsx:414-616 | for the endpoint's series, each monthly row (gross revenue, deductions, net revenue, fees, freight, operating net revenue, cost of goods, gross profit) is the sum over the sales and bills dated in that month |
| DreView.ColunaCanal | src/app/components/views/DRE.tsx:579-616 | one channel's monthly operating net revenue and gross profit are sums over its sales of that month |
| DreView.ResumoDre | src/app/components/views/DRE.tsx:292-316 | the result equals EBITDA, the contribution margin equals gross profit, and profitability is result over operating net revenue when that is positive and 0 otherwise; with no data everything but the expenses is 0 |
| DreView.LucratividadeBounds | src/app/components/views/DRE.tsx:313-316 | with costs and expenses not negative and a positive operating net revenue, profitability is at most 1 and negative exactly on a loss |
| DreView.TotalsAreSumsOfColumns | src/app/components/views/DRE.tsx:292-308 | the totals' net revenue, operating net revenue and gross profit are the sums of the monthly columns |
| DreView.SummaryIsSumOfColumns | src/app/components/views/DRE.tsx:298-308 | the summary's net revenue, operating net revenue and gross profit equal the sums of the monthly columns |
| DreView.SummaryFromRecords | src/app/components/views/DRE.tsx:292-316 | for the endpoint's totals, operating net revenue and EBITDA are sums over the non-cancelled sales and bills dated in the requested months |
| DreView.SummaryCanal | src/app/components/views/DRE.tsx:305-308 | one channel's operating net revenue and gross profit over the requested months are sums over its sales |
| FreteAdjust.NormalizeLogisticType | test-frete-fix-inline.js:13-18 | empty stays empty; the agency spellings, in any case, become `xd_drop_off`; anything else is its lower case |
| FreteAdjust.NormalizeLogisticTypeLaws | test-frete-fix-inline.js:13-18 | normalising is idempotent and ignores upper or lower case |
| FreteAdjust.Unitario | test-frete-fix-inline.js:26-29 | a unit price exists exactly when the quantity is present and not zero, and times the quantity it gives the order cost |
| FreteAdjust.ListaEfetiva | test-frete-fix-inline.js:52-56 | the list cost when present and not zero, otherwise the base cost |
| FreteAdjust.CalcularFreteAdjust | test-frete-fix-inline.js:20-84 | the adjustment is always a whole number of cents; its value per type is pinned for all inputs by FlexAdjust, CrossDockingBelowLimit, CrossDockingAtOrAboveLimit, EligibleValue and OtherTypes |
| FreteAdjust.FlexAdjust | test-frete-fix-inline.js:31-44 | flex: 15.90 below the 79 threshold and 1.59 otherwise when base and list cost round to the same cents, else the difference rounded |
| FreteAdjust.CrossDockingBelowLimit | test-frete-fix-inline.js:47-50 | collection below the threshold adjusts nothing |
| FreteAdjust.CrossDockingAtOrAboveLimit | test-frete-fix-inline.js:47-60 | collection not below the threshold costs the effective list cost less the shipment cost, negated and rounded |
| FreteAdjust.EligibleValue | test-frete-fix-inline.js:62-75 | the eligible types give minus the absolute difference of effective list and shipment cost above the threshold, and minus the difference itself otherwise, rounded |
| FreteAdjust.ZeroListFallsBackToBase | test-frete-fix-inline.js:52-70 | for collection and the eligible types, a zero or missing list cost acts as the base cost |
| FreteAdjust.EligibleAboveLimitNonPositive | test-frete-fix-inline.js:62-75 | the eligible types above the threshold always come out as a cost or zero |
| FreteAdjust.OtherTypes | test-frete-fix-inline.js:78-83 | any other type: 0 below the threshold, otherwise the sentinel -999 |
| FreteAdjust.Scenarios | test-frete-fix-inline.js:88-173 | the script's six scenarios give -71.12, -50, -40, -39.83, 0 and 0 |
| MeliSync.SumOrderQuantities | src/app/api/meli/vendas/sync/route.ts:172-184 | no list gives none; otherwise a quantity exactly when some item has a finite one, and it is the sum of the finite quantities |
| MeliSync.ConvertLogisticTypeName | src/app/api/meli/vendas/sync/route.ts:186-194 | present exactly when given; xd_drop_off becomes "Agência", self_service "FLEX" and cross_docking "Coleta", and every other type is kept |
| MeliSync.ConvertLogisticTypeNameIdempotent | src/app/api/meli/vendas/sync/route.ts:186-194 | converting a converted name changes nothing |
| MeliSync.MapListingTypeToExposure | src/app/api/meli/vendas/sync/route.ts:196-211 | none without a listing type; "Premium" exactly for `gold_pro` in any case, "Clássico" for every other type |
| MeliSync.AdjustmentLabel | src/app/api/meli/vendas/sync/route.ts:240-245 | self_service is labelled "FLEX", drop_off "Correios", xd_drop_off "Agência", fulfillment "FULL" and cross_docking "Coleta"; any other type is its own label |
| MeliSync.OrderCost | src/app/api/meli/vendas/sync/route.ts:224 | the order cost exists exactly when the unit price is known and the quantity is neither missing nor 0, and is their product |
| MeliSync.AdjustParamsUnitPrice | src/app/api/meli/vendas/sync/route.ts:224-233 | the freight rule sees the order's own unit price (a missing one as 0), and no unit price without a quantity |
| MeliSync.CalculateFreightAdjustment | src/app/api/meli/vendas/sync/route.ts:213-248 | the cost and its label are present together; none without a logistic type or on the ±999 sentinel; otherwise the rule's value, in whole cents, labelled by type |
| MeliSync.SentinelMeansNoOverride | src/app/api/meli/vendas/sync/route.ts:235-238 | a type with no rule, for an order not below the threshold, gets no override |
| MeliSync.ZeroIsAnOverride | src/app/api/meli/vendas/sync/route.ts:240 | a collection order below the threshold is saved with a freight override of 0 |
| MeliSync.FreightQuantity | src/app/api/meli/vendas/sync/route.ts:303-309 | the summed item quantities when some item has one; no quantity exactly when there are no items and no total |
| MeliSync.FreightUnitPrice | src/app/api/meli/vendas/sync/route.ts:311-316 | present exactly with a total: the total over a positive quantity, else the total itself, rounded to whole cents and within half a cent of the exact quotient |
| MeliSync.Charged | src/app/api/meli/vendas/sync/route.ts:277-290 | the charged cost is the shipping option's, else the shipment's, else the order's, with its source named accordingly |
| MeliSync.LogisticTypeSource | src/app/api/meli/vendas/sync/route.ts:263-267 | the source is the shipment when it has a non-empty type, else the order when its shipping mode is non-empty, else none |
| MeliSync.CalculateFreight | src/app/api/meli/vendas/sync/route.ts:256-352 | the charged cost is the shipping option's cost, else the shipment's, else the order's, rounded, with its source; each cost is the order's own field rounded, list and base costs are the order's, the quantity, unit price and adjustment are those of the order's items, total and logistic type; the final cost equals the charged one, and a discount exists exactly when list and charged cost do, as their rounded difference |
| MeliSync.FreightQuantityAndPrice | src/app/api/meli/vendas/sync/route.ts:304-330 | no quantity exactly when there are no items and no total; a unit price exactly when there is a total; an adjusted cost only with a logistic type, in whole cents |
| MeliSync.FreightLogisticType | src/app/api/meli/vendas/sync/route.ts:264-270 | the logistic type is the shipment's, else the order's shipping mode, under its display name; it is marked as the shipment's exactly when the shipment has a non-empty one |
| MeliSync.CalculateMargemContribuicao | src/app/api/meli/vendas/sync/route.ts:364-391 | with a positive cost of goods: a real margin, total plus fee plus freight minus that cost, rounded; otherwise the rounded net revenue, not a real margin |
| MeliSync.MargemBelowReceitaLiquida | src/app/api/meli/vendas/sync/route.ts:364-391 | a real margin never exceeds the net revenue reported without cost of goods, and a cost that is not positive acts as none |
| MeliSync.VendaMoneyOf | src/app/api/meli/vendas/sync/route.ts:1724-1840 | quantity is the sum of item quantities; the unit price is the first item's, else the total over a positive quantity in cents, else 0; the fee is the per-unit fees times quantities and is stored negated and rounded only when positive; freight is the adjustment, else the final cost, else the order's; the margin is computed from these |
| MeliSync.CmvOf | src/app/api/meli/vendas/sync/route.ts:1794-1822 | the cost of goods exists exactly when the SKU's unit cost is known, as unit cost times quantity in cents |
| MeliSync.VendaQuantityMatchesOrderQuantities | src/app/api/meli/vendas/sync/route.ts:1737-1741 | the stored quantity is what the quantity sum finds, or 0 when it finds none |
| MeliSync.SaleFeeLaws | src/app/api/meli/vendas/sync/route.ts:1777-1782 | non-negative fees give a non-negative total fee, and with every quantity 1 the total is the sum of the fees |
| MeliSync.ExtractOrderId | src/app/api/meli/vendas/sync/route.ts:1592-1599 | an id exactly when the order has an id whose text is not blank, and then the trimmed text |
| MeliSync.NumericIdExtracted | src/app/api/meli/vendas/sync/route.ts:1592-1599 | a numeric id yields its decimal digits |
| MeliSync.Unique | src/app/api/meli/vendas/sync/route.ts:1601-1626 | keeps every order without an id and an order with an id only when no earlier one had it; never more orders than given |
| MeliSync.DeduplicateOrders | src/app/api/meli/vendas/sync/route.ts:1601-1626 | the loop returns exactly the kept orders and counts as duplicates the orders dropped |
| MeliSync.UniqueKeys | src/app/api/meli/vendas/sync/route.ts:1601-1626 | the kept orders carry every id of the input, each once, and all come from the input |
| MeliSync.UniqueKeyless | src/app/api/meli/vendas/sync/route.ts:1609-1612 | the orders without an id are all kept, in order |
| MeliSync.FirstOccurrenceKept | src/app/api/meli/vendas/sync/route.ts:1613-1619 | the first order with a given id is kept |
| MeliSync.UniqueOfDistinct | src/app/api/meli/vendas/sync/route.ts:1601-1626 | orders whose ids are already distinct are all kept |
| MeliSync.UniqueIdempotent | src/app/api/meli/vendas/sync/route.ts:1601-1626 | removing repeated orders twice removes nothing more |
| Frete.FormatarFreteShopee | src/lib/frete.ts:10-32 | missing fields count as 0; the original freight and the buyer's part are the fields, Shopee's part is its rebate plus the carrier discount, and the seller's part is the remainder, never below 0 |
| Frete.FreteShopeeParts | src/lib/frete.ts:10-32 | whenever the seller pays something, Shopee, seller and buyer together pay exactly the original freight |
| Frete.DetectarSubsidioFrete | src/lib/frete.ts:34-49 | the subsidy is Shopee's part plus the seller's, flagged exactly when positive, and its percentage is 0 without an original freight |
| Frete.SubsidioAtMostFrete | src/lib/frete.ts:34-49 | with fields not negative and Shopee's part within the freight, the subsidy never exceeds the original freight, so the percentage is at most 100 |
| Frete.ClassifyLowered | src/lib/frete.ts:55-66 | the patterns are tried in order: a type mentioning "flex" or equal to `self_service` is FLEX; otherwise one mentioning "drop" or "agencia", or equal to `xd_drop_off`, is Agência; otherwise one mentioning "coleta" is Coleta; a type that matches none is given back as written |
| Frete.ClassifyLogisticType | src/lib/frete.ts:51-67 | "Desconhecido" without a type; otherwise the patterns are matched on the lower-cased type |
| Frete.ClassifyLowerCase | src/lib/frete.ts:51-67 | a type already in lower case is classified as it is |
| Frete.ClassifyUnmatched | src/lib/frete.ts:51-67 | a type whose lower case mentions none of the patterns is given back unchanged |
| Frete.ClassifySelfService | src/lib/frete.ts:55-57 | `self_service` in any case is FLEX |
| Frete.ClassifyDropOff | src/lib/frete.ts:58-60 | both drop-off kinds, in any case, are Agência |
| Frete.ClassifyCrossDocking | src/lib/frete.ts:61-66 | collection (`cross_docking`) matches no pattern and is given back as it is |
| Frete.ClassNameFlex | src/lib/frete.ts:55-57 | "FLEX" classifies as itself |
| Frete.ClassNameAgencia | src/lib/frete.ts:58-60 | "Agência" classifies as itself |
| Frete.ClassNameColeta | src/lib/frete.ts:61-63 | "Coleta" classifies as itself |
| Frete.ClassNameDesconhecido | src/lib/frete.ts:51-67 | "Desconhecido" classifies as itself |
| Frete.ClassifyLogisticTypeIdempotent | src/lib/frete.ts:51-67 | classifying a classification gives it back |
| Frete.ClassifyFrete | src/lib/frete.ts:69-94 | a value is "Grátis" exactly when 0, otherwise banded at 10 and 20; a type or a missing argument is classified as `classifyLogisticType` does |
| Frete.ClassifyFreteMonotone | src/lib/frete.ts:71-76 | for positive values a larger freight never lands in a lower band |
| ShopeeSync.EpochSeconds | src/app/api/shopee/vendas/sync/route.ts:38-40 | the whole seconds whose span contains the instant |
| ShopeeSync.SyncWindows | src/app/api/shopee/vendas/sync/route.ts:123-151 | no window when the start is not before now; otherwise windows from the start, each beginning one millisecond after the previous ends, at most 15 days long, none past now, the last reaching now |
| ShopeeSync.TilesCover | src/app/api/shopee/vendas/sync/route.ts:123-151 | every millisecond from the start to now falls in exactly one window |
| ShopeeSync.OrderedWindows | src/app/api/shopee/vendas/sync/route.ts:123-151 | each window starts after every earlier one ends |
| ShopeeSync.SyncSince | src/app/api/shopee/vendas/sync/route.ts:179-180 | a day before the account's last sale, or 180 days before now without one |
| ShopeeSync.AutoRebate | src/app/api/shopee/vendas/sync/route.ts:214-228 | the rebate is kept unless there is freight and none was given; then, when the buyer paid within a cent of it, the rebate becomes what the buyer did not pay, otherwise it stays 0 |
| ShopeeSync.PrecoUnitario | src/app/api/shopee/vendas/sync/route.ts:202-204 | with units bought, the total per unit to within half a cent; without, the first item's original price when it is a finite number, else 0 |
| ShopeeSync.MapOrder | src/app/api/shopee/vendas/sync/route.ts:196-237 | sale time is the creation time in milliseconds, quantity the summed item quantities, total the order total, fee the rounded commission plus service; the stored rebate is the income's rebate after the automatic-rebate rule, the net freight is computed from it, freight is the rounded net freight and margin the rounded total less fee and freight; unit price as PrecoUnitario states; the automatic-rebate flag is set exactly when the stored rebate is positive and the income's rebate was 0 |
| ShopeeSync.MapOrderSubsidioAutomatico | src/app/api/shopee/vendas/sync/route.ts:218-232 | an order with a zero Shopee rebate whose buyer paid the delivery freight to within a cent is stored with only the return freight as net freight, flagged exactly when the rebate created is positive |
| ShopeeSync.AutoRebateCancelsFreight | src/app/api/shopee/vendas/sync/route.ts:219-233 | when the automatic rebate applies, the net freight is only the return freight |
| ShopeeSync.Titulo | src/app/api/shopee/vendas/sync/route.ts:239 | the first item's name cut to 500 characters, or "Pedido" when empty; never empty |
| ShopeeSync.MargemNearExact | src/app/api/shopee/vendas/sync/route.ts:233-237 | the stored margin is the total less fee and net freight, within the error of the roundings |
| ShopeeSync.QuantidadeSalva | src/app/api/shopee/vendas/sync/route.ts:268 | the stored quantity is the summed quantity, or 1 when that is 0 |
| SeriesCategorias.IntervaloDoPedido | src/app/api/financeiro/dashboard/series-categorias/route.ts:43-73 | an explicit range runs from its start to the last millisecond of its final day; otherwise last month, this month, or from the epoch to now |
| SeriesCategorias.MesPassadoAntesDoAtual | src/app/api/financeiro/dashboard/series-categorias/route.ts:51-61 | last month ends the millisecond before this month starts |
| SeriesCategorias.CategoriaIds | src/app/api/financeiro/dashboard/series-categorias/route.ts:37 | no parameter or an empty one gives no ids; every id is non-empty and comma-free, and a single id is kept whole |
| SeriesCategorias.CategoriaIdsMembros | src/app/api/financeiro/dashboard/series-categorias/route.ts:37 | an id is read exactly when it is a non-empty piece of the parameter between commas |
| SeriesCategorias.CategoriaIdsJoin | src/app/api/financeiro/dashboard/series-categorias/route.ts:37 | non-empty, comma-free ids joined by commas are read back as the same ids in the same order |
| SeriesCategorias.CasaPeriodoIsDataEfetiva | src/app/api/financeiro/dashboard/series-categorias/route.ts:107-120 | the query's two-branch date condition holds exactly when the date the series uses (the main date, else the due date) lies in the period |
| SeriesCategorias.NomeCategoria | src/app/api/financeiro/dashboard/series-categorias/route.ts:100 | the description when non-empty, else the name, else "Sem categoria"; never empty |
| SeriesCategorias.LinhasReceber | src/app/api/financeiro/dashboard/series-categorias/route.ts:75-101 | each row is the row of a given receivable that is dated in the period (receipt date, else due date) and passes the payment-method and category-id filters: its effective date, its amount (0 when missing) and its category name |
| SeriesCategorias.LinhasReceberPorConta | src/app/api/financeiro/dashboard/series-categorias/route.ts:75-101 | the rows follow the receivables in order: each adds its row exactly when it is selected, and no receivables give no rows |
| SeriesCategorias.LinhasReceberCompleta | src/app/api/financeiro/dashboard/series-categorias/route.ts:75-101 | every selected receivable gives its row |
| SeriesCategorias.LinhasPagar | src/app/api/financeiro/dashboard/series-categorias/route.ts:107-141 | each row is the row of a given bill that is dated in the period by the chosen basis (payment or accrual date, else due date) and passes the payment-method and category-id filters: that date, its amount (0 when missing) and its category name |
| SeriesCategorias.LinhasPagarPorConta | src/app/api/financeiro/dashboard/series-categorias/route.ts:107-141 | the rows follow the bills in order: each adds its row exactly when it is selected, and no bills give no rows |
| SeriesCategorias.LinhasPagarCompleta | src/app/api/financeiro/dashboard/series-categorias/route.ts:107-141 | every selected bill gives its row |
| SeriesCategorias.AddTo | src/app/api/financeiro/dashboard/series-categorias/route.ts:165-167 | adding to a missing amount starts from 0, and every other category keeps its amount |
| SeriesCategorias.Accumulate | src/app/api/financeiro/dashboard/series-categorias/route.ts:156-168 | the days and categories are those of the dated rows, each once in first-seen order; each day holds, per category, the sum of that day's rows, and each category's total is the sum of its dated rows |
| SeriesCategorias.UndatedIgnored | src/app/api/financeiro/dashboard/series-categorias/route.ts:157 | a row without a date changes neither the days, nor any day's amounts, nor the categories and totals |
| SeriesCategorias.Entries | src/app/api/financeiro/dashboard/series-categorias/route.ts:172 | one entry per category, in first-seen order, with its total |
| SeriesCategorias.SortedCats | src/app/api/financeiro/dashboard/series-categorias/route.ts:172 | the entries reordered (a permutation) so that totals never increase |
| SeriesCategorias.TopCats | src/app/api/financeiro/dashboard/series-categorias/route.ts:173 | at most five categories, all known, in non-increasing total order |
| SeriesCategorias.EntryOfSorted | src/app/api/financeiro/dashboard/series-categorias/route.ts:172 | every sorted entry is a category with its own total |
| SeriesCategorias.TopCatsDominate | src/app/api/financeiro/dashboard/series-categorias/route.ts:171-173 | a category left out of the top has a total no larger than any top category's |
| SeriesCategorias.TopCatsDistinct | src/app/api/financeiro/dashboard/series-categorias/route.ts:173 | the top categories are distinct when the categories are |
| SeriesCategorias.Categories | src/app/api/financeiro/dashboard/series-categorias/route.ts:194-195 | the top categories, followed by "Outras" exactly when there are more than five categories |
| SeriesCategorias.SplitDay | src/app/api/financeiro/dashboard/series-categorias/route.ts:180-187 | a day's top categories are copied with their amounts and the others are added up |
| SeriesCategorias.FillZeros | src/app/api/financeiro/dashboard/series-categorias/route.ts:190 | every top category gets an amount, 0 when the day had none, and the rest stay |
| SeriesCategorias.BuildEntry | src/app/api/financeiro/dashboard/series-categorias/route.ts:178-191 | a day's entry: the top categories' amounts (0 when absent), and the others' sum under "Outras" when positive |
| SeriesCategorias.Series | src/app/api/financeiro/dashboard/series-categorias/route.ts:151-198 | the categories plotted and one entry per dated day, days in ascending order, each entry built from that day's amounts |
| SeriesCategorias.Points | src/app/api/financeiro/dashboard/series-categorias/route.ts:177-192 | one entry per day, in the given order, each built from that day's amounts |
| SeriesCategorias.BuildCategorySeries | src/app/api/financeiro/dashboard/series-categorias/route.ts:151-198 | the same for the route's rows, keyed by local calendar day and category name |
| DashboardStats.PeriodoDoPedido | src/app/api/dashboard/stats/route.ts:44-92 | an explicit range runs to the last millisecond of its final day; a named period is last month, this month or everything; a legacy start/end pair defaults a missing end to this month's; otherwise everything up to now |
| DashboardStats.MesesDaTendencia | src/app/api/dashboard/stats/route.ts:94-100 | the second month ends the millisecond before the first starts, and the first ends just before this month starts |
| DashboardStats.TendenciaMesPassado | src/app/api/dashboard/stats/route.ts:95-97 | the first month starts on the first day of last month (December of the previous year in January) and is not empty |
| DashboardStats.TendenciaMesRetrasado | src/app/api/dashboard/stats/route.ts:98-100 | the second month starts on the first day of the month before last (in the previous year in January and February) and is not empty |
| Calendar.MonthsBefore | src/app/api/dashboard/stats/route.ts:95-100 | the year and month `k` months back lie in this or the previous year, with a month from 1 to 12, `k` months back in the count of months |
| Calendar.MonthsBeforeStart | src/app/api/dashboard/stats/route.ts:95-100 | `new Date(y, m0, 1)` with a month index below zero starts the corresponding month of the previous year |
| DashboardStats.ToNumberOrZero | src/app/api/dashboard/stats/route.ts:16-20 | null, undefined and anything not read as a finite number are 0; a finite number is itself |
| DashboardStats.VendasDoCanal | src/app/api/dashboard/stats/route.ts:146-155 | the Mercado Livre sales, the Shopee sales, or both with Mercado Livre's first |
| DashboardStats.SkusUnicos | src/app/api/dashboard/stats/route.ts:157-159 | the SKUs looked up are distinct |
| DashboardStats.SkusUnicosMembership | src/app/api/dashboard/stats/route.ts:157-159 | a SKU is looked up exactly when some sale has it, non-empty |
| DashboardStats.MapaCustos | src/app/api/dashboard/stats/route.ts:168 | the cost map has exactly the SKUs listed, each with its last listed cost |
| DashboardStats.CustoUnitario | src/app/api/dashboard/stats/route.ts:188 | the SKU's known cost, or 0 without a SKU or a known cost |
| DashboardStats.AgregarCom | src/app/api/dashboard/stats/route.ts:183-211 | after the loop every total is the sum over all the sales of its per-sale figure |
| DashboardStats.Agregar | src/app/api/dashboard/stats/route.ts:170-211 | revenue, net revenue, cost of goods, units and absolute fees and freight are sums over the sales, the count is the number of sales, and the per-platform maps hold each platform's fees and freight |
| DashboardStats.ReceitaLiquidaDecomposta | src/app/api/dashboard/stats/route.ts:192 | net revenue is gross revenue plus the signed fees and freight |
| DashboardStats.TotaisAbsNaoNegativos | src/app/api/dashboard/stats/route.ts:196-201 | fee and freight totals are never negative |
| DashboardStats.DaPlataformaSoma | src/app/api/dashboard/stats/route.ts:203-210 | a platform's per-platform total is the sum over its own sales, 0 when it has none |
| DashboardStats.TotalPorPlataforma | src/app/api/dashboard/stats/route.ts:248-251 | when every sale is Mercado Livre's or Shopee's, a total is the Mercado Livre part plus the Shopee part |
| DashboardStats.LucroBrutoPorVenda | src/app/api/dashboard/stats/route.ts:213 | gross profit is the sum over the sales of net revenue less cost of goods |
| DashboardStats.Tendencia | src/app/api/dashboard/stats/route.ts:243-245 | the change as a percentage of the earlier month when that is positive, else 0; positive exactly on growth, 0 exactly when flat |
| VendasStatus.IsStatusCancelado | src/lib/vendasStatus.ts:3-9 | an empty status is not cancelled; otherwise cancelled exactly when the lower-cased status contains "cancel" |
| VendasStatus.CancelCovers | src/lib/vendasStatus.ts:6-8 | the "cancelad" and "cancelled" tests add nothing to "cancel" |
| VendasStatus.IsStatusPago | src/lib/vendasStatus.ts:11-17 | an empty status is not paid; otherwise paid exactly when the lower-cased status contains "pag" or "paid" or is "completed" |
| VendasStatus.StatusIgnoraCaixa | src/lib/vendasStatus.ts:3-17 | neither reading depends on the case of the status |
| DashboardFilters.GetStatusWhere | src/lib/dashboard-filters.ts:13-34 | "todos" is no filter; anything else is a condition on the status column |
| DashboardFilters.StatusWhereSemantica | src/lib/dashboard-filters.ts:13-34 | "cancelados" keeps exactly the sales the front end calls cancelled; "todos" keeps every sale; otherwise the sales whose status contains "paid" or "completed" in any case |
| DashboardFilters.GetCanalWhere | src/lib/dashboard-filters.ts:39-49 | no filter exactly for a channel other than "shopee" and "mercado_livre" |
| DashboardFilters.CanalWhereSemantica | src/lib/dashboard-filters.ts:39-49 | Shopee keeps the platforms containing "shopee", Mercado Livre those containing "mercado", in any case; other channels keep every sale |
| DashboardFilters.GetTipoAnuncioWhere | src/lib/dashboard-filters.ts:54-74 | no filter exactly for a value other than "catalogo" and "proprio" |
| DashboardFilters.TipoAnuncioWhereSemantica | src/lib/dashboard-filters.ts:54-74 | each listing filter keeps the listing types containing its plain or accented spelling, in any case |
| DashboardFilters.CatalogNaoOcorreEmCatalogo | src/lib/dashboard-filters.ts:58-59 | "catalog" does not occur in "catálogo", so the accented condition is needed |
| DashboardFilters.CatalogoAcentuado | src/lib/dashboard-filters.ts:55-62 | the catalogue filter keeps a listing typed "Catálogo" and one typed "CATALOGO" |
| DashboardFilters.GetModalidadeWhere | src/lib/dashboard-filters.ts:79-98 | no filter exactly for a value other than "full", "flex" and "me" |
| DashboardFilters.ModalidadesCobrem | src/lib/dashboard-filters.ts:79-95 | every sale with a logistic type is kept by at least one of the three modes, and "me" shares no sale with the other two |
| FinanceiroStats.PeriodoFinanceiro | src/app/api/financeiro/dashboard/stats/route.ts:43-74 | the finance period is the series-by-category period: an explicit range to the end of its final day, and everything up to now without one or for "todos" |
| FinanceiroStats.VendasDoPeriodo | src/app/api/financeiro/dashboard/stats/route.ts:76-91 | the sales counted are drawn from the given ones, each dated in the period and not cancelled |
| FinanceiroStats.VendasDoPeriodoPorLinha | src/app/api/financeiro/dashboard/stats/route.ts:76-91 | the query returns the considered rows' sales in the rows' order: each row adds its sale exactly when it is dated in the period and not cancelled |
| FinanceiroStats.VendasDoPeriodoCompleta | src/app/api/financeiro/dashboard/stats/route.ts:76-91 | every row dated in the period and not cancelled has its sale counted |
| FinanceiroStats.CanceladaNaoConta | src/app/api/financeiro/dashboard/stats/route.ts:77-88 | a cancelled sale, or one dated outside the period, changes nothing in the sales counted |
| FinanceiroStats.RegimeDeCaixa | src/app/api/financeiro/dashboard/stats/route.ts:38 | a missing, empty or "caixa" view is the cash basis; "competencia" is the accrual basis |
| FinanceiroStats.DespesasOperacionais | src/app/api/financeiro/dashboard/stats/route.ts:147-166 | operating expenses are the sum of the amounts of the bills selected by date basis, period, payment method and categories |
| FinanceiroStats.Estatisticas | src/app/api/financeiro/dashboard/stats/route.ts:91-192 | the totals are the one-pass totals of the counted sales of both channels, the expenses are the selected bills' sum, gross profit is net revenue less cost of goods and net profit also less the expenses |
| Folds.MapFromEntries | src/app/api/vendas/route.ts:72-74 | a map built from entries has exactly the entries' keys |
| Folds.MapFromEntriesLast | src/app/api/vendas/route.ts:72-74 | a key maps to the value of its last entry (the cost map of the sales list keeps each SKU's last listed cost) |
| VendasGerais.Cmv | src/app/api/vendas/route.ts:78-82 | a cost of goods exactly when the sale has a non-empty SKU with a known cost, as unit cost times quantity in cents |
| VendasGerais.Margem | src/app/api/vendas/route.ts:90-100 | a real margin exactly when the cost of goods is positive; the value is the rounded total plus fee plus freight, less that cost when real |
| VendasGerais.MargemRealMenor | src/app/api/vendas/route.ts:90-100 | a real margin never exceeds the margin without cost of goods |
| VendasGerais.Formatar | src/app/api/vendas/route.ts:146-264 | the formatted sale keeps the id, date, amounts and sync time, and carries the sale's cost of goods and margin |
| VendasGerais.TodasVendas | src/app/api/vendas/route.ts:268-271 | all the formatted sales of both channels, a permutation of them, newest first |
| VendasGerais.UltimaSync | src/app/api/vendas/route.ts:273-284 | none exactly when neither channel has sales; otherwise the later of the two channels' first sales' sync times |
| FaturamentoPorOrigem.IntervaloDoPeriodo | src/app/api/dashboard/faturamento-por-origem/route.ts:14-75 | `getDateRange`: "todos" starts at the epoch; the other windows are stated by PeriodosEmDias, PeriodoEsteMes, PeriodoMesPassado, PeriodoUltimos3Meses, PeriodoUltimos6Meses and PeriodoTodos |
| FaturamentoPorOrigem.NomeDoPeriodo | src/app/api/dashboard/faturamento-por-origem/route.ts:14-75 | a name outside the nine the switch knows falls to "todos" |
| FaturamentoPorOrigem.DiasLimites | src/app/api/dashboard/faturamento-por-origem/route.ts:18-21 | a window of whole days starts at the first millisecond of its first day and ends one millisecond before the day after its last |
| FaturamentoPorOrigem.MesesLimites | src/app/api/dashboard/faturamento-por-origem/route.ts:51-55 | a window of months starts with its first month and ends one millisecond before the month after its last, so it covers the whole of its last month |
| FaturamentoPorOrigem.PeriodosEmDias | src/app/api/dashboard/faturamento-por-origem/route.ts:17-50 | today and yesterday are one whole day each; the last 7 and 30 days start six and 29 days back and end with today; the last twelve months start on the same day a year earlier |
| FaturamentoPorOrigem.AnoAntesAntes | src/app/api/dashboard/faturamento-por-origem/route.ts:44-50 | the start of the twelve-month window is not after today, so that window holds now |
| FaturamentoPorOrigem.PeriodoEsteMes | src/app/api/dashboard/faturamento-por-origem/route.ts:51-55 | this month runs from the first millisecond of day 1 to the last of its last day, and holds now |
| FaturamentoPorOrigem.PeriodoMesPassado | src/app/api/dashboard/faturamento-por-origem/route.ts:56-60 | last month starts at the first of the previous month and ends one millisecond before this month starts |
| FaturamentoPorOrigem.PeriodoUltimos3Meses | src/app/api/dashboard/faturamento-por-origem/route.ts:61-65 | the last 3 months start at the first of the month two months back, end with this month, and hold now |
| FaturamentoPorOrigem.PeriodoUltimos6Meses | src/app/api/dashboard/faturamento-por-origem/route.ts:66-70 | the last 6 months start at the first of the month five months back, end with this month, and hold now |
| FaturamentoPorOrigem.MesesAteAgora | src/app/api/dashboard/faturamento-por-origem/route.ts:51-70 | a window of months that ends with the month of now holds now |
| FaturamentoPorOrigem.PeriodoTodos | src/app/api/dashboard/faturamento-por-origem/route.ts:71-74 | "todos" and any unknown name, such as "ultimos_90d", are everything from the epoch to now |
| FaturamentoPorOrigem.DiasSeguidos | src/app/api/dashboard/faturamento-por-origem/route.ts:24-25 | counting days back from a date moves its day number back as many days, across month and year ends |
| FaturamentoPorOrigem.DiaNaJanela | src/app/api/dashboard/faturamento-por-origem/route.ts:30-35 | a window of whole days that includes today holds every moment of today |
| FaturamentoPorOrigem.UmAnoAntes | src/app/api/dashboard/faturamento-por-origem/route.ts:45-47 | twelve months back is the same month and day of the previous year |
| FaturamentoPorOrigem.PeriodoDoPedido | src/app/api/dashboard/faturamento-por-origem/route.ts:99-118 | an explicit range runs to the end of its final day; no period or "todos" applies no date filter; otherwise the named period's window |
| FaturamentoPorOrigem.VendasDoCanal | src/app/api/dashboard/faturamento-por-origem/route.ts:159-168 | the Mercado Livre sales, the Shopee sales with their ad cleared, or both with Mercado Livre's first |
| FaturamentoPorOrigem.AgruparCom | src/app/api/dashboard/faturamento-por-origem/route.ts:186-203 | each group's revenue and count are the sum and count of the sales that do or do not have an ad |
| FaturamentoPorOrigem.Agrupar | src/app/api/dashboard/faturamento-por-origem/route.ts:180-206 | every sale lands in exactly one group: the counts add up to the number of sales and the revenues to the total |
| FaturamentoPorOrigem.Percentual | src/app/api/dashboard/faturamento-por-origem/route.ts:209-214 | the share in percent of a positive total, 0 otherwise |
| FaturamentoPorOrigem.PercentuaisSomam100 | src/app/api/dashboard/faturamento-por-origem/route.ts:209-210 | the two shares of a positive total add up to 100 |
| FaturamentoPorOrigem.GrupoDe | src/app/api/dashboard/faturamento-por-origem/route.ts:220-227 | a group's entry keeps its label and count, with revenue and shares rounded to cents |
| FaturamentoPorOrigem.Resultado | src/app/api/dashboard/faturamento-por-origem/route.ts:216-239 | "Com ADS" appears exactly when its revenue is positive, likewise "Sem ADS", and no revenue shown is negative; "Com ADS" comes first and "Sem ADS" last, each the GrupoDe of its own revenue and count over the overall totals (rounded revenue and shares) |
| FaturamentoPorOrigem.Origens | src/app/api/dashboard/faturamento-por-origem/route.ts:216-239 | the optional "Com ADS" entry followed by the optional "Sem ADS" entry holds each label exactly when that entry is present |
| TopProdutos.IntervaloDoPeriodo | src/app/api/dashboard/top-produtos-faturamento/route.ts:14-43 | the four month periods give the same windows as revenue by origin; any other name runs from the epoch to now |
| TopProdutos.PeriodoDoPedido | src/app/api/dashboard/top-produtos-faturamento/route.ts:56-83 | an explicit range ends at the last millisecond of its final day, "todos" (also the default) applies no date filter, and otherwise the named period applies; agrees with revenue by origin except on names this route does not know |
| TopProdutos.MapaSkus | src/app/api/dashboard/top-produtos-faturamento/route.ts:168-171 | the map's keys are exactly the registered SKU codes, and a code listed once maps to its record |
| TopProdutos.AgrupamentoDe | src/app/api/dashboard/top-produtos-faturamento/route.ts:63 | each of the four known grouping names selects its own mode, and everything else (missing, empty, unknown, "mlb") groups by SKU or title |
| TopProdutos.ChaveDeAgrupamento | src/app/api/dashboard/top-produtos-faturamento/route.ts:174-190 | by SKU or title, the key is the SKU when there is one and empty only when both are; by hierarchy, the SKU's level or the fixed "Sem Hierarquia" label, never empty; by kit, "Kits" exactly for a sale whose SKU is a parent and "Produtos Individuais" otherwise |
| TopProdutos.Truncar | src/app/api/dashboard/top-produtos-faturamento/route.ts:198-200 | a title of at most 30 characters is kept, and a longer one becomes its first 30 characters followed by "..." |
| TopProdutos.NomeDeExibicao | src/app/api/dashboard/top-produtos-faturamento/route.ts:193-213 | the shortened title when grouping by SKU or title, and the grouping key itself in the other modes |
| TopProdutos.Primeira | src/app/api/dashboard/top-produtos-faturamento/route.ts:230-241 | the first element filed under a key, and none exactly when no element has that key |
| TopProdutos.GrupoStep | src/app/api/dashboard/top-produtos-faturamento/route.ts:223-242 | one pass of the loop changes only the sale's own group: a new entry, or the existing one with the sale's revenue and quantity added |
| TopProdutos.GrupoPresente | src/app/api/dashboard/top-produtos-faturamento/route.ts:230-241 | every key some sale has ends up with a group |
| TopProdutos.GruposStep | src/app/api/dashboard/top-produtos-faturamento/route.ts:223-242 | after each sale, every map entry equals the group that sale prefix defines |
| TopProdutos.AgruparCom | src/app/api/dashboard/top-produtos-faturamento/route.ts:216-242 | the loop's map holds one entry per distinct key in first-seen order: the first sale's name and SKU, and the revenue and quantity summed over all the key's sales |
| TopProdutos.SomaDosGrupos | src/app/api/dashboard/top-produtos-faturamento/route.ts:223-242 | the groups partition the sales, so the group totals add up to the total over all sales |
| TopProdutos.ComTicket | src/app/api/dashboard/top-produtos-faturamento/route.ts:245-248 | the average ticket times the quantity gives the revenue when units were sold, and is 0 otherwise; the other fields are kept |
| TopProdutos.MaisFaturamentoIsTotalPreorder | src/app/api/dashboard/top-produtos-faturamento/route.ts:252 | the descending-revenue comparator is a total preorder, so sorting by it is well defined |
| TopProdutos.Top10 | src/app/api/dashboard/top-produtos-faturamento/route.ts:251-253 | at most ten rows, all from the input, in descending revenue, and none left out earns more than any kept |
| TopProdutos.TopDeOrdenada | src/app/api/dashboard/top-produtos-faturamento/route.ts:251-253 | the first n rows of a list sorted by revenue earn at least as much as any row after them |
| TopProdutos.Linhas | src/app/api/dashboard/top-produtos-faturamento/route.ts:216-248 | one row per distinct grouping key |
| TopProdutos.TopProdutosFaturamento | src/app/api/dashboard/top-produtos-faturamento/route.ts:132-253 | the response is the ten best groups of the channel's sales under the requested grouping, as the specification functions define them |
| TopProdutos.GruposSomamTudo | src/app/api/dashboard/top-produtos-faturamento/route.ts:223-248 | every sale counts in exactly one group: the rows' revenues and quantities add up to those of all the sales |
| ImportExcel.BaseLetter | src/app/api/financeiro/import-excel/route.ts:516 | only a lower-case accented Latin-1 letter changes, to its plain ASCII base letter, and no capital is introduced |
| ImportExcel.StripDiacritics | src/app/api/financeiro/import-excel/route.ts:516 | the result holds no accented letter and no combining mark, is no longer than the input, stays lower case, and text without accents is unchanged |
| ImportExcel.CollapseSpaces | src/app/api/financeiro/import-excel/route.ts:516 | empty text stays empty and only empty text becomes empty; text that starts with a visible character still starts with it |
| ImportExcel.CollapseSpacesOnlySpaces | src/app/api/financeiro/import-excel/route.ts:516 | after collapsing, the only white space left is the plain space |
| ImportExcel.CollapseSpacesSingle | src/app/api/financeiro/import-excel/route.ts:516 | after collapsing, no two spaces are adjacent |
| ImportExcel.CollapseSpacesKeepsText | src/app/api/financeiro/import-excel/route.ts:516 | collapsing keeps every character that is not white space, in order |
| ImportExcel.CollapseSpacesChars | src/app/api/financeiro/import-excel/route.ts:516 | collapsing writes only spaces and characters of its input |
| ImportExcel.NonBlankTrimStart | src/app/api/financeiro/import-excel/route.ts:516 | trimming the front keeps the characters that are not white space |
| ImportExcel.TrimStartBlankPrefix | src/app/api/financeiro/import-excel/route.ts:516 | a blank prefix disappears when the front is trimmed |
| ImportExcel.Normalize | src/app/api/financeiro/import-excel/route.ts:515-516 | a normalised header has no capital, no accented letter and no combining mark, and its only white space is single spaces |
| ImportExcel.NormalizeClean | src/app/api/financeiro/import-excel/route.ts:515-516 | trim, lower case, accent removal and collapsing in that order leave a clean header |
| ImportExcel.NormalizeIgnoresCase | src/app/api/financeiro/import-excel/route.ts:515-516 | headers that differ only in letter case normalise alike |
| ImportExcel.NormalizeIgnoresLeadingBlanks | src/app/api/financeiro/import-excel/route.ts:515-516 | headers that differ only in white space before the text normalise alike |
| ImportExcel.TipoDe | src/app/api/financeiro/import-excel/route.ts:520-546 | exactly the four import type names are known |
| ImportExcel.CampoDoCabecalho | src/app/api/financeiro/import-excel/route.ts:520-546 | a header fills a field of its own import type only, and the first rule it meets wins: "descricao" always gives the description outside payment methods |
| ImportExcel.Campos | src/app/api/financeiro/import-excel/route.ts:518-547 | one field (or none) per header column |
| ImportExcel.UltimaColuna | src/app/api/financeiro/import-excel/route.ts:518-547 | the last column that fills the field, and none exactly when no column does |
| ImportExcel.Mapeamento | src/app/api/financeiro/import-excel/route.ts:513-549 | a field is mapped exactly when some column fills it, to the index written as text of the last such column |
| ImportExcel.GetFieldMappingNormalized | src/app/api/financeiro/import-excel/route.ts:513-549 | the loop over the header row builds exactly that mapping |
| ImportExcel.ValorDoCampoMapeado | src/app/api/financeiro/import-excel/route.ts:373-376 | through the mapping, a field reads the cell under the last column that fills it, and null when no column does or the row is shorter |
| ImportExcel.TrocarPrimeiraVirgula | src/app/api/financeiro/import-excel/route.ts:413 | the length is kept, and text without a comma is unchanged |
| ImportExcel.TrocarVirgulaDepoisDeDigitos | src/app/api/financeiro/import-excel/route.ts:413 | in digits, a comma, then anything, the comma becomes the point |
| ImportExcel.ParseDecimal | src/app/api/financeiro/import-excel/route.ts:411-416 | an empty cell reads as 0 |
| ImportExcel.DigitRunPrefix | src/app/api/financeiro/import-excel/route.ts:414 | a run of digits in front lengthens the scanned digit run by its length |
| ImportExcel.ScanPonto | src/app/api/financeiro/import-excel/route.ts:414 | digits, a point and digits scan as one decimal literal of that value, consuming all of it |
| ImportExcel.SemVirgula | src/app/api/financeiro/import-excel/route.ts:413 | digits, a point and digits contain no comma |
| ImportExcel.ParseFloatPonto | src/app/api/financeiro/import-excel/route.ts:414 | parseFloat reads digits, a point and digits as their decimal value |
| ImportExcel.DecimalComVirgula | src/app/api/financeiro/import-excel/route.ts:411-416 | a decimal comma reads as a decimal point: "12,5" and "12.5" are both 12.5 |
| ImportExcel.DecimalDeNumeroInteiro | src/app/api/financeiro/import-excel/route.ts:411-416 | a positive whole-number cell reads as its own value |
| ImportExcel.FormatosExclusivos | src/app/api/financeiro/import-excel/route.ts:389-393 | no text fits two of the three date formats, so the order they are tried in does not matter |
| ImportExcel.DataNoTexto | src/app/api/financeiro/import-excel/route.ts:389-405 | a day is found exactly when the text fits one of the three formats |
| ImportExcel.ParseDate | src/app/api/financeiro/import-excel/route.ts:378-409 | an empty cell is now, a date cell is itself, and a text cell reads as local midnight exactly when it fits one of the three formats |
| ImportExcel.SerialExcel | src/app/api/financeiro/import-excel/route.ts:383-386 | a whole Excel serial k is midnight UTC k days after 30 December 1899 |
| ImportExcel.SerialEpoch | src/app/api/financeiro/import-excel/route.ts:383-386 | the Excel epoch, 30 December 1899, is 25569 days before 1 January 1970 |
| ImportExcel.Ano4Value | src/app/api/financeiro/import-excel/route.ts:399-403 | a year written with four digits reads back as itself |
| ImportExcel.DataEscritaLida | src/app/api/financeiro/import-excel/route.ts:395-405 | a date written DD/MM/YYYY, YYYY-MM-DD or DD-MM-YYYY reads back as local midnight of that day, for years from 100 on |
| ImportExcel.AnoDeDoisDigitos | src/app/api/financeiro/import-excel/route.ts:399 | a year written 0000 to 0099 is read in the twentieth century, as the Date constructor does |
| ImportExcel.MapaDeNomes | src/app/api/financeiro/import-excel/route.ts:122-130 | a name is in the map exactly when it is non-empty and some entry has it, and a name used once maps to that entry's id |
| ImportExcel.EntradasDeCategorias | src/app/api/financeiro/import-excel/route.ts:124-127 | one (name key, id) entry per registered category, the key being its trimmed lower-case description or name |
| ImportExcel.EntradasDeFormas | src/app/api/financeiro/import-excel/route.ts:134 | one (name key, id) entry per registered payment method, the key being its trimmed lower-case name |
| ImportExcel.Referenciar | src/app/api/financeiro/import-excel/route.ts:121-137 | every registered id is known, and the name lookups are built from the entries with a non-empty key |
| ImportExcel.ResolverId | src/app/api/financeiro/import-excel/route.ts:498-509 | no reference exactly for an empty or blank cell; otherwise the trimmed text when it is an id, else the id registered under its lower case, else the "não encontrada" error naming the text |
| ImportExcel.WhitespaceToUpper | src/app/api/financeiro/import-excel/route.ts:498-509 | a text is blank after upper-casing exactly when it was blank before |
| ImportExcel.ResolverIgnoraCaixa | src/app/api/financeiro/import-excel/route.ts:506 | a name typed in capitals resolves as typed in lower case, when neither spelling is an id |
| ImportExcel.CategoriaPeloNome | src/app/api/financeiro/import-excel/route.ts:121-130 | a registered category's name, in any case and with blanks around it, resolves to that category |
| ImportExcel.ResolverPeloNome | src/app/api/financeiro/import-excel/route.ts:504-508 | a text that is not an id but whose lower case is a registered name resolves to that name's id |
| ImportExcel.ResolvidoPeloNome | src/app/api/financeiro/import-excel/route.ts:498-509 | a text that is not an id resolves only when it is blank or its lower-case key is registered with a non-empty id |
| ImportExcel.ChaveSemCaixa | src/app/api/financeiro/import-excel/route.ts:504-506 | typing a text in capitals changes neither its trimmed lower-case key nor whether it is blank |
| ImportExcel.ResolverMesmaChave | src/app/api/financeiro/import-excel/route.ts:498-509 | two texts that are not ids, are blank alike and share a registered key resolve to the same reference |
| ImportExcel.ContaDaLinha | src/app/api/financeiro/import-excel/route.ts:419-459 | a missing description, amount or due date is the required-fields error; otherwise amount and due date are parsed, the status is settled exactly when the settlement cell is filled, and a category error takes precedence over a payment-method error |
| ImportExcel.MaiusculasDeTextoSimples | src/app/api/financeiro/import-excel/route.ts:476 | text whose lower case is plain ASCII letters upper-cases to those letters in capitals |
| ImportExcel.TipoEmMaiusculas | src/app/api/financeiro/import-excel/route.ts:469-476 | a valid category type in any case is stored as "RECEITA" or "DESPESA" |
| ImportExcel.CategoriaDaLinha | src/app/api/financeiro/import-excel/route.ts:461-479 | description and type are required, a type other than receita or despesa (in any case) is an error, and a valid row becomes an active category of that type |
| ImportExcel.FormaDaLinha | src/app/api/financeiro/import-excel/route.ts:481-491 | a row gives a payment method exactly when its name cell is filled |
| ImportExcel.ParseRowData | src/app/api/financeiro/import-excel/route.ts:361-496 | an unknown import type is an error; a row read under each known type gives that type's record for this user |
| TabelaSku.PaiDe | src/app/components/views/ui/TabelaGestaoSKU.tsx:145 | an item names a kit exactly when its parent SKU is present and not empty, and then names that SKU |
| TabelaSku.Ids | src/app/components/views/ui/TabelaGestaoSKU.tsx:149-156 | an id is in the set exactly when some record of the list has it |
| TabelaSku.AgruparPorPai | src/app/components/views/ui/TabelaGestaoSKU.tsx:143-148 | the loop leaves under each kit SKU exactly the items naming it, in their order, and nothing under any other key |
| TabelaSku.SkusOrdenados | src/app/components/views/ui/TabelaGestaoSKU.tsx:140-164 | the plain listing is each kit followed by the items naming it, then the items not yet listed, as the ordering function defines |
| TabelaSku.ListarKits | src/app/components/views/ui/TabelaGestaoSKU.tsx:151-158 | the kit loop produces the kit blocks and marks as used exactly the ids listed in them |
| TabelaSku.AcrescentarFilhos | src/app/components/views/ui/TabelaGestaoSKU.tsx:154-157 | a kit's items are appended in order and exactly their ids are added to the used set |
| TabelaSku.AcrescentarNaoUsados | src/app/components/views/ui/TabelaGestaoSKU.tsx:160-162 | exactly the items whose id is not used are appended, in their order |
| TabelaSku.KitSeguidoDosFilhos | src/app/components/views/ui/TabelaGestaoSKU.tsx:151-158 | in the listing every kit is immediately followed by exactly the items listed under it |
| TabelaSku.OrfaosNoFim | src/app/components/views/ui/TabelaGestaoSKU.tsx:159-162 | after the kit blocks come only items, none of them used, and every unused item is there; every kit is within the blocks |
| TabelaSku.SkusDe | src/app/components/views/ui/TabelaGestaoSKU.tsx:153 | a SKU is in the set exactly when some kit of the list has it |
| TabelaSku.PartilhaDosKits | src/app/components/views/ui/TabelaGestaoSKU.tsx:151-158 | naming one of a set of kits or a new kit is naming one of the enlarged set, and never both |
| TabelaSku.BlocosSaoKitsEFilhos | src/app/components/views/ui/TabelaGestaoSKU.tsx:151-158 | when kits have distinct SKUs, the kit blocks hold, as a multiset, the kits and exactly the items naming one of them |
| TabelaSku.FilhosPartidos | src/app/components/views/ui/TabelaGestaoSKU.tsx:151-162 | the items that are not kits are split, as a multiset, into those naming a listed kit and those left for the end |
| TabelaSku.UsadoSseTemKit | src/app/components/views/ui/TabelaGestaoSKU.tsx:156 | an item is marked as used exactly when it names one of the kits |
| TabelaSku.ListagemEhPermutacao | src/app/components/views/ui/TabelaGestaoSKU.tsx:140-164 | the plain listing is a permutation of the SKUs: each appears exactly once, when kits have distinct SKUs and ids identify records |
| TabelaSku.OrfaosSaoOsSemKit | src/app/components/views/ui/TabelaGestaoSKU.tsx:159-162 | the items that name a kit and the items left for the end together are all the items, as a multiset |
| TabelaSku.AcrescentarUnicos | src/app/components/views/ui/TabelaGestaoSKU.tsx:196-200 | the list keeps its prefix and ends up with exactly the ids of both |
| TabelaSku.AcrescentarUnicosMembros | src/app/components/views/ui/TabelaGestaoSKU.tsx:196-200 | it gains only records from the array |
| TabelaSku.AcrescentarUnicosDistintos | src/app/components/views/ui/TabelaGestaoSKU.tsx:196-200 | a list with distinct ids keeps its ids distinct |
| TabelaSku.PushUnique | src/app/components/views/ui/TabelaGestaoSKU.tsx:196-200 | the loop computes that function |
| TabelaSku.SkuAntesIsTotalPreorder | src/app/components/views/ui/TabelaGestaoSKU.tsx:204 | ordering by SKU is a total preorder, so sorting by it is well defined |
| TabelaSku.CombinarFilhos | src/app/components/views/ui/TabelaGestaoSKU.tsx:182-204 | a kit's items for the hierarchical view are the combined list sorted by SKU, as the specification function defines |
| TabelaSku.ListarKitsHier | src/app/components/views/ui/TabelaGestaoSKU.tsx:180-208 | the kit loop of the hierarchical view produces the kit blocks and marks as used exactly the ids listed in them |
| TabelaSku.SkusOrdenadosHier | src/app/components/views/ui/TabelaGestaoSKU.tsx:167-214 | the hierarchical listing is each kit followed by its sorted items, then the items not yet listed |
| TabelaSku.PermutacaoPreservaIds | src/app/components/views/ui/TabelaGestaoSKU.tsx:204 | reordering a list with distinct ids does not create repeated ids |
| TabelaSku.PermutacaoMesmosRegistros | src/app/components/views/ui/TabelaGestaoSKU.tsx:204 | a reordered list has the same records and the same ids |
| TabelaSku.CombinadosSaoDoKit | src/app/components/views/ui/TabelaGestaoSKU.tsx:194-202 | the combined list has distinct ids, holds only items that belong to the kit, and holds the id of every such item |
| TabelaSku.CombinadosMembros | src/app/components/views/ui/TabelaGestaoSKU.tsx:194-202 | the combined list holds only items of the list given that belong to the kit |
| TabelaSku.CombinadosCobrem | src/app/components/views/ui/TabelaGestaoSKU.tsx:194-202 | every item that belongs to the kit has its id in the combined list |
| TabelaSku.FilhosDoKitCorretos | src/app/components/views/ui/TabelaGestaoSKU.tsx:182-207 | under a kit the hierarchical view lists items sorted by SKU, without repeated ids, exactly those naming the kit or named in its list |
| TabelaSku.AlterarCampo | src/app/components/views/ui/TabelaGestaoSKU.tsx:360-380 | the changed field takes the value; a kit gets quantity 0 and no parent, an item gets quantity 1 and no list of items; every other field keeps its value |
| TabelaSku.LimparErro | src/app/components/views/ui/TabelaGestaoSKU.tsx:382-384 | a shown error for the changed field is emptied, and every other entry is kept |
| TabelaSku.ValidarFormulario | src/app/components/views/ui/TabelaGestaoSKU.tsx:386-411 | each of the six errors is present exactly when its check fails, and every message is non-empty |
| TabelaSku.SemErrosSseValido | src/app/components/views/ui/TabelaGestaoSKU.tsx:386-411 | the form is valid exactly when the error record is empty |
| TabelaSku.TextoOuAusente | src/app/components/views/ui/TabelaGestaoSKU.tsx:448-450 | absent exactly for blank text, otherwise the trimmed text |
| TabelaSku.CriarSku | src/app/components/views/ui/TabelaGestaoSKU.tsx:413-457 | a record is sent exactly when there is a handler and the form is valid: trimmed SKU and name, the form's cost, parent and hierarchy levels trimmed or absent when blank, quantity 0 and the item list for a kit, quantity 1 and no list for an item, always in stock |
| TabelaSku.TrocarTipoSemErrosDoTipo | src/app/components/views/ui/TabelaGestaoSKU.tsx:367-375 | changing the type never leaves a parent or quantity error, nor a missing-items error for an item |
| TabelaSku.ValidacaoPorCampo | src/app/components/views/ui/TabelaGestaoSKU.tsx:360-411 | changing a field other than the type changes only that field's own error |
| TabelaSku.FormularioInicial | src/app/components/views/ui/TabelaGestaoSKU.tsx:215-227 | the empty form fails only for the missing SKU and product name |
| VendasPagination.DivCeil | src/app/components/views/ui/TabelaVendas.tsx:417 | the least whole number of blocks of size b that covers a |
| VendasPagination.TotalDePaginas | src/app/components/views/ui/TabelaVendas.tsx:417 | at least one page, and exactly enough pages to hold every item, with none of them empty except the single page of an empty list |
| VendasPagination.PrimeiroMostrado | src/app/components/views/ui/VendasPagination.tsx:24-28 | 0 with no items, otherwise at least 1 on a page numbered 1 or more (its place in the run shown: FaixaMostrada) |
| VendasPagination.UltimoMostrado | src/app/components/views/ui/VendasPagination.tsx:29-34 | the page's last position or the item count, whichever comes first (its place in the run shown: FaixaMostrada) |
| VendasPagination.FaixaMostrada | src/app/components/views/ui/VendasPagination.tsx:24-34 | on any existing page the range shown is a non-empty run of at most a page of items within 1..total, starting right after the previous page's last item; with no items it shows 0 - 0 |
| VendasPagination.PaginasVisiveis | src/app/components/views/ui/VendasPagination.tsx:67-76 | the loop lists every page from the window's first to its last, consecutively |
| VendasPagination.InicioDaJanela | src/app/components/views/ui/VendasPagination.tsx:67-69 | the window starts one after a multiple of ten, at most nine pages before the current one |
| VendasPagination.FimDaJanela | src/app/components/views/ui/VendasPagination.tsx:70-71 | the window ends by the last page and within ten pages of its start, and not before an existing current page |
| VendasPagination.JanelaContemPagina | src/app/components/views/ui/VendasPagination.tsx:68-71 | on an existing page the window holds one to ten consecutive existing pages, including the current one, and starts one after a multiple of ten |
| VendasPagination.PaginaAnterior | src/app/components/views/ui/VendasPagination.tsx:59-61 | never below page 1 and at most one step back (where it stays put: AnteriorEProxima) |
| VendasPagination.ProximaPagina | src/app/components/views/ui/VendasPagination.tsx:63-65 | never past the last page, one step forward when there is one (where it stays put: AnteriorEProxima) |
| VendasPagination.AnteriorEProxima | src/app/components/views/ui/VendasPagination.tsx:59-65 | both buttons lead to an existing page at most one step away, and each stays put exactly where it is disabled: previous on page 1, next on the last page |
| Financas.CalcularPeriodo | src/app/components/views/Financas.tsx:655-684 | no period exactly for "todos" and for a custom period missing a date; a custom period is its two dates; "hoje" and "ontem" are single days (the other periods: HojeEOntem, PeriodoEsteMes, MesPassadoAntesDoEsteMes) |
| Financas.HojeEOntem | src/app/components/views/Financas.tsx:655-666 | "hoje" is today alone and "ontem" the day before |
| Financas.PeriodoEsteMes | src/app/components/views/Financas.tsx:667-671 | "este_mes" runs from the first to the last day of the current month and holds today |
| Financas.MesPassadoAntesDoEsteMes | src/app/components/views/Financas.tsx:672-676 | "mes_passado" is non-empty and ends the day before "este_mes" starts |
| Financas.AplicarFiltros | src/app/components/views/Financas.tsx:688-709 | never more accounts than given (which ones: FiltrosCombinados; their order: FiltrosMantemOrdem) |
| Financas.FiltrosMantemOrdem | src/app/components/views/Financas.tsx:688-709 | the accounts kept stay in the list's order: filtering two stretches and joining them is filtering the whole list |
| Financas.Passa | src/app/components/views/Financas.tsx:688-709 | with every filter on its catch-all value an account passes, and with a category chosen only that category's accounts pass (in full: FiltrosCombinados and PersonalizadoIncompleto) |
| Financas.FiltrosCombinados | src/app/components/views/Financas.tsx:688-709 | an account is kept exactly when it passes the period, category, status and origin filters |
| Financas.SemFiltros | src/app/components/views/Financas.tsx:688-709 | with every filter on its catch-all value nothing is dropped |
| Financas.PersonalizadoIncompleto | src/app/components/views/Financas.tsx:677-681 | a custom period with a date missing filters nothing by date |
| Financas.TotalDePaginas | src/app/components/views/Financas.tsx:716-717 | at least one page |
| Financas.Slice | src/app/components/views/Financas.tsx:718-719 | a slice is never longer than the list |
| Financas.Pagina | src/app/components/views/Financas.tsx:718-719 | a page holds at most 15 items |
| Financas.PaginaEhTrecho | src/app/components/views/Financas.tsx:718-719 | page p is the run of at most 15 items starting at position (p - 1) * 15, and empty past the end |
| Financas.PrimeirasPaginasSaoPrefixo | src/app/components/views/Financas.tsx:716-719 | the first k pages together are the first 15k items, or all of them |
| Financas.PaginasParticionam | src/app/components/views/Financas.tsx:714-719 | the pages from the first to the last hold every filtered account exactly once, in order, and only the last can be short |
| Financas.AjustarPagina | src/app/components/views/Financas.tsx:721-727 | a page past the last becomes the last, and any other is kept |
| Financas.PaginaAjustadaExiste | src/app/components/views/Financas.tsx:716-727 | after the adjustment a page numbered 1 or more is an existing page, and holds items unless the list is empty |
| ModalSyncVendas.ContaDoPedido | src/app/components/views/ui/ModalSyncVendas.tsx:232-233 | an order belongs to its account id when it has one, else to its shop id, and to no account exactly when both are missing or empty |
| ModalSyncVendas.PedidosDaContaMembros | src/app/components/views/ui/ModalSyncVendas.tsx:230-239 | an order id is listed under an account exactly when some order with that id belongs to it |
| ModalSyncVendas.AgruparPorConta | src/app/components/views/ui/ModalSyncVendas.tsx:230-239 | the loop lists under each account exactly its orders' ids, in order, and creates no empty entry |
| ModalSyncVendas.ContasComPedidos | src/app/components/views/ui/ModalSyncVendas.tsx:230-239 | an account has an entry exactly when one of the orders belongs to it, so orders with neither id are skipped |
| ModalSyncVendas.IdsDe | src/app/components/views/ui/ModalSyncVendas.tsx:273 | the ids of the accounts, in order |
| ModalSyncVendas.Preselecao | src/app/components/views/ui/ModalSyncVendas.tsx:268-274 | when no account has new orders every account is selected; the selection is empty only when there are no accounts |
| ModalSyncVendas.PreselecaoComVendas | src/app/components/views/ui/ModalSyncVendas.tsx:268-274 | when some account has new orders, an id is selected exactly when it belongs to an account with new orders |
| ModalSyncVendas.FilterSemRepeticao | src/app/components/views/ui/ModalSyncVendas.tsx:347 | filtering keeps a list without repetitions |
| ModalSyncVendas.AlternarConta | src/app/components/views/ui/ModalSyncVendas.tsx:344-350 | the account's membership flips, every other account keeps its state, and no account is listed twice |
| ModalSyncVendas.AlternarDuasVezes | src/app/components/views/ui/ModalSyncVendas.tsx:344-350 | toggling the same account twice gives back the same set of selected accounts |
| ModalSyncVendas.AlternarTodas | src/app/components/views/ui/ModalSyncVendas.tsx:352-358 | the length test of the button (what it means: AlternarTodasInverte) |
| ModalSyncVendas.ElementosDistintos | src/app/components/views/ui/ModalSyncVendas.tsx:353 | a list without repetitions has as many distinct elements as entries |
| ModalSyncVendas.SubconjuntoDeMesmoTamanho | src/app/components/views/ui/ModalSyncVendas.tsx:353 | a subset as large as its superset is the whole of it |
| ModalSyncVendas.AlternarTodasInverte | src/app/components/views/ui/ModalSyncVendas.tsx:352-358 | "select all" clears the selection exactly when every account is already selected, and otherwise selects every account |
| ModalSyncVendas.TodasSelecionadasSse | src/app/components/views/ui/ModalSyncVendas.tsx:353 | comparing lengths tells whether every account is selected, as long as the selection holds distinct ids of listed accounts |
| ModalSyncVendas.PedidosFiltrados | src/app/components/views/ui/ModalSyncVendas.tsx:321-333 | what is sent is part of the orders by account, each account with its own list, and all of it with no selection (selected accounts: FiltradosSaoSelecionados) |
| ModalSyncVendas.FiltrarPedidos | src/app/components/views/ui/ModalSyncVendas.tsx:321-333 | the loop computes the orders sent for the selection |
| ModalSyncVendas.FiltradosSaoSelecionados | src/app/components/views/ui/ModalSyncVendas.tsx:321-333 | every account sent is a selected one (when any is selected) with its own list unchanged, and every selected account with orders is sent |
| ModalSyncVendas.CalcularProgresso | src/app/components/views/ui/ModalSyncVendas.tsx:368-371 | 0 while a count is missing; otherwise, with a non-zero expected count, within half a unit of the percentage fetched |
| ModalSyncVendas.ProgressoEntre0e100 | src/app/components/views/ui/ModalSyncVendas.tsx:368-371 | while no more than expected has been fetched the percentage lies in 0..100, and it is 100 once everything has been |
| ModalSyncVendas.ProgressoMonotono | src/app/components/views/ui/ModalSyncVendas.tsx:368-371 | the percentage never decreases as more is fetched |
| ApiCache.Cache.constructor | src/hooks/useApiCache.ts:17 | the shared cache starts empty |
| ApiCache.Cache.Gravar | src/hooks/useApiCache.ts:59 | the key now maps to the new entry and every other key is unchanged |
| ApiCache.Cache.Apagar | src/hooks/useApiCache.ts:156-158 | exactly that key is removed |
| ApiCache.Cache.Limpar | src/hooks/useApiCache.ts:151-153 | the cache becomes empty |
| ApiCache.Cache.InvalidarPrefixo | src/hooks/useApiCache.ts:161-169 | exactly the entries whose key starts with the prefix are removed; every other entry stays as it was |
| ApiCache.ChavesComPrefixo | src/hooks/useApiCache.ts:162-167 | the keys collected are exactly those that start with the prefix |
| ApiCache.Decidir | src/hooks/useApiCache.ts:47-54 | an entry is served exactly when there is one, the call is not forced and it is younger than cacheTime; a served entry is refetched in the background exactly when older than staleTime |
| ApiCache.ForcarSempreBusca | src/hooks/useApiCache.ts:48 | a forced call always fetches, and so does a call with no entry |
| ApiCache.TemposPadrao | src/hooks/useApiCache.ts:25-26 | with the default times an entry is served for 30 s, served and refetched in the background up to 5 min, and fetched again after that |
| ApiCache.UseApiCache.constructor | src/hooks/useApiCache.ts:24-34 | cacheTime and staleTime default to 5 minutes and 30 seconds; nothing is loaded, no error, mounted |
| ApiCache.UseApiCache.FetchData | src/hooks/useApiCache.ts:42-95 | served from the cache, the hook shows the entry with no loading state or error and a successful background refetch replaces it; fetching, a success stores and shows the data and a failure sets the error and falls back to any cached entry, even expired; nothing is stored or shown once unmounted |
| ApiCache.UseApiCache.Mutate | src/hooks/useApiCache.ts:123-130 | the new value, or the function applied to the current data, is stored with the current time and shown; loading and error are untouched |
| ApiCache.UseApiCache.Revalidate | src/hooks/useApiCache.ts:132-134 | always fetches: on success the data is stored and shown with no error; a failure sets the error and shows the old cache entry, even expired, when there is one (otherwise the data shown stays); once unmounted nothing is stored or shown and the loading flag stays set |
| ApiCache.UseApiCache.ClearCache | src/hooks/useApiCache.ts:136-138 | only this hook's key leaves the shared cache |
| ApiCache.UseApiCache.Desmontar | src/hooks/useApiCache.ts:116-121 | the hook is marked unmounted and its state is kept |
| ApiCache.MutateDepoisServe | src/hooks/useApiCache.ts:48-54 | right after a mutation, a call at the same instant is served from the cache with the mutated value and no background refetch |
| Toaster.NovoToast | src/app/components/views/ui/toaster.tsx:241-264 | the given id or the generated one, variant "info" and 4000 ms unless given, empty title and description unless given, the creation time, and the progress options as passed |
| Toaster.AdicionarToast | src/app/components/views/ui/toaster.tsx:241-271 | the list gains exactly the new toast at its end, and the id returned is that toast's |
| Toaster.AutoFechaPadrao | src/app/components/views/ui/toaster.tsx:251-269 | a toast without a duration closes by itself, and duration 0 keeps it open |
| Toaster.Dismiss | src/app/components/views/ui/toaster.tsx:222-224 | the remaining toasts are all from the list and none has the id |
| Toaster.DismissRemoveSoEsse | src/app/components/views/ui/toaster.tsx:222-224 | a toast remains exactly when it was there and has another id |
| Toaster.DismissSemEfeito | src/app/components/views/ui/toaster.tsx:222-224 | dismissing an unknown id changes nothing, and dismissing twice is dismissing once |
| Toaster.AdicionarEDispensar | src/app/components/views/ui/toaster.tsx:222-271 | adding a toast under a fresh id and then dismissing that id gives back the list |
| Toaster.OuAtual | src/app/components/views/ui/toaster.tsx:232-235 | a present option replaces the value, and a missing or undefined one keeps it |
| Toaster.Atualizar | src/app/components/views/ui/toaster.tsx:229-236 | an update keeps the creation time |
| Toaster.ProgressoIndefinidoMantido | src/app/components/views/ui/toaster.tsx:229-236 | progress fields passed as undefined are kept while a title passed as undefined is cleared, and an empty update changes nothing |
| Toaster.UpdateToast | src/app/components/views/ui/toaster.tsx:226-239 | the toasts with the id are updated, the others are unchanged, and the list keeps its length |
| Toaster.AtualizarEDispensar | src/app/components/views/ui/toaster.tsx:222-239 | an update that leaves ids alone, followed by dismissing that id, is the dismissal alone |
| Toaster.Inverter | src/app/components/views/ui/toaster.tsx:106 | the list in reverse order |
| Toaster.Pilha | src/app/components/views/ui/toaster.tsx:105-106 | the last three toasts (or all, when fewer), newest first |
| Toaster.NovoNoTopo | src/app/components/views/ui/toaster.tsx:105-106 | a toast just added is on top of the stack, above the toasts that were already shown |
| Topbar.MaiusculaAscii | src/app/components/views/ui/Topbar.tsx:33 | only a to z change, to the matching capital |
| Topbar.TrocarHifens | src/app/components/views/ui/Topbar.tsx:33 | every hyphen becomes a space and every other character is kept |
| Topbar.Capitalizar | src/app/components/views/ui/Topbar.tsx:33 | exactly the word-start characters are upper-cased and every other is kept |
| Topbar.ToLabel | src/app/components/views/ui/Topbar.tsx:30-35 | a known segment gets its label from the map; any other keeps its length and loses its hyphens |
| Topbar.RotuloSoMudaCaixa | src/app/components/views/ui/Topbar.tsx:30-35 | an unknown segment's label differs from it only in case and hyphens, and every word starts with a capital |
| Topbar.RotuloComHifen | src/app/components/views/ui/Topbar.tsx:33 | "novo-item" is labelled "Novo Item" |
| Topbar.RotuloNaoAscii | src/app/components/views/ui/Topbar.tsx:33 | in "aço" the o after the non-ASCII letter also counts as a word start, giving "AçO" |
| Topbar.Segmentos | src/app/components/views/ui/Topbar.tsx:42-43 | the segments are never empty and contain no slash |
| Topbar.Crumbs | src/app/components/views/ui/Topbar.tsx:44-47 | one crumb per segment, linking to the path up to it and labelled by the segment |
| Topbar.HrefNomeiaPrefixo | src/app/components/views/ui/Topbar.tsx:44-47 | each link starts with a slash and splits back into the segments up to its own, and extends the previous link by a slash and its segment |
| Topbar.SemSegmentosVazios | src/app/components/views/ui/Topbar.tsx:42-43 | the empty path and "/" have no crumbs, and every link has at least one character after the slash |
| Topbar.HrefsDosCrumbs | src/app/components/views/ui/Topbar.tsx:45 | the first link is a slash and the first segment, and every later link has a second slash |
| Topbar.CrumbsVisiveis | src/app/components/views/ui/Topbar.tsx:98-99 | no crumb shown links to "/dashboard" |
| Topbar.DashboardNaoSeRepete | src/app/components/views/ui/Topbar.tsx:98-99 | the crumbs shown are all of them, less the first exactly when the path starts with the "dashboard" segment |
| Topbar.FiltroSoNoPrimeiro | src/app/components/views/ui/Topbar.tsx:98-99 | a filter that every element but the first passes drops at most the first |
| Topbar.JoinSnoc | src/app/components/views/ui/Topbar.tsx:45 | joining one more segment appends the separator and the segment |
| Cadastro.NormalizarEmail | src/app/components/views/Cadastro.tsx:115-118 | the normalised e-mail is no longer than the input and has no white space at either end |
| Cadastro.NormalizarIdempotente | src/app/components/views/Cadastro.tsx:115-118 | normalising twice is normalising once |
| Cadastro.Utf16Length | src/app/components/views/Cadastro.tsx:123 | the length JavaScript counts is at least the number of characters |
| Cadastro.Forca | src/app/components/views/Cadastro.tsx:120-129 | the score is the number of the five criteria met, between 0 and 5 |
| Cadastro.ForcaMaximaSseTodos | src/app/components/views/Cadastro.tsx:120-129 | the score is 5 exactly when all five criteria hold, and 0 exactly for the empty password |
| Cadastro.EmailCasaSse | src/app/components/views/Cadastro.tsx:150 | the e-mail pattern matches exactly when there is no white space, exactly one @ not in first place, and after it a dot with something on each side |
| Cadastro.CasaEntaoBemFormado | src/app/components/views/Cadastro.tsx:150 | a matching e-mail is well formed |
| Cadastro.BemFormadoEntaoCasa | src/app/components/views/Cadastro.tsx:150 | a well-formed e-mail matches |
| Cadastro.ValidarCliente | src/app/components/views/Cadastro.tsx:138-154 | mismatched passwords are reported before every other error |
| Cadastro.ValidoSseNenhumErro | src/app/components/views/Cadastro.tsx:138-154 | validation passes exactly when every check does |
| Cadastro.MensagemConhecida | src/app/components/views/Cadastro.tsx:138-154 | a failing validation's message is one of the six |
| Cadastro.OrdemDosErros | src/app/components/views/Cadastro.tsx:139-149 | with matching passwords, a short password, then a weak one, then a blank name is reported, each only when the checks before it pass |
| Cadastro.Submeter | src/app/components/views/Cadastro.tsx:156-173 | a request body exists exactly when the form is valid, otherwise the validation message; the body has a non-empty name and a matching e-mail, with the password and country as typed |
| UserGuidance.Atualizar | src/hooks/useUserGuidance.ts:51-64 | each notice shows exactly when its condition holds and it was not dismissed |
| UserGuidance.Dispensar | src/hooks/useUserGuidance.ts:66-75 | the stored set gains the notice, which turns off, and every other flag and field keeps its value |
| UserGuidance.CoerenciaPreservada | src/hooks/useUserGuidance.ts:41-75 | the initial state is coherent, and updates and dismissals keep every state coherent |
| UserGuidance.UmaEtapaPorVez | src/hooks/useUserGuidance.ts:59-62 | connecting, syncing and viewing sales never show together: at most one step at a time |
| UserGuidance.DispensadoNuncaVolta | src/hooks/useUserGuidance.ts:59-74 | a dismissed notice never shows again after any later update |
| ApiConfig.BaseUrl | src/lib/api-config.ts:7 | the environment variable, or the empty base when it is missing |
| ApiConfig.CleanPath | src/lib/api-config.ts:33 | the path with at most one leading slash removed, and one removed whenever there is one |
| ApiConfig.GetApiUrl | src/lib/api-config.ts:31-42 | with a base, the base, a slash and the clean path; without one, a slash and the clean path |
| ApiConfig.UmaBarraSoh | src/lib/api-config.ts:31-42 | one extra leading slash changes nothing |
| ApiConfig.RelativaSemBase | src/lib/api-config.ts:31-42 | without a base, a path that starts with a slash comes back unchanged as a relative URL |
| ApiConfig.SegundaBarraFica | src/lib/api-config.ts:33-38 | only one leading slash is dropped: a second one is kept after the base's slash |
| ApiConfig.OpcoesDoFetch | src/lib/api-config.ts:53-64 | credentials are always set: the given ones, else "include"; headers and the other options are kept |
| ApiConfig.Fetch | src/lib/api-config.ts:50-67 | the request goes to the API URL of the path with the completed options |
| ApiConfig.OpcoesIdempotentes | src/lib/api-config.ts:53-57 | completing the options twice is completing them once |

## Left out

- Prisma queries, HTTP clients, server-sent events, sockets, the middleware proxy and console output are I/O. Their rows and responses are parameters, or sequences of records.
- Retry back-off with random jitter, concurrent page fetching, progress reconnects and other timing and concurrency are not modelled. The same goes for the 500 ms wait in the sync dialog.
- Rendering, animations, modals and purely visual components are not modelled.
- Floating point: amounts are exact reals.
  - `roundCurrency`'s `Number.EPSILON` nudge and its `-0` normalisation have no counterpart, since reals have neither rounding error nor a negative zero.
  - Consequently, that `roundCurrency` never returns `-0` is not stated.
  - `Number` and `parseFloat` read decimal literals only: no exponents, hexadecimal or `Infinity` text.
  - `String(n)` is modelled for whole numbers only.
- Dates are a day number plus milliseconds in the day, in one fixed local time. There are no time zones and no daylight saving time. Parsing of free-form date text by the JavaScript engine is not modelled.
- Case mapping and diacritic stripping cover ASCII and Latin-1. Full Unicode case folding and NFD decomposition are not modelled.
- `localeCompare` is modelled as code-unit order.
- `JsValues.TruncateString`: a string's length is counted in code points rather than UTF-16 code units. A title with characters outside the Basic Multilingual Plane is therefore cut later than the source would cut it.
- `TopProdutos.Truncar`: the same, for the 30-character cut of product titles. A title with characters outside the Basic Multilingual Plane is cut later than the source would cut it.
- `JsValues.ToNumber`: Prisma `Decimal` columns, `Date` values and one-element arrays are not `JsObject`s here. `Number` reads them through `valueOf`, so they are passed as the `JsNumber` of their value. Only objects that `Number` reads as NaN are `JsObject`.
- `Sorting.Sort`: its contract states a sorted permutation, not stability. `Array.prototype.sort` is stable, and the insertion sort is too, but no clause says so. The order of ties at the top-10 cut is therefore not stated.
- `ApiConfig.OpcoesDoFetch`: headers are a plain map, so the `{...fetchOptions.headers}` spread at src/lib/api-config.ts:60-63 is the identity here. With a base URL, a `Headers` instance or an array of pairs would in fact be lost or garbled by that spread.
- DRE.tsx has lines whose text is corrupted (around 71, 268-316, 280 and 615). The model follows the formulas they evidently compute: net revenue, operating net revenue, gross profit, EBITDA, result and profitability.
- calcularFreteAdjust is imported by the Mercado Livre sync from src/lib/frete.ts, but that file does not define it. The inline copy in test-frete-fix-inline.js is the one modelled.
- Spreadsheet import:
  - The pre-pass at src/app/api/financeiro/import-excel/route.ts:156-181 awaits inside a non-async `forEach`, so it is left out.
  - Not modelled: the batch loop, the database writes and the skipping of empty rows.
  - `getFieldMapping` (318-358) is never called and is not modelled.
  - Header normalisation is not idempotent when a combining mark follows leading blanks, so idempotence is not claimed.
- SKU table:
  - `JSON.parse` of the children list is taken as already parsed.
  - React state updates and toasts are left out.
  - The hierarchical view can list a child under several kits, so it is not a permutation and is not claimed to be one.
- Finance screen: the parsing of the period's date strings is not modelled; they are day numbers. The sales pagination's `Intl` currency formatting and the per-account summary are left out.
- Sync dialog: the SSE stream, the second check in `handleStartSync` and `getAccountLabel`'s display text are left out.
- Response cache:
  - An interleaving of concurrent `fetchData` calls is not modelled. Each call runs to its end, with the fetch outcome and the clock as parameters.
  - The `refetchOnMount` and `refetchOnWindowFocus` effects and the update of the fetcher reference are left out.
- Toasts: the generated id and the creation time are parameters. The auto-dismiss timer is not modelled; only whether it is scheduled is. Rendering is left out.
- Sync dialog: the orders by account are a plain JavaScript object in the source, so an account id named like an `Object.prototype` key (such as `constructor`) would find an inherited value there. Here they are a map, where such a key is an ordinary missing key.
- DRE screen: `DreView.LexLe` compares month keys by code points, where JavaScript compares UTF-16 code units. The keys are ASCII digits and dashes, on which the two agree.
- Breadcrumb: a segment named like an `Object.prototype` key (such as `constructor`) is looked up as an ordinary missing key. GSAP animation is left out.
- Sign-up form: the register request, its response, the redirect and the error toast are left out.
- Onboarding notices: reading `localStorage` and JSON errors are left out. The dismissed set is a parameter.
- API helper: the actual `fetch` and its logging are left out. Only the URL and the options passed are modelled.
- Finance stats: the receivables total computed at src/app/api/financeiro/dashboard/stats/route.ts:134-145 is never used in the response, so it is not modelled.
- Not modelled:
  - the Python scripts that splice DRE text;
  - the debug and investigation scripts;
  - the duplicate freight logic in src/app/api/meli/orders/route.ts and src/app/api/meli/vendas/route.ts;
  - dropdown geometry;
  - the avatar hash;
  - JWT handling.
