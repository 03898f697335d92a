# Verified model of the BI sample-data generator

`generate_data.py` builds eight related tables of test data for a sales
analytics project. The tables are products, teams, clients, orders,
order lines, sales, returns and monthly plans. This project models the
table-building pipeline under the file and SQL plumbing, in Dafny:

- the dimension builders: products `ART0001…`, managers `M01…`, team leaders
  `TL01…`, one team row per manager, and clients `C0001…`;
- the orders and order-lines loop, with its two id counters and its
  running order total;
- the sales and returns filters, which keep the rows that a boolean mask
  selects;
- the month walk and the plan loop.

Every random draw is an input to the model, with the range the script
draws it from as a precondition. The draws are:

- the category index and cost of each product;
- the leader index of each manager;
- the manager index of each client;
- the day offset, client index and lines of each order, where each line
  has a product index, a quantity, a markup factor and a margin share;
- the sold mask and the return mask;
- the returned quantity of each return;
- the revenue and margin share of each plan.

The output tables are then a function of the draws. Each loop of the
script is a Dafny method, proved to produce exactly the rows its ensures
describe (`BuildOrders`, `AppendOrderLines`, `BuildTeams`, `MonthWalk`,
`BuildPlans`). Lemmas about those functions prove what the generator
promises:

- ids are consecutive and unique;
- foreign keys land in their parent tables;
- an order's total is the sum of its lines;
- no line is priced below its product's cost;
- sales and returns keep the order of the rows they come from;
- a return never exceeds its sale;
- the month walk has no gaps;
- there is exactly one plan per manager and month.

Modules:

- `Ids`: zero-padded identifiers and decimal text, with their parse-back round trip.
- `Masks`: boolean-mask selection.
- `Ratios`: exact rationals standing in for the floating-point factors.
- `Calendar`: months and the month walk.
- `Tables`: row types and id schemes.
- `Dimensions`: products, teams, clients.
- `Orders` and `OrderProperties`: the order loop and its properties.
- `Facts`: sales and returns.
- `Plans`: the plan table.
- `Pipeline`: the whole run with the script's constants (30 products, 40 clients, 6 managers, 400 orders of 1 to 4 lines, window 2025-01-01 to 2025-10-01), and the cross-table lemmas.

Representation choices:

- Money is in whole units, except two values. The line margin is kept in
  hundredths, because it is rounded to two decimals. The return amount is
  kept as an exact quotient `num/den`.
- An order date is a number of days after `DATE_START`.
- A plan period is a `(year, month)` pair.
- `int(x)` truncates toward zero.
- `round(x, 2)` rounds the exact value to the nearest hundredth, with ties going to the even hundredth.

Draw ranges:

- `np.random.randint(lo, hi)` excludes `hi`, so costs are in `[300, 7999]` and plan revenues in `[150000, 449999]`.
- The leader pool has `max(2, N_MANAGERS // 2)` leaders, so with fewer than four managers there are exactly two.

## Model

| member | source | states |
|---|---|---|
| `Ids.DecimalRoundTrip` | generate_data.py:110 | `str(n)` is all digits and reads back as `n` |
| `Ids.ZeroPadValue` | generate_data.py:83 | zero padding to a width changes the text, never the number it denotes |
| `Ids.Decimal` | generate_data.py:110 | definition: `str(n)` (also `f"{i}"` in the names and `{n:0wd}` before padding); partner `Ids.DecimalRoundTrip` |
| `Ids.ZeroPad` | generate_data.py:83 | definition: `{n:0wd}`, the decimal digits of `n` with zeros in front up to `width` characters; its length is `max(width, len(str(n)))` |
| `Ids.FormatId` | generate_data.py:124 | definition: `prefix + {n:0wd}`; partners `Ids.ParseFormatId` and `Ids.FormatIdInjective` |
| `Ids.ParseFormatId` | generate_data.py:124 | an id `prefix + {n:0wd}` parses back to `n` |
| `Ids.FormatIdInjective` | generate_data.py:143 | two ids of one scheme are equal exactly when their numbers are |
| `Tables.ArticleId` | generate_data.py:83 | definition: `f"ART{idx:04d}"`; partners `Ids.ParseFormatId`, `Ids.FormatIdInjective` |
| `Tables.ManagerId` | generate_data.py:94 | definition: `f"M{idx:02d}"`; partners `Ids.ParseFormatId`, `Ids.FormatIdInjective` |
| `Tables.LeaderId` | generate_data.py:95 | definition: `f"TL{idx:02d}"`; partners `Ids.ParseFormatId`, `Ids.FormatIdInjective` |
| `Tables.ClientId` | generate_data.py:108 | definition: `f"C{idx:04d}"`; partners `Ids.ParseFormatId`, `Ids.FormatIdInjective` |
| `Tables.OrderId` | generate_data.py:124 | definition: `f"O{order_id_seq:05d}"`; partner `OrderProperties.OrderIdsConsecutive` |
| `Tables.LineId` | generate_data.py:143 | definition: `f"OL{ol_id_seq:06d}"`; partner `OrderProperties.LineIdsConsecutive` |
| `Tables.SaleId` | generate_data.py:172 | definition: `f"S{idx:06d}"`; partner `Facts.SaleSource` |
| `Tables.ReturnId` | generate_data.py:181 | definition: `f"R{idx:06d}"`; partner `Facts.ReturnSource` |
| `Tables.IdRange` | generate_data.py:94 | the ids `prefix1…prefixN` are N distinct ids and id `i` parses back to `i + 1` |
| `Dimensions.BuildProducts` | generate_data.py:83-90 | one product per article, articles distinct and consecutive from `ART0001`, each category one of the five, each cost in `[300, 8000)` |
| `Dimensions.Managers` | generate_data.py:94 | N distinct manager ids `M01…`, id `i` parses back to `i + 1` |
| `Dimensions.TeamLeaders` | generate_data.py:95 | `max(2, N // 2)` distinct leader ids `TL01…`: exactly two below four managers, exactly `N // 2` from four on, and id `i` parses back to `i + 1` |
| `Dimensions.BuildTeams` | generate_data.py:98-102 | one team row per manager in manager order, with role `manager` and the drawn leader, which is in the leader pool |
| `Dimensions.TaxNumber` | generate_data.py:110 | `str(7700000000 + i)` is all digits and reads back as `7700000000 + i` |
| `Dimensions.BuildClients` | generate_data.py:107-112 | clients with distinct consecutive ids `C0001…`, each manager from the manager pool, tax number the digits of `7700000000 + i` |
| `Masks.TrueCount` | generate_data.py:171-172 | definition: the number of `True` entries of a mask, `len(sold_lines)` and `len(returns_sample)`; partners `Masks.Filter`, `Facts.SalesTable`, `Facts.ReturnsTable` |
| `Masks.Filter` | generate_data.py:171 | a mask keeps as many rows as it has `True` entries |
| `Masks.Selected` | generate_data.py:171 | the kept positions are in range and all marked `True` |
| `Masks.SelectedIncreasing` | generate_data.py:171 | kept positions are strictly increasing: the filter keeps the original order |
| `Masks.SelectedComplete` | generate_data.py:171 | every position marked `True` is kept |
| `Masks.FilterAt` | generate_data.py:171 | the `i`-th kept row is the row at the `i`-th kept position |
| `Ratios.Trunc` | generate_data.py:137 | definition: `int(num / den)`, the quotient truncated toward zero, also for a negative numerator; partner `Ratios.TruncBetween` |
| `Ratios.RoundHalfEven` | generate_data.py:140 | definition: Python's `round` of `num / den`, to the nearest integer with a tie going to the even one; partners `Ratios.RoundNearest`, `Ratios.RoundBetween` and `Ratios.RoundTieEven` |
| `Ratios.TruncTimes` | generate_data.py:137 | definition: `int(k * x)` for an integer `k` and a factor `x` (also the plan margin, line 205); partners `OrderProperties.PriceNotBelowCost`, `Plans.PlanMarginBand` |
| `Ratios.TruncBetween` | generate_data.py:137 | `int(x)` of a non-negative `x` is at least any integer below `x` and at most any integer above it |
| `Ratios.RoundNearest` | generate_data.py:140 | `round(x)` is within half a unit of `x` |
| `Ratios.RoundTieEven` | generate_data.py:140 | a quotient exactly halfway between two integers rounds to the even one of them |
| `Ratios.RoundBetween` | generate_data.py:140 | `round(x)` of a value at least (at most) an integer `k` is at least (at most) `k` |
| `Orders.LastDay` | generate_data.py:125 | definition: the upper bound `max(0, date_range_days - 1)` of the day-offset draw |
| `Orders.Price` | generate_data.py:137 | definition: `price = int(base_cost * markup)`; partners `OrderProperties.PriceNotBelowCost` and `OrderProperties.PriceAtMostMarkupCap` |
| `Orders.MarginCents` | generate_data.py:140 | definition: `round(line_sum * share, 2)` in hundredths; partner `OrderProperties.MarginInBand` |
| `Orders.MakeLine` | generate_data.py:132-150 | definition: one order-line row, numbered `OL{seq:06d}`, with the drawn product's article, the drawn quantity, `price`, `line_sum = price * qty` and the margin; partners `OrderProperties.MakeLineFields` and `OrderProperties.LineSumAtLeastCost` |
| `Orders.MakeOrder` | generate_data.py:154-160 | definition: one order row with id `O{k+1:05d}`, the drawn client and that client's manager, the drawn day and the sum of the order's own `line_sum`s; partners `OrderProperties.OrdersReferenceClients` and `OrderProperties.OrderTotalIsSumOfItsLines` |
| `Orders.SumLineSums` | generate_data.py:130-152 | definition: `order_total`, the running sum of the `line_sum`s; partners `Orders.AppendOrderLines`, `OrderProperties.OrderTotalIsSumOfItsLines`, `OrderProperties.SumLineSumsAtLeast` |
| `Orders.LineCount` | generate_data.py:119-151 | definition: the number of lines the draws ask for, so `ol_id_seq - 1` after those orders; partners `Orders.BuildOrders`, `OrderProperties.LineCountMonotone`, `OrderProperties.OrderBlock` |
| `Orders.LinesOfOrder` | generate_data.py:131-151 | definition: order `k + 1`'s lines, numbered on from the running counter; partners `OrderProperties.OrderBlock`, `OrderProperties.OrderTotalIsSumOfItsLines` |
| `Orders.OrderLines` | generate_data.py:131-150 | an order gets one line per line draw |
| `Orders.OrderTable` | generate_data.py:154-160 | one order row per order draw |
| `Orders.LineTable` | generate_data.py:142-151 | the line table has as many rows as the orders have lines together |
| `Orders.LineTableSnoc` | generate_data.py:131-152 | one more order appends exactly that order's lines, and the line count grows by its line count |
| `Orders.OrderTableSnoc` | generate_data.py:154-161 | one more order appends exactly that order's row, and earlier rows are unchanged |
| `Orders.AppendOrderLines` | generate_data.py:131-152 | the inner loop appends the order's lines numbered from the current counter, advances the counter by the line count, and `order_total` is the sum of the appended `line_sum`s |
| `Orders.BuildOrders` | generate_data.py:116-161 | the outer loop with both counters yields exactly the order table and the line table |
| `OrderProperties.PriceNotBelowCost` | generate_data.py:135-137 | with a markup of at least 1.1 and a non-negative cost, `int(cost * markup) >= cost` |
| `OrderProperties.PriceAtMostMarkupCap` | generate_data.py:137 | the price is at most 2.5 times the cost |
| `OrderProperties.MarginInBand` | generate_data.py:140 | the line margin lies between 5% and 35% of the line sum, in hundredths |
| `OrderProperties.MakeLineFields` | generate_data.py:132-150 | a built line carries its `OL` id, its order's id, the drawn quantity in `[1, 5]` and `line_sum = price * quantity` |
| `OrderProperties.LineSumAtLeastCost` | generate_data.py:135-138 | a line's `line_sum` is at least its product's cost |
| `OrderProperties.LineCountMonotone` | generate_data.py:151 | the line counter never goes down from one order to a later one |
| `OrderProperties.LineTablePrefix` | generate_data.py:142-151 | the lines of the first `k` orders are a prefix of the line table |
| `OrderProperties.OrderBlock` | generate_data.py:131-152 | the lines of order `k` are exactly the block of the line table between the line counts before and after it |
| `OrderProperties.LineTableAt` | generate_data.py:142-151 | every line is line `l` of some order `k`, numbered `q + 1`, built from that order's `l`-th line draw |
| `OrderProperties.LineIdsConsecutive` | generate_data.py:143 | order-line ids are `OL000001…` in table order, hence unique |
| `OrderProperties.OrderIdsConsecutive` | generate_data.py:124 | order ids are `O00001…` in table order, hence unique |
| `OrderProperties.OrderTotalIsSumOfItsLines` | generate_data.py:129-152 | each order has between 1 and `MAX_LINES_PER_ORDER` lines and its total is the sum of their `line_sum`s |
| `OrderProperties.SumLineSumsAtLeast` | generate_data.py:152 | line sums of at least `m >= 0` add up to a non-negative total, at least `m` when there is a line |
| `OrderProperties.OrderTotalAtLeastMinCost` | generate_data.py:129-158 | `order_total` is never negative: with all costs at least `minCost >= 0`, every order's total is at least `minCost` |
| `OrderProperties.OrderBlockLines` | generate_data.py:142-148 | each line of an order's block carries that order's id, a quantity in `[1, 5]` and `line_sum = price * quantity` |
| `OrderProperties.LineBelongsToOrder` | generate_data.py:144 | a line carries the id of order `k` if and only if it lies in order `k`'s block |
| `OrderProperties.LinesReferenceOrders` | generate_data.py:144 | every line's `order_id` is the id of an existing order |
| `OrderProperties.LineFacts` | generate_data.py:132-140 | every line's article is an existing product's, its price is not below that product's cost, its quantity is in `[1, 5]`, its sum is price times quantity and at least the cost (so never negative), and its margin is between 5% and 35% of the sum |
| `OrderProperties.OrdersReferenceClients` | generate_data.py:126-127 | every order's client is an existing client and the order's manager is that client's manager |
| `OrderProperties.OrderDatesInWindow` | generate_data.py:121-125 | order dates lie in `[DATE_START, DATE_END)`, or on `DATE_START` when the window is empty |
| `Facts.SalesTable` | generate_data.py:170-174 | there are as many sales as `True` entries in the sold mask |
| `Facts.SaleSource` | generate_data.py:171-174 | sale `i` has id `S{i+1:06d}` and copies order, article and quantity of the `i`-th kept line, with `sale_amount = line_sum` |
| `Facts.SalesKeepLineOrder` | generate_data.py:171-174 | for sales `i < j`, the lines they copy sit at positions `p < p'`, both kept: sales come in the order of their lines |
| `Facts.KeptLineIsSold` | generate_data.py:171-173 | every line the mask keeps becomes a sale |
| `Facts.ReturnCap` | generate_data.py:183 | definition: the upper bound `max(1, int(q))` of the returned-quantity draw |
| `Facts.Prorated` | generate_data.py:184 | definition: `sale_amount / quantity * return_quantity` as the exact quotient `(amount * part) / quantity`; partner `Facts.ProratedBounds` |
| `Facts.ProratedBounds` | generate_data.py:184 | the prorated amount times the quantity is the sale amount times the returned quantity; it is between 0 and the sale amount, and, for a positive sale amount, equals it exactly when everything comes back |
| `Facts.ReturnsTable` | generate_data.py:179-185 | there are as many returns as `True` entries in the return mask |
| `Facts.ReturnSource` | generate_data.py:180-185 | return `i` has id `R{i+1:06d}`, the sale id and article of the `i`-th kept sale, a quantity in `[1, max(1, quantity)]`, and the sale amount prorated by the returned quantity |
| `Facts.KeptSaleIsReturned` | generate_data.py:179-181 | every sale the mask keeps becomes a return |
| `Calendar.MonthCount` | generate_data.py:192-200 | definition: `len(months)`, `12*(ey-sy)+(em-sm)+1` or 0 when the end comes first; partner `Calendar.MonthWalk` |
| `Calendar.NextMonth` | generate_data.py:198-200 | definition: `year + month // 12`, `month % 12 + 1`; partner `Calendar.NextMonthStep` |
| `Calendar.NotAfter` | generate_data.py:195 | definition: `cur <= end_month` on the first days of two months; partner `Calendar.NotAfterIndex` |
| `Calendar.NextMonthStep` | generate_data.py:198-200 | the next month is a valid month one step later, December rolling into January of the next year |
| `Calendar.NotAfterIndex` | generate_data.py:195 | `cur <= end_month` on first days of months is comparing month indices |
| `Calendar.MonthWalk` | generate_data.py:192-200 | the walk starts at the start month, ends at the end month, has no gaps and has `12*(ey-sy)+(em-sm)+1` months |
| `Plans.MakePlan` | generate_data.py:204-211 | definition: one plan row with the manager, the month, the drawn revenue and `int(revenue * share)`; partner `Plans.PlanMarginBand` |
| `Plans.PlanTable` | generate_data.py:202-211 | definition: the plan rows of the managers one after the other, each manager's months in order; partners `Plans.PlanTableLength`, `Plans.PlanAt`, `Plans.PlanSource` |
| `Plans.PlanRow` | generate_data.py:203-211 | a manager gets one plan per month |
| `Plans.PlanTableLength` | generate_data.py:202-211 | there are `managers × months` plans |
| `Plans.PlanTableSnoc` | generate_data.py:202-211 | one more manager appends exactly that manager's plans |
| `Plans.BuildPlans` | generate_data.py:202-211 | the nested loops yield exactly the plan table |
| `Plans.PlanAt` | generate_data.py:202-211 | the plan of manager `i` for month `j` is at `i * months + j` and carries that manager, month and draws |
| `Plans.PlanSource` | generate_data.py:202-211 | every plan row is the plan of some manager and month |
| `Plans.PlanKeysUnique` | generate_data.py:202-208 | with distinct managers and months, no two plans share a (manager, month) key |
| `Plans.PlanMarginBand` | generate_data.py:204-205 | a plan's revenue is in `[150000, 450000)` and its margin is 12% to 28% of it rounded down, so between 0 and the revenue |
| `Pipeline.LinesOf` | generate_data.py:170 | the sold mask has one entry per order line |
| `Pipeline.GenerateDimensions` | generate_data.py:83-112 | products and clients as built, and six team rows `M01…M06` in order, each manager exactly once |
| `Pipeline.GenerateFacts` | generate_data.py:116-185 | orders, lines, sales and returns are the tables their functions describe |
| `Pipeline.GeneratePlans` | generate_data.py:192-211 | the window is the ten valid months 2025-01 … 2025-10, month `m` being `(2025, m + 1)`; there are sixty plans and no (manager, month) key repeats |
| `Pipeline.Generate` | generate_data.py:83-211 | the script's sections in order produce all eight tables: each equals its table function, the plan months are `(2025, m + 1)` for `m < 10`, and plan keys are unique |
| `Pipeline.SaleFacts` | generate_data.py:132-174 | every sale references an existing order and product, sells 1 to 5 units at no less than cost, and has a positive amount |
| `Pipeline.OrderTotalFacts` | generate_data.py:129-158 | every order of the run has an `order_total` of at least 300, the least a product can cost |
| `Pipeline.ReturnFacts` | generate_data.py:179-185 | every return references an existing sale and its article, returns 1 to the sold quantity, and its amount is a positive share of the sale amount that equals the sale amount exactly when everything comes back |
| `Pipeline.WindowMonthsDistinct` | generate_data.py:195-200 | the walked months are pairwise different |
| `Pipeline.PlanOfManagerAndMonth` | generate_data.py:202-211 | manager `M{i+1:02d}` has a plan for month `j` at position `i * 10 + j` |
| `Pipeline.PlanKeysOfWindowUnique` | generate_data.py:202-211 | no (manager, month) pair of the window has two plans |

## Left out

- Directory wipe and re-creation, CSV writing with a UTF-8 BOM, SQL script generation and console output (generate_data.py:57-80, 217-324). This is file I/O and fixed text templates.
- The seeded `random` and `numpy.random` streams. Each draw is an explicit input with its range as a precondition, so the model says nothing about which values a given seed produces.
- `np.random.rand(...) < 0.85` and `< 0.08` are modelled as arbitrary boolean masks. The model says nothing about the proportion of lines sold or returned.
- Product names `Товар i`, client names `ООО Клиент i` and the category strings are carried as text. No property is proved about them beyond the category being one of the five.
- Floating point: the markup, the margin shares and the return amount are exact rationals. `round(x, 2)` is modelled as rounding the exact value, so a tie that the binary representation of `x` would break differently is not modelled.
- `strftime` formatting of `order_date` and `period_month`. Dates are day offsets and `(year, month)` pairs. `datetime`'s year range 1..9999 is not modelled. `DateRangeDays` is the constant 273 for the script's window, not computed from a calendar.
- `Facts.ReturnSource`: does not state that the return amount is a valid quotient for a sale with quantity 0. The script never produces one, because every line quantity is at least 1; `Pipeline.ReturnFacts` states the full property for the generated sales.
