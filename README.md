# Marketing dashboard: record aggregation and campaign metrics

A Dafny model of the logic inside the marketing dashboard's React pages. The
logic covers daily KPI records (`DailyKPI`), marketing operations
(`Campaign`) and the figures the pages derive from them:

- **Record list (`kpiData`).** Both dashboards keep it as page state. A new
  record is appended and the list is re-sorted by date
  (`DateOrder`, `IndexPage.Dashboard`, `OperationDetail.OperationDetailPage`).
- **Totals and average order value** (`Kpi`).
- **Product distribution** of the main dashboard (`IndexPage`). Records are
  grouped by product type in first-seen order, with a capitalised label.
- **Weekly roll-up** of the detail page, in chunks of seven records by
  position (`OperationDetail`).
- **Cumulative revenue series** of the detail page, against a straight-line
  target (`OperationDetail`).
- **Per-campaign figures:** budget used, ROI, profit margin and days
  remaining, with the status badge (`Operations`, `CampaignList`,
  `OperationDetail`).
- **Add-data form** (`AddDataForm`). It is a five-field state updated one
  field at a time. Its submit handler checks three fields for presence,
  builds a record, emits it and resets.
- **Mock data generators** of both dashboards (`IndexPage`,
  `OperationDetail`). Their `Math.random()` draws are a parameter.

Representation choices:

- **Dates** are day numbers, counted in days since 1970-01-01 UTC. The source
  compares the timestamps of `YYYY-MM-DD` strings, which order the same way.
  So 2024-06-01 is 19875 and 2024-08-31 is 19966.
- **The current time** is a millisecond parameter `nowMs`.
- **Money** is an exact `real`, and an order count is an `int`.
- **Divisions.** Every division the source performs without a guard goes
  through `Marketing.Ratio` or `Marketing.Percent`. These return `None` for
  a zero divisor, where JavaScript yields NaN or an infinity. This is why
  `DailyKPI.averageOrderValue` is an `Option<real>`.
- **ROI guard.** The ROI is zero-guarded on the operations page and in the
  campaign list, but not on the detail page. The model keeps that difference
  and proves where the two formulas agree (`Operations.RoiAgreesWithDetail`).
- **Sorting.** `Array.prototype.sort` is stable. It is modelled as a stable
  insertion sort `SortByDate`. On an already sorted list, appending one
  record and sorting places the record after every record with an equal or
  earlier date (`DateOrder.AppendThenSort`). The page methods compute that
  placement with a loop (`DateOrder.InsertSorted`).
- **Number fields.** `parseFloat` and `parseInt` are modelled on decimal
  literals `-?digits(.digits)?`, which is what the form's number fields
  hold in the cases covered here.

Behaviour of the code that the model keeps as written:

- An empty campaign name is stored as "Organique".
- The ROI on the detail page (src/pages/OperationDetail.tsx:75) has no zero
  guard.
- The form accepts zero and negative order counts and negative sales, since
  only presence is checked. A record with zero orders reaches the division
  and carries an undefined average.

## Model

| member | source | states |
|---|---|---|
| Kpi.TotalSales | src/pages/Index.tsx:68 | the definition of `reduce((sum, item) => sum + item.sales, 0)`, with no contract of its own; its properties are proved by `Kpi.TotalSalesAppend`, `Kpi.TotalsFromFront`, `OperationDetail.WeeklyTotals` and `IndexPage.ProductTotals` |
| Kpi.TotalOrders | src/pages/Index.tsx:69 | the definition of `reduce((sum, item) => sum + item.orders, 0)`, with no contract of its own; its properties are proved by `Kpi.TotalOrdersAppend`, `OperationDetail.WeeklyTotals` and `IndexPage.ProductTotals` |
| Kpi.TotalSalesAppend | src/pages/Index.tsx:68 | the sales total of two lists joined is the sum of their totals |
| Kpi.TotalOrdersAppend | src/pages/Index.tsx:69 | the orders total of two lists joined is the sum of their totals |
| Kpi.TotalsFromFront | src/pages/OperationDetail.tsx:71-72 | the left fold equals the sum that starts at the first record, for sales and orders |
| Kpi.TotalSalesPrefixBound | src/pages/OperationDetail.tsx:72 | with no negative sales, every prefix total lies between 0 and the whole total |
| Kpi.TotalSalesConstant | src/pages/OperationDetail.tsx:72 | n records of equal sales v total n·v |
| Kpi.AverageOrderValue | src/pages/Index.tsx:68-70 | `totalSales / totalOrders` is defined exactly when the orders total is nonzero, and then times the orders total gives the sales total |
| DateOrder.SortByDate | src/pages/Index.tsx:61-63 | the definition of the stable `sort` by date, with no contract of its own; `DateOrder.SortByDateSortedPermutation` proves it sorted and a permutation, `DateOrder.AppendThenSort` relates it to the insertion the pages perform |
| DateOrder.InsertionIndexSplits | src/pages/Index.tsx:62-64 | on a sorted list, every record before the insertion point has a date ≤ the new one, and every record after it a later date |
| DateOrder.InsertByDateCorrect | src/pages/Index.tsx:62-64 | inserting into a sorted list gives length +1, stays sorted, is a permutation of old + new, keeps the old records' relative order, and places the new record after all records of equal or earlier date |
| DateOrder.InsertByDateSorted | src/pages/Index.tsx:62-64 | inserting into a sorted list keeps it sorted |
| DateOrder.SortByDateSortedPermutation | src/pages/Index.tsx:62-64 | the stable sort's result is sorted by date and is a permutation of its input |
| DateOrder.SortByDateOfSorted | src/pages/Index.tsx:62-64 | sorting an already sorted list changes nothing |
| DateOrder.AppendThenSort | src/pages/Index.tsx:62-64 | appending one record to a sorted list and sorting equals inserting it after every record of equal or earlier date |
| DateOrder.InsertByDateTotals | src/pages/Index.tsx:62-69 | after an insertion the sales and orders totals grow by exactly the new record's figures |
| DateOrder.InsertSorted | src/pages/OperationDetail.tsx:65-67 | the loop's result is the stable sort of old + [x], sorted, and a permutation of old plus x |
| NumberText.NatToString | src/pages/Index.tsx:20 | `${n}` is a nonempty digit string without a leading zero |
| NumberText.NatToStringRoundTrip | src/pages/Index.tsx:20 | reading back the digits `${n}` wrote gives n |
| NumberText.NatToStringInjective | src/pages/OperationDetail.tsx:45 | distinct counters render as distinct strings |
| NumberText.DigitsValueBound | src/components/dashboard/AddDataForm.tsx:34 | a k-digit string's value is below 10^k, so a fraction part is below one |
| NumberText.ParseFloat | src/components/dashboard/AddDataForm.tsx:34 | the definition of `parseFloat` on decimal literals, with no contract of its own; `NumberText.ParseIntTruncates` and `NumberText.ParseNatToString` state its properties |
| NumberText.ParseInt | src/components/dashboard/AddDataForm.tsx:35 | the definition of `parseInt` on decimal literals, with no contract of its own; `NumberText.ParseIntTruncates` proves it is `ParseFloat` truncated toward zero |
| NumberText.DotIndex | src/components/dashboard/AddDataForm.tsx:34-35 | the position of the first '.', or the length when there is none |
| NumberText.ParseIntTruncates | src/components/dashboard/AddDataForm.tsx:34-35 | `parseInt` of a decimal literal is `parseFloat`'s value truncated toward zero |
| NumberText.ProperFraction | src/components/dashboard/AddDataForm.tsx:34 | a digit value over a larger power of ten lies in [0, 1) |
| NumberText.DotIndexOfDigits | src/components/dashboard/AddDataForm.tsx:34-35 | a digit string has no '.' |
| NumberText.ParseNatToString | src/components/dashboard/AddDataForm.tsx:34-35 | a rendered counter is a decimal literal that `parseInt` and `parseFloat` read back exactly |
| AddDataForm.RequiredFieldsPresent | src/components/dashboard/AddDataForm.tsx:26 | the definition of the presence check on sales, orders and product type, with no contract of its own; `AddDataForm.Form.Submit`, `AddDataForm.ZeroOrdersReachDivision` and `AddDataForm.NegativeOrdersAccepted` state what passes it |
| AddDataForm.BuildRecord | src/components/dashboard/AddDataForm.tsx:31-39 | the record copies id, date and product type, holds the parsed sales and orders, has an average defined exactly for nonzero orders, and names the entered campaign or "Organique" when it is empty |
| AddDataForm.ZeroOrdersReachDivision | src/components/dashboard/AddDataForm.tsx:26-36 | an order count of "0" passes validation and the emitted record's average is undefined |
| AddDataForm.NegativeOrdersAccepted | src/components/dashboard/AddDataForm.tsx:26-35 | "-3" passes validation and is parsed as −3 orders |
| AddDataForm.SubmitExample | src/components/dashboard/AddDataForm.tsx:31-39 | "1000" and "20" for pods with no campaign name give sales 1000, 20 orders, average 50, campaign "Organique" |
| AddDataForm.Form.constructor | src/components/dashboard/AddDataForm.tsx:15-21 | the initial state has every field empty except the date, which is today |
| AddDataForm.Form.SetDate | src/components/dashboard/AddDataForm.tsx:69 | sets the date and leaves the other four fields unchanged |
| AddDataForm.Form.SetSales | src/components/dashboard/AddDataForm.tsx:82 | sets the sales text and leaves the other four fields unchanged |
| AddDataForm.Form.SetOrders | src/components/dashboard/AddDataForm.tsx:94 | sets the orders text and leaves the other four fields unchanged |
| AddDataForm.Form.SetProductType | src/components/dashboard/AddDataForm.tsx:103 | sets the product type and leaves the other four fields unchanged |
| AddDataForm.Form.SetCampaignName | src/components/dashboard/AddDataForm.tsx:125 | sets the campaign name and leaves the other four fields unchanged |
| AddDataForm.Form.Submit | src/components/dashboard/AddDataForm.tsx:23-52 | with sales, orders or product type empty, nothing is emitted and the state is unchanged; otherwise exactly the built record is emitted and the form resets to its initial shape |
| IndexPage.PickOfThree | src/pages/Index.tsx:25-26 | `Math.floor(r * 3)` of a draw in [0, 1) indexes a three-entry list |
| IndexPage.GenerateMockData | src/pages/Index.tsx:11-34 | 30 records sorted by date, one day apart and ending today; ids `mock-29` down to `mock-0`; sales in [2000, 7000); orders in [20, 69]; average = sales/orders; product type and campaign from the fixed lists |
| IndexPage.MockDrawBounds | src/pages/Index.tsx:22-23 | a draw in [0, 1) gives sales in [2000, 7000) and orders in [20, 69] |
| IndexPage.MockIdsDistinct | src/pages/Index.tsx:20 | the thirty mock ids are pairwise distinct |
| IndexPage.FilterType | src/pages/Index.tsx:82 | `filter(d => d.productType === category)` keeps exactly the records of that type: a record is in the result if and only if it is in the list and has the type |
| IndexPage.FirstIndex | src/pages/Index.tsx:74-78 | the position of the first record of a type: no earlier record has it |
| IndexPage.Capitalize | src/pages/Index.tsx:80 | same length, first character upper-cased, rest unchanged, empty stays empty |
| IndexPage.CapitalizeIdempotent | src/pages/Index.tsx:80 | capitalising twice is capitalising once |
| IndexPage.DistinctProductTypesSpec | src/pages/Index.tsx:74-79 | the category keys have no duplicates, include every record's type, and each belongs to some record |
| IndexPage.FirstIndexExtends | src/pages/Index.tsx:75-77 | appending a record does not move the first record of a type already present |
| IndexPage.DistinctProductTypesFirstSeenOrder | src/pages/Index.tsx:74-79 | categories come in the order of their first records |
| IndexPage.SalesOfTypeIsFilteredSum | src/pages/Index.tsx:76 | a category's accumulated sales equal the sales total of its filtered records |
| IndexPage.AbsentTypeIsZero | src/pages/Index.tsx:76 | a type with no record has no sales and no filtered records |
| IndexPage.OrdersOfTypeIsFilteredSum | src/pages/Index.tsx:82 | a category's accumulated orders equal the order total of its filtered records |
| IndexPage.DistinctProductTypesNoDuplicates | src/pages/Index.tsx:72-79 | the grouped keys never repeat a product type |
| IndexPage.OverTypesStep | src/pages/Index.tsx:75-78 | over distinct keys, one more record adds its figures once if its type is a key |
| IndexPage.ProductTotals | src/pages/Index.tsx:68-69 | summed over all categories, sales and orders equal the page totals |
| IndexPage.ProductTotalsStep | src/pages/Index.tsx:74-83 | the category sums keep matching the totals when a record is appended |
| IndexPage.GroupSalesByProduct | src/pages/Index.tsx:75-78 | the loop's keys are the distinct types in first-seen order, and each key's value is that type's sales total |
| IndexPage.CategorySumsOverKeys | src/pages/Index.tsx:79-83 | entries built per key sum to the per-key totals |
| IndexPage.ProductPerformanceOf | src/pages/Index.tsx:74-83 | one entry per distinct type in first-seen order, with capitalised label and that type's sales and orders; entries sum to the page totals |
| IndexPage.InitialCampaignFigures | src/pages/Index.tsx:36-56 | the two initial campaigns use 64% and 85% of budget, with ROIs 387.5% and 6700/17%, both shown as a success |
| IndexPage.Dashboard.constructor | src/pages/Index.tsx:59 | the initial state is the 30 mock records, sorted and ending today, each with its date, id, sales and orders ranges, average and listed type and campaign |
| IndexPage.Dashboard.HandleAddData | src/pages/Index.tsx:61-65 | the new list is the stable sort of old + [record], sorted, length +1, a permutation of old plus the unchanged record, with totals grown by its figures |
| IndexPage.Dashboard.SubmitForm | src/pages/Index.tsx:61-65 | a rejected submit leaves the list and the form unchanged; an accepted one adds exactly the record the form built and resets the form to its initial state |
| OperationDetail.GenerateMockOperationData | src/pages/OperationDetail.tsx:33-56 | 60 records sorted by date from 2024-06-01; ids `op-0`..`op-59`; type "e-liquides" and the campaign's name; orders in [15, 44]; average = sales/orders = the drawn price |
| OperationDetail.OrdersDrawBounds | src/pages/OperationDetail.tsx:41 | a draw in [0, 1) gives 15 to 44 orders |
| OperationDetail.MockOperationRecordOk | src/pages/OperationDetail.tsx:40-52 | the record built from a day's orders and price carries its id, date, type, campaign, sales = orders × price and the price as average |
| OperationDetail.PerOrderPrice | src/pages/OperationDetail.tsx:42-49 | orders × price divided by orders is the price |
| OperationDetail.Relabel | src/pages/OperationDetail.tsx:65 | only the campaign name changes, to the campaign's |
| OperationDetail.BudgetUsed | src/pages/OperationDetail.tsx:74 | defined exactly for a nonzero budget, and then spent·100 = value·budget |
| OperationDetail.Roi | src/pages/OperationDetail.tsx:75 | unguarded: defined exactly for nonzero spend, and then (revenue − spent)·100 = value·spent |
| OperationDetail.ProfitMargin | src/pages/OperationDetail.tsx:76 | defined exactly for nonzero revenue, and then (revenue − spent)·100 = value·revenue |
| OperationDetail.ProfitMarginBounds | src/pages/OperationDetail.tsx:76 | for positive revenue and nonnegative spend the margin is at most 100%, and positive exactly when revenue exceeds spend |
| OperationDetail.WeekSizes | src/pages/OperationDetail.tsx:85-93 | every week but the last covers exactly 7 records, and the last ends at the list's end |
| OperationDetail.WeekOfEarlier | src/pages/OperationDetail.tsx:85-93 | a later record leaves earlier weeks unchanged |
| OperationDetail.WeekOfCurrent | src/pages/OperationDetail.tsx:86-91 | record i opens week i/7 labelled "S{i/7+1}" or adds its sales and orders to it |
| OperationDetail.WeeklyStep | src/pages/OperationDetail.tsx:86-91 | adding record i to bucket ⌊i/7⌋ (opened if new) keeps every bucket equal to the sums of its own records |
| OperationDetail.WeeklyData | src/pages/OperationDetail.tsx:85-93 | the reduce produces ⌈n/7⌉ buckets, bucket k labelled "S{k+1}" and summing records 7k..min(7k+6, n−1) |
| OperationDetail.WeeklyPrefixTotals | src/pages/OperationDetail.tsx:85-93 | the first m buckets sum to the totals of the records they cover |
| OperationDetail.WeeklyTotals | src/pages/OperationDetail.tsx:71-72 | the weekly `ventes` sum to `totalSales` and the weekly `commandes` to `totalOrders` |
| OperationDetail.WeeklyExample | src/pages/OperationDetail.tsx:85-93 | fourteen records of 100 in sales give two buckets of 700 |
| OperationDetail.CumulativeData | src/pages/OperationDetail.tsx:95-99 | one point per record, carrying that record's date |
| OperationDetail.CumulativeSteps | src/pages/OperationDetail.tsx:97 | the revenue line starts at the first day's sales and rises by each day's sales |
| OperationDetail.CumulativeEnds | src/pages/OperationDetail.tsx:97-98 | the last point's revenue is `totalSales` and its target is the campaign revenue |
| OperationDetail.PrefixSalesGrow | src/pages/OperationDetail.tsx:97 | with no negative sales a longer prefix of the records never has smaller total sales |
| OperationDetail.CumulativeMonotone | src/pages/OperationDetail.tsx:97 | with no negative sales the revenue line never decreases |
| OperationDetail.CumulativeTargetLinear | src/pages/OperationDetail.tsx:98 | the target line is straight: each point exceeds the one before by the first point's value |
| OperationDetail.TargetAt | src/pages/OperationDetail.tsx:98 | the definition of the target share `((index + 1) / length) * revenue`, with no contract of its own; `OperationDetail.TargetStep`, `OperationDetail.TargetFull` and `OperationDetail.TargetScales` state its properties |
| OperationDetail.TargetStep | src/pages/OperationDetail.tsx:98 | the share (i+1)/n of the revenue is the share i/n plus the share 1/n |
| OperationDetail.TargetFull | src/pages/OperationDetail.tsx:98 | the share n/n of the revenue is the whole revenue |
| OperationDetail.TargetScales | src/pages/OperationDetail.tsx:98 | the target at position i, times the number of points n, is (i+1) times the campaign revenue |
| OperationDetail.OperationDetailPage.constructor | src/pages/OperationDetail.tsx:61-62 | the page starts with the mock campaign and its 60 sorted records, each with its id, date, type, campaign, orders range and drawn price |
| OperationDetail.OperationDetailPage.HandleAddData | src/pages/OperationDetail.tsx:64-68 | the new list is the stable sort of old + [record relabelled with the campaign name], sorted, length +1, a permutation, with totals grown by its figures |
| OperationDetail.OperationDetailPage.SubmitForm | src/pages/OperationDetail.tsx:64-68 | a rejected submit leaves the list and the form unchanged; an accepted one adds the built record, relabelled, and resets the form to its initial state |
| Operations.StatusVariant | src/pages/Operations.tsx:48-57 | total over the three statuses, each mapped to its own badge style |
| Operations.StatusLabel | src/pages/Operations.tsx:59-68 | total over the three statuses, each mapped to its own French label |
| Operations.StatusDistinct | src/pages/Operations.tsx:48-68 | distinct statuses get distinct styles and distinct labels |
| Operations.BudgetUsed | src/pages/Operations.tsx:96 | defined exactly for a nonzero budget, and then spent·100 = value·budget |
| Operations.Roi | src/pages/Operations.tsx:97 | 0 when spent ≤ 0; otherwise (revenue − spent)·100 = roi·spent |
| Operations.RoiPositiveIff | src/pages/Operations.tsx:97 | the ROI is positive exactly when spent > 0 and revenue > spent |
| Operations.RoiAgreesWithDetail | src/pages/Operations.tsx:97 | for spent > 0 it equals the detail page's unguarded ROI; at zero spend it is 0 where that one is undefined; at negative spend it is 0 where that one is defined |
| Operations.RoiExamples | src/pages/Operations.tsx:97 | nothing spent gives 0; 150 earned on 100 spent gives 50 |
| Operations.RoiPrefix | src/pages/Operations.tsx:134 | "+" exactly for a positive ROI, otherwise nothing |
| Operations.RoiIsSuccess | src/pages/Operations.tsx:131-133 | the definition of the success styling `roi > 0`, with no contract of its own; `Operations.RoiDisplay` relates it to the "+" and to profitability |
| Operations.RoiDisplay | src/pages/Operations.tsx:131-134 | the "+" and the success style appear together, exactly when spent > 0 and revenue > spent |
| Operations.DaysRemaining | src/pages/Operations.tsx:98-100 | null exactly without an end date; otherwise the ceiling d of the days left: (d−1) days < end − now ≤ d days |
| Operations.ShowsDaysRemaining | src/pages/Operations.tsx:174 | the definition of the condition that shows the remaining-days line, with no contract of its own; `Operations.ShowsDaysRemainingIff` characterises it |
| Operations.ShowsDaysRemainingIff | src/pages/Operations.tsx:174 | the line is shown exactly for an active campaign whose end date's midnight is after now |
| Operations.Plural | src/pages/Operations.tsx:177 | "s" exactly when the count exceeds one |
| Operations.RemainingText | src/pages/Operations.tsx:177 | the line starts with the count and ends in "s" exactly when the count exceeds one |
| Operations.RemainingTextExamples | src/pages/Operations.tsx:177 | one day reads "1 jour restant" and three read "3 jours restants" |
| Operations.MockCampaignFigures | src/pages/Operations.tsx:11-42 | all three mock budgets and spends are positive; ROIs 450%, 444%, 1100/3%; budget used 65%, 250/3%, 96% |
| Operations.MockDaysRemainingExample | src/pages/Operations.tsx:98-100 | at midnight of 2024-08-30 the summer promotion has 1 day left and shows it |
| CampaignList.StatusVariant | src/components/dashboard/CampaignList.tsx:11-20 | each status mapped to its own badge style |
| CampaignList.StatusLabel | src/components/dashboard/CampaignList.tsx:22-31 | each status mapped to its own French label |
| CampaignList.StatusMappingsAgree | src/components/dashboard/CampaignList.tsx:11-31 | both mappings equal the operations page's for every status |
| CampaignList.BudgetUsed | src/components/dashboard/CampaignList.tsx:41 | defined exactly for a nonzero budget, and then spent·100 = value·budget |
| CampaignList.Roi | src/components/dashboard/CampaignList.tsx:42 | 0 when spent ≤ 0; otherwise (revenue − spent)·100 = roi·spent |
| CampaignList.FiguresAgree | src/components/dashboard/CampaignList.tsx:41-42 | the ROI and the budget share equal the operations page's for every campaign |
| CampaignList.RoiClass | src/components/dashboard/CampaignList.tsx:70 | the success class exactly for a positive ROI, the destructive class otherwise |
| CampaignList.SuccessClassIff | src/components/dashboard/CampaignList.tsx:42-70 | the success class marks exactly the campaigns with spent > 0 and revenue > spent |
| CampaignList.ShareComparesToWhole | src/components/dashboard/CampaignList.tsx:41 | a percentage of a positive whole reaches 100 exactly when the part reaches the whole, and is 0 exactly for a zero part |
| CampaignList.BudgetUsedBounds | src/components/dashboard/CampaignList.tsx:41 | for a positive budget the share is defined, 0 for nothing spent, and ≥ 100 exactly when spent ≥ budget |

## Left out

- Rendering: JSX, the recharts charts, Tailwind classes beyond the booleans that choose them, `toast` messages and react-router navigation.
- src/components/dashboard/SalesChart.tsx and src/components/dashboard/ProductDistribution.tsx. They only pass data to charts.
- The daily chart series (src/pages/OperationDetail.tsx:79-83). It is a formatted date label and `Math.round` of the sales.
- Floating point: NaN and infinity propagation, `toFixed`, `Math.round`, `toLocaleString`, and rounding in the mock formulas and in `Math.ceil` of the day count. The model uses exact reals, and zero divisors become `None`.
- Dates as text: `Date` parsing, `toISOString`, fr-FR formatting and timezone or daylight-saving effects of `setDate`. Dates are day numbers, and a date string is read as midnight UTC.
- `Math.random()` is not modelled. The generators take their draws as a sequence in [0, 1), and the form's random id is a parameter.
- An empty date field. The form's date is always a day number: a cleared date input reports "", and it is the input's `required` attribute, not the submit handler, that keeps such a form from being submitted.
- Number literals without an integer part, such as ".5" or "-.5". A number input can hold them; `parseFloat(".5")` is 0.5 while `parseInt(".5")` is NaN. `Form.Valid()` admits only literals with at least one digit before the point, so these forms are not modelled.
- NumberText.ParseFloat: is defined only on decimal literals. Exponent forms, leading whitespace, partial parses, and `parseInt` of a string that `parseFloat` would reject are not covered.
- IndexPage.Capitalize: upper-cases ASCII `a`–`z` only. `toUpperCase` on other letters, and the length changes it can make (such as "ß"), are not modelled.
- IndexPage.GroupSalesByProduct: keys in first-seen order, each a plain accumulator. `Object.entries` lists integer-like keys first, in numeric order; a "__proto__" key would not be stored; and a product type naming an inherited `Object.prototype` member, such as "constructor" or "toString", makes `acc[t] || 0` read that function, so the stored value becomes a string. None of these cases is modelled. The form's select offers only fixed labels (src/components/dashboard/AddDataForm.tsx:109-115), but the model's `Form.SetProductType` accepts any string.
- The hard-coded display constants: the conversion rate, the visitor counts and the StatsCard trends.
- The route parameter `id` of the detail page. The page always shows the mock campaign, as the source does.
