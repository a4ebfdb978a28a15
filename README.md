# Yani Coach sales dashboard — a verified model of its core

The dashboard shows a sales team's performance from records kept in NocoDB:
sellers, contacts (leads), interactions, sales and purchase attempts. This
project models, in Dafny, the parts of the program that decide what it shows
and who may see it:

- the NocoDB client (`services/noco.ts`): pagination through the proxy, and
  the mapping of raw rows onto typed records, including the keyword rules
  that turn free-text CRM states into lead statuses, lost reasons,
  interaction channels and attempt statuses;
- the data loader (`services/dataService.ts`): retries with exponential
  back-off, the sequential load of the five collections and the date window
  applied to them;
- the metrics (`services/metricsCalculator.ts`): the KPI counters, the
  funnel, the revenue breakdowns, the distributions and the per-vendor
  tables, with their `Map`-based grouping, the key order `Object.entries`
  gives their `Record` tallies, and their stable descending sorts;
- the cache (`services/cacheService.ts`): one snapshot served with
  stale-while-revalidate tiers, reloads that keep the previous snapshot when
  they fail, a deduplicated background revalidation, subscribers, and the
  calendar-day reconciliation of `filterByDateRange`;
- the dashboard hook (`hooks/useDashboardData.ts`) as an object holding its
  React state, driven by the cache's notifications;
- authentication: the session, login and logout endpoints (`api/auth/*.ts`),
  with their signed `yd_auth` cookie, and the browser client
  (`services/authService.ts`) with its localhost bypass.

Time is an integer number of milliseconds since the epoch; the viewer's local
calendar is a fixed offset `tz` from UTC (`Types.DayOf`). Amounts are
integers. JavaScript's string and array built-ins (`split`, `join`, `trim`,
`toLowerCase`, `includes`, `filter`, `reduce`, the stable `sort`) are defined
once in `Common`; JSON values, truthiness, `||` and property access in `Noco`.
Everything the code cannot know (the clock, `fetch`, HMAC, base64, JSON
parsing, date parsing, `localStorage` contents) is a parameter.

Module per source file: `Common`, `Grouping` (the `Map` tallies and the
key order of `Record` tallies),
`Types`, `Noco`, `DataService`, `Metrics`, `Vendors` (the per-vendor half of
`metricsCalculator.ts`), `Cache`, `Hook`, `Session`, `Login`, `Logout`,
`AuthService`.

Where the design description and the code disagree, the model follows the
code:

- pagination stops after ten pages of 1000 rows (`services/noco.ts:114`),
  not after hundreds of pages;
- a transport failure while paging is caught and yields an empty list
  (`services/noco.ts:118-122`); it does not propagate;
- `getData` detects a changed range by comparing both ends to the
  millisecond (`services/cacheService.ts:336-340`), not by calendar day; only
  `filterByDateRange` compares calendar days;
- the record fetchers take no range argument (`services/noco.ts:127-246`), so
  no server-side filter expression is built; the range a load passes is an
  argument of the fetchers the model is given and nothing more.

## Model

| member | source | states |
|---|---|---|
| Common.Lower | services/noco.ts:146 | lower-casing keeps the length and maps every character through `LowerChar` |
| Common.Trim | api/auth/session.ts:27 | `String.prototype.trim`: the result is the infix of the input left between a leading and a trailing run of white space (every ECMAScript white-space and line-terminator character), and it neither starts nor ends with white space |
| Common.TrimUnpadded | services/authService.ts:20 | a text with no white space at either end trims to itself |
| Common.TrimBlank | services/authService.ts:20 | a text of white space alone trims to the empty text |
| Common.JoinSplit | api/auth/session.ts:23-31 | splitting on a separator and joining with it gives the string back |
| Common.SplitFirst | api/auth/session.ts:27-28 | the first piece of a split is everything before the first separator |
| Common.Percent | services/metricsCalculator.ts:223 | `Math.round(part / whole * 100)` as an integer, 0 when there is nothing to divide by |
| Common.PercentBounds | services/metricsCalculator.ts:337 | a rounded percentage of a part of a whole lies in [0, 100] |
| Common.Filter | services/metricsCalculator.ts:1201-1203 | every element `filter` keeps comes from the input and satisfies the predicate, and every such element is kept |
| Common.FilterIndices | services/cacheService.ts:434-458 | the kept elements are the input at increasing positions, exactly the positions whose element satisfies the predicate: order and multiplicity are those of the input |
| Common.FilterFilter | services/metricsCalculator.ts:1456-1465 | filtering twice is filtering once by both predicates |
| Common.CountSplit | services/metricsCalculator.ts:62-73 | counts under two complementary predicates add up to the length |
| Common.SumSplit | services/metricsCalculator.ts:592-606 | sums over two complementary filters add up to the whole sum |
| Common.SumPermutation | services/metricsCalculator.ts:432 | reordering rows does not change their sum |
| Common.SortDesc | services/metricsCalculator.ts:432 | the stable descending sort returns a permutation of its input: same length, same elements with their multiplicities |
| Common.SortDescSorted | services/metricsCalculator.ts:1023 | the sort result is ordered by non-increasing key |
| Common.SortDescSameElements | services/metricsCalculator.ts:782 | the sort result holds exactly the elements of the input |
| Common.SortDescStable | services/metricsCalculator.ts:718-727 | elements of equal key leave the sort in the order they entered it, as ECMAScript requires of `Array.prototype.sort` |
| Common.SortDescStableAll | services/metricsCalculator.ts:1017-1023 | the sort is stable for every key at once |
| Common.SortDescTies | services/metricsCalculator.ts:782 | a stable descending sort of rows listed in increasing rank keeps rows of equal key in increasing rank |
| Common.FilterAscending | services/metricsCalculator.ts:1341 | filtering rows listed in increasing rank keeps them in increasing rank |
| Common.SumFilterMasked | services/metricsCalculator.ts:498-500 | summing over the rows a filter keeps equals summing, over all rows, the value masked to 0 where the filter fails |
| Grouping.Tally | services/metricsCalculator.ts:411-421 | the `Map` built by `forEach` holds, for each key, the number of records filed under it and the sum of their amounts |
| Grouping.KeysOfMember | services/metricsCalculator.ts:424 | a key is listed in the map's iteration order exactly when some record falls under it |
| Grouping.KeysOfDistinct | services/metricsCalculator.ts:424 | each key is listed once |
| Grouping.CountsPartition | services/metricsCalculator.ts:1011-1023 | the counts of the map's keys add up to the number of keyed records |
| Grouping.SumsPartition | services/metricsCalculator.ts:463-485 | the amounts under the map's keys add up to the amounts of all keyed records |
| Grouping.CountForIsCount | services/metricsCalculator.ts:326-337 | the map's count for a key is the length of the matching `filter` |
| Grouping.GroupedRows | services/metricsCalculator.ts:424-432 | rows made one per key and reordered carry each distinct key once and cover every keyed record |
| Grouping.GroupedTotals | services/metricsCalculator.ts:423-432 | rows holding one total per key, in any order, add up to the total over all records |
| Grouping.RecordKeys | services/metricsCalculator.ts:1010-1017 | `Object.entries` of a `Record` filled in key order `ks` lists the same keys, as many, each once per insertion |
| Grouping.RecordKeysOrder | services/metricsCalculator.ts:1010-1017 | array-index keys come first, in ascending numeric order; the other keys follow in insertion order |
| Grouping.RecordKeysExample | services/metricsCalculator.ts:1040-1052 | "Precio alto" inserted before "2" is listed after it |
| Grouping.RecordKeysPlain | services/metricsCalculator.ts:1074-1080 | without array-index keys the insertion order is kept |
| Types.InteractionTypeValue | types.ts:2-10 | every interaction type carries a non-empty string value |
| Types.DayWindow | services/metricsCalculator.ts:98-101 | the window from `setHours(0,0,0,0)` to `setHours(23,59,59,999)` holds exactly the instants of that local calendar day |
| Noco.Or | services/noco.ts:133 | `a \|\| b`: the first operand when it is truthy, the second otherwise |
| Noco.ExtractId | services/noco.ts:18-28 | '' for null, undefined and an empty array; an array by its first element; an object by `String(Id ?? id)`, '' when both are null or undefined; a string as it is; a number as its decimal text; a boolean as "true" or "false" |
| Noco.ExtractIdUnwraps | services/noco.ts:20-22 | any depth of single-element array nesting is looked through |
| Noco.ExtractLinkedName | services/noco.ts:39-52 | '' for a falsy field or an empty array; a string as it is; an array by its first element; an object by the entries of its `fields` in `Object.keys` order: the value under the first key that does not lower-case to "id", '' when that value is falsy or there is no such key |
| Noco.EntriesName | services/noco.ts:46-49 | '' when every key lower-cases to "id"; otherwise the String form of the first other key's value, '' when that value is falsy |
| Noco.FirstNonId | services/noco.ts:46 | the position of the first key that does not lower-case to "id": every earlier key is an id key |
| Noco.ObjectEntries | services/noco.ts:46 | the entries of an object are its values under its keys in `Object.keys` order |
| Noco.StringEntries | services/noco.ts:46 | the entries of a string are its characters, keyed "0", "1", ... |
| Noco.LinkedNameOfObjectFields | services/noco.ts:45-49 | for any `fields` object, the name is the value under its first non-id key in `Object.keys` order |
| Noco.LinkedNameSkipsId | services/noco.ts:46-48 | in a linked record the id column is skipped and the title column wins |
| Noco.LinkedNameIndexKeyFirst | services/noco.ts:46-48 | an array-index key of `fields` wins over a name key inserted before it |
| Noco.LinkedNameOfStringFields | services/noco.ts:45-49 | a text `fields` names the record by its first character |
| Noco.LinkedNameOfArrayFields | services/noco.ts:45-49 | an array `fields` names the record by its first item, '' when that item is falsy |
| Noco.NormalizeDate | services/noco.ts:54-61 | the parsed instant, or the epoch for a falsy or unparseable value; it never fails |
| Noco.ParseAmount | services/noco.ts:63-71 | numbers pass through; falsy values and non-strings give 0; strings are stripped to digits, '.' and '-' and parsed |
| Noco.ParseAmountOfText | services/noco.ts:66-68 | an amount printed as text parses back to itself |
| Noco.ParseAmountStripsSymbols | services/noco.ts:67 | currency symbols and thousands separators are dropped before parsing |
| Noco.FetchFromProxy | services/noco.ts:76-123 | the loop's rows and requested offsets are those of the page-by-page definition: pages of 1000 until a non-ok reply, a body without a list, the last page, a short page or the tenth page, rows concatenated, and [] when a request throws |
| Noco.RequestedShape | services/noco.ts:82-114 | the loop issues between one and ten requests, at offsets 0, 1000, 2000, ... |
| Noco.ShortFirstPage | services/noco.ts:108-109 | a short first page is the whole result, after one request |
| Noco.ThrowDiscardsEarlierPages | services/noco.ts:118-122 | a failure on any requested page throws away the rows of every earlier page: the result is [] |
| Noco.PagesThrow | services/noco.ts:82-122 | the page-by-page run fails exactly when one of the requests it issues throws |
| Noco.NotOkKeepsEarlierPages | services/noco.ts:91-94 | a non-ok reply keeps the pages already received |
| Noco.ContactStatusOf | services/noco.ts:143-152 | each of NEW, CLOSED_WON, CLOSED_LOST, INTERESTED and CONTACTED holds exactly when its keyword rule is the first to match the lower-cased text; NEW is also the default when none matches |
| Noco.ContactStatusLeadNuevo | services/noco.ts:147 | "Lead Nuevo" is NEW |
| Noco.ContactStatusVentaGanada | services/noco.ts:148 | "Venta Ganada" is CLOSED_WON |
| Noco.ContactStatusVentaPerdida | services/noco.ts:149 | "Venta Perdida" is CLOSED_LOST |
| Noco.ContactStatusNoContactar | services/noco.ts:149-151 | "No contactar" is CLOSED_LOST although it mentions contacting |
| Noco.ContactStatusLlamadaAgendada | services/noco.ts:148-150 | "Llamada Agendada" is INTERESTED: it holds the letters of "ganada" but not the word |
| Noco.ContactStatusSeguimientoNuevo | services/noco.ts:147-151 | "Seguimiento Cliente Nuevo" is CONTACTED: the follow-up rule wins over "nuevo" |
| Noco.LostReasonOf | services/noco.ts:154-160 | EXPENSIVE exactly when a price keyword is present, or "presupuesto" is and no earlier rule matches; NOT_INTERESTED and COMPETITION exactly when their keyword is the first in rule order; no reason exactly when no keyword matches |
| Noco.InteractionTypeOf | services/noco.ts:179-188 | each of the seven types holds exactly when its keyword is the first in rule order contained in the lower-cased text; WhatsApp is also the default when none matches |
| Noco.InteractionTypeFirstMatch | services/noco.ts:183-184 | "Llamada por Email" is a call: the earlier keyword wins |
| Noco.AttemptStatusOf | services/noco.ts:232-235 | FAILED exactly when closed or cancelled is mentioned; SUCCESSFUL exactly when recovered or approved is and neither of those; ABANDONED otherwise |
| Noco.AttemptCancelledOverridesRecovered | services/noco.ts:234-235 | "Recuperado - Cancelado" ends up FAILED |
| Noco.MapSeller | services/noco.ts:131-135 | the id is `String(Id \|\| id)`; the name is the String form of the first truthy of the three name columns, or "Sin Nombre" without one |
| Noco.MapContact | services/noco.ts:142-171 | the mapping succeeds exactly when the status and reason chains yield strings; then the id is the record id, name, country and the assigned seller are the String forms of their first truthy columns, the creation date is the normalised first truthy date column, and status and reason follow the keyword rules |
| Noco.MapInteraction | services/noco.ts:178-202 | succeeds exactly when the type chain yields a string; then the id is the record id, contact and seller are the extracted link ids, the date is the normalised date column, the result its String form, and the channel follows the keyword rules |
| Noco.MapSale | services/noco.ts:209-224 | the id is the record id, contact and seller the extracted link ids, the date the normalised date column; the product name is the linked product's name, or 'Servicio General' when that is empty; the amount is `parseAmount` of the amount chain; the cycle is `Number` of its column when truthy, else 0 |
| Noco.NumberOf | services/noco.ts:220 | `Number(v)` with NaN read as 0: numbers as they are, booleans as 1 or 0, texts as a trimmed signed decimal integer |
| Noco.NumberOfText | services/noco.ts:220 | every whole number written out as text, negative ones included, reads back as itself |
| Noco.NumberOfSignedText | services/noco.ts:220 | surrounding blanks and a leading '+' are accepted: " +4 " reads 4 |
| Noco.MapAttempt | services/noco.ts:231-245 | succeeds exactly when the status chain yields a string; then id, contact, date and recovery seller come from their columns; the amount is `parseAmount` of the first truthy of Monto, Amount and 5000, so Monto wins when truthy |
| Noco.MapAll | services/noco.ts:142 | `rows.map(f)`: succeeds exactly when every row maps, element by element; otherwise fails with the error of some row |
| Noco.GetRealSellers | services/noco.ts:127-136 | one seller per row, each `MapSeller` of its row |
| Noco.GetRealSales | services/noco.ts:205-225 | one sale per row, each `MapSale` of its row |
| Noco.GetRealContacts | services/noco.ts:138-172 | succeeds exactly when every row maps; then one contact per row, each `MapContact` of its row; otherwise the TypeError a row throws |
| Noco.GetRealInteractions | services/noco.ts:174-203 | succeeds exactly when every row maps; then one interaction per row, each `MapInteraction` of its row; otherwise a TypeError |
| Noco.GetRealAttempts | services/noco.ts:227-246 | succeeds exactly when every row maps; then one attempt per row, each `MapAttempt` of its row; otherwise a TypeError |
| DataService.WithRetry | services/dataService.ts:24-57 | the first success is returned; a non-retryable error or the last attempt's error is thrown; attempts run at most `maxRetries + 1` times and the waits are `baseDelay * 2^attempt` |
| DataService.RetryAfterRateLimit | services/dataService.ts:37-47 | a rate-limited first call followed by a success takes two calls and one 500 ms wait |
| DataService.TotalWaitGeometric | services/dataService.ts:47 | the total back-off before the last of `n + 1` calls is `baseDelay * (2^n - 1)` |
| DataService.LoadDataSequentially | services/dataService.ts:62-99 | the five collections load in order through `withRetry`; the first failure aborts the load and later collections are never started |
| DataService.LoadedOkIffAll | services/dataService.ts:75-98 | the load succeeds exactly when every collection's retried fetch does |
| DataService.FilterSnapshot | services/dataService.ts:184-187 | interactions, sales and attempts become exactly the `filter` of the records dated inside [start, end], in order; sellers and contacts are untouched |
| DataService.FilterSnapshotTwice | services/dataService.ts:199-201 | narrowing twice is narrowing once to the intersection of the two windows |
| DataService.GetDashboardData | services/dataService.ts:180-232 | demo data filtered and flagged without an API; otherwise the loaded data filtered, or all-empty and not demo when the load fails |
| Metrics.TotalLeadsInPipeline | services/metricsCalculator.ts:62-73 | the pipeline never exceeds the contacts |
| Metrics.StatusPartition | services/metricsCalculator.ts:62-73 | the pipeline is NEW plus CONTACTED plus INTERESTED, and with the won and lost contacts it counts every contact once |
| Metrics.NewLeadsToday | services/metricsCalculator.ts:86-111 | with a selected range, every NEW contact; without one, exactly the NEW contacts created on the local calendar day of now |
| Metrics.CreatedTodayIsLocalDay | services/metricsCalculator.ts:97-108 | "created today" is NEW and created on the local calendar day of now |
| Metrics.LocalRangeCoversWindow | services/metricsCalculator.ts:135-163 | the calendar-day test accepts every instant of the millisecond window |
| Metrics.IsDateInLocalRange | services/metricsCalculator.ts:135-163 | false for an unparseable date; otherwise true exactly when the instant lies between the start of the first bound's local day and the end of the second bound's local day |
| Metrics.MonthlySales | services/metricsCalculator.ts:165-194 | with a range, every sale and all their amounts; otherwise the count and the total of exactly the sales on local days of the month given by its bounds |
| Metrics.MonthlySalesCoversMonth | services/metricsCalculator.ts:178-190 | every sale inside the month by milliseconds is counted |
| Metrics.ConversionRate | services/metricsCalculator.ts:208-224 | a percentage in [0, 100]: 0 with no won contact, 100 with won and no lost ones |
| Metrics.ConversionRateOfCounts | services/metricsCalculator.ts:214-223 | the rate is `Percent(won, won + lost)` of the won and lost counts |
| Metrics.UrgentFollowUps | services/metricsCalculator.ts:237-257 | exactly the open contacts whose next contact date falls on the local day of now; never more than the pipeline |
| Metrics.DueTodayIsLocalDay | services/metricsCalculator.ts:238-255 | due today is open and dated on the local day of now; unparseable dates never are |
| Metrics.PipelineValue | services/metricsCalculator.ts:269-279 | the sum of the estimated values of exactly the open contacts |
| Metrics.PipelineValueNonNegative | services/metricsCalculator.ts:269-279 | with no negative estimate the pipeline value is not negative |
| Metrics.PipelineValueSnoc | services/metricsCalculator.ts:272-278 | a closed contact adds nothing; an open one adds its estimate |
| Metrics.FunnelByStatus | services/metricsCalculator.ts:296-340 | five steps in funnel order with fixed labels, each counting its status with its share of all contacts; the counts add up to the contacts |
| Metrics.FunnelCovers | services/metricsCalculator.ts:326-333 | the five funnel statuses count every contact once |
| Metrics.RevenueByProduct | services/metricsCalculator.ts:407-435 | one row per distinct product, each with its sales count, its revenue and its share of all revenue; every sale's product has a row; the quantities add up to the sales; largest revenue first, products of equal revenue in the order of their first sale (the `Map` insertion order) |
| Metrics.ProductTies | services/metricsCalculator.ts:410-432 | sorting the per-product rows, built in first-sale order, leaves products of equal revenue in that order |
| Metrics.InferCategory | services/metricsCalculator.ts:448-460 | Premier, Digital and Membership each hold exactly when their keyword rule is the first to match the lower-cased name |
| Metrics.InferCategoryFirstRuleWins | services/metricsCalculator.ts:450-455 | "Membresía Digital" is Digital: the earlier rule wins |
| Metrics.RevenueByCategory | services/metricsCalculator.ts:444-488 | at most four rows, one per occurring category, with its revenue, share and sales count; counts and revenues add up to the sales and their revenue; largest revenue first, categories of equal revenue in the order of their first sale |
| Metrics.CategoryTies | services/metricsCalculator.ts:444-488 | sorting the per-category rows, built in first-sale order, leaves categories of equal revenue in that order |
| Metrics.TotalDiscounts | services/metricsCalculator.ts:496-505 | the count is the number of sales with a positive discount, the total the sum of those discounts, the average their rounded mean (nearest integer, at least 1 when there is any), all 0 without discounts |
| Metrics.TotalDiscountsAppend | services/metricsCalculator.ts:496-505 | the discount counts and totals of two batches of sales add up to those of both together |
| Metrics.AverageTicket | services/metricsCalculator.ts:513-518 | the mean amount rounded to the nearest integer, 0 without sales |
| Metrics.AverageTicketBetween | services/metricsCalculator.ts:513-518 | the average ticket lies between the smallest and the largest amount |
| Metrics.TotalRevenue | services/metricsCalculator.ts:592-606 | the sum of all amounts, or with a range of the amounts of the sales inside it |
| Metrics.TotalRevenueSplit | services/metricsCalculator.ts:592-606 | revenue inside a range plus revenue outside it is the whole revenue |
| Metrics.Distribution | services/metricsCalculator.ts:994-1024 | one row per distinct label with its count and share; every record's label has a row; counts total the records; largest count first, ties in `Object.entries` key order |
| Metrics.LeadsByStatus | services/metricsCalculator.ts:994-1024 | contacts per status label: distinct labels, each contact's label present, counts adding up to the contacts, sorted by count with ties in `Object.entries` order |
| Metrics.LostReasons | services/metricsCalculator.ts:1032-1061 | the lost contacts per reason label with its share of all lost contacts; each row's trend fixed by its reason's place in `Object.entries` order; distinct reasons covering every lost contact; no rows without lost contacts |
| Metrics.ReasonsOfLost | services/metricsCalculator.ts:1040-1060 | each sorted row counts its reason among the lost contacts and takes the trend of that reason's `Object.entries` position |
| Metrics.ReasonsCoverLost | services/metricsCalculator.ts:1040-1060 | the sorted rows cover every lost contact and their counts add up to the lost contacts |
| Metrics.LostContacts | services/metricsCalculator.ts:1034 | exactly the CLOSED_LOST contacts |
| Metrics.LeadsBySource | services/metricsCalculator.ts:1069-1087 | contacts per source, "Sin especificar" for none: distinct names, each contact's source present, counts adding up to the contacts, ties in `Object.entries` order |
| Metrics.LeadsByCountry | services/metricsCalculator.ts:1095-1113 | contacts per country, "Sin especificar" for none: distinct names, each contact's country present, counts adding up to the contacts, ties in `Object.entries` order |
| Metrics.InteractionsByChannel | services/metricsCalculator.ts:1121-1139 | interactions per channel value: distinct names, each naming a channel, each interaction's channel present, counts adding up to the interactions |
| Metrics.InteractionResults | services/metricsCalculator.ts:1147-1165 | interactions per result text, "Sin resultado" for none: distinct names, each result present, counts adding up to the interactions, ties in `Object.entries` order |
| Metrics.AvgInteractionsPerLead | services/metricsCalculator.ts:1174-1193 | interactions per open contact to the nearest tenth, 0 without open contacts |
| Metrics.LostLeads | services/metricsCalculator.ts:1201-1203 | exactly the contacts neither in the pipeline nor won; with the pipeline never more than the contacts |
| Metrics.TotalInteractions | services/metricsCalculator.ts:1212-1222 | all interactions, or with a range those dated inside it |
| Metrics.TotalInteractionsAllWithin | services/metricsCalculator.ts:1212-1222 | interactions all inside the range are all counted |
| Metrics.PurchaseAttemptsByStatus | services/metricsCalculator.ts:1234-1259 | one row per status with its count, share and amount; every attempt and every amount is accounted for once; largest count first, ties in `Object.entries` order |
| Metrics.RecoveryMetrics | services/metricsCalculator.ts:1268-1295 | over the failed and abandoned attempts, the recovered ones are exactly those with a recovery seller; the rate is `Percent(recovered, recoverable)`, in [0, 100] and 100 when all are recovered |
| Metrics.RecoveryValueSplit | services/metricsCalculator.ts:1268-1295 | the potential value is the recovered value plus that of the attempts nobody took on |
| Metrics.FailedAttempts | services/metricsCalculator.ts:1443-1448 | exactly the attempts that did not succeed: with the successful ones they make up all attempts |
| Metrics.RecoveredValue | services/metricsCalculator.ts:1456-1465 | the amounts of the recoverable attempts that have a recovery seller |
| Vendors.VendorIdsAre | services/metricsCalculator.ts:633-634 | a seller id is a vendor id exactly when some seller carries it; none repeats |
| Vendors.SeedVendors | services/metricsCalculator.ts:633-646 | one zeroed row per vendor id, named after the last seller with that id |
| Vendors.ForEachRecord | services/metricsCalculator.ts:648-672 | a pass over the records keeps every row's per-record invariant and changes no key |
| Vendors.SortedRows | services/metricsCalculator.ts:782 | one row per vendor id, each keeping its invariant, sorted by non-increasing key; rows of equal key stay in vendor-id (`Map` insertion) order |
| Vendors.ChannelOf | services/metricsCalculator.ts:762-780 | each bucket holds exactly when its keyword is the first contained in the lower-cased type |
| Vendors.NoBucketLetters | services/metricsCalculator.ts:762-780 | a type without the letters w, e and l reaches no named bucket |
| Vendors.NoLaterKeyword | services/metricsCalculator.ts:766-776 | a type where 'e' never precedes 'm' and without c, ó and g names neither email, call nor meeting |
| Vendors.BucketsPartition | services/metricsCalculator.ts:762-780 | every interaction of a vendor falls in exactly one bucket |
| Vendors.ChannelOfType | services/metricsCalculator.ts:762-780 | only WhatsApp, Email and Llamada reach a named bucket |
| Vendors.MeetingsNeverCounted | services/metricsCalculator.ts:774-776 | the meeting bucket stays empty: no interaction type names a meeting |
| Vendors.InteractionsByVendor | services/metricsCalculator.ts:737-783 | one row per vendor id with its interactions split into buckets adding up to its total; most interactions first, ties in vendor-id order |
| Vendors.InteractionStep | services/metricsCalculator.ts:762-780 | one more interaction updates its seller's row and no other |
| Vendors.WithRate | services/metricsCalculator.ts:826-829 | only the rate changes; it is in [0, 100], 0 with no win, 100 with wins and no losses |
| Vendors.ClosedAmongLeads | services/metricsCalculator.ts:813-824 | a vendor's won and lost leads are among its leads |
| Vendors.ConversionByVendor | services/metricsCalculator.ts:792-832 | one row per vendor id with its leads, won, lost and rate; highest rate first, ties in vendor-id order |
| Vendors.ConversionRows | services/metricsCalculator.ts:792-829 | the per-vendor tallies before the sort: one row per vendor id, each holding its own leads, won, lost and rate |
| Vendors.VendorConversionRate | services/metricsCalculator.ts:826-829 | a vendor's rate is the overall conversion rate over that vendor's own contacts |
| Vendors.ActivePartition | services/metricsCalculator.ts:902-920 | every open lead of a vendor is new, contacted or interested, only one of them |
| Vendors.ActiveLeadsByVendor | services/metricsCalculator.ts:881-923 | one row per vendor id with its open leads split over the three open statuses; most open leads first, ties in vendor-id order |
| Vendors.FollowUpOf | services/metricsCalculator.ts:959-979 | no class exactly for closed contacts and contacts without a next date; an unparseable date is upcoming |
| Vendors.FollowUpClasses | services/metricsCalculator.ts:959-979 | due is "open and dated on the local day of now", as for urgent follow-ups; overdue is an earlier day |
| Vendors.FollowUpPartition | services/metricsCalculator.ts:959-979 | every follow-up of a vendor is due today, overdue or upcoming, only one of them |
| Vendors.ClosedNeverFollowedUp | services/metricsCalculator.ts:961 | a closed contact never reaches a vendor's follow-ups |
| Vendors.PendingFollowUpsByVendor | services/metricsCalculator.ts:932-982 | one row per vendor id with its follow-ups split into due, overdue and upcoming; most follow-ups first, ties in vendor-id order |
| Vendors.MeanDays | services/metricsCalculator.ts:868 | the mean number of days to the nearest day, 0 without sales |
| Vendors.MeanDaysBetween | services/metricsCalculator.ts:868 | a mean of values within [lo, hi] lies within [lo, hi] |
| Vendors.AvgClosingTimeByVendor | services/metricsCalculator.ts:841-872 | one row per vendor id with its sales that carry a cycle and their mean; fastest first, ties in vendor-id order |
| Vendors.ClosingRows | services/metricsCalculator.ts:841-869 | the per-vendor tallies before the sort: one row per vendor id, each with its sales that carry a cycle and their mean |
| Vendors.RecoveryRated | services/metricsCalculator.ts:1341-1346 | the rate is set only for vendors with assigned attempts; all of them recovered gives 100 |
| Vendors.RecoveryByVendor | services/metricsCalculator.ts:1304-1352 | one row per vendor with recoverable attempts assigned, with their count and value; every such vendor listed; all rates are 100, so the sort keeps the rows in vendor-id order |
| Vendors.RecoveryOrder | services/metricsCalculator.ts:1341-1352 | when every kept row has rate 100, the descending sort leaves the rows in vendor-id order |
| Vendors.PerformanceMap | services/metricsCalculator.ts:630-712 | after every pass each vendor's row is its finished performance |
| Vendors.RateVendors | services/metricsCalculator.ts:674-680 | each vendor's rate is that of its own contacts |
| Vendors.ClosingDays | services/metricsCalculator.ts:683-696 | each vendor's mean cycle over its sales that carry one |
| Vendors.RankedBySales | services/metricsCalculator.ts:718-727 | the rows sorted by sales amount, largest first, ranked 1, 2, ...; vendors of equal amount keep their input order and take consecutive ranks in it |
| Vendors.RankedTies | services/metricsCalculator.ts:718-727 | ranking rows given in vendor-id order leaves vendors of equal sales amount in that order |
| Vendors.SalesByVendor | services/metricsCalculator.ts:621-728 | one row per vendor id, each its whole performance, largest sales amount first, ranked in that order; equal amounts in vendor-id order |
| Vendors.SalesTotals | services/metricsCalculator.ts:648-656 | the sales counts and amounts of the rows add up to the sales of known vendors |
| Cache.OrNull | services/cacheService.ts:141 | `dateRange \|\| null`: present exactly when a range was given |
| Cache.IsNetworkError | services/cacheService.ts:79-94 | an `Error` whose lower-cased message contains one of the eight markers |
| Cache.TimeoutIsNetworkError | services/cacheService.ts:99-115 | the rejection of a timed-out request counts as a network error |
| Cache.NonErrorNotNetwork | services/cacheService.ts:80 | a thrown value that is not an `Error` is never a network error |
| Cache.ErrorMessage | services/cacheService.ts:276 | an `Error` keeps its message; anything else becomes 'Error desconocido' |
| Cache.FetchAllData | services/cacheService.ts:126-244 | empty demo data without an API; otherwise all five record fetches must succeed, the first failure aborting; the funnel contacts replace the contacts only when they are a non-empty success |
| Cache.FunnelFailureHarmless | services/cacheService.ts:198-213 | a failed funnel fetch counts as an empty one and never fails the load |
| Cache.FirstFailureWins | services/cacheService.ts:160-219 | the first record fetch to fail in load order decides the error |
| Cache.Loading | services/cacheService.ts:252-258 | loading, no error, the range recorded, the data kept |
| Cache.Settled | services/cacheService.ts:261-279 | a success replaces the snapshot wholesale; a failure keeps data and range and records the error and its network flag |
| Cache.TransitionsCoherent | services/cacheService.ts:251-282 | every transition keeps data and last-fetch time together |
| Cache.DatesEqual | services/cacheService.ts:336-340 | equal exactly when both are absent or both present with the same ends to the millisecond |
| Cache.RangeChanged | services/cacheService.ts:295-297 | a reload is forced exactly when both ranges are defined and not equal |
| Cache.FailedReloadAdoptsRange | services/cacheService.ts:257 | a failed reload still records the new range, so the old range's data is served for it |
| Cache.TierOf | services/cacheService.ts:309-323 | fresh under five minutes, stale under thirty, expired otherwise or when forced or empty |
| Cache.CacheService.Subscribe | services/cacheService.ts:68-71 | the callback joins the subscribers; nothing else changes |
| Cache.CacheService.Unsubscribe | services/cacheService.ts:70 | the callback leaves the subscribers; nothing else changes |
| Cache.CacheService.Notify | services/cacheService.ts:63-65 | every current subscriber is handed the current state |
| Cache.CacheService.BeginInvalidate | services/cacheService.ts:252-259 | the state turns loading for the range with no error and the same data, and every subscriber is handed it |
| Cache.CacheService.FinishInvalidate | services/cacheService.ts:261-281 | a successful load replaces the snapshot, clears the error and stamps the fetch time; a failed one keeps the data and records the error and the network flag; then every subscriber is notified |
| Cache.CacheService.InvalidateCache | services/cacheService.ts:251-282 | the state becomes `Settled(Loading(..))` and two notices are sent, loading then settled |
| Cache.CacheService.RevalidateInBackground | services/cacheService.ts:349-377 | a no-op while a revalidation is in flight; otherwise one starts for the range |
| Cache.CacheService.CompleteRevalidation | services/cacheService.ts:356-376 | a success replaces the snapshot and notifies; a failure changes nothing |
| Cache.CacheService.GetData | services/cacheService.ts:291-331 | a changed range or expired data reloads; fresh data is served; stale data is served and revalidated; the result is the data held afterwards |
| Cache.SameDateRange | services/cacheService.ts:384-398 | false without a stored range, else true exactly when both ends fall on the same local calendar days |
| Cache.SameCalendarDay | services/cacheService.ts:384-390 | two instants fall on the same local calendar day exactly when the second lies within the local day of the first, and symmetrically |
| Cache.FilterByDateRange | services/cacheService.ts:406-470 | the stored collections as they are for the same local days, else each exactly the `filter` of its records inside the window, in order |
| Cache.FilterNarrows | services/cacheService.ts:406-470 | filtering by a window keeps exactly the records of a wider filter that fall in it |
| Cache.SameDaysPassThrough | services/cacheService.ts:413-420 | a snapshot is passed through unchanged for any window on the same local days |
| Hook.Shown | hooks/useDashboardData.ts:104-113 | takes over sellers, demo flag and contacts and filters the collections to the window; error and flags untouched |
| Hook.Received | hooks/useDashboardData.ts:174-192 | nothing once unmounted; otherwise data and error are taken over when present, an absent error clearing nothing |
| Hook.UnmountedIgnoresNotices | hooks/useDashboardData.ts:175 | once unmounted, no notification changes the hook's state |
| Hook.NoticesKeepErrorAndPhase | hooks/useDashboardData.ts:188-191 | the subscriber never clears an error and never touches `isInitialLoad` |
| Hook.FailedReloadShown | hooks/useDashboardData.ts:177-191 | a failed reload leaves the cache's error and network flag in the hook and the earlier data on screen |
| Hook.DashboardHook.constructor | hooks/useDashboardData.ts:56-89 | the initial React state, mounted, and subscribed to the cache |
| Hook.DashboardHook.Unmount | hooks/useDashboardData.ts:84-89 | the guard drops and the subscription is cancelled; state kept |
| Hook.DashboardHook.Notified | hooks/useDashboardData.ts:174-192 | the state becomes `Received` of the notice |
| Hook.DashboardHook.Deliver | hooks/useDashboardData.ts:173-195 | the state after the cache's notices is their fold by `Received` |
| Hook.DashboardHook.LoadInitialData | hooks/useDashboardData.ts:93-126 | after the delivered notices, a mounted hook with data shows it and ends the first load |
| Hook.DashboardHook.Refresh | hooks/useDashboardData.ts:130-165 | clears the error, reloads through `invalidateCache`, shows the data if mounted, and ends the first load so nothing shows as loading |
| Hook.DashboardHook.RangeChange | hooks/useDashboardData.ts:200-206 | after the first load it starts a reload for the new window; during it only the window changes |
| Hook.DashboardHook.IsLoading | hooks/useDashboardData.ts:210 | shows loading only during the first load: exactly the cache's loading flag then, never afterwards |
| Session.UrlChar | api/auth/session.ts:8-15 | '+' and '/' become '-' and '_'; the mapping is undone by `StandardChar` |
| Session.StripPadding | api/auth/session.ts:13 | the trailing run of '=' is removed and nothing else |
| Session.Base64Url | api/auth/session.ts:8-15 | no '+', '/' or trailing '=' remains |
| Session.Base64UrlAlphabet | api/auth/session.ts:8-15 | standard base64 text becomes non-empty text over the base64url alphabet |
| Session.FromUrlBase64Url | api/auth/session.ts:36-40 | mapping base64url text back recovers the standard text without padding |
| Session.ParseCookies | api/auth/session.ts:23-31 | an absent or empty header gives no cookies; a name is present exactly when some part carries it |
| Session.RecordLastWins | api/auth/session.ts:27-29 | a name maps to the value of its last part |
| Session.LastPartWins | api/auth/session.ts:27-29 | of the parts sharing a name, the last one's value is kept |
| Session.PartWithoutEquals | api/auth/session.ts:27-28 | a part without '=' is a name with an empty value |
| Session.PartAtFirstEquals | api/auth/session.ts:27-28 | the value keeps any '=' after the first |
| Session.VerifyToken | api/auth/session.ts:33-44 | a payload exactly when the first segment and the signature are non-empty and the signature is that of the first segment, and then the payload decoded from the first |
| Session.ExtraSegmentsIgnored | api/auth/session.ts:34 | segments after the second are ignored |
| Session.Handler | api/auth/session.ts:46-74 | 405 for anything but GET, 500 without a secret, otherwise 200, authenticated exactly when the cookie's token verifies to a truthy payload |
| Login.CookieSegments | api/auth/login.ts:25-37 | the five fixed attributes, then `Secure` in production only |
| Login.CookieText | api/auth/login.ts:25-37 | the attributes joined by "; " are the plain cookie text, with `; Secure` at the end in production only |
| Login.BuildCookie | api/auth/login.ts:25-37 | the cookie is `yd_auth=<value>` with the fixed attributes and `Max-Age=<maxAge>`, followed by `; Secure` exactly in production |
| Login.CookieStartsWithValue | api/auth/login.ts:27 | a session cookie starts with `yd_auth=<value>` |
| Login.SecureOnlyInProduction | api/auth/login.ts:32 | the cookie carries `Secure` exactly in production |
| Login.Handler | api/auth/login.ts:39-78 | 405 for anything but POST, 500 without secret or password, a throw on a body that is not JSON, 401 without cookie unless the password matches, else 200 with the session cookie and the user |
| Login.TokenAlphabet | api/auth/login.ts:62-70 | the issued token is non-empty text over the base64url alphabet and '.' |
| Login.CookieCarriesToken | api/auth/login.ts:72-73 | the header sent back after login parses to exactly the token |
| Login.IssuedTokenVerifies | api/auth/login.ts:62-70 | an issued token is accepted by the session endpoint under the same secret |
| Login.LoginOpensSession | api/auth/login.ts:62-77 | login opens a session: the returned cookie carries a token the session endpoint verifies |
| Logout.ClearCookieExpires | api/auth/logout.ts:5-17 | the clearing attributes are exactly the session cookie's attributes for an empty value and `Max-Age=0` |
| Logout.BuildClearCookie | api/auth/logout.ts:5-17 | the clearing cookie is the session cookie with an empty value and `Max-Age=0` |
| Logout.ClearedCookieIsEmpty | api/auth/logout.ts:8 | after logout the cookie's value is empty, which the session endpoint rejects |
| Logout.Handler | api/auth/logout.ts:19-28 | 405 for anything but POST; otherwise 200 with the clearing cookie |
| AuthService.LocalAuthKey | services/authService.ts:17-21 | the trimmed key, or "" when none is set |
| AuthService.IsLocalBypassEnabled | services/authService.ts:23-28 | on localhost with a window and a non-empty key, and only then |
| AuthService.BlankKeyDisablesBypass | services/authService.ts:17-28 | a key of white space alone leaves the bypass off |
| AuthService.LoginError | services/authService.ts:67-70 | a `null` body makes `error.error` throw a TypeError; otherwise the server's truthy `error`, else 'Login fallido' |
| AuthService.AuthClient.GetSession | services/authService.ts:30-48 | with the bypass, authenticated exactly when the stored flag is "true"; otherwise the server's answer, unauthenticated on a non-ok reply |
| AuthService.AuthClient.Login | services/authService.ts:50-73 | with the bypass, the key opens the local session and anything else throws leaving storage alone; otherwise the server's outcome |
| AuthService.AuthClient.Logout | services/authService.ts:75-85 | with the bypass the flag is removed, closing the local session; otherwise storage untouched |

## Left out

- The sales and attempt trends (`services/metricsCalculator.ts:527-583`, `1361-1435`): their week and month keys need a calendar with weeks and month lengths, which this model's fixed-offset day count does not carry.
- The currency and number formatters (`services/metricsCalculator.ts:348-365`): they are `Intl` formatting.
- The mock data generator (`services/dataService.ts:103-176`): it draws from `Math.random`; the demo data is an input.
- `extractImage` (`services/noco.ts:31-36`) and the sellers' avatar: display only, read by no operation of the model.
- Timers: the delays between requests, `withTimeout` and the retry waits are not waited for; a request that times out is a failed fetch.
- Floating point: amounts, durations and rates are integers; rounding is written out for `Math.round` on non-negative values.
- Daylight saving time: the viewer's offset from UTC is fixed.
- Lower-casing covers ASCII and the Latin-1 letters only.
- JSON objects are lists of pairs, and duplicate keys are not modelled; `Object.keys` lists their array-index keys first, ascending, and the other keys in list order, as for `Record` tallies.
- HMAC, base64 encoding and decoding, JSON parsing, UTF-8, `fetch` and `localStorage` are parameters or inputs; the base64 validity of the encoder's output is a precondition of the token lemmas.
- A cookie named `__proto__` and other prototype-polluting names are not modelled: cookies are a `map`.
- Whether the API is configured is a parameter.
- The React UI components, the chat assistant, the NocoDB proxy, the Express server and the configuration files.
- Vendors.SalesByVendor: the scratch fields the code adds to each row while computing it are kept beside the rows, not in them.
- Hook.DashboardHook.RangeChange: the re-run of effect 1 when the window changes is not part of it; `LoadInitialData` can be called again for that.
- Hook.DashboardHook.LoadInitialData: its `catch` branch is not modelled, because `getData` never rejects once `invalidateCache` catches every failure; notices are delivered before an unmount that happens during the same call.
- Hook.DashboardHook.Refresh: its `catch` branch is not modelled, for the same reason.
- NumberOf: decimal fractions, exponents, hexadecimal, octal and binary literals and "Infinity" are not modelled; a text other than a signed decimal integer reads 0, so "12.0" and "1e2" read 0 where `Number` gives 12 and 100.
- MonthlySales: the first and last instants of now's local month are parameters; the model does not derive them from the clock.
- ExtractLinkedName: a truthy value under the first non-id key that is not text is returned by its `String` form, where the code returns the value itself into a text field.
