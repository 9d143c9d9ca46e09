# dashboard-pro core, modelled in Dafny

dashboard-pro is a call-centre analytics dashboard. A chat query such as
"Show me department breakdown" is lower-cased and routed by keyword to one of
nine report templates. Each template turns the call records into a chart
grid, a table (display rows plus row objects with numeric shadow fields), a
markdown narrative and a KPI list. Around that core sit:

- a data table with a global filter, per-column filters, a three-state sort
  and filter dropdowns;
- an OpenRouter client with a request throttle and a retry loop;
- a chat store with a mock word-by-word event stream and the client loop
  that reads it back;
- a dashboard builder with widget placement and an undo history;
- a recent-analytics history;
- a mock sign-in and sign-up;
- a deep merge of chart options.

The project models these as pure functions over immutable datatypes and
proves what each promises.

| module (file) | models |
|---|---|
| `Wrappers`, `Seqs`, `Strings`, `Format` | `Option`/`Result`, distinct, dedup, filter, subsequence, `toLowerCase`, `includes`, `split`/`join`, `trim`, `${n}` and `toFixed(1)` |
| `CallRecords` (call_records.dfy) | the call record and the six-call sample data |
| `Analytics` (analytics.dfy) | `getCallCenterAnalytics` over any non-empty record list |
| `Breakdown` (breakdown.dfy) | the `reduce` tallies as insertion-ordered entry lists, and the stable descending sort |
| `Agents` (agents.dfy) | the per-agent `reduce` of the agent branch |
| `Response` (response.dfy) | chart grids, tables, row objects, `validateTableData` |
| `Intent` (intent.dfy) | the keyword if-chain of `generateChartAndTableData` |
| `Trends` (trends.dfy) | the hourly-trends branch |
| `Templates` (templates.dfy) | the other branches and the dispatcher |
| `Fixture` (fixture.dfy) | the sample data's analytics, computed |
| `DataTable` (datatable.dfy) | the `DataTable` component's state and derived data |
| `OpenRouter` (openrouter.dfy) | throttle, retry loop, analysis prompt |
| `Chat` (chat.dfy) | chat store, streaming route, stream reader |
| `DashboardBuilder` (builder.dfy) | builder store and widget actions |
| `AnalyticsHistory` (analytics_context.dfy) | `updateAnalytics` and `selectAnalytics` |
| `SimpleAuth` (simple_auth.dfy) | `signIn` and `signUp` |
| `Charts` (charts.dfy) | `getChartOptions` and `mergeDeep` |

**Calling conventions.**
- Clock readings (`Date.now()`) and formatted timestamps are parameters.
- The fetch in the retry loop is a function from attempt number to outcome.
- `JSON.parse` of a stream line is an abstract `wordOf` that reads back the encoder's output.
- The table's sort comparator and number-to-string rendering are parameters.

## Model

| member | source | states |
|---|---|---|
| Format.ParseNatToString | lib/cart-data.ts:359-363 | the decimal text of a count reads back to the same count: interpolating a whole number loses nothing |
| Format.Fixed1 | lib/cart-data.ts:336 | `toFixed(1)` text is an optional '-' (present exactly for negative values), at least one integral digit, a point and one decimal digit |
| Format.Fixed1Reads | lib/cart-data.ts:441-447 | reading the `toFixed(1)` text back gives `Round1`'s value, so `Round1` is `parseFloat(x.toFixed(1))` |
| Format.Round1 | lib/cart-data.ts:441-447 | `parseFloat(x.toFixed(1))` is a whole number of tenths with x's sign, whose magnitude lies in (10·|x| − 0.5, 10·|x| + 0.5] tenths, so ties round away from zero; it is within 0.05 of x |
| Analytics.Mean | lib/cart-data.ts:185-201 | an average is non-negative, is 0 when nothing was counted, and otherwise times the count gives the sum |
| Analytics.Percent | lib/cart-data.ts:238-239 | a rate times the whole equals the part times 100, and lies in [0, 100] when the part does not exceed the whole |
| Analytics.Analyze | lib/cart-data.ts:177-240 | total is the record count; resolved, in-progress and escalated together never exceed it; the three rates lie in [0, 100]; each breakdown's counts sum to the total |
| Analytics.AnalyzeCounts | lib/cart-data.ts:177-183 | the resolved, in-progress and escalated counts are the lengths of the records filtered by that status |
| Analytics.AnalyzeRates | lib/cart-data.ts:191-192 | each rate is `(count / total) * 100`, the count being that of the resolved, escalated or first-call-resolved records |
| Analytics.AnalyzeAverages | lib/cart-data.ts:185-201 | each average is the sum over the records carrying the value divided by how many carry it, and 0 when none does |
| Analytics.CountStatus | lib/cart-data.ts:179-183 | a status count never exceeds the number of records |
| Analytics.CountStatusIsFilter | lib/cart-data.ts:179-183 | a status count is the length of `filter(call => call.status === s)` |
| Analytics.CountFirstCallResolved | lib/cart-data.ts:191-192 | the first-call-resolution count never exceeds the number of records |
| Analytics.FirstCallResolvedIsFilter | lib/cart-data.ts:191-192 | the first-call-resolution count is the length of `filter(call => call.firstCallResolution)` |
| Analytics.DurationCountIsFilter | lib/cart-data.ts:185 | the handle-time count is the length of `filter(call => call.duration !== undefined)` |
| Analytics.SatisfactionCountIsFilter | lib/cart-data.ts:194-196 | the satisfaction count is the length of `filter(call => call.customerSatisfaction !== undefined)` |
| Analytics.DurationSum | lib/cart-data.ts:186-189 | records without a duration sum to 0 |
| Analytics.DurationSumIsFilter | lib/cart-data.ts:185-189 | summing `duration \|\| 0` over the filtered calls gives the sum over all records |
| Analytics.SatisfactionSum | lib/cart-data.ts:197-201 | records without a score sum to 0 |
| Analytics.SatisfactionSumIsFilter | lib/cart-data.ts:194-201 | summing `customerSatisfaction \|\| 0` over the filtered calls gives the sum over all records |
| Analytics.AvgHandleTime | lib/cart-data.ts:185-189 | the average handle time is non-negative, 0 without durations, and otherwise times their count gives their sum |
| Analytics.AvgSatisfaction | lib/cart-data.ts:194-201 | the average satisfaction is non-negative, 0 without scores, and otherwise times their count gives their sum |
| Analytics.StatusPartition | lib/cart-data.ts:178-183 | the five status counts partition the records |
| Analytics.OpenAndClosedUncounted | lib/cart-data.ts:178-183 | resolved plus in-progress plus escalated is the total less the open and closed calls |
| Analytics.BreakdownKeys | lib/cart-data.ts:203-225 | a department, category or priority is a key of its breakdown exactly when some record carries it; each breakdown's keys are distinct; each count is the value's multiplicity among the records |
| Analytics.DurationAppend | lib/cart-data.ts:185-189 | the handle-time sum and count over joined record lists are the sums of the parts |
| Analytics.SatisfactionAppend | lib/cart-data.ts:194-201 | the satisfaction sum and count over joined record lists are the sums of the parts |
| Analytics.CountStatusAppend | lib/cart-data.ts:179-183 | status counts over joined record lists add up |
| Analytics.FirstCallResolvedAppend | lib/cart-data.ts:191-192 | first-call-resolution counts over joined record lists add up |
| Analytics.AveragesIgnoreMissing | lib/cart-data.ts:185-201 | a call without a duration leaves the average handle time unchanged, and one without a score leaves the average satisfaction unchanged |
| Analytics.SatisfactionBounded | lib/cart-data.ts:194-201 | with every score at most 5, the average satisfaction lies in [0, 5] |
| Breakdown.BumpKeys | lib/cart-data.ts:203-209 | `acc[k] = (acc[k] \|\| 0) + 1` keeps the key order when k is present and appends k otherwise; the total grows by one |
| Breakdown.Bump | lib/cart-data.ts:203-209 | one update keeps every existing key at its position and adds at most one entry |
| Breakdown.BumpCounts | lib/cart-data.ts:205 | only k's count grows, by exactly one, and counts stay positive |
| Breakdown.TallyFacts | lib/cart-data.ts:203-225 | a tally's keys are the distinct values in first-seen order, each count is that value's multiplicity, counts are positive and sum to the number of values |
| Breakdown.Tally | lib/cart-data.ts:203-225 | a tally has at most one entry per value, and at least one when there are values |
| Breakdown.Insert | lib/cart-data.ts:326-328 | insertion adds exactly the new entry (a permutation of the old entries plus it) |
| Breakdown.InsertKeepsGroups | lib/cart-data.ts:326-328 | insertion keeps entries of equal count in their relative order |
| Breakdown.InsertKeepsSorted | lib/cart-data.ts:326-328 | insertion into a descending list keeps it descending |
| Breakdown.SortByCount | lib/cart-data.ts:326-328 | `sort(([, a], [, b]) => b - a)` gives a descending permutation, and entries of equal count keep their breakdown order (the sort is stable) |
| Breakdown.StableSortUnique | lib/cart-data.ts:326-328 | two descending lists with the same entries per count, in the same order, are equal, so the stable sort's result is determined |
| Agents.Add | lib/cart-data.ts:634-641 | counting a call keeps the agent's id, name and department and adds one call |
| Agents.Record | lib/cart-data.ts:618-646 | one reduce step adds one call in total and at most one agent |
| Agents.RecordIds | lib/cart-data.ts:620-632 | a new agent is appended after the agents already seen; a known agent changes no positions |
| Agents.RecordUpdates | lib/cart-data.ts:620-641 | only the call's agent's entry changes, and a new agent's entry counts exactly this call |
| Agents.RecordPositive | lib/cart-data.ts:634 | every agent entry keeps a positive call count |
| Agents.AgentFold | lib/cart-data.ts:618-646 | one entry per distinct agent, in first-appearance order; the entries' call counts sum to the number of records |
| Agents.ScoredCountAppend | lib/cart-data.ts:637-640 | the count of truthy-scored calls over joined lists adds up |
| Agents.AgentFoldSummaries | lib/cart-data.ts:618-646 | each agent's entry equals the summary computed from that agent's own calls alone, so the fold agrees with a per-agent definition |
| Response.HeaderedRectangular | lib/cart-data.ts:350 | a header followed by rows of its width is a rectangular chart grid |
| Response.Columns | lib/cart-data.ts:338-341 | the row object holds each header's cell under that header |
| Response.WithShadows | lib/cart-data.ts:342 | adding numeric shadow fields under non-header names keeps every header's cell and adds the shadows |
| Response.RowObjectOf | lib/cart-data.ts:338-343 | a row object agrees with its display row column by column and carries the shadow fields |
| Response.ValidateTableData | lib/cart-data.ts:243-253 | a missing `headers` or `data` becomes empty; everything present passes through unchanged |
| Templates.StandardKpis | lib/cart-data.ts:301-318 | four KPIs, headed by the call count with a neutral trend; resolution rate up, handle time down, satisfaction up |
| Templates.BreakdownChart | lib/cart-data.ts:347-350 | the chart grid is rectangular with one `[key, count]` row per breakdown entry, in order |
| Templates.TestObject | lib/cart-data.ts:286-290 | each test row object matches its row and carries `ValueNumber` |
| Templates.TestItemsTable | lib/cart-data.ts:278-291 | rows and row objects agree, one per test item |
| Templates.TestReport | lib/cart-data.ts:262-297 | the test branch returns a consistent three-row table, a rectangular chart and two KPIs |
| Templates.DepartmentObject | lib/cart-data.ts:338-343 | the row object matches the department row and carries the share as `PercentageValue` |
| Templates.DepartmentTable | lib/cart-data.ts:330-344 | one consistent row per entry, whose first two cells are the entry's key and count |
| Templates.DepartmentReport | lib/cart-data.ts:321-366 | rows follow the sorted breakdown; chart row i+1 repeats table row i's first two cells; standard KPIs |
| Templates.CategoryObject | lib/cart-data.ts:397-402 | the row object matches the category row and carries the share as `PercentageValue` |
| Templates.CategoryTable | lib/cart-data.ts:389-403 | one consistent row per entry, whose first two cells are the entry's key and count |
| Templates.CategoryReport | lib/cart-data.ts:369-410 | rows follow the sorted breakdown; chart rows repeat the table's first two cells; standard KPIs |
| Templates.EscalationTextAgrees | lib/cart-data.ts:437-448 | the escalation text shown (45%, 25%, 5%) is the number in `EscalationRateValue` followed by '%' |
| Templates.PriorityObject | lib/cart-data.ts:440-451 | the row object matches the priority row; `PercentageValue` is the share rounded to one decimal, and `EscalationRateValue` is the level's assumed rate |
| Templates.PriorityTable | lib/cart-data.ts:432-452 | one consistent row per entry, whose first two cells are the entry's key and count |
| Templates.PriorityReport | lib/cart-data.ts:413-456 | rows follow the sorted breakdown; chart rows repeat the table's first two cells; standard KPIs |
| Templates.Goals | lib/cart-data.ts:488-513 | each metric is met exactly when FCR ≥ 80, resolution ≥ 95, handle time ≤ 12 and satisfaction ≥ 4 respectively |
| Templates.GoalObject | lib/cart-data.ts:514-551 | the row object matches the metric row and carries value, target and a 1/0 status |
| Templates.GoalTable | lib/cart-data.ts:485-552 | a row shows "✅ Good" exactly when its goal is met, and its `StatusValue` is 1 exactly then |
| Templates.PerformanceReport | lib/cart-data.ts:459-556 | four rows, each marked good exactly when the snapshot meets that metric's target; standard KPIs |
| Templates.AgentObject | lib/cart-data.ts:648-665 | the row object matches the agent row and carries the resolution, FCR and satisfaction rates as numbers |
| Templates.MaxOf | lib/cart-data.ts:707 | `Math.max` over the rates returns one of them, and none is larger |
| Templates.AgentTable | lib/cart-data.ts:683-706 | one consistent row per agent entry, in fold order |
| Templates.AgentBars | lib/cart-data.ts:671-674 | one `[name, total calls]` bar per agent, in order |
| Templates.AgentReport | lib/cart-data.ts:613-711 | one table row per distinct agent in the records; standard KPIs |
| Templates.CallObject | lib/cart-data.ts:760-776 | the row object matches the call row; a missing duration or score reads 0; FCR reads 1 or 0; the notes are carried |
| Templates.CallTable | lib/cart-data.ts:736-777 | one consistent row per call, in record order |
| Templates.StatusGrid | lib/cart-data.ts:723-728 | the status chart is a rectangular header plus three bars |
| Templates.CallRecordReport | lib/cart-data.ts:713-781 | one row and row object per call, in order; standard KPIs |
| Templates.OverviewObject | lib/cart-data.ts:815-852 | the row object matches the metric row and carries `ValueNumber` |
| Templates.OverviewTable | lib/cart-data.ts:802-853 | one consistent row per figure, whose row object carries the figure's number |
| Templates.OverviewReport | lib/cart-data.ts:783-857 | the fall-through branch has eight consistent table rows, a rectangular five-row chart and the standard KPIs |
| Templates.OverviewCountsAgree | lib/cart-data.ts:788-809 | the overview chart's four bars show the counts of the table's first four rows, headed by the number of calls |
| Templates.OverviewRatesCarried | lib/cart-data.ts:832-851 | the overview's row objects carry the snapshot's four rates as `ValueNumber` |
| Templates.Dispatch | lib/cart-data.ts:259-857 | every branch yields a rectangular chart and a consistent table; every branch but the test branch yields the standard KPIs |
| Templates.SnapshotAnswer | lib/cart-data.ts:259-611 | the six snapshot branches give a rectangular chart, a consistent table and the standard KPIs; the trends branch gives the hard-coded narrative |
| Templates.TrendsAnswer | lib/cart-data.ts:558-611 | a query routed to the trends branch is answered with the hard-coded narrative, whatever the records say |
| Templates.Generate | lib/cart-data.ts:255-857 | for any query, the response's chart and table are well formed, and outside the test branch the first KPI is the number of calls |
| Intent.Route | lib/cart-data.ts:259-717 | any branch other than the overview is chosen only when one of its keywords occurs in the lower-cased query |
| Intent.RouteIsFirstMatch | lib/cart-data.ts:259-717 | no earlier branch matches the routed query, and the overview is chosen exactly when no branch matches |
| Intent.RouteNoLaterThanMatch | lib/cart-data.ts:259-717 | a matching branch is either chosen or shadowed by an earlier branch |
| Intent.RouteCaseInsensitive | lib/cart-data.ts:259 | a query and its lower-cased form route alike |
| Intent.AgentPerformanceShadowed | lib/cart-data.ts:459-616 | a query containing "agent performance" never reaches the agent branch, because "performance" is caught earlier |
| Intent.CategoryBreakdownGoesToDepartments | lib/cart-data.ts:321-372 | a query containing "category breakdown" routes to the department branch, because "breakdown" is caught first |
| Intent.DepartmentQuery | lib/cart-data.ts:321-325 | a query holding a department keyword and not "test table" routes to the department branch |
| Intent.TestChatQueryRoute | app/api/test-chat/route.ts:8-9 | the smoke-test query "Show me department breakdown" routes to the department branch |
| Trends.SlotObject | lib/cart-data.ts:599-605 | the slot's row object matches its row and carries the resolution rate |
| Trends.BestRate | lib/cart-data.ts:607 | the first slot with the highest resolution rate |
| Trends.LowestVolume | lib/cart-data.ts:607 | the first slot with the fewest incoming calls |
| Trends.BestRateIs | lib/cart-data.ts:607 | a slot whose rate beats every other is the one chosen as best |
| Trends.LowestVolumeIs | lib/cart-data.ts:607 | a slot quieter than every other is the one chosen as lowest |
| Trends.SlotRates | lib/cart-data.ts:565-574 | 4 PM resolves 90% of its calls and every other hard-coded slot less |
| Trends.PeakHoursHold | lib/cart-data.ts:565-607 | the narrative's peak hours, 12 PM and 1 PM, do carry the two largest volumes |
| Trends.TimeNarrativeMisreports | lib/cart-data.ts:565-607 | the narrative as written names 11 AM as the best rate and 4 PM as the lowest volume; 4 PM's rate is higher and 9 AM is quieter |
| Trends.NamesRightSlots | lib/cart-data.ts:565-607 | over the hard-coded slots, the corrected narrative picks 4 PM as the best rate and 9 AM as the lowest volume |
| Trends.TimeNarrativeNamesRightSlots | lib/cart-data.ts:565-607 | the corrected narrative names "4 PM" and "9 AM" |
| Trends.TimeNarrative | lib/cart-data.ts:565-607 | the corrected narrative opens with the fixed heading and the best-rate lead-in |
| Trends.TimeNarrativeNames | lib/cart-data.ts:565-607 | when one slot has the best rate and one the fewest calls, the corrected narrative names those two, with the best slot's rate |
| Trends.SlotLines | lib/cart-data.ts:580 | one `[hour, incoming, resolved]` chart row per slot |
| Trends.SlotTable | lib/cart-data.ts:590-606 | one consistent row per slot; its first three cells are the chart row, and the row object carries the rate |
| Trends.TimeReport | lib/cart-data.ts:559-611 | table rows and chart rows line up slot by slot, and the narrative is the hard-coded text |
| Trends.CorrectedTextDiffers | lib/cart-data.ts:565-607 | the narrative read off the slots differs from the hard-coded one: its best-rate hour starts with '4' where the text has "11 AM" |
| Fixture.SampleFields | lib/cart-data.ts:35-149 | the six sample calls' statuses, FCR flags, durations and scores |
| Fixture.StatusCounts | lib/cart-data.ts:178-192 | the sample has 3 resolved, 1 escalated, 1 in progress and 4 first-call resolutions |
| Fixture.ValueSums | lib/cart-data.ts:185-201 | the sample's five durations sum to 93 and five scores to 20 |
| Fixture.SampleAnalytics | lib/cart-data.ts:177-240 | the sample's snapshot: 6 calls, 50% resolved, 16.67% escalated, 66.67% FCR, 18.6 minutes, 4.0 satisfaction |
| Fixture.SampleDepartmentNames | lib/cart-data.ts:35-149 | the sample's departments, in record order |
| Fixture.TallyPattern | lib/cart-data.ts:211-217 | tallying a, b, c, a, d, b gives a:2, b:2, c:1, d:1 in first-seen order |
| Fixture.SampleDepartmentTally | lib/cart-data.ts:211-217 | the sample's department breakdown is Technical Support 2, Billing 2, Sales 1, Customer Service 1 |
| Fixture.SampleDepartmentOrder | lib/cart-data.ts:326-328 | sorting that breakdown by count leaves it in that order |
| DataTable.HandleSort | components/UI/data-table.tsx:121-132 | the sort key becomes the clicked column, and a new column starts ascending |
| DataTable.HandleSortCycles | components/UI/data-table.tsx:123-127 | clicking the same column cycles through three distinct directions and returns to the start after three clicks |
| DataTable.SetFilter | components/UI/data-table.tsx:135-138 | setting a column filter never shortens the filter list |
| DataTable.SetFilterColumns | components/UI/data-table.tsx:135-138 | the spread keeps the column order and appends a new column at the end |
| DataTable.SetFilterValues | components/UI/data-table.tsx:135-138 | the column reads the new value and every other column is unchanged |
| DataTable.HandleColumnFilter | components/UI/data-table.tsx:134-139 | "all" clears the column's filter, any other value sets it; other columns, the global filter and the sort are unchanged |
| DataTable.ClearFilters | components/UI/data-table.tsx:141-145 | every filter reads empty and the sort is reset |
| DataTable.ActiveFiltersCount | components/UI/data-table.tsx:160-161 | the badge is 0 exactly when the global filter and every column filter are empty |
| DataTable.ZeroSetFilters | components/UI/data-table.tsx:160-161 | no column filter counts exactly when all are empty |
| DataTable.SetFiltersClear | components/UI/data-table.tsx:134-161 | clearing a set column filter lowers the count by one; clearing an empty one leaves it |
| DataTable.SetFilterDistinct | components/UI/data-table.tsx:135-138 | filter columns stay distinct |
| DataTable.SortBy | components/UI/data-table.tsx:68-89 | the sorted rows are a permutation of the rows |
| DataTable.InsertByKeepsRank | components/UI/data-table.tsx:68-89 | for a total-preorder comparator, insertion puts the element in front of the elements it ties with and keeps their order |
| DataTable.SortByStable | components/UI/data-table.tsx:68-89 | for a total-preorder comparator, rows that tie keep their relative order (the sort is stable) |
| DataTable.InsertBySorted | components/UI/data-table.tsx:68-89 | inserting into a sorted list keeps it sorted |
| DataTable.SortBySorted | components/UI/data-table.tsx:68-89 | for a total-preorder comparator, the result is in comparator order |
| DataTable.SortedCons | components/UI/data-table.tsx:68-89 | an element that precedes a sorted list's head, or all of it, may be put in front |
| DataTable.InsertByAbove | components/UI/data-table.tsx:68-89 | an element preceding `x` and every element of a list precedes every element of the insertion |
| DataTable.SameRankFlip | components/UI/data-table.tsx:74-88 | swapping the comparator's arguments does not change which rows tie |
| DataTable.SortedData | components/UI/data-table.tsx:65-90 | no key or no direction leaves the rows as they are; otherwise they are permuted |
| DataTable.SortedDataOrder | components/UI/data-table.tsx:65-90 | with a total-preorder comparator, an ascending sort runs in comparator order and a descending one in reverse; tied rows keep their data order |
| DataTable.ApplyColumnFilters | components/UI/data-table.tsx:107-116 | a row survives exactly when every set column filter matches it, in the original order |
| DataTable.CellString | components/UI/data-table.tsx:100-113 | `String(row[column] \|\| '')`: a missing cell and the number 0 read as '', text reads as itself, other numbers as their rendering |
| DataTable.MatchesGlobal | components/UI/data-table.tsx:96-104 | an empty query matches exactly when there is a header; a row matching any other query has a cell under some header |
| DataTable.MatchesColumns | components/UI/data-table.tsx:107-116 | a row passing the column filters has a cell in every column with a set filter |
| DataTable.FilteredData | components/UI/data-table.tsx:93-119 | a row is shown exactly when it passes the global and column filters, in the sorted order |
| DataTable.ColumnFiltersCount | components/UI/data-table.tsx:107-116 | each row that matches every set column filter is kept as often as it occurs; no other row is kept |
| DataTable.FilteredCount | components/UI/data-table.tsx:93-119 | each row the state keeps appears as often as in the sorted rows; no other row appears |
| DataTable.ClearedKeepsAll | components/UI/data-table.tsx:141-145 | after clearing, every row passes the filters |
| Strings.CodeUnits | components/UI/data-table.tsx:61 | a character below U+10000 is one code unit, itself, and never a surrogate; any other character is a high surrogate followed by a low surrogate |
| Strings.DecodeCodeUnits | components/UI/data-table.tsx:61 | the head of an encoding decodes back to its first character, and to the number of units it takes |
| Strings.Utf16Injective | components/UI/data-table.tsx:61 | two strings with the same UTF-16 code units are the same string |
| DataTable.SupplementaryBeforeFullwidth | components/UI/data-table.tsx:61 | `sort()` puts U+1F600 (units D83D DE00) before U+FF01, although its code point is larger |
| DataTable.BeforeIrreflexive | components/UI/data-table.tsx:61 | the default string order is irreflexive |
| DataTable.BeforeTotal | components/UI/data-table.tsx:61 | the default string order is total: of two different strings, one comes first |
| DataTable.BeforeTransitive | components/UI/data-table.tsx:61 | the default string order is transitive |
| DataTable.InsertUnique | components/UI/data-table.tsx:61 | inserting into a strictly sorted list keeps it strictly sorted and adds exactly the value |
| DataTable.SortedUnique | components/UI/data-table.tsx:60-61 | the result is strictly sorted by UTF-16 code units, as `sort()` orders strings, and holds exactly the non-empty values |
| DataTable.GetUniqueValues | components/UI/data-table.tsx:59-62 | the dropdown values are sorted by UTF-16 code units, distinct and non-empty, and are exactly the non-empty cell strings of the column |
| OpenRouter.WaitForRateLimit | lib/openrouter.ts:33-42 | after the wait, at least 2000 ms have passed since the last request; there is no wait exactly when 2000 ms had already passed, and otherwise the wait ends exactly at the interval |
| OpenRouter.Classify | lib/openrouter.ts:53-85 | success exactly on a 2xx answer, a retryable rate limit exactly on 429, and the credit and key errors exactly on 402 and 401 |
| OpenRouter.RateLimitWait | lib/openrouter.ts:55-59 | a retry-after header gives its seconds in ms; otherwise the wait lies in [2000, 30000] |
| OpenRouter.BackoffWait | lib/openrouter.ts:89 | the back-off after a failure lies in [1000, 10000] |
| OpenRouter.Attempts | lib/openrouter.ts:51-95 | at most `retries` fetches; a success is the first accepted attempt and every earlier attempt was rejected; each fetch but the last is followed by a wait, and so is the last when the attempts run out |
| OpenRouter.FirstOkReturned | lib/openrouter.ts:51-85 | the first accepted attempt is the one returned |
| OpenRouter.FailuresOnlyAtLastAttempt | lib/openrouter.ts:86-87 | an error other than "max retries" surfaces only from the last attempt, and it is that attempt's error |
| OpenRouter.AllRateLimited | lib/openrouter.ts:55-66 | when every attempt is rate limited, all attempts are made and the loop ends with "max retries exceeded" |
| OpenRouter.WaitsBounded | lib/openrouter.ts:55-91 | without retry-after headers, every wait lies in [1000, 30000] |
| OpenRouter.MakeRequestWithRetry | lib/openrouter.ts:44-96 | the throttle precedes the loop, at most `retries` fetches are made, and a success is an accepted answer |
| OpenRouter.CreateCartAnalysisPrompt | lib/openrouter.ts:152-178 | a system prompt then a user message that contains both the cart JSON and the question |
| Chat.AddMessage | hooks/useChat.ts:24-27 | the message is appended and the earlier ones are unchanged |
| Chat.StartStream | hooks/useChat.ts:88-117 | the user's message and then an empty bot message are appended; each carries its own clock reading, in its id and its timestamp |
| Chat.ShowProgressAsWritten | hooks/useChat.ts:137-140 | the update rebuilds the list from the messages captured before the two appends |
| Chat.ShowProgress | hooks/useChat.ts:137-140 | the update replaces only the last message, by the placeholder holding the trimmed content |
| Chat.ShowProgressKeepsConversation | hooks/useChat.ts:88-140 | after the corrected update, the earlier messages and the user's message remain, and the bot message shows the trimmed content |
| Chat.ShowProgressLosesMessages | hooks/useChat.ts:88-140 | after the update as written, both the user's new message and an earlier message are gone |
| Chat.Escape | app/api/chat/stream/route.ts:20 | an escaped character never contains a line break |
| Chat.EncodeWord | app/api/chat/stream/route.ts:20 | `JSON.stringify({ word })` is a one-line object text |
| Chat.Frames | app/api/chat/stream/route.ts:18-27 | one `data:` frame per word, in order, then the `[DONE]` frame |
| Chat.Post | app/api/chat/stream/route.ts:3-8 | a missing or empty message gets status 400 "Message is required", and only then |
| Chat.PostAnswers | app/api/chat/stream/route.ts:3-28 | a non-empty message is answered with one frame per word of the reply, then `[DONE]` |
| Chat.Words | app/api/chat/stream/route.ts:15 | the reply split at spaces: at least one word, no word holds a space, and joined with spaces they give the reply |
| Chat.ReadLines | hooks/useChat.ts:123-146 | the reader takes at most one word per line |
| Chat.ReadChunks | hooks/useChat.ts:119-147 | no chunks give no words, and every word read is one `wordOf` yields for some payload |
| Chat.Content | hooks/useChat.ts:134 | each word is followed by a space, so the content is empty exactly when there are no words and otherwise ends with a space |
| Chat.Shown | hooks/useChat.ts:137-140 | the text shown neither starts nor ends with whitespace |
| Chat.OnlyDataLines | hooks/useChat.ts:126-127 | lines without the `data: ` prefix are ignored |
| Chat.DoneStopsReading | hooks/useChat.ts:129 | nothing after the `[DONE]` frame is read |
| Chat.ContentIsJoin | hooks/useChat.ts:134 | the accumulated content is the words joined by spaces, plus a trailing space |
| Chat.FramesReadBack | hooks/useChat.ts:119-147 | reading the frames of a word list gives back exactly its non-empty words |
| Chat.WordsEnds | app/api/chat/stream/route.ts:15 | the reply's first word is "Here's" and its last word ends with '.' |
| Chat.ShowsJoinedWords | hooks/useChat.ts:133-139 | the trimmed content shown is the non-empty words joined by spaces |
| Chat.StreamRoundTrip | app/api/chat/stream/route.ts:12-28 | what the client reads from the route's frames is the reply's non-empty words, shown joined by single spaces |
| Chat.FramesRoundTrip | hooks/useChat.ts:119-147 | reading any framed word list with visible ends gives back its non-empty words, shown joined |
| DashboardBuilder.InitialSynced | hooks/useDashboardBuilder.ts:17-20 | the initial store shows the layout under its cursor |
| DashboardBuilder.SetLayout | hooks/useDashboardBuilder.ts:21 | only the shown layout changes |
| DashboardBuilder.Push | hooks/useDashboardBuilder.ts:22-31 | the history up to the cursor is kept, the layout is appended and shown, and the cursor points at it |
| DashboardBuilder.Undo | hooks/useDashboardBuilder.ts:32-41 | with something to undo the cursor steps back and shows that layout; otherwise nothing changes |
| DashboardBuilder.Redo | hooks/useDashboardBuilder.ts:42-51 | with something to redo the cursor steps forward and shows that layout; otherwise nothing changes |
| DashboardBuilder.PushDropsRedo | hooks/useDashboardBuilder.ts:22-31 | after a push nothing can be redone, and from a valid cursor something can be undone |
| DashboardBuilder.RedoUndo | hooks/useDashboardBuilder.ts:32-51 | undo then redo restores the store |
| DashboardBuilder.UndoRedo | hooks/useDashboardBuilder.ts:32-51 | redo then undo restores the store |
| DashboardBuilder.StepsKeepSynced | hooks/useDashboardBuilder.ts:32-51 | undo and redo keep the shown layout the one under the cursor |
| DashboardBuilder.BelowIsFree | hooks/useDashboardBuilder.ts:88-100 | below the lowest item no position collides, so the search ends |
| DashboardBuilder.Place | hooks/useDashboardBuilder.ts:83-113 | the position found overlaps no item and is the first free one in scan order |
| DashboardBuilder.AddWidget | hooks/useDashboardBuilder.ts:74-118 | a 4×3 widget is appended at a free position, the other items are unchanged, and the layout is pushed |
| DashboardBuilder.RemoveWidget | hooks/useDashboardBuilder.ts:120-124 | exactly the items of other ids remain, in order, and the layout is pushed |
| DashboardBuilder.RemoveWidgetCount | hooks/useDashboardBuilder.ts:120-124 | each item of another id remains as often as the layout held it; no item of the removed id remains |
| AnalyticsHistory.Stamp | contexts/AnalyticsContext.tsx:50-57 | the entry carries the reply's fields and the query |
| AnalyticsHistory.Others | contexts/AnalyticsContext.tsx:65 | exactly the entries for other queries, in order |
| AnalyticsHistory.OthersCount | contexts/AnalyticsContext.tsx:65 | each entry of another query is kept as often as the history holds it; no entry of the query is kept |
| AnalyticsHistory.UpdateAnalytics | contexts/AnalyticsContext.tsx:49-69 | the reply becomes current; a visual reply goes to the front, followed by the first entries of the other queries in order, for at most 10 entries in all; a reply without visuals leaves the history alone |
| AnalyticsHistory.UpdateKeepsOrder | contexts/AnalyticsContext.tsx:62-67 | behind the new entry, only entries of other queries, in their earlier order, and at most 10 entries in all |
| AnalyticsHistory.UpdateKeepsOthers | contexts/AnalyticsContext.tsx:62-67 | below the cap, every entry for another query is kept |
| AnalyticsHistory.OthersDistinct | contexts/AnalyticsContext.tsx:65 | removing a query keeps queries distinct |
| AnalyticsHistory.UpdateKeepsDistinct | contexts/AnalyticsContext.tsx:49-69 | the history never holds two entries for one query |
| AnalyticsHistory.SelectAnalytics | contexts/AnalyticsContext.tsx:71-73 | the chosen entry becomes current and the history is unchanged |
| SimpleAuth.EmailName | lib/simple-auth.ts:25 | `email.split('@')[0]` is the '@'-free prefix of the email up to its first '@' |
| SimpleAuth.SignIn | lib/simple-auth.ts:15-29 | an empty email or password fails with "Email and password are required", and only that; otherwise user "1" named after the email |
| SimpleAuth.SignUp | lib/simple-auth.ts:31-53 | missing fields fail first, then a password under 8 UTF-16 code units; success exactly otherwise, with the clock as id and the given name or the email's name |
| SimpleAuth.SurrogatePairsCount | lib/simple-auth.ts:41-43 | four characters above U+FFFF pass the 8-unit length check, and four plain letters fail it |
| Charts.Assign | lib/charts.ts:54 | `Object.assign({}, t)` copies an object's fields, an array's elements under index keys, and nothing from a primitive |
| Charts.MergeDeepAsWritten | lib/charts.ts:53-68 | the merge as written: both objects' keys are kept, target-only keys are unchanged, and non-object source values win |
| Charts.MergeDeep | lib/charts.ts:53-68 | the corrected merge: the same key and value rules, with an object source value replacing a non-object target value |
| Charts.MergeDeepCovers | lib/charts.ts:53-68 | merging into an object keeps every source value, recursively |
| Charts.MergeDeepUnits | lib/charts.ts:53-68 | for the merge as written and the corrected one, merging an empty object changes nothing, and merging into an empty object gives the source |
| Charts.AsWrittenAgrees | lib/charts.ts:53-68 | when no object source value lands on a non-object target value, at any depth, the merge as written equals the corrected merge |
| Charts.AsWrittenCovers | lib/charts.ts:53-68 | under that condition, the merge as written keeps every source value |
| Charts.MergeDeepDropsSource | lib/charts.ts:53-68 | as written, merging `{a: {b: 1}}` over `{a: 1}` gives `{a: {}}` and drops the source; the corrected merge gives the source |
| Charts.BaseOptions | lib/charts.ts:4-47 | the base options hold the theme's five-colour palette |
| Charts.GetChartOptions | lib/charts.ts:1-51 | built on the merge as written: base keys absent from the custom options are kept; when no custom object lands on a non-object base value, every custom value is kept; without custom colours the theme palette is used |
| Charts.GetChartOptionsIntended | lib/charts.ts:1-51 | built on the corrected merge, every custom value is kept, and it agrees with `GetChartOptions` whenever the condition above holds |
| Charts.FontSizeObjectLost | lib/charts.ts:1-68 | `getChartOptions(theme, {fontSize: {a: 1}})` gives `fontSize: {}` and loses the custom value; the corrected version keeps it |
| Charts.ThemePalette | lib/charts.ts:38-40 | without custom colours, the dark palette is used exactly for the dark theme |
| Strings.Lower | lib/cart-data.ts:259 | lower-casing keeps the length and maps each character |
| Strings.LowerIdempotent | lib/cart-data.ts:259 | lower-casing twice is lower-casing once |
| Strings.Split | hooks/useChat.ts:124 | `split` gives at least one piece, and no piece holds the separator |
| Strings.Trim | hooks/useChat.ts:139 | `trim` keeps a slice of the string: everything before and after it is whitespace, and the slice neither starts nor ends with whitespace |
| Strings.JoinSplit | hooks/useChat.ts:124 | joining the pieces of a split with the separator restores the string |
| Strings.SplitAtSeparator | app/api/chat/stream/route.ts:15 | splitting at a separator splits the two sides independently |
| Strings.TrimPadded | hooks/useChat.ts:134-139 | trimming a visible text plus one trailing space gives the text |
| Seqs.IndexOf | lib/cart-data.ts:203-225 | the position of a value's first occurrence: it holds the value and no earlier position does |
| Seqs.Dedup | lib/cart-data.ts:203-225 | first-occurrence deduplication keeps exactly the values, once each, in order of first occurrence |
| Seqs.Filter | components/UI/data-table.tsx:98-114 | `filter` keeps exactly the elements that pass, in order |
| Seqs.FilterCount | components/UI/data-table.tsx:98-114 | `filter` keeps each passing element as often as the input holds it and drops every other one |

## Left out

- Rendering: the JSX, icons, pagination of the table view, and the chart components.
- Chart `options` of each report are left out; only their data grids are modelled.
- `toLocaleString` of the start and end times in the call-record row objects is left out, because it depends on the runtime locale.
- Floating point is left out: rates and averages are exact reals. `toFixed(1)` rounds half away from zero on the exact value, so binary rounding artefacts are not modelled.
- `Date.now()`, `new Date().toISOString()`, `setTimeout` and `setInterval` are parameters or left out. The 100 ms pacing of the stream and the 500 ms debounce of `onLayoutChange` are left out, so `onLayoutChange` reduces to `SetLayout` followed by `Push`.
- The network is left out. `fetch` is a function from attempt number to outcome. The response body, headers other than `retry-after`, and the `console.log` calls are left out.
- OpenRouter.RateLimitWait: a `retry-after` header that does not parse gives `NaN` in the source; the model takes the header as an integer already parsed.
- `createChatCompletion` and `createStreamingCompletion` are left out: they only build a request and pass its body through.
- `JSON.stringify(cartData, null, 2)` is left out: the cart JSON is a string parameter of the prompt.
- The stream reader treats every frame as one `reader.read()` chunk. Frames split across chunks, and `TextDecoder`, are left out.
- The reader's `JSON.parse` is the abstract `wordOf`. It is assumed to invert the model's encoder, which escapes quote, backslash and control characters. Unicode escapes beyond those are left out.
- Chat.Post: only string messages are modelled. A non-string truthy `message` is interpolated with `String()` in the source.
- Chat.Post: its own contract covers the 400 path only. The frames it returns for a non-empty message are stated by Chat.PostAnswers.
- The history query of `useChat` and the `sendMessage` mutation are left out. They are network calls whose only state change is `addMessage`, which is modelled.
- The fallback to `sendMessage` when streaming throws is also left out.
- `saveDashboard` and `exportDashboard` are left out: they only serialise the layout to the network or a download link.
- `signOut`, `getSession` and `setSession` are left out: they only touch `localStorage`.
- Strings.Lower: lower-cases ASCII letters only. Unicode case mapping is left out.
- DataTable.SortedData: the `parseFloat`/`localeCompare` comparator is a parameter. Order and stability are proved only for comparators that are total preorders. Mixed numeric and text cells can make the source's comparator inconsistent; for such a comparator JavaScript leaves the order to the implementation, and the model promises only a permutation.
- `Array.prototype.sort` is modelled as a stable insertion sort, as JavaScript requires of it.
- CallRecords.CallRecord: `duration`, `resolutionTime` and `customerSatisfaction` are `number` in the source. The model holds them as whole numbers (`nat`), which is what every record in the data carries. Fractional or negative values are not modelled.
- Strings holding lone surrogates are left out: a string is a sequence of Unicode scalar values, so the dropdown order and the password length see well-formed UTF-16 only.
- Agents.AgentFold, Templates.AgentTable and Analytics.BreakdownKeys: JavaScript enumerates integer-like property keys (such as "7") first, in ascending order, and the other keys in insertion order. The model keeps insertion order for every key. This covers the breakdown keys, and the agent ids read back with `Object.values` (lib/cart-data.ts:648). Integer-like agent ids, departments, categories and priorities are not modelled; the data's ids are of the form "agent_001".
- Inherited property names are left out. The tallies' `acc[key] || 0` (lib/cart-data.ts:205-224), the agent fold's `!acc[call.agentId]` (lib/cart-data.ts:620) and `mergeDeep`'s `key in target` (lib/charts.ts:58) also see `Object.prototype` names such as "constructor" and "toString". Keys, agent ids and option keys with such names are not modelled.
- `generateChartAndTableData` takes a precomputed snapshot; the model computes `Analyze(rs)` from the same records the agent and call-record branches read.
- Analytics.Analyze: requires at least one record. The three rates divide by the record count without a guard, and an empty list gives `NaN`.
- The `/api/cart-data` route and the other API routes are not part of this model.

## Findings

| source | as written | input that shows it | evidently intended | confidence | as-written member | corrected member |
|---|---|---|---|---|---|---|
| lib/cart-data.ts:607 | the trends narrative, which the report returns as written, hard-codes "Best resolution rate: 11 AM (85.7%)" and "Lowest volume: 4 PM" | the hourly slots beside it: 4 PM resolves 18/20 = 90% > 24/28 ≈ 85.7%, and 9 AM has 15 calls < 20 | name the best-rate and lowest-volume slots read off the data: 4 PM and 9 AM | high, not executed | Trends.TimeNarrativeMisreports | Trends.TimeNarrativeNamesRightSlots |
| lib/charts.ts:57-61 | an object source value over an existing non-object target value recurses into `mergeDeep(target[key], source[key])`, which returns `Object.assign({}, primitive)` = `{}` | `mergeDeep({a: 1}, {a: {b: 1}})` gives `{a: {}}` | the source object replaces the primitive: `{a: {b: 1}}` | high, not executed | Charts.MergeDeepDropsSource, Charts.FontSizeObjectLost | Charts.MergeDeepCovers, Charts.GetChartOptionsIntended |
| hooks/useChat.ts:137-140 | the progress update rebuilds the list from `messages` as captured when the hook rendered, before the user message and the placeholder were appended | one earlier message m, then a streamed word: the list becomes just the placeholder, losing m and the user's message | replace only the placeholder in the current list | high, not executed | Chat.ShowProgressLosesMessages | Chat.ShowProgressKeepsConversation |
