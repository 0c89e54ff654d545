# Firefly III dashboard: a Dafny model of its core calculations

This project models the Python dashboard that sits beside a Firefly III
personal-finance server. It covers:

- **the API client's flattening**: account and transaction records from the
  Firefly III JSON API become table rows. A missing key takes its default; an
  explicit `null` stays null or raises.
- **the financial calculations**:
  - net worth per currency;
  - spending per category and income per source over a date window;
  - the savings rate;
  - a two-period comparison;
  - the month, quarter and year windows.
- **the two Sankey builders** for the five-layer cash-flow diagram (income
  sources → total income → remaining / total expenses → destination accounts →
  categories):
  - the D3 data (nodes, an index map, links);
  - the Plotly figure data (labels, parallel link lists, colours, positions).
  Both share one top-N-plus-"Other" preparation (`SankeyInputs`).
- **the import-configuration validator**: column counts against the Data
  Importer's `roles` list, and the normalised column list.
- **the CSV preprocessor page**: bank detection, the two Revolut row filters,
  the counts it reports, and the output file name.

The model follows the code's own structure:

- Pure code becomes functions.
- Code that appends in loops becomes methods with loop invariants: the record
  flattening, the node/link building, the placeholder padding and the label
  positions.
- The API client is a class whose constructor sets its fields.
- pandas tables are sequences of rows and money is `real`.
- pandas operations get explicit definitions in `Tables`:
  - `groupby` is one group per distinct key, keys in ascending order;
  - `sort_values` / `nlargest` are a stable descending sort.
- "Today", the file system and the parsed JSON configuration are parameters.

## Model

| member | source | states |
|---|---|---|
| Strings.DecimalString | pythondashboard/import_config_validator.py:157 | `str(n)` is non-empty, all decimal digits, with no leading zero |
| Strings.DecimalRoundTrip | pythondashboard/import_config_validator.py:157 | reading the digits of `str(n)` back gives n |
| Strings.DecimalStringInjective | pythondashboard/import_config_validator.py:157 | different numbers render as different strings |
| Strings.Join | pythondashboard/import_config_validator.py:162 | joining no parts gives "", joining one part gives that part unseparated |
| Strings.StrLessIrreflexive | pythondashboard/utils/calculations.py:122-124 | the string order by which group keys are sorted is irreflexive |
| Strings.StrLessTransitive | pythondashboard/utils/calculations.py:122-124 | the group-key order is transitive |
| Strings.StrLessTotal | pythondashboard/utils/calculations.py:122-124 | any two different keys are ordered one way or the other |
| Strings.StrLessAsymmetric | pythondashboard/utils/calculations.py:122-124 | no two keys are ordered both ways |
| Tables.SumByAppend | pythondashboard/utils/d3_sankey_helper.py:80-81 | a column sum over two tables laid end to end is the sum of their sums |
| Tables.InsertDesc | pythondashboard/utils/calculations.py:129 | inserting into the sorted list adds exactly that one row |
| Tables.SortDesc | pythondashboard/utils/calculations.py:129 | `sort_values(ascending=False)` keeps the length and the multiset of rows |
| Tables.InsertDescBounded | pythondashboard/utils/calculations.py:129 | insertion brings in no key above a common bound |
| Tables.InsertDescSorted | pythondashboard/utils/calculations.py:129 | insertion keeps a descending list descending |
| Tables.SortDescSorted | pythondashboard/utils/calculations.py:129 | the sorted table is in descending order of the key |
| Tables.InsertDescSum | pythondashboard/utils/calculations.py:129 | insertion adds the row's value to any column sum |
| Tables.SortDescSum | pythondashboard/utils/calculations.py:129 | sorting changes no column sum |
| Tables.SortDescOfSorted | pythondashboard/utils/d3_sankey_helper.py:45 | a table already in descending order is returned as it is |
| Tables.InsertDescDistinct | pythondashboard/utils/calculations.py:129 | insertion of a new name keeps names distinct |
| Tables.SortDescDistinct | pythondashboard/utils/calculations.py:129 | sorting keeps distinct group names distinct |
| Tables.InsertName | pythondashboard/utils/calculations.py:122 | adding a key to the key list adds exactly that key |
| Tables.InsertNameIncreasing | pythondashboard/utils/calculations.py:122 | the key list stays strictly ascending |
| Tables.SortedNames | pythondashboard/utils/calculations.py:122 | the group keys are exactly the names occurring in the rows |
| Tables.SortedNamesIncreasing | pythondashboard/utils/calculations.py:122 | the group keys come out strictly ascending |
| Tables.IncreasingIsDistinct | pythondashboard/utils/calculations.py:122 | ascending keys are distinct |
| Tables.CountForPositive | pythondashboard/utils/calculations.py:123 | every key that occurs has a count of at least one |
| Tables.GroupsFor | pythondashboard/utils/calculations.py:122-126 | group i holds key i, the sum of its rows' amounts and their number |
| Tables.GroupsStep | pythondashboard/utils/calculations.py:122-126 | one more row adds its amount and 1 to exactly its key's group |
| Tables.GroupsConserve | pythondashboard/utils/calculations.py:122-126 | group totals add up to the column sum and counts to the row count |
| Tables.GroupsOfNothing | pythondashboard/utils/calculations.py:122-126 | groups over no rows sum to zero |
| Tables.GroupByProperties | pythondashboard/utils/calculations.py:122-126 | one group per distinct name, in ascending order, each with its rows' sum and count (≥ 1); totals and counts add up to the column sum and row count |
| Tables.Names | pythondashboard/utils/d3_sankey_helper.py:201-202 | the name column of a grouped table, position by position |
| Tables.SplitSorted | pythondashboard/utils/d3_sankey_helper.py:45-47 | cutting a descending list keeps the front descending and no smaller than the back; the parts hold the whole |
| Tables.LargestProperties | pythondashboard/utils/d3_sankey_helper.py:45 | `nlargest(n)` returns min(n, len) rows in descending order; none is smaller than a row it leaves out; kept and dropped rows together are the input |
| Tables.BucketProperties | pythondashboard/utils/d3_sankey_helper.py:44-53 | the top-n rows come first, in descending order; one "Other" row is added exactly when more than n rows were given and the rest sum to more than 0, and it holds that sum; then, or when nothing was dropped, the list total is the input total |
| Tables.BucketAsWrittenProperties | pythondashboard/utils/d3_sankey_helper.py:66-77 | as written, the "Other" row holds the sum of input positions n onward |
| Tables.BucketAsWrittenOnSortedInput | pythondashboard/utils/d3_sankey_helper.py:44-53 | on input already sorted descending, the code as written equals the corrected bucketing |
| Tables.BucketAsWrittenDoubleCounts | pythondashboard/utils/d3_sankey_helper.py:67-76 | on category totals in name order, the row as written counts the kept category twice and loses the dropped one |
| Calendar.DaysInMonth | pythondashboard/utils/calculations.py:317-319 | every month has 28 to 31 days; 29 exactly for February of a leap year |
| Calendar.Replace | pythondashboard/utils/calculations.py:323-324 | `datetime.replace` succeeds exactly on an existing date, and gives that date |
| Calendar.PrevDay | pythondashboard/utils/calculations.py:327 | `d - timedelta(days=1)` is a valid, earlier date |
| Calendar.NextDay | pythondashboard/utils/calculations.py:319 | `d + timedelta(days=1)` is a valid, later date |
| Calendar.NextDayUndoesPrevDay | pythondashboard/utils/calculations.py:327 | stepping back then forward returns the date |
| Calendar.PrevDayUndoesNextDay | pythondashboard/utils/calculations.py:319 | stepping forward then back returns the date |
| Calendar.DayBeforeFirst | pythondashboard/utils/calculations.py:319 | the day before the 1st is the last day of the month before (31 Dec for January) |
| ApiClient.RStripSlash | pythondashboard/utils/api_client.py:23 | `rstrip('/')` removes only trailing slashes, all of them |
| ApiClient.RStripSlashIdempotent | pythondashboard/utils/api_client.py:23 | stripping twice equals stripping once; a trailing slash on the input makes no difference |
| ApiClient.FireflyApiClient.constructor | pythondashboard/utils/api_client.py:15-29 | the base URL without trailing slashes, the token, and the three headers |
| ApiClient.FireflyApiClient.ParseAccountData | pythondashboard/utils/api_client.py:270-301 | one row per account in input order; otherwise the error of the first unreadable account |
| ApiClient.AccountRowOf | pythondashboard/utils/api_client.py:283-299 | defaults for absent keys ("EUR", 0, true, ""); null attributes or a null balance raise; explicit nulls otherwise stay null |
| ApiClient.FireflyApiClient.ParseTransactionData | pythondashboard/utils/api_client.py:303-336 | the result is the table of all splits, in order, or the first error |
| ApiClient.SplitsOf | pythondashboard/utils/api_client.py:316-319 | absent attributes or an absent split list give no splits; null ones raise |
| ApiClient.SplitRow | pythondashboard/utils/api_client.py:321-334 | a split's row carries its group's id, its amount (0 when absent), "EUR" by default; a null amount raises |
| ApiClient.SplitRowsFailureSticks | pythondashboard/utils/api_client.py:321-334 | once a split fails, the whole list fails with that error |
| ApiClient.TransactionRowsFailureSticks | pythondashboard/utils/api_client.py:315-334 | once a group fails, the whole table fails with that error |
| ApiClient.TotalSplitsAppend | pythondashboard/utils/api_client.py:315-321 | the split count of one more group adds that group's splits |
| ApiClient.TotalSplitsPrefix | pythondashboard/utils/api_client.py:315-321 | the splits before group i plus group i's do not exceed the total |
| ApiClient.SplitRowsShape | pythondashboard/utils/api_client.py:321-334 | one row per split, row j being split j's |
| ApiClient.OneRowPerSplit | pythondashboard/utils/api_client.py:315-334 | the table has exactly one row per split; split j of group i is row (splits before i) + j, with group i's id |
| ApiClient.GroupWithoutSplitsAddsNothing | pythondashboard/utils/api_client.py:316-319 | a group without a split list adds no row |
| Calculations.BalanceForAppend | pythondashboard/utils/calculations.py:22-25 | one more account adds its balance to its own currency only when included |
| Calculations.BalanceForNone | pythondashboard/utils/calculations.py:22-25 | a currency no included account holds sums to 0 |
| Calculations.BalanceForAppendOthers | pythondashboard/utils/calculations.py:22-25 | one more account changes no other currency's sum |
| Calculations.NetWorth | pythondashboard/utils/calculations.py:11-27 | a currency is a key exactly when some included account holds it; its value is the sum of those balances |
| Calculations.Selected | pythondashboard/utils/calculations.py:100-115 | exactly the rows of the given type inside the window (a bound is midnight of its day; a missing date fails a bound) |
| Calculations.Labelled | pythondashboard/utils/calculations.py:117-119 | each row is labelled by its category (or source), in order |
| Calculations.SameGroups | pythondashboard/utils/calculations.py:129 | reordering groups changes neither the groups nor their names |
| Calculations.SummarizeIsSummary | pythondashboard/utils/calculations.py:121-129 | group-then-sort gives one group per name, sorted by total descending, with its rows' sum and count; nothing is lost |
| Calculations.LabelledNamesNonEmpty | pythondashboard/utils/calculations.py:117-119 | after the renaming no label is empty |
| Calculations.LabelsNeverEmpty | pythondashboard/utils/calculations.py:172-174 | no group of a summary is named "" |
| Calculations.CategorySpending | pythondashboard/utils/calculations.py:79-131 | the summary of the window's withdrawals by category ('Uncategorized' for none or ""); the counts add up to the number of withdrawals |
| Calculations.IncomeSources | pythondashboard/utils/calculations.py:134-186 | the summary of the window's deposits by source ('Unknown' for none or ""); the counts add up to the number of deposits |
| Calculations.SavingsRate | pythondashboard/utils/calculations.py:189-204 | 0 without positive income; otherwise rate × income = (income − expenses) × 100; negative exactly when expenses exceed income; at most 100 when expenses ≥ 0 |
| Calculations.Percent | pythondashboard/utils/calculations.py:273 | p × whole = part × 100 |
| Calculations.ChangePercentages | pythondashboard/utils/calculations.py:272-275 | each change as a percentage of its previous value; 0 for non-positive previous income/expenses and for a zero previous net |
| Calculations.PeriodComparison | pythondashboard/utils/calculations.py:207-298 | all zeros for an empty table; otherwise each window's deposit and withdrawal sums, net, the differences, and the percentages |
| Calculations.MonthRanges | pythondashboard/utils/calculations.py:313-327 | this whole calendar month and the whole month before; fails only in January of year 1 |
| Calculations.QuarterRanges | pythondashboard/utils/calculations.py:329-345 | this quarter up to today and the whole previous quarter (Q4 of last year for Q1) |
| Calculations.QuarterRangesAsWritten | pythondashboard/utils/calculations.py:329-345 | as written: raises in January to March, otherwise equals the corrected branch |
| Calculations.YearRanges | pythondashboard/utils/calculations.py:347-354 | this year up to today and the whole year before |
| Calculations.GetDateRanges | pythondashboard/utils/calculations.py:301-362 | an unknown period type raises ValueError |
| Calculations.GetDateRangesAsWritten | pythondashboard/utils/calculations.py:301-362 | identical to the corrected function except 'quarter' in January to March, where it raises |
| Calculations.DateRangesContiguous | pythondashboard/utils/calculations.py:313-354 | both windows are valid and non-empty; the previous ends the day before the current starts |
| Calculations.QuarterInFebruary | pythondashboard/utils/calculations.py:343-345 | on 2024-02-10 the code as written raises; the corrected one gives 2024-01-01..2024-02-10 and 2023-10-01..2023-12-31 |
| SankeyInputs.CategoryRows | pythondashboard/utils/d3_sankey_helper.py:67 | the (category, amount) column of the mapping, row by row |
| SankeyInputs.CategoryTotals | pythondashboard/utils/d3_sankey_helper.py:67-68 | one total per group of the mapping's categories |
| SankeyInputs.GroupRowsTotal | pythondashboard/utils/d3_sankey_helper.py:67-68 | the category totals' column sum is the groups' total |
| SankeyInputs.CategoryTotalsOrdered | pythondashboard/utils/d3_sankey_helper.py:67 | category totals come out once each, in ascending name order |
| SankeyInputs.CategoryRowNames | pythondashboard/utils/d3_sankey_helper.py:67 | the category column names exactly the mapping's categories |
| SankeyInputs.GroupRowNames | pythondashboard/utils/d3_sankey_helper.py:67-68 | a total row exists exactly for each group name |
| SankeyInputs.CategoryTotalsNames | pythondashboard/utils/d3_sankey_helper.py:67-68 | a category has a total row exactly when a mapping row names it |
| SankeyInputs.CategoryTotalsSums | pythondashboard/utils/d3_sankey_helper.py:67-68 | each category total is the sum of its mapping rows; the totals add up to the mapping total |
| SankeyInputs.Prepare | pythondashboard/utils/d3_sankey_helper.py:44-82 | the three bucketed lists with "Other Income/Destinations/Categories", each "Other" holding the rows `nlargest` dropped (the corrected bucketing); total income and expenses from them, and remaining = income − expenses |
| SankeyInputs.PrepareAsWritten | pythondashboard/utils/d3_sankey_helper.py:44-82 | the same three lists as the code computes them, each "Other" holding the rows at input positions N and later; the totals from them |
| SankeyInputs.PrepareAsWrittenOnSortedInput | pythondashboard/utils/d3_sankey_helper.py:44-82 | on income and destination tables in descending order, the as-written and corrected preparations agree on those lists and on all three totals |
| SankeyInputs.PrepareAsWrittenCategoriesDiffer | pythondashboard/utils/d3_sankey_helper.py:67-77 | on a mapping with Rent 5 and Groceries 1 and one category kept, the code as written reports "Other Categories" 5 where the dropped rows sum to 1 |
| SankeyInputs.PrepareTotals | pythondashboard/utils/d3_sankey_helper.py:79-82 | when each of the income and destination lists either had nothing dropped or dropped rows summing above 0, the totals are those of the full tables |
| SankeyInputs.FilteredMapping | pythondashboard/utils/d3_sankey_helper.py:200-207 | a mapping row is kept exactly when its destination and its category are both on the diagram |
| D3Sankey.KeyOf | pythondashboard/utils/d3_sankey_helper.py:93-153 | each node kind has its own key form; named kinds carry the node's name |
| SankeyInputs.Share | pythondashboard/utils/d3_sankey_helper.py:92 | 0 for a non-positive total, otherwise p × total = amount × 100; the same guarded percentage as `sankey_helper.py:96-99` |
| D3Sankey.AppendKeepsIndexMap | pythondashboard/utils/d3_sankey_helper.py:93-100 | registering a new node at index len(nodes) keeps the index map sound and last-wins |
| D3Sankey.AddNode | pythondashboard/utils/d3_sankey_helper.py:93-100 | appends the node and points its key at its index; the index map stays sound |
| D3Sankey.LayerNodes | pythondashboard/utils/d3_sankey_helper.py:88-100 | one node per row with its name, amount, share and layer |
| D3Sankey.AddLayer | pythondashboard/utils/d3_sankey_helper.py:88-100 | appends the layer's nodes in row order; the index map stays sound |
| D3Sankey.FixedNodes | pythondashboard/utils/d3_sankey_helper.py:102-132 | total income with 100% first, remaining second exactly when something remains, total expenses last |
| D3Sankey.NodeCount | pythondashboard/utils/d3_sankey_helper.py:84-160 | the node list has incomes + 2 or 3 fixed nodes + destinations + categories entries |
| D3Sankey.NodeAt | pythondashboard/utils/d3_sankey_helper.py:84-160 | each position of the node list holds the node of its layer's row, or the fixed node there |
| D3Sankey.LayerAt | pythondashboard/utils/d3_sankey_helper.py:88-153 | a named layer occupies the positions from its start, one node per row |
| D3Sankey.LayerNodeAt | pythondashboard/utils/d3_sankey_helper.py:88-153 | the node of a layer's i-th row sits at the layer's start plus i |
| D3Sankey.FixedAt | pythondashboard/utils/d3_sankey_helper.py:102-132 | the fixed nodes sit right after the incomes, total expenses last |
| D3Sankey.LayerLayout | pythondashboard/utils/d3_sankey_helper.py:88-153 | each named layer: one node per row in row order, of the layer's kind and column, with the row's name and amount |
| D3Sankey.FixedLayout | pythondashboard/utils/d3_sankey_helper.py:102-132 | total income at 100%; the remaining node exists exactly when remaining > 0; total expenses holds the expenses |
| D3Sankey.LayersConsistent | pythondashboard/utils/d3_sankey_helper.py:84-160 | every node sits on the column of its kind |
| D3Sankey.PercentagesGuarded | pythondashboard/utils/d3_sankey_helper.py:88-160 | every percentage is 0 when the total it is taken of is not positive |
| D3Sankey.LayerLinks | pythondashboard/utils/d3_sankey_helper.py:165-198 | one link per row between the hub and the last node of that kind and row's name (the entry the last-wins `node_index_map` holds), with its amount |
| D3Sankey.MappingLinks | pythondashboard/utils/d3_sankey_helper.py:209-222 | one link per mapping row, from the last destination node to the last category node carrying its names (the last-wins `node_index_map` entries), with its amount |
| D3Sankey.LinkCount | pythondashboard/utils/d3_sankey_helper.py:162-222 | the number of links is incomes + (1 if something remains) + 1 + destinations + filtered rows |
| D3Sankey.BuildNodes | pythondashboard/utils/d3_sankey_helper.py:84-160 | builds exactly the layered node list with a sound index map |
| D3Sankey.LastNodeUnique | pythondashboard/utils/d3_sankey_helper.py:93-153 | a kind and name have at most one last node, so each link end is fixed |
| D3Sankey.IndexGivesLastNode | pythondashboard/utils/d3_sankey_helper.py:93-153 | looking up a named node's key in the index map gives the last node of that kind and name |
| D3Sankey.BuildLinks | pythondashboard/utils/d3_sankey_helper.py:162-222 | the links phase by phase, each end at the last node of its kind and name, all inside the node list |
| D3Sankey.DiagramKeys | pythondashboard/utils/d3_sankey_helper.py:86-160 | every bucketed name has its key; the fixed keys point at their layout positions |
| D3Sankey.FixedNodesUnique | pythondashboard/utils/d3_sankey_helper.py:102-132 | total income, remaining and total expenses each occur once, at their positions |
| D3Sankey.FlowFromPhases | pythondashboard/utils/d3_sankey_helper.py:162-222 | the five phases laid end to end form the link list |
| D3Sankey.PrepareSankeyData | pythondashboard/utils/d3_sankey_helper.py:10-232 | the totals, the layered node list, the links phase by phase with each end at the last node of its kind and name, every link between two nodes |
| D3Sankey.KeysPresent | pythondashboard/utils/d3_sankey_helper.py:93-153 | every node of a layer has its key in the index map |
| D3Sankey.LayerKeys | pythondashboard/utils/d3_sankey_helper.py:93-153 | every node of a named layer has its key in the index map |
| D3Sankey.FixedKeys | pythondashboard/utils/d3_sankey_helper.py:103-132 | the fixed keys point at the fixed nodes' positions |
| D3Sankey.SingleKey | pythondashboard/utils/d3_sankey_helper.py:103-125 | a key held by one node maps to that node |
| D3Sankey.MappedKeysPresent | pythondashboard/utils/d3_sankey_helper.py:209-217 | both keys of every filtered mapping row are in the index map |
| PlotlySankey.Ratio | pythondashboard/utils/sankey_helper.py:89-92 | the unguarded percentage: non-finite exactly for a zero total, otherwise p × total = amount × 100 |
| PlotlySankey.LayerLabels | pythondashboard/utils/sankey_helper.py:89-110 | one label per row with its name, amount and unguarded percentage |
| PlotlySankey.AllLabels | pythondashboard/utils/sankey_helper.py:112-123 | labels at the fixed indices: incomes, total income, remaining, total expenses, destinations, categories |
| PlotlySankey.RowNames | pythondashboard/utils/sankey_helper.py:157-158 | a layer's name column, position by position |
| PlotlySankey.PositionMap | pythondashboard/utils/sankey_helper.py:157-158 | every name maps to a position holding it, the last one |
| PlotlySankey.IncomeLinks | pythondashboard/utils/sankey_helper.py:129-133 | income source i into total income with its amount |
| PlotlySankey.DestLinks | pythondashboard/utils/sankey_helper.py:146-150 | total expenses out to destination i with its amount |
| PlotlySankey.FixedLinks | pythondashboard/utils/sankey_helper.py:125-150 | phases 1 to 4 in order; the remaining link only when something remains |
| PlotlySankey.ConcatSlices | pythondashboard/utils/sankey_helper.py:125-150 | the phases can be read back from the concatenated lists |
| PlotlySankey.MappingPhaseStep | pythondashboard/utils/sankey_helper.py:166-181 | one more mapping link keeps the phase-5 lists in step with the rows |
| PlotlySankey.LastPositionUnique | pythondashboard/utils/sankey_helper.py:157-158 | a name has at most one last position in a layer |
| PlotlySankey.MappingPhase | pythondashboard/utils/sankey_helper.py:152-181 | one link per filtered row, from the last destination to the last category carrying its names (the positions the last-wins dictionaries give), with its amount |
| PlotlySankey.MappingPhaseUsesIndexMaps | pythondashboard/utils/sankey_helper.py:157-158 | every phase 5 link's ends are exactly first_dest_idx + dest_index_map[name] and first_category_idx + cat_index_map[name] |
| PlotlySankey.MappingLinks | pythondashboard/utils/sankey_helper.py:152-181 | phase 5 appended after phases 1 to 4 |
| PlotlySankey.PositionStep | pythondashboard/utils/sankey_helper.py:157-158 | recording the last name extends the index map of the earlier names |
| PlotlySankey.PositionIff | pythondashboard/utils/sankey_helper.py:157-158 | a name has a position exactly when the layer has a row of that name, and the position is the last one holding such a row |
| PlotlySankey.PositionIndexes | pythondashboard/utils/sankey_helper.py:157-158 | the index map built from a layer gives each of its names the last position holding it |
| PlotlySankey.MappingEnds | pythondashboard/utils/sankey_helper.py:171-177 | both ends exactly when both names are on the diagram; then the label positions of the last destination and the last category carrying the row's names |
| PlotlySankey.AddMappingLink | pythondashboard/utils/sankey_helper.py:166-181 | a row whose names are on the diagram adds its link, keeping phase 5 in step with the rows |
| PlotlySankey.FixedPhasesInRange | pythondashboard/utils/sankey_helper.py:125-150 | every phase 1-4 index is a label's |
| PlotlySankey.MappingPhaseInRange | pythondashboard/utils/sankey_helper.py:166-181 | every phase 5 index is a label's |
| PlotlySankey.BuildLinks | pythondashboard/utils/sankey_helper.py:125-181 | the link lists phase by phase |
| PlotlySankey.LinksInRange | pythondashboard/utils/sankey_helper.py:116-181 | the three lists have equal length and every index is a label's |
| PlotlySankey.Repeat | pythondashboard/utils/sankey_helper.py:184 | `[c] * n` is n copies of c |
| PlotlySankey.NodeColors | pythondashboard/utils/sankey_helper.py:183-192 | one colour per label by layer; the remaining node is green exactly when remaining > 0, red otherwise |
| PlotlySankey.LinkColors | pythondashboard/utils/sankey_helper.py:194-201 | one colour per link |
| PlotlySankey.SpreadY | pythondashboard/utils/sankey_helper.py:222-238 | destination and category y positions lie in [0.2, 0.95], or at 0.5 when alone |
| PlotlySankey.IncomeY | pythondashboard/utils/sankey_helper.py:207-210 | income y positions lie in [0, 1] |
| PlotlySankey.NodePositions | pythondashboard/utils/sankey_helper.py:202-238 | x fixed per layer, y in the layer's range, one position per label |
| PlotlySankey.CreateSankeyWithDestinations | pythondashboard/utils/sankey_helper.py:10-243 | the labels; one colour and position per label; the links phase by phase, each joining two labels; one colour per link |
| ImportConfigValidator.GetConfigPath | pythondashboard/import_config_validator.py:31-38 | a path exactly when the bank has a mapped file that exists, and then the directory joined with that file |
| ImportConfigValidator.GetColumnRoles | pythondashboard/import_config_validator.py:49-51 | the `roles` list, empty when absent |
| ImportConfigValidator.GetExpectedColumnCount | pythondashboard/import_config_validator.py:45-47 | the number of roles |
| ImportConfigValidator.ValidateCsvStructure | pythondashboard/import_config_validator.py:53-117 | with no config: false plus the error and the actual count; otherwise valid exactly when the counts are equal, with extras = columns past the expected count or missing = the shortfall |
| ImportConfigValidator.ExactlyOneOutcome | pythondashboard/import_config_validator.py:92-103 | exactly one of match, extra columns, missing columns |
| ImportConfigValidator.PlaceholdersDistinct | pythondashboard/import_config_validator.py:156-157 | placeholder names for different positions differ |
| ImportConfigValidator.AppendPlaceholders | pythondashboard/import_config_validator.py:156-157 | the columns followed by `_placeholder_1` … `_placeholder_n` |
| ImportConfigValidator.ExpectedCountMatches | pythondashboard/import_config_validator.py:92-99 | columns of the expected length validate as a match |
| ImportConfigValidator.GetNormalizedColumns | pythondashboard/import_config_validator.py:119-162 | unchanged on error or match; otherwise the expected length, the input prefix, then `_placeholder_1`, …; the result validates as a match; the summary names the one adjustment made |
| CsvPreprocessor.DetectBankType | pythondashboard/app.py:40-43 | "Revolut" exactly when Type, Product, Description, Amount and Currency are all columns, else "Unknown" |
| CsvPreprocessor.CountMatches | pythondashboard/app.py:71 | a rule's count never exceeds the row count |
| CsvPreprocessor.Without | pythondashboard/app.py:73 | `df[~mask]` keeps exactly the rows the rule does not select, and as many as it did not count |
| CsvPreprocessor.SubsequenceExtend | pythondashboard/app.py:73 | a subsequence stays one when the larger table grows |
| CsvPreprocessor.SubsequenceDropLast | pythondashboard/app.py:73 | dropping a last row keeps a subsequence |
| CsvPreprocessor.SubsequenceTransitive | pythondashboard/app.py:73-79 | filtering twice still gives a subsequence of the original |
| CsvPreprocessor.WithoutProperties | pythondashboard/app.py:69-79 | a rule keeps the other rows in order, each as often as before, and drops every row it selects |
| CsvPreprocessor.WithoutSubsequence | pythondashboard/app.py:73 | the kept rows are a subsequence of the table |
| CsvPreprocessor.WithoutCounts | pythondashboard/app.py:73 | a selected row is kept 0 times, any other row as often as it occurs |
| CsvPreprocessor.SnocMultiset | pythondashboard/app.py:73 | appending a row adds it to the table's multiset |
| CsvPreprocessor.IsSubsequenceReflexive | pythondashboard/app.py:66 | the unfiltered copy is a subsequence of itself |
| CsvPreprocessor.SubsequenceMembers | pythondashboard/app.py:73-79 | every kept row was an original row |
| CsvPreprocessor.Preprocess | pythondashboard/app.py:66-90 | the rows after each enabled rule and its message with the masked count; removed = original − final, final ≤ original; no kept row matches an enabled rule |
| CsvPreprocessor.OutputFilename | pythondashboard/app.py:104-109 | ".csv" names get "_processed" before the extension, others get "_processed.csv" appended |
| CsvPreprocessor.OutputFilenameBase | pythondashboard/app.py:104-109 | what precedes "_processed.csv" is the original name without its ".csv" |
| CsvPreprocessor.ProcessUpload | pythondashboard/app.py:40-120 | Revolut files get exactly the rows left after each enabled rule, the rule messages with their masked counts, no row matching an enabled rule, removed = original − final, and the derived download name; other banks have no rules |

## Left out

- HTTP requests, pagination and `test_connection` (api_client.py:31-268): network I/O, not part of this model. The JSON they return is the input of the flattening.
- `float()` of the balance and amount strings: the JSON values are taken as already-converted reals. A non-numeric string raising ValueError is not modelled.
- `pd.to_datetime` of the date strings and time-zone localisation (calculations.py:102-112, 236-249; api_client.py:339-340, which can also raise on an unparseable string): dates arrive parsed. All table timestamps are taken to share one time zone.
- A `null` element inside a split list, which would raise AttributeError, is not modelled; splits are records.
- `calculate_cash_flow` (calculations.py:30-76): outside the modelled core.
- `strftime` and the number formatting inside the labels (`€{amt:,.0f}`, `:.1f`): dates stay records, and labels keep name, amount and percentage as values.
- `calculate_net_worth` on a table without the needed columns raises KeyError; the model always has the columns.
- NaN amounts and float rounding: money is exact `real`.
- Calculations.CategorySpending: pandas' `sort_values` is not stable, so the order among equal totals may differ; the model sorts stably.
- Calculations.IncomeSources: the same tie order caveat as CategorySpending.
- The top-N parameters are natural numbers; a negative `top_n` is not modelled.
- `load_config` and `Path.exists`: the configuration directory is an input. It maps existing file names to parsed configurations; malformed JSON and a `null` roles value are not modelled.
- ImportConfigValidator.JoinPath: `Path` joining is modelled as `dir + "/" + name`, without path normalisation.
- `generate_d3_sankey_html`, the Plotly `Figure` and its layout (sankey_helper.py:240-281): rendering, not modelled.
- `pd.read_csv`, the Streamlit widgets, the download button and `to_csv` in app.py: I/O. The rule checkboxes are inputs.
- `datetime.now()`: "today" is a parameter of the date-range functions.
- SankeyInputs.Prepare: uses the corrected bucketing, where "Other" is the rows `nlargest` left out, not the code's `iloc[top_n:]` sum (see Findings). The as-written preparation is SankeyInputs.PrepareAsWritten. It agrees with Prepare when the income and destination tables arrive in descending order, and can differ on the category list (SankeyInputs.PrepareAsWrittenCategoriesDiffer).
- SankeyInputs.PrepareTotals: stated about the corrected preparation; for income or destination tables not in descending order the code's totals can differ.
- D3Sankey.PrepareSankeyData: nodes, links and totals are stated over the corrected SankeyInputs.Prepare. With the code as written the category nodes (and, on unsorted income or destination tables, their nodes and totals) can carry a different "Other" amount.
- PlotlySankey.CreateSankeyWithDestinations: labels, links and colours are stated over the corrected SankeyInputs.Prepare, with the same difference as PrepareSankeyData.

## Findings

| source | as written | input that shows it | evidently intended | confidence | as-written member | corrected member |
|---|---|---|---|---|---|---|
| pythondashboard/utils/calculations.py:343-345 | The previous quarter's end is taken as the day before the 1st of month `previous_quarter * 3 + 1`. For the fourth quarter that is month 13, so `replace` raises ValueError. | `get_date_ranges('quarter')` on any day from January to March, e.g. 2024-02-10 | The previous quarter ends on the day before the current quarter starts (2023-12-31) | not executed | Calculations.QuarterRangesAsWritten (with Calculations.QuarterInFebruary) | Calculations.QuarterRanges (with Calculations.DateRangesContiguous) |
| pythondashboard/utils/d3_sankey_helper.py:67-77 | "Other" sums `iloc[top_n:]`, i.e. input positions, not the rows `nlargest` left out. Category totals come out of the group-by in name order, so a kept category can be counted twice and a dropped one lost. The same code is at sankey_helper.py:70-81. | Categories Groceries 1.0 and Rent 5.0 with `top_n_category=1`: the list is Rent 5 + Other 5 (total 10, not 6) | "Other" holds the sum of the rows not among the top n | not executed | Tables.BucketAsWritten (with Tables.BucketAsWrittenDoubleCounts); SankeyInputs.PrepareAsWritten (with SankeyInputs.PrepareAsWrittenCategoriesDiffer) | Tables.Bucket (with Tables.BucketProperties), used by SankeyInputs.Prepare and so by D3Sankey.PrepareSankeyData and PlotlySankey.CreateSankeyWithDestinations |
