# KPI dependency and root-cause analyser — Dafny model

This project models the logic of a sales KPI dashboard. The dashboard is a single
Streamlit script. Its logic has five parts:

- **Drill-down filter.** It builds the DSM, ASE and territory drop-down lists. Each
  list is sorted, de-duplicated and drops NaN keys, and is restricted by the levels
  above it. It then keeps the rows that match every non-"All" choice. An empty result
  ends the evaluation with "no data".
- **KPI aggregation.** Actual values are column sums, and a missing column gives 0.
  TP per outlet is a mean. The line ratios are guarded by the billed-outlet count
  (UBO). Several plans are fixed multiples of other plans (×24, ×40, ×0.8). The
  lines-per-DB plan is pegged to the actual ratio.
- **Health flags.** `is_good` says a KPI reaches 90% of a non-zero plan. The `manday`
  flag asks for full use of 24 man-days per planned head.
- **Narrative.** Two fixed decision trees turn the seven flags into an ordered list
  of (severity, message) pairs. The dependency flow runs first, then the value chain.
- **Leaderboards.** The whole table, not the filtered one, is grouped by ASE and by
  territory. Secondary sales are summed per group and ranked in descending order.
  The top group and the bottom three are kept.

The table is a parameter (`Table.Table`): a set of column names and a sequence of
rows. Each row has three optional hierarchy keys and a map of metric cells. A key
missing from that map is a NaN cell. Numbers are exact `real`s. Messages are enum
ids with a severity. Strings use an explicit lexicographic order (`LexOrder.Less`),
because Python's `sorted` compares strings that way and Dafny's `<` on sequences
means "proper prefix".

Modules: `Wrappers` (Option), `LexOrder`, `Table`, `Filters`, `Kpis`, `Health`,
`Narrative`, `Leaderboard`, `Dashboard` (the pipeline).

Notes on the source's behaviour:

- The territory list is built with a DSM test even when the DSM choice is
  "All DSMs" (line 30). So with a specific ASE and "All DSMs" the list is empty,
  unless some row's DSM is the literal string "All DSMs". The model keeps this
  behaviour (`Filters.TerritoryListEmptyUnderAllDsms`).
- The guard on line 102 is redundant: `uls_db_plan` always equals
  `lines_per_db_actual` (see the `Kpis.Aggregate` contract).
- A NaN TP mean makes the `tp` flag false. A NaN plan passes the `plan != 0` test of
  line 110, but the comparison `actual >= threshold * plan` is then false, as it is for a
  NaN actual.
- If the table has no "Secondary INR Actual" column, pandas raises an error at
  line 199. The model gives no leaderboard (`None`) in that case.

## Model

| member | source | states |
|---|---|---|
| LexOrder.Distinct | sales_what_if_rootcause.py:17 | `sorted(col.dropna().unique())`: the result is strictly sorted (sorted and duplicate-free) and holds exactly the non-NaN values of the column |
| LexOrder.SortedListUnique | sales_what_if_rootcause.py:17 | two strictly sorted lists with the same elements are equal, so the drop-down list is fully determined by the set of keys |
| LexOrder.StrictlySortedNoDuplicates | sales_what_if_rootcause.py:17 | a strictly sorted list never holds the same string at two positions (`unique()`) |
| Filters.DsmCandidates | sales_what_if_rootcause.py:17 | the DSM list is strictly sorted and holds exactly the DSMs that occur in some row |
| Filters.AseCandidates | sales_what_if_rootcause.py:21-25 | the ASE list is strictly sorted; a value is in it iff some row has that ASE and, unless "All DSMs" is chosen, the chosen DSM |
| Filters.TerritoryCandidates | sales_what_if_rootcause.py:29-40 | the territory list is strictly sorted; a value is in it iff a row in the line-30/35/39 scope has it: DSM and ASE both compared when an ASE is chosen, DSM alone when only a DSM is, no restriction otherwise |
| Filters.TerritoryListEmptyUnderAllDsms | sales_what_if_rootcause.py:29-32 | with a specific ASE and "All DSMs", the territory list is empty whenever no row's DSM is the literal "All DSMs" |
| Filters.Select | sales_what_if_rootcause.py:43-52 | reference filter: a row is kept iff it is in the table and matches every component that is not its "All" entry |
| Filters.SelectAppend | sales_what_if_rootcause.py:43-52 | filtering distributes over concatenation, so the kept rows are a subsequence in table order |
| Filters.StagedIsSelect | sales_what_if_rootcause.py:43-52 | the three successive filters (DSM, ASE, territory) give exactly the one-pass reference result, order included |
| Filters.ApplyFilters | sales_what_if_rootcause.py:43-52 | `filtered_df` keeps the table's columns, and its rows are exactly the reference selection |
| Filters.SelectAllKeepsEverything | sales_what_if_rootcause.py:43-52 | "All" at every level keeps the whole table unchanged |
| Filters.OfferedSelectionFindsRows | sales_what_if_rootcause.py:17-56 | every selection the drop-downs can offer finds at least one row of a non-empty table |
| Table.Restrict | sales_what_if_rootcause.py:24 | `df[df[level] == v]` keeps exactly the rows whose key is `v`; a NaN key never matches |
| Table.RestrictAppend | sales_what_if_rootcause.py:24 | restricting distributes over concatenation, so row order is preserved |
| Table.SumOrZeroAppend | sales_what_if_rootcause.py:77-78 | `sum_or_zero` over a table is the sum of its values over the two parts of any split of the rows |
| Table.SumOrZeroSingle | sales_what_if_rootcause.py:77-78 | on one row `sum_or_zero` is that row's cell when the column exists, and 0 for a NaN cell or a missing column |
| Table.SumOrZeroEmpty | sales_what_if_rootcause.py:77-78 | on a table without rows `sum_or_zero` is 0 |
| Table.ColumnSumAppend | sales_what_if_rootcause.py:77-78 | a column sum is additive over a split of the rows |
| Table.ColumnSumAllNaN | sales_what_if_rootcause.py:77-78 | an all-NaN column, or no rows at all, sums to 0 (pandas skips NaN) |
| Table.ColumnMean | sales_what_if_rootcause.py:89 | the NaN-skipping mean is NaN (`None`) exactly when no row has a value; otherwise mean × number of present cells = the NaN-skipping sum |
| Table.MeanBounds | sales_what_if_rootcause.py:89 | a non-NaN mean lies between any lower and upper bound of the present cells |
| Table.MeanOrZero | sales_what_if_rootcause.py:89 | a missing TP column gives 0; a present one gives NaN iff every cell is NaN, and otherwise a mean whose product with the number of present cells is the NaN-skipping sum |
| Kpis.PerBilledOutlet | sales_what_if_rootcause.py:91-92 | the line ratio is 0 when UBO ≤ 0, and otherwise the exact quotient (ratio × UBO = lines) |
| Kpis.Aggregate | sales_what_if_rootcause.py:80-106 | with UBO ≤ 0 all line actuals and line plans are 0; otherwise the ratios are exact quotients and the average-lines plan is 0.9 × lines per DB; the average line KPI is the mean of the two line ratios; the lines-per-DB plan always equals the actual ratio and the lines-per-outlet plan is 0.8 × it; man-day plan = 24 × manpower plan, callage plan = 40 × routes plan, productivity plan = 32 × routes plan; both TP values are the NaN-skipping means of their columns, 0 for a missing column |
| Kpis.MissingColumnsContributeZero | sales_what_if_rootcause.py:77-106 | every summed KPI whose source column is missing is 0 (the 13 summed columns), together with the plans derived from it (man-day, callage, productivity and average-lines plans), and a missing TP column gives a TP of 0 |
| Kpis.SummedKpisAdd | sales_what_if_rootcause.py:80-106 | each of the 13 summed KPIs of a table is the sum of that KPI over the two parts of any split of its rows |
| Kpis.SingleRowKpis | sales_what_if_rootcause.py:77-106 | for a one-row table each summed KPI is that row's cell when the table has the column, NaN counting as 0, and 0 otherwise |
| Kpis.EmptyTableKpis | sales_what_if_rootcause.py:77-106 | for a table without rows every summed KPI is 0, and a present TP column has a NaN mean |
| Kpis.TpWithinCellRange | sales_what_if_rootcause.py:89 | TP per outlet, when not NaN, lies within the range of the present TP cells |
| Health.IsGood | sales_what_if_rootcause.py:109-110 | a zero plan is never healthy; for a positive plan, healthy iff actual/plan ≥ threshold; for a negative plan, iff actual/plan ≤ threshold |
| Health.BoundaryIsHealthy | sales_what_if_rootcause.py:109-110 | an actual of exactly 90% of a non-zero plan is healthy |
| Health.IsGoodMean | sales_what_if_rootcause.py:109-117 | healthy only if both TP means are numbers and the plan is non-zero; for a positive plan, healthy iff actual/plan ≥ 0.9; for a negative plan, iff actual/plan ≤ 0.9 |
| Health.MandayFlag | sales_what_if_rootcause.py:119 | false without a positive manpower plan; otherwise true iff man-days actual / (24 × manpower plan) ≥ 1 |
| Health.MandayStricterThanGeneric | sales_what_if_rootcause.py:97-119 | the man-day flag implies the generic 90% rule on the man-day plan |
| Health.MandayNinetyPercentFails | sales_what_if_rootcause.py:119 | 90% of the planned man-days passes the generic rule but not the man-day flag |
| Health.EvalFlags | sales_what_if_rootcause.py:112-120 | each of callage, routes, productivity, lines and secondary is false when its plan is 0; for a positive plan it holds iff actual/plan ≥ 0.9, and for a negative plan iff actual/plan ≤ 0.9; the TP flag is false on a NaN mean or a zero TP plan (as when the plan column is missing) and otherwise follows the same ratio rules; the man-day flag is false without a positive manpower plan and otherwise holds iff man-days actual ≥ 24 × manpower plan |
| Health.NoBilledOutletsNoLines | sales_what_if_rootcause.py:91-116 | with UBO ≤ 0 the lines flag is false |
| Health.LinesFlagAgainstDbRatio | sales_what_if_rootcause.py:91-116 | with billed outlets and a positive lines-per-DB ratio, the lines flag holds iff the average line ratio is ≥ 81% of the lines-per-DB ratio |
| Health.NoRoutesPlanNoExecution | sales_what_if_rootcause.py:98-115 | a zero routes plan fails callage, routes and productivity together |
| Health.MandayMeansFullPlan | sales_what_if_rootcause.py:96-119 | the man-day flag holds iff the manpower plan is positive and the man-day plan is met in full |
| Health.NoMetricColumnsNoHealthyFlag | sales_what_if_rootcause.py:77-120 | a table with no metric column raises no healthy flag |
| Narrative.DependencyFlow | sales_what_if_rootcause.py:128-149 | 2 to 4 messages; the first is callage OK or a callage error; exactly 2 when callage fails; exactly the two messages "callage OK" and "productivity lagging" when callage passes and productivity fails; 4 iff callage and productivity pass and secondary fails; the callage message never repeats |
| Narrative.ValueChain | sales_what_if_rootcause.py:154-173 | 3 or 4 messages, 4 iff lines and TP both pass; the first reports lines; the second reports TP OK or TP weak |
| Narrative.Narrate | sales_what_if_rootcause.py:128-173 | 5 to 8 messages; the dependency flow comes first and the value chain follows it unchanged |
| Narrative.With | sales_what_if_rootcause.py:112-120 | changing one flag leaves the other six unchanged |
| Narrative.Run | sales_what_if_rootcause.py:128-173 | a run of a decision diagram emits between the diagram's fewest and most messages |
| Narrative.Consulted | sales_what_if_rootcause.py:128-173 | a run consults only flags the diagram branches on |
| Narrative.UnconsultedIrrelevant | sales_what_if_rootcause.py:128-173 | changing a flag that a run does not consult changes neither the output nor the consulted path |
| Narrative.DiagramOutputBounds | sales_what_if_rootcause.py:128-173 | the dependency tree emits 2 to 4 messages on every path and the value tree 3 or 4 |
| Narrative.DependencyTreeIsDependencyFlow | sales_what_if_rootcause.py:128-149 | the decision-diagram form of the dependency flow equals the nested conditionals for all 2^7 flag sets |
| Narrative.ValueTreeIsValueChain | sales_what_if_rootcause.py:154-173 | the decision-diagram form of the value chain equals the nested conditionals for all flag sets |
| Narrative.DependencyTreeReads | sales_what_if_rootcause.py:128-149 | the dependency flow never reads TP and reads at most four flags; after a callage failure it reads only routes, then manday if routes fail; after callage passes and productivity fails it reads nothing else |
| Narrative.ValueTreeReads | sales_what_if_rootcause.py:154-173 | the value chain reads only lines, TP and secondary; it reads secondary iff lines and TP are both healthy |
| Narrative.DependencyFlowIgnoresTp | sales_what_if_rootcause.py:128-149 | the dependency flow's output does not change with the TP flag |
| Narrative.CallageFailureDependsOnRoutesAndManday | sales_what_if_rootcause.py:142-149 | with callage failing, the output depends only on the routes and manday flags, and it opens with an error |
| Narrative.ValueChainDependsOnLinesTpSecondary | sales_what_if_rootcause.py:154-173 | the value chain's output depends only on the lines, TP and secondary flags, so not on the dependency flow's path |
| Narrative.ValueChainSecondaryOnlyBehindLinesAndTp | sales_what_if_rootcause.py:154-173 | unless lines and TP both pass, the secondary flag does not change the value chain |
| Leaderboard.GroupKeys | sales_what_if_rootcause.py:199-200 | the groups are the distinct non-NaN keys, strictly sorted |
| Leaderboard.GroupEntries | sales_what_if_rootcause.py:199-200 | one entry per group, and no two entries share a key; an entry is listed iff its key is a group and its total is the secondary sum over exactly that group's rows |
| Leaderboard.RankedHasNoRepeats | sales_what_if_rootcause.py:202 | sorting entries with distinct keys yields a list in which no entry occurs twice |
| Leaderboard.InsertDescending | sales_what_if_rootcause.py:202-206 | inserting into a descending list keeps it descending and adds exactly the new entry (multiset) |
| Leaderboard.RankDescending | sales_what_if_rootcause.py:202-206 | `sort_values(ascending=False)` gives a descending permutation of the groups |
| Leaderboard.TopAndBottom | sales_what_if_rootcause.py:202-206 | `head(1)` has min(1, n) entries, each at least every ranked entry; `tail(3)` has min(3, n) entries in descending order, each at most every ranked entry outside it |
| Leaderboard.Rank | sales_what_if_rootcause.py:199-206 | none iff the secondary column is missing; otherwise top has min(1, #groups) entries and bottom min(3, #groups), with no padding; every listed entry is a group with its true total; the top total is at least every group's total; each bottom total is at most the total of every group outside the bottom list; the bottom list is descending and names each group once |
| Dashboard.Analyze | sales_what_if_rootcause.py:43-206 | "no data" iff no row matches the selection, and then nothing else is produced; otherwise the KPIs are those of exactly the matching rows, the flags are evaluated on those KPIs, the narrative is the two trees' output on those flags (5 to 8 messages), and the leaderboards rank the whole unfiltered table |
| Dashboard.LeaderboardsIgnoreSelection | sales_what_if_rootcause.py:199-206 | any two selections that both find rows produce reports with the same leaderboards |
| Dashboard.OfferedSelectionReports | sales_what_if_rootcause.py:17-56 | a selection offered by the drop-downs on a non-empty table never hits "no data" |
| Dashboard.AllSelectionCoversTable | sales_what_if_rootcause.py:43-56 | with "All" at every level the KPIs are those of the whole table |
| Dashboard.NoMetricColumnsNarrative | sales_what_if_rootcause.py:77-173 | without metric columns the narrative is the all-errors path: callage error, deployment error, lines error, TP error, "few lines, low price" |
| Dashboard.SingleRowPlans | sales_what_if_rootcause.py:96-119 | for one row with manpower plan 10 and routes plan 100, the callage plan is 4000 and the man-day plan 240; with no man-day column the man-day flag fails; routes at 95% pass; secondary at 20% fails |
| Dashboard.ZeroSecondaryPlanNeverHealthy | sales_what_if_rootcause.py:109-118 | a zero secondary plan is unhealthy even with a positive actual |
| Dashboard.TwoGroupsEntries | sales_what_if_rootcause.py:199 | two ASE groups with secondary 100 and 50 give the entries (A1, 100) and (A2, 50) in key order |
| Dashboard.TwoGroupsBoard | sales_what_if_rootcause.py:199-203 | for those two groups the top is (A1, 100), and the bottom-3 list holds both groups, with no padding |

## Left out

- Loading the CSV from a fixed path and the `@st.cache_data` cache (lines 5-9): this is I/O. The table is passed in as a parameter.
- All Streamlit widgets, layout, titles and markdown, and the emoji message text: this is presentation. Messages are ids with a severity.
- `st.stop()` (line 56) is modelled as the `NoData` result, not as control flow.
- The summary cards (lines 59-72): their `int()` truncation, the vacant-positions figure and the currency formatting are display only.
- The KPI overview table and its "% Achieved" column (lines 178-194): this is formatting, and a zero plan gives pandas `inf`/`nan`. The overview pairs "Lines per DB" with `lines_per_outlet_plan`; the model computes that plan but does not model the table.
- Floating-point arithmetic: all numbers are exact `real`s, so there is no rounding.
- The tie order of the leaderboard sort. pandas' default sort is not stable, so no contract says how entries with equal totals are ordered. The model ranks with an insertion sort.
- Hierarchy columns missing from the file, and hierarchy values that are not strings: the model assumes the `DSM`, `ASE` and `SO_Territory` columns exist and hold strings or NaN.
- NaN means are modelled only for TP per outlet. No other aggregate can be NaN, because a pandas sum skips NaN.
