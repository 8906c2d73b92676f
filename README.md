# Ocean Sensitive Areas query tool — a verified model of its core

The Ocean Sensitive Areas query tool takes a table of point assets (latitude,
longitude, optional id and name) and places each asset on the H3 hexagonal grid
at resolution 6, together with a disk of neighbouring cells whose ring count
comes from a radius in kilometres. For each asset it queries the Ocean Sensitive
Areas dataset with a disjunction of `hex6 == "<cell>"` clauses. It tags every
returned record as the asset's own cell (`Asset`) or a neighbouring cell
(`Neighbor`), and concatenates the per-asset results, skipping assets whose
query fails. From the joined table it writes one biodiversity report per asset:

- the asset's rank by mean Shannon index among all assets;
- the Shannon and Simpson indices of the asset's own cell, with their
  categories, and the ecosystems present there;
- the neighbourhood's average indices and the percentage coverage of each
  ecosystem.

The analysis tab checks for the required columns and lists the reports in rank
order. It reads the selected asset id back from a select-box label, and bundles
every report into one text file.

The model is split into modules that follow the program:

- `AssetProcessor` (`asset_processor.dfy`) covers `load_and_process_asset_data`:
  - header lower-casing;
  - first-match synonym resolution;
  - synthesised ids;
  - the ring count `round(distance_km / 8.74)`, modelled exactly as
    `(100 d + 437) / 874`.

  A `while` loop builds the processed rows.
- `NeighborhoodQuery` (`neighborhood_query.dfy`) covers `query_osa_data`:
  - the cell set;
  - the rendered query and its parse back to the cells;
  - the Neighbor/Asset tag;
  - the per-asset loop (`CollectFrames`), proved against the functions
    `SuccessFrames`, `FailedIds` and `Concat`.
- `Ranking` (`ranking.dfy`) covers pandas' `rank(ascending=False)` with the
  "average" method, and `sort_values(ascending=False)`.
- `Biodiversity` (`biodiversity.dfy`) covers `categorize_shannon`,
  `categorize_simpson`, `safe_format` and `generate_asset_report`:
  - the report loop (`BuildEntries`);
  - the string-building body (`BuildReport`, `AppendCoverage`);
  - the functions that specify them.
- `AnalysisTab` (`analysis_tab.dfy`) covers:
  - the required-column check;
  - the ranked view's order and labels;
  - reading the id back from a label;
  - the download text.
- `Scenario` (`scenario.dfy`) is a worked example: one asset with one own cell
  and two neighbours, with every number of its report established.
- `Strings`, `Values` and `Wrappers` hold the Python string and number
  operations the program uses, the table cell type, and `Option`.

The two foreign libraries become parameters:

- The h3 functions `latlng_to_cell` and `grid_disk` are the arrow-typed fields
  of `AssetProcessor.H3`.
- The remote `osa_data.select(query)` is a function from the query text to a
  `Selection`, either an exception or a frame.
- The float renderings `f"{x:.3f}"` and `str(x)` are the fields of
  `Values.Formats`.

Four behaviours of the program matter for what is proved:

- A record whose cell lies outside the queried set is tagged `Asset`.
- Ties get pandas' averaged rank.
- A strictly higher mean gives a strictly smaller rank.
- A query that returns an empty frame carrying a `hex6` column is a success:
  it adds no rows and no warning. A frame without `hex6` makes line 233 raise
  a KeyError, so that asset gets a warning instead.

## Model

| member | source | states |
|---|---|---|
| AssetProcessor.HeaderMatchesIgnoringCase | osa-streamlit-v3.py:144 | a lower-cased header holds no upper-case letter, and it is one of a set of lower-case names exactly when the original header spells one of them in any mix of letter cases |
| AssetProcessor.FirstInIgnoresCase | osa-streamlit-v3.py:144-156 | the column chosen for a role is the first whose original header spells one of the role's synonyms in any mix of cases; no column is chosen exactly when no header does |
| AssetProcessor.ResolveSchemaIgnoresCase | osa-streamlit-v3.py:144-161 | each of the four roles lands on the first column whose original header spells one of the role's synonyms in any mix of cases, or on none when no header does; the coordinates are reported missing exactly when latitude or longitude finds no such header |
| AssetProcessor.FirstIn | osa-streamlit-v3.py:153-156 | the result is the first column, in the table's own order, that is in the synonym set; None exactly when no column is |
| AssetProcessor.ResolveSchema | osa-streamlit-v3.py:147-161 | resolution fails exactly when no latitude or no longitude column resolves; otherwise each role is its first matching column |
| AssetProcessor.RingCountIsNearest | osa-streamlit-v3.py:173 | the ring count lies strictly within one half of distance_km / 8.74 |
| AssetProcessor.RingCountUnique | osa-streamlit-v3.py:173 | no other integer is that close, so the ring count is `round(distance_km / 8.74)` |
| AssetProcessor.RingCountMonotone | osa-streamlit-v3.py:173 | a larger radius never gives fewer rings |
| AssetProcessor.LoadAndProcessAssetData | osa-streamlit-v3.py:143-191 | the missing-columns error exactly when latitude or longitude does not resolve; otherwise the exception of `latlng_to_cell` at the first row it cannot place, with every earlier row placed; otherwise one asset per input row in input order, with lat, lon, id (or `i + 1` when no id column resolves), name exactly when a name column resolves, its H3 cell at resolution 6 and the disk of `RingCount` rings around it. The no-id warning is raised exactly when the columns resolve and no id column does, even if h3 then raises |
| NeighborhoodQuery.BuildQuery | osa-streamlit-v3.py:219-226 | the listed cells are the cell set, each exactly once, and the query is one clause per listed cell joined by " OR " |
| NeighborhoodQuery.QueryRoundTrip | osa-streamlit-v3.py:226 | reading the query back yields exactly the listed cells in order, so it holds one `hex6 == "<h>"` clause per distinct cell |
| NeighborhoodQuery.QueryLength | osa-streamlit-v3.py:226 | k clauses are joined by k - 1 separators, so a single cell gives the bare clause with no " OR " |
| NeighborhoodQuery.TagIsMembership | osa-streamlit-v3.py:233-235 | after lower-casing, a row is "neighbor" iff its cell differs from the asset's own and is in its neighbours; every other row, including one outside the set, is "asset" |
| NeighborhoodQuery.QueryAsset | osa-streamlit-v3.py:219-230 | the query sent is a rendering of the asset's cell set, and the outcome is the source's answer to it |
| NeighborhoodQuery.CollectStep | osa-streamlit-v3.py:228-247 | querying one more asset appends its tagged frame on success, or its id to the warnings when the select raises or the frame has no `hex6` column, after those of the earlier assets |
| NeighborhoodQuery.CollectFrames | osa-streamlit-v3.py:214-247 | after the loop, `all_results` holds the tagged frames of the assets whose query succeeded (no exception, and a `hex6` column), in asset order, and the warnings name the others, in asset order; the two counts add up to the number of assets |
| NeighborhoodQuery.QueryOsaData | osa-streamlit-v3.py:207-255 | the result is the concatenation of the successful frames, or None exactly when every query failed (raised, or returned no `hex6` column), which is exactly when there is one warning per asset; each query is one for its asset |
| NeighborhoodQuery.NoFramesIffAllFailed | osa-streamlit-v3.py:228-255 | no frame is collected iff every per-asset query failed: it raised, or its frame had no `hex6` column |
| NeighborhoodQuery.AllFailedIffNone | osa-streamlit-v3.py:228-255 | the aggregated result is None iff every query sent failed |
| NeighborhoodQuery.MissingHex6Warns | osa-streamlit-v3.py:228-247 | a frame without a `hex6` column, even one with no rows, gives the asset a warning; for a lone asset the result is None |
| NeighborhoodQuery.EmptyHex6FrameSucceeds | osa-streamlit-v3.py:228-255 | for a lone asset, an empty frame that has a `hex6` column gives no warning and a result with no rows |
| NeighborhoodQuery.EveryAssetAccountedFor | osa-streamlit-v3.py:228-247 | every asset either contributes a frame or is named in a warning: the two counts add up to the number of assets |
| NeighborhoodQuery.OriginsOrdered | osa-streamlit-v3.py:245-251 | every combined row comes from a valid asset position, and those positions never decrease along the combined rows |
| NeighborhoodQuery.AggregatedRowsStamped | osa-streamlit-v3.py:233-251 | every row of the concatenated result is a record returned by one asset's successful query, carrying that asset's id, name and tag, with the assets in input order |
| Ranking.RankBounds | osa-streamlit-v3.py:56 | every average rank lies between 1 and the number of means ranked |
| Ranking.HigherMeanBetterRank | osa-streamlit-v3.py:56 | a strictly higher mean gets a strictly smaller rank |
| Ranking.AverageRankMonotone | osa-streamlit-v3.py:56 | a mean at least as high never gets a worse rank |
| Ranking.PrintedRankBounds | osa-streamlit-v3.py:99 | `int(rank)` lies between 1 and the number of assets |
| Ranking.SortDescSorted | osa-streamlit-v3.py:59 | the sorted means are in descending order |
| Ranking.SortDescPermutes | osa-streamlit-v3.py:59 | sorting is a permutation of the (id, mean) pairs |
| Ranking.SortDescPermutesIds | osa-streamlit-v3.py:59 | sorting is a permutation of the ids |
| Ranking.SortDescCorrect | osa-streamlit-v3.py:59 | the sort is descending and a permutation of both the pairs and the ids |
| Biodiversity.CategorizeShannon | osa-streamlit-v3.py:32-40 | "N/A" exactly for None; otherwise Low iff < 2.0, Medium iff 2.0 ≤ x ≤ 4.0, High iff > 4.0 |
| Biodiversity.CategorizeSimpson | osa-streamlit-v3.py:42-50 | "N/A" exactly for None; otherwise High Dominance iff > 0.5, Moderate iff 0.2 ≤ x ≤ 0.5, Low Dominance iff < 0.2 |
| Biodiversity.Where | osa-streamlit-v3.py:62 | a row is kept by a boolean mask iff it is in the table and satisfies the mask |
| Biodiversity.WhereAppend | osa-streamlit-v3.py:62 | filtering distributes over concatenation, so it keeps the table's order and its repeated rows |
| Biodiversity.WhereSnoc | osa-streamlit-v3.py:62 | a row added at the end of the table is kept, at the end, exactly when it satisfies the mask |
| Biodiversity.FirstWhere | osa-streamlit-v3.py:65-67 | the position `.values[0]` reads: the first row satisfying the mask, or None iff no row does |
| Biodiversity.GroupKeys | osa-streamlit-v3.py:56 | the groups are every non-NaN asset id that occurs, each once |
| Biodiversity.GroupHasRows | osa-streamlit-v3.py:56 | every group has rows, so its mean is the true mean of its Shannon values |
| Biodiversity.GroupRankBounds | osa-streamlit-v3.py:83-84 | every asset's rank lies between 1 and `nunique()` of the asset ids |
| Biodiversity.GroupRankOrdered | osa-streamlit-v3.py:56 | an asset with a strictly higher mean Shannon index has a strictly smaller rank |
| Biodiversity.GroupRankMonotone | osa-streamlit-v3.py:56 | an asset whose mean is at least as high never ranks worse |
| Biodiversity.GroupRankTied | osa-streamlit-v3.py:56 | assets with equal means share the same averaged rank |
| Biodiversity.Keep | osa-streamlit-v3.py:69-70 | the names kept are exactly those in the list that are allowed |
| Biodiversity.KeepOrdered | osa-streamlit-v3.py:69-70 | filtering keeps the list's order |
| Biodiversity.ExactOfAssetRows | osa-streamlit-v3.py:62-75 | over `df[df['asset_id'] == id]`, the exact section reads the first row of the whole table that belongs to the asset and is tagged "asset", and is empty exactly when there is no such row |
| Biodiversity.ExactSection | osa-streamlit-v3.py:65-75 | the exact section is empty (None, None, [], None) iff no row is tagged "asset"; otherwise it reads the first such row's indices, lists exactly the ecosystems whose column exists and is positive there, and has a name iff the table has a name column |
| Biodiversity.ExactOrderKept | osa-streamlit-v3.py:69 | the exact ecosystems appear in the order mangrove, seamount, cold_water_coral, seagrass, coral |
| Biodiversity.CoverageEntriesCorrect | osa-streamlit-v3.py:112-114 | the coverage lists exactly the listed columns the table has, in list order, each at 100 times its neighbour mean |
| Biodiversity.SurroundingsPresence | osa-streamlit-v3.py:78-110 | the averages and the coverage block are absent iff no row is tagged "neighbor" |
| Biodiversity.SurroundingsContent | osa-streamlit-v3.py:78-114 | with neighbours, the averages are the neighbour means and the coverage lists every ecosystem column the table has, in the order coral, seagrass, cold_water_coral, mangrove, seamount, at 100 times its mean |
| Biodiversity.CoverageOrderKept | osa-streamlit-v3.py:112-113 | the coverage names are exactly the ecosystem columns the table has, in the fixed coverage order |
| Biodiversity.RankTextIsPosition | osa-streamlit-v3.py:99 | the printed rank of every asset is a whole number from 1 to the number of assets, never "N/A" |
| Biodiversity.AppendCoverage | osa-streamlit-v3.py:112-114 | the coverage loop appends one line per listed ecosystem column the table has, in list order |
| Biodiversity.BuildReport | osa-streamlit-v3.py:91-114 | the report grown with `+=` equals the rendered report: the id line, then the name line when there is a name, then the body, then the coverage block exactly when there are neighbours |
| Biodiversity.SortedScores | osa-streamlit-v3.py:56-59 | the sorted series pairs every group id with its own mean, in descending order of mean, and is a permutation of the groups |
| Biodiversity.SortedIdsCorrect | osa-streamlit-v3.py:59 | `sorted_assets` is the asset ids, each once, in non-increasing order of mean Shannon index |
| Biodiversity.SortedIdsDistinct | osa-streamlit-v3.py:59-61 | no asset id repeats, so no dictionary entry is overwritten |
| Biodiversity.MakeEntry | osa-streamlit-v3.py:62-120 | one loop pass produces the dictionary entry of that asset: its report, rank and name |
| Biodiversity.BuildEntries | osa-streamlit-v3.py:61-120 | the loop produces one entry per id, in order |
| Biodiversity.GenerateAssetReport | osa-streamlit-v3.py:52-122 | the dictionary has one entry per asset, in descending mean-Shannon order, each holding that asset's report and its rank among all assets |
| AnalysisTab.MissingColumns | osa-streamlit-v3.py:361-362 | a required column is listed iff it is absent, in the order shannon then simpson; the list is empty iff both are present |
| AnalysisTab.AnalyzeResults | osa-streamlit-v3.py:353-369 | nothing is shown without results; the error names the missing columns exactly when one is missing; otherwise the reports are generated, with distinct ids, already in rank order |
| AnalysisTab.SortByRankCorrect | osa-streamlit-v3.py:380-383 | the ranked view is in ascending rank and is a permutation of the entries |
| AnalysisTab.SortByRankKeepsSorted | osa-streamlit-v3.py:380-383 | entries already in ascending rank are left exactly as they are, because the sort is stable |
| AnalysisTab.SortedIdsRankAscending | osa-streamlit-v3.py:56-59 | along `sorted_assets` the ranks never decrease |
| AnalysisTab.RankedViewKeepsReportOrder | osa-streamlit-v3.py:380-383 | the ranked view lists the reports in the order `generate_asset_report` produced them |
| AnalysisTab.RankedOptions | osa-streamlit-v3.py:386-391 | there is one option per report |
| AnalysisTab.RankedViewShowsSelected | osa-streamlit-v3.py:380-406 | for distinct integer ids, choosing the option at position k shows the report of the entry at position k of the rank-sorted list |
| AnalysisTab.LabelRoundTrip | osa-streamlit-v3.py:388-401 | for an integer id, parsing the ranked label gives back that id, whatever the rank and the name |
| AnalysisTab.Lookup | osa-streamlit-v3.py:406 | `asset_reports[id]` finds an entry with that id; None (KeyError) exactly when no entry has it |
| AnalysisTab.LookupFinds | osa-streamlit-v3.py:406 | with distinct ids, looking up an entry's id finds that entry |
| AnalysisTab.ShownReportForIntIds | osa-streamlit-v3.py:401-408 | with integer ids, selecting an entry's label shows that entry's report |
| AnalysisTab.TextIdNotShown | osa-streamlit-v3.py:401 | an asset with the text id `H7` has a label that does not parse, so its report is never shown |
| AnalysisTab.ShownReportIsSelected | osa-streamlit-v3.py:395-408 | with distinct ids, selecting by position always finds the selected asset's report in the dictionary, whatever type the id has |
| AnalysisTab.AllReportsStart | osa-streamlit-v3.py:437-439 | the file opens with two newlines and one 80-dash rule, followed directly by the first report |
| AnalysisTab.AllReportsSnoc | osa-streamlit-v3.py:437-439 | each further report is appended after one blank line, leaving the text before it unchanged |
| AnalysisTab.AllReportsLength | osa-streamlit-v3.py:437-439 | the file's length is 82 characters of header and rule, plus the reports' lengths, plus two per blank line between consecutive reports |
| Strings.IntToStringRoundTrip | osa-streamlit-v3.py:401 | `int(str(i)) == i` for every integer |
| Strings.JoinLength | osa-streamlit-v3.py:226 | joining k parts inserts exactly k - 1 separators |
| Scenario.OneGroup | osa-streamlit-v3.py:56 | in the example, asset 1 is the only group, with mean Shannon index 6.2 / 3 |
| Scenario.OwnCell | osa-streamlit-v3.py:65-75 | in the example, the own cell reads Shannon 3.2, Simpson 0.25 and ecosystems ["Coral"], with no name |
| Scenario.Around | osa-streamlit-v3.py:78-114 | in the example, the neighbours average 1.5 and 0.35, and coral covers 50% |
| Scenario.FirstOfOne | osa-streamlit-v3.py:56 | in the example, the only asset ranks 1 |
| Scenario.SingleAssetReport | osa-streamlit-v3.py:52-122 | in the example, the asset is ranked 1 of 1, its own cell is Medium Biodiversity / Moderate Dominance with Coral, and its neighbourhood is Low Biodiversity / Moderate Dominance with 50% coral |

## Findings

| source | as written | input that shows it | evidently intended | confidence | as-written member | corrected member |
|---|---|---|---|---|---|---|
| osa-streamlit-v3.py:401-406 | the ranked view recovers the selected asset by running `int()` on the text after "Asset ID: " and looking that number up in the report dictionary | an asset whose id is text, such as `H7`; `int("H7")` raises ValueError, and an id read as the text `"7"` parses to 7, which is not the dictionary key | the report of the selected option's asset is shown for every id | not executed | AnalysisTab.TextIdNotShown | AnalysisTab.ShownReportIsSelected |

`AnalysisTab.ShownReportAsWritten` models the lookup as written. For integer
ids it works (`AnalysisTab.ShownReportForIntIds`). `AnalysisTab.ShownReport`
selects by the option's position instead, which is correct for every id.
In the program the ValueError is not caught, so the tab also stops before the
download button. The model's None does not capture that.

## Left out

- AIS.py is not part of this model. It holds OAuth requests with wall-clock dates and a float speed mean.
- The Streamlit interface is not modelled: page setup, session state, sidebar, slider, buttons, tabs, progress bar, spinners, messages and download buttons. The pure snippets of the analysis tab are modelled.
- The "Select by Asset ID" view (lines 410-434) is not modelled. Its `sorted()` over the dictionary keys depends on Python comparing mixed id types.
- File reading, the extension check and the encoding fallback (lines 131-141) are pandas I/O, so a `RawTable` of header and cells stands for the file.
- The h3 library is not modelled; its two functions are uninterpreted parameters. `latlng_to_cell` may raise on any input; which inputs make it raise (NaN, text, out-of-range coordinates) is left to the parameter. `grid_disk` is total, since it only receives cells that `latlng_to_cell` produced. Geometric facts such as "the disk holds its centre" are not assumed.
- The ODP client connection and the dataset lookup (lines 197-205) are a network call. The query result is an abstract function from the query text to an exception or a frame.
- Float rounding and formatting are not modelled. Indices are exact reals, and `:.3f` and `str(float)` are opaque parameters.
- pandas NaN semantics are not modelled. This covers NaN cells in the numeric columns, NaN means, NaN ranks and `int(NaN)`. Reports are built only for tables whose numeric columns are filled (`Biodiversity.Filled`). A cell a row lacks reads as 0, which, like NaN, is never positive. NaN asset ids are excluded from the groups, as `groupby` does.
- Biodiversity.GenerateAssetReport: requires `Analyzable` (both index columns present and no NaN). The program itself only calls it once both columns are present. The order among assets with equal means is the model's own stable choice; see `Ranking.SortDesc`.
- AnalysisTab.AnalyzeResults: requires a filled table, for the same NaN reason.
- Ranking.SortDesc: ties are kept in first-appearance order. pandas sorts the group keys first and does not guarantee a stable order among equal means. So only "descending and a permutation" is claimed, and no particular order among tied assets.
- NeighborhoodQuery.QueryOsaData: `list(hex6_set)` follows Python's hash order, so the order of the cells in each query is left open. The contract holds for whatever order was chosen; the ghost `queries` records those orders.
- Lower-casing, `capitalize` and `title` are modelled on ASCII letters only.
- `int()` is modelled without its tolerance of surrounding whitespace and underscores. The only text parsed is a label the program built itself.
- Two headers that become equal after lower-casing are not modelled as a pandas duplicate column. Each role takes the first match.
- The rank of an asset missing from `asset_ranks`, which the ranked view turns into `float('inf')`, is not modelled. Every asset in the dictionary has a rank, so that case never arises.
- The progress bar, the warnings' and errors' text, and the exception message are left out. The warnings are modelled as the list of ids that failed.
