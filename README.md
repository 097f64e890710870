# COVID-19 and employment dashboard: data preparation

A model of the tables the dashboard in `app.py` builds when it starts.
Three tables are loaded: per-country COVID statistics ("worldometer"),
per-country employment figures, and daily per-location case records.
`app.py` then does the following:

- It normalises the country names on both sides of the join.
- It inner-joins the statistics with the employment table on that name.
- It labels each joined row with a continent from a fixed five-entry mapping.
- It sorts the joined rows by total deaths, largest first.
- It numbers animation frames of ten rows each.
- From the daily records, it builds a monthly case summary per location,
  sorted by location and then by month.

The dashboard uses two further pieces that are modelled as well: the
country dropdown lists each country of the merged table once, and the bar
chart callback picks out the rows of the selected country to highlight.

Modules:

- `Tables`: the rows.
  - Missing values are `Option` (pandas' NaN).
  - Columns added in place by a later statement are `Column` (`Absent` before the statement, `Present` after).
  - The module also defines the lexicographic string order used by the sort.
- `Sorting`: a sort by a total preorder. It promises a sorted permutation and nothing about ties.
- `Normalize`: lines 11-12.
- `Join`: lines 14-18.
- `Continent`: lines 20-26 and 43.
- `Frames`: lines 44-45.
- `Monthly`: lines 28-39.
- `Options`: line 76 and lines 232-233.
- `Pipeline`:
  - The module-level tables as the fields of the class `DataContext`.
  - One method per statement that rewrites a table.
  - `Prepare`, which runs those methods in file order.
  - Lemmas about the finished tables.

## Model

| member | source | states |
|---|---|---|
| Normalize.ReplaceCountryRegion | app.py:11 | A cell equal to the replaced value becomes the replacement. Every other row is unchanged, and no other cell of any row changes. |
| Normalize.ReplaceCountry | app.py:12 | The same as ReplaceCountryRegion, for the employment table's `country` column. |
| Normalize.NormalizeWorldometer | app.py:11 | The row count is kept, and no row is named "USA" afterwards. |
| Normalize.NormalizeEmployment | app.py:12 | Replacing "United States" by itself leaves the employment table exactly as it was. |
| Normalize.ReplaceCountryRegionRemoves | app.py:11 | A value replaced by a different one never remains. Every result name is either the replacement or the row's old name. |
| Normalize.NormalizeWorldometerRows | app.py:11 | Exactly the rows named "USA" are renamed "United States", and every other cell is kept. |
| Join.MatchesOf | app.py:14-18 | The rows one left row forms with the right table are exactly its pairs with equal-keyed right rows. |
| Join.InnerJoin | app.py:14-18 | Sound: every joined row pairs a left and a right row with equal keys. Complete: every such pair occurs. |
| Join.JoinSize | app.py:14-18 | The join has as many rows as there are matching (left index, right index) pairs. |
| Join.MatchesOfCount | app.py:14-18 | One left row's matches hold each merged row once per right index that matches it and gives that row. |
| Join.JoinCount | app.py:14-18 | Each merged row occurs in the join once per matching (left index, right index) pair that gives it, so duplicate keys and duplicate rows give the full cross product. |
| Join.MatchedRows | app.py:14-18 | Keeps exactly the left rows that have a partner on the right, each with all its copies, and no other row. |
| Join.UnmatchedRowsContributeNothing | app.py:17 | Under `how="inner"`, removing the unmatched left rows first leaves the join unchanged. |
| Join.JoinAppend | app.py:14-18 | One more left row appends exactly its own matches to the join. |
| Continent.ContinentOf | app.py:43 | The per-cell `map(continent_mapping)`: the mapping's value, or NaN on a miss. It is a lookup with no contract of its own. Its properties are stated by Continent.ContinentOfCases. |
| Continent.WithContinent | app.py:43 | Each row gets the mapping's value for its Country/Region, or NaN on a miss. Nothing else changes. |
| Continent.ContinentOfCases | app.py:20-26 | The lookup hits exactly the five keys. Only "USA" maps to "North America". |
| Continent.NoRowIsNorthAmerica | app.py:11-43 | Line 11 runs before line 43, so no merged row is labelled "North America", and a United States row gets NaN. |
| Frames.DeathsBeforeIsTotalPreorder | app.py:44 | The descending order by TotalDeaths, with NaN last, is total and transitive. |
| Frames.SortByDeaths | app.py:44 | The result is a permutation of the rows. TotalDeaths is non-increasing down the table, and missing counts come after all present ones. |
| Frames.WithFrames | app.py:45 | Row i gets frame i // 10, and no other cell changes. |
| Frames.FrameSizes | app.py:45 | Every frame before the last holds 10 rows, the last one holds the remaining 1-10, and later frames hold none. |
| Frames.FramesContiguous | app.py:45 | Frames never decrease, run from 0 to (n-1)//10, and frame f begins at row 10f. |
| Frames.TwentyFiveRows | app.py:45 | 25 rows give frames of sizes 10, 10 and 5, and nothing beyond them. |
| Monthly.MonthStart | app.py:30 | The per-cell `dt.to_period('M').dt.to_timestamp()`: the first day of the date's month. Its properties are stated by Monthly.MonthStartProperties. |
| Monthly.MonthStartProperties | app.py:30 | Truncation to the month start is idempotent and lands on day 1. Two dates share a month start exactly when they share year and month. |
| Monthly.WithMonthStart | app.py:30 | Every record gets the first day of its date's month, and no other cell changes. |
| Monthly.AddCaseSums | app.py:32-34 | Adding one record raises its own group's sum by its cases and no other group's sum. |
| Monthly.AddCaseKeys | app.py:32-34 | Adding one record adds its key to the group keys and changes no other key. |
| Monthly.AddCaseUnique | app.py:32-34 | Adding one record keeps the group keys unique. |
| Monthly.GroupSums | app.py:32-34 | There is one row per (location, month) that occurs, the keys are unique, and each group's total equals the reference sum of its records' new cases, with NaN counting 0. |
| Monthly.CasesAtEntry | app.py:32-34 | With unique keys, looking a group up by its key returns that row's total. |
| Monthly.UniqueKeysPermutation | app.py:39 | Reordering the summary keeps its keys unique. |
| Monthly.MonthlyBeforeIsTotalPreorder | app.py:39 | The order by location, then month, is total and transitive. |
| Monthly.PermutedGroups | app.py:39 | Any reordering of the grouped rows keeps the same keys, the uniqueness and the totals. |
| Monthly.MonthlySummary | app.py:32-39 | Exactly the keys of the records, each once, with the reference sums, sorted by location and then month. |
| Monthly.SummarySorted | app.py:39 | The summary is strictly increasing: by location, and by month within one location. |
| Monthly.SingleKeySummary | app.py:32-39 | Records that all share one key give a one-row summary holding their total. |
| Monthly.FiveAndSevenMakeTwelve | app.py:32-39 | Two March records of one location, with 5 and 7 cases, give the single row (March 1, 12). |
| Options.FirstIndex | app.py:76 | Returns a position holding the value with no earlier occurrence. |
| Options.FirstIndexUnique | app.py:76 | That position is the only one with this property. |
| Options.Distinct | app.py:76 | `unique()` gives the same set of values, each once, in order of first occurrence. |
| Options.DropdownOptions | app.py:76 | A name is an option exactly when some merged row has it as country. Options are duplicate-free and in first-occurrence order. |
| Options.RowsOf | app.py:233 | The filter keeps every row of the country with its multiplicity, and no other row. |
| Options.Highlight | app.py:232-233 | An unset or empty selection highlights nothing. Otherwise the result is the country's rows, and it is non-empty exactly when the country occurs. |
| Pipeline.ContinentJoin | app.py:11-43 | merged_data after line 43: the labelled join of the normalised tables. Its properties are stated by Pipeline.ContinentJoinRows. |
| Pipeline.EnrichedTable | app.py:11-45 | merged_data after line 45: ContinentJoin sorted by deaths and framed. Its properties are stated by Pipeline.EnrichedTableIsRankedJoin and Pipeline.EnrichedTableRows. |
| Pipeline.ContinentJoinRows | app.py:11-43 | Before the sort, every row pairs equal keys, has no frame yet, and carries its name's continent, which is never "North America". |
| Pipeline.EnrichedTableIsRankedJoin | app.py:11-45 | The final merged table has one row per matching pair. Frames aside, it is a permutation of the labelled join. Deaths are non-increasing, and every row has its rank's frame. |
| Pipeline.EnrichedTableRows | app.py:11-45 | Every final row pairs equal-keyed rows of the normalised tables and carries its continent, never "North America". |
| Pipeline.JoinedRowSurvives | app.py:43-45 | Every joined row's employment record is still present after labelling, sorting and framing. |
| Pipeline.OptionsAreJoinedCountries | app.py:11-76 | The dropdown lists exactly the countries present in both normalised tables. |
| Pipeline.UnitedStatesJoinedOnce | app.py:11-18 | With one "USA" statistics row, no "United States" statistics row, and one "United States" employment row, the join pairs the renamed row with that employment row exactly once, and every United States row of the join is that pair. |
| Pipeline.UnitedStatesLabelledOnce | app.py:11-43 | In the same situation, after line 43 that row occurs once, with continent NaN, and it is the only United States row. |
| Pipeline.UnitedStatesMatchedOnce | app.py:11-45 | In the same situation, the final merged_data has exactly one row whose country is "United States", and it pairs the renamed statistics row with the employment row. |
| Pipeline.MonthlyTableIsSummary | app.py:28-39 | The summary has a row for (location, month) exactly when some record falls there, and each row holds the reference sum. |
| Pipeline.DataContext.constructor | app.py:7-9 | Holds the three loaded tables. merged_data and monthly_data do not exist yet. |
| Pipeline.DataContext.NormalizeCountryNames | app.py:11-12 | Rewrites both key columns in place. The other tables are unchanged. |
| Pipeline.DataContext.MergeTables | app.py:14-18 | merged_data becomes the inner join of the current tables. |
| Pipeline.DataContext.AddMonthStart | app.py:30 | Adds month_start_date to covid_data. |
| Pipeline.DataContext.SummarizeMonths | app.py:32-39 | Builds monthly_data from covid_data. This needs month_start_date to be present. |
| Pipeline.DataContext.AddContinent | app.py:43 | Adds the continent column to merged_data. |
| Pipeline.DataContext.SortByDeaths | app.py:44 | Rebinds merged_data to its sorted permutation. |
| Pipeline.DataContext.AddFrames | app.py:45 | Adds the frame column. Afterwards every row carries its rank's frame. |
| Pipeline.Prepare | app.py:7-45 | Runs the statements in file order. The final tables are the normalised statistics, the month-stamped records, the enriched merged table and the monthly summary. |

## Left out

- Reading the three CSV files (lines 7-9): the tables are constructor parameters.
- Date parsing (line 28): dates arrive already parsed as year, month and day.
- The printed tail of monthly_data (line 41).
- Starting the server (around line 274).
- The float columns Population_Scaled, gender_employment_ratio and employment_impact (lines 47-56): this is floating-point arithmetic. The raw numbers they come from are carried in the rows.
- The Dash layout and Plotly figures:
  - the figures themselves, only the rows they are drawn from are modelled;
  - `nlargest(10, 'TotalCases')` (line 176);
  - the scatter and line charts.
- The columns of the three tables: only those that the preparation or the dashboard's charts read, or that the preparation writes, are modelled. TotalCases, Tests/1M pop and the labour dependency ratio are read only by the charts, which are left out, so they are carried through the rows without being used.
  - Counts are unbounded integers.
  - The employment percentages and ratios are reals.
- NaN as a join key or group key: names, locations and dates are never missing in the model. In pandas, NaN keys are dropped by the groupby.
- Frames.SortByDeaths: ties are not ordered. `sort_values` with its default algorithm is not stable, so its contract states only a permutation sorted by deaths. The function itself is an insertion sort, so it is one admissible order. `Pipeline.Prepare`'s equality `d.merged == EnrichedTable(w, e)` fixes that one order. Of pandas, only the order-free properties are claimed: the permutation, the order by deaths, the frames by rank and the lemmas about them.
- Join.InnerJoin: the model lists rows in left-table order, each followed by its matches in right-table order. For an inner merge, pandas keeps the order of the left keys. The order-free statements are the ensures of InnerJoin, MatchesOf and MatchedRows, together with JoinSize, MatchesOfCount and JoinCount. Two lemmas, JoinAppend and UnmatchedRowsContributeNothing, compare whole sequences, so they also fix the model's left-row order, which agrees with the documented left-key order. `Pipeline.Prepare`'s equality `d.merged == EnrichedTable(w, e)` fixes one admissible order as well. The Pipeline lemmas are stated by membership, multiset and rank, so they are order-free.
- Monthly.MonthlySummary: the groupby's own sorted key order is not modelled separately. Line 39 sorts again, and the keys are unique, so the final order is fixed by line 39 alone.
- The drop of a `date` column (lines 36-37): the summary has no `date` column, so this never happens.
- Repeated preparation gives the same tables, because every result is a function of the loaded tables. No separate lemma states this.
