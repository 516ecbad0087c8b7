# TMDB movie data analysis: transform step and report queries in Dafny

This project models the core of a small pandas pipeline over movie records fetched from
The Movie Database API, and proves properties of that model.

- **transform.py** turns raw movie records into the analysis table. Its six `extract_*`
  helpers flatten the nested `credits`, list-of-mappings and collection fields of one record.
  `transform()` then runs these steps in order:
  1. drop the denylisted columns;
  2. derive the four credits columns;
  3. join the name lists with `|`;
  4. reduce the collection to its name;
  5. coerce the numeric columns;
  6. parse the release date;
  7. treat zero budget, revenue and runtime as missing;
  8. convert money to millions;
  9. drop rows with fewer than ten non-missing fields;
  10. project onto the fixed final column list;
  11. append `profit` and `roi`.
- **visualization.py** holds the read-only report queries over that table:
  - the franchise/standalone partition and its column means;
  - the top-five franchise groups and the top-five director groups by total revenue;
  - the Bruce Willis science-fiction/action search;
  - the Uma Thurman / Quentin Tarantino search;
  - the genre split-and-explode that feeds the ROI box plot.

## Files

- `frame.dfy` (module `Frame`) holds the shared data model:
  - a cell `Value` is NA, a boolean, a real, a string, a list, a mapping or a timestamp;
  - a `Row` maps column names to cells, and an absent column reads as NA;
  - a `Table` has ordered column labels and rows;
  - `Result` carries the Python exception that aborts a computation.
- `text.dfy` (module `Text`): `"|".join`, `str.split("|")`, substring containment, and the round trips between them.
- `seqs.dfy` (module `Seqs`): boolean-mask selection and its complement, `sort_values` with NA keys last, and `head(n)`.
- `extract.dfy` (module `Extract`): the six helpers of transform.py.
- `transform.dfy` (module `Transform`):
  - `transform()` as a specification function `Transformed`, column-major as pandas runs it;
  - a row-wise description `PrepareRow`, proved to agree with it;
  - the imperative method `Transform`, with the source's two `for` loops. Its result is proved equal to `Transformed`.
- `transform_props.dfy` (module `TransformProps`): what the output table holds, stated per record and per column.
- `reports.dfy` (module `Reports`): the report queries of visualization.py.

`transform()` receives a data frame built from the list of records. The model takes the
list of records. The frame's columns are the keys that occur in some record, and a record
that lacks a key has NA in that column. pandas' text parsing for `pd.to_numeric` and
`pd.to_datetime` is passed in as the functions `number` and `date`.

### Behaviour worth knowing

- **Absent columns raise.** transform() reads several columns with `df[col]`, and each of
  those reads raises KeyError when no record has the column: `credits`, the four name-list
  columns, `belongs_to_collection`, the six numeric columns and `release_date`.
  - An empty record list therefore raises KeyError on `credits` (`TransformProps.EmptyInput`).
  - `Transform.PreparedOk` and `TransformProps.PrepareRowOk` together give the exact condition
    under which transform() succeeds.
- **Malformed nested values raise, but only where the helpers look.**
  - extract_cast reads only the first ten cast entries. Among those, an entry that is not a
    mapping, has no `name`, or has a `name` that is not a string makes it raise. Later entries
    are never read, and they count only towards `cast_size`.
  - extract_director stops at the first Director entry. A crew entry that is not a mapping
    raises only when it comes before that entry.
  - extract_names raises when an element is not a mapping, or carries a `name` that is not a
    string. An absent `name` reads as "".
- **The row filter counts before projection.** `dropna(thresh=10)` counts non-missing cells
  over every column present at that point, including `credits` and columns that the
  projection later drops.
- **`'count'` counts non-missing ids.** In the group summaries, `'count'` on `id` counts the
  non-missing ids of a group, not its rows.

## Model

Some functions have no contract of their own. A lemma beside each one states what it does:
- the whole-frame steps `Transform.CollectionStage`, `DateStage`, `ZeroStage`, `MusdStage` and
  `KpiStage` are stated by the matching `...StageCells` lemma;
- the row test `Transform.Complete` is stated by `TransformProps.CompleteRow`;
- `Reports.Members` is stated by `Reports.GroupMembership`;
- `Reports.ExplodeRow` is stated by `Reports.ExplodedRow`.

| member | source | states |
|---|---|---|
| Frame.Project | transform.py:86 | A row restricted to given labels has exactly those labels, each holding the row's cell (NA where the row lacks it). |
| Frame.ProjectRows | visualization.py:134 | Selecting columns keeps one row per row, in order, each restricted to the labels. |
| Extract.MapAll | transform.py:7 | A list comprehension over a helper succeeds iff the helper succeeds on every element; then the i-th result is the helper's value on the i-th element. |
| Extract.ExtractCast | transform.py:5-8 | Credits that are not a mapping with a `cast` key give NA. A cast list is read without error iff each of its first ten entries is a mapping with a string `name`, and then the field is a string. A cast string is read without error only when empty. Any other cast raises TypeError. |
| Extract.CastReadable | transform.py:7-8 | Slicing, reading and joining a cast list succeeds iff each of its first ten entries is a mapping with a string `name`. |
| Extract.CastOfNamedEntries | transform.py:5-8 | For a cast list whose first min(10, length) entries carry string names, whatever the later entries hold: the field is the `|`-join of those names in order; the cast size counts all entries; splitting the field gives the names back when no name holds a `|`. |
| Extract.CastJoined | transform.py:7-8 | Reading and joining the first ten named entries gives the `|`-join of their names. |
| Extract.FirstDirector | transform.py:12-14 | A crew with no Director entry gives NA. The first Director entry's `name` lookup is the result when every earlier entry is a mapping. A non-mapping entry met before any Director raises AttributeError. |
| Extract.ExtractDirector | transform.py:10-15 | Credits without a `crew` key give NA; a crew list gives the result of the first-Director scan over it. |
| Extract.ExtractCastSize | transform.py:17-20 | NA without a cast; otherwise the number of cast entries (all of them, not only the first ten). |
| Extract.ExtractCrewSize | transform.py:22-25 | NA without a crew; otherwise the number of crew entries. |
| Extract.ExtractNames | transform.py:27-30 | A non-list value gives NA. A list is read without error iff every element is a mapping whose `name`, if present, is a string, and then the field is a string. |
| Extract.NamesOfEntries | transform.py:27-30 | For mappings with string names (a missing name reads as ""): the field is their `|`-join in order. An empty list gives "". With n ≥ 1 names free of `|`, the field has n - 1 separators and splits back into the names. |
| Extract.ExtractCollection | transform.py:32-35 | The result is the mapping's `name` when it has one, and NA in every other case. |
| Text.Split | visualization.py:27 | Splitting on `|` always yields at least one part. |
| Text.Join | transform.py:7 | `"|".join` of no parts is "". A non-empty join begins with its first part and holds at least one separator fewer than it has parts. |
| Text.Contains | visualization.py:127-129 | `sub` occurs in `s` iff `s` is some prefix, then `sub`, then the rest (so `sub` is no longer than `s`). |
| Text.Surrounded | visualization.py:127-129 | `sub` occurs at position i iff `s` splits at i into the part before, `sub`, and the rest. |
| Text.ContainsInside | visualization.py:127-129 | Any string built around `sub` contains it. |
| Text.SplitCount | visualization.py:27 | Splitting yields one more part than the string has separators. |
| Text.SplitAtSep | visualization.py:27 | Splitting `a + "|" + b` is splitting `a`, then splitting `b`. |
| Text.SplitJoin | transform.py:7 | Splitting a join of n ≥ 1 parts that hold no `|` returns the parts. |
| Text.JoinSplit | visualization.py:27 | Joining the parts of any split rebuilds the string. |
| Text.JoinSeparators | transform.py:29 | Joining n ≥ 1 parts that hold no `|` inserts exactly n - 1 separators. |
| Seqs.Filter | visualization.py:87 | A mask keeps exactly the elements satisfying it and no more elements than the input has. |
| Seqs.FilterAppend | visualization.py:87 | Masking distributes over concatenation, so the relative order is kept. |
| Seqs.FilterIsSubseq | visualization.py:87 | The masked rows are a subsequence of the input. |
| Seqs.Reject | visualization.py:88 | The negated mask keeps exactly the elements failing the test. |
| Seqs.RejectIsSubseq | visualization.py:88 | The rows kept by the negated mask are a subsequence of the input. |
| Seqs.FilterComplement | visualization.py:87-88 | A mask and its negation together hold every input element exactly as often as the input does. |
| Seqs.InsertSorted | visualization.py:107 | Inserting into a sorted sequence keeps it sorted (NA keys last). |
| Seqs.InsertPermutes | visualization.py:107 | Inserting adds exactly the one element. |
| Seqs.SortBy | visualization.py:107 | `sort_values` returns a sequence sorted by the key, NA keys last, that is a permutation of its input. |
| Seqs.Take | visualization.py:109 | `head(n)` returns the first min(n, length) elements. |
| Seqs.TopOf | visualization.py:107-109 | Sorting then taking n gives min(n, length) sorted elements, each drawn from the input no more often than it occurs there. Every element left out ranks no higher than the last one kept. |
| Transform.ApplyColumn | transform.py:50 | `df[dst] = df[src].apply(f)` succeeds iff f succeeds on every row, and then row i holds row i updated with f of its source cell. |
| Transform.DropColumns | transform.py:47 | The drop keeps one row per record. |
| Transform.DroppedCells | transform.py:46-47 | The drop removes exactly the denylisted columns a record has, ignores absent ones, and leaves every other cell as it was. |
| Transform.CreditsStage | transform.py:50-53 | The credits step fails iff there is no `credits` column or some row's helper raises; on success each row is the four helpers applied to that row. |
| Transform.NamesStage | transform.py:56-58 | The name-list loop fails iff a listed column is absent or some row's `extract_names` raises; on success each row is updated one listed column after another. |
| Transform.Coerce | transform.py:65 | Coercion yields NA or a number. A number is kept and NA stays NA. Any other value becomes a number exactly when pandas parses it, and then holds the parsed number; otherwise it becomes NA. |
| Transform.NumericStage | transform.py:63-65 | The numeric loop fails iff a listed column is absent; otherwise it coerces each row's listed columns. |
| Transform.NumericRowCell | transform.py:63-65 | After the loop a listed column holds its coerced raw value, even if listed twice; every other column is untouched. |
| Transform.CollectionStageCells | transform.py:60 | The collection step raises KeyError without `belongs_to_collection`; otherwise each row gets the collection's name there and keeps every other cell. |
| Transform.ParseDate | transform.py:67 | A parsed date is NA or a timestamp: a timestamp exactly when the cell is not NA and pandas parses it, holding the parsed instant. |
| Transform.DateStageCells | transform.py:67 | The date step raises KeyError without `release_date`; otherwise each row gets its parsed date there and keeps every other cell. |
| Transform.ZeroAsMissing | transform.py:70 | The result is never zero: an exact zero becomes NA, and every other value is kept. |
| Transform.ZeroStageCells | transform.py:70 | Budget, revenue and runtime are each replaced by the zero-as-NA value; every other cell is kept. |
| Transform.Millions | transform.py:73-74 | The amount in millions is a number iff the amount is, and a million times it gives back the amount; otherwise NA. |
| Transform.MusdStageCells | transform.py:73-74 | `budget_musd` and `revenue_musd` are the budget and revenue in millions; every other cell is kept. |
| Transform.LateRow | transform.py:60-74 | The steps that cannot raise add exactly the columns they write. |
| Transform.LateSteps | transform.py:60-74 | Running collection, numeric, date, zero and money steps in source order gives, cell by cell, a function of each cell's own raw value (the money columns: of raw budget or revenue). |
| Transform.EarlyStages | transform.py:50-58 | The raising steps fail iff a column they read is absent or some row's helper raises; on success each row is its own early-step result. |
| Transform.LateStages | transform.py:60-74 | The non-raising steps fail only on an absent column they read; otherwise each row is its own late-step result. |
| Transform.Prepared | transform.py:46-74 | Run column by column over the whole frame, the steps up to the row filter give each row exactly what the same steps make of that record alone. |
| Transform.PreparedOk | transform.py:46-74 | Those steps succeed iff every column they read exists in some record and no helper raises on any record. |
| Transform.Profit | transform.py:89 | Profit is a number iff both money cells are, and then profit + budget = revenue; otherwise NA. |
| Transform.Roi | transform.py:90-91 | ROI is a number iff both money cells are numbers and the budget is non-zero (infinite quotients replaced by NA), and then roi × budget = revenue; otherwise NA. |
| Transform.Selected | transform.py:86 | A column is kept iff it is in the final list and in the frame (the derived columns always are). |
| Transform.WithKpis | transform.py:89-91 | The KPI step adds exactly `profit` and `roi`, computed from the row's money cells, and leaves every other cell as it was. |
| Transform.KpiStageCells | transform.py:89-91 | Every row gains `profit` and `roi` from its own money cells and keeps every other cell. |
| Transform.Transformed | transform.py:40-94 | transform() succeeds iff the steps before the row filter succeed, and otherwise raises their exception; it never returns more rows than records. |
| Transform.ApplyCredits | transform.py:50-53 | The four whole-column credits assignments compute the credits step. |
| Transform.ApplyNames | transform.py:56-58 | The `for col in json_columns` loop computes the name-list step; a loop invariant carries the remaining columns. |
| Transform.CoerceNumbers | transform.py:63-65 | The `for col in numeric_cols` loop computes the numeric step. |
| Transform.Transform | transform.py:40-94 | transform(), reassigning the frame step by step, returns exactly the specified table or the first exception. |
| TransformProps.NamesRowOther | transform.py:56-58 | The name-list loop leaves every unlisted column untouched. |
| TransformProps.NamesRowListed | transform.py:56-58 | A column listed once ends up holding `extract_names` of its original value. |
| TransformProps.NamesRowKeys | transform.py:56-58 | The name-list loop adds no column beyond the listed ones. |
| TransformProps.CreditsCells | transform.py:50-53 | The four derived columns hold the helpers' results on the credits cell. |
| TransformProps.CreditsOther | transform.py:50-53 | The credits step leaves every other column, present or absent, as it was. |
| TransformProps.MoneyInMillions | transform.py:65-74 | A money column in millions is NA exactly when the coerced raw amount is NA or zero; otherwise it is that amount divided by a million, and never zero. |
| TransformProps.EarlyCredits | transform.py:46-53 | After the drop and the early steps, the credits columns hold the helpers' results on the raw credits cell. |
| TransformProps.EarlyNames | transform.py:46-58 | After the early steps, each name-list column holds `extract_names` of its raw cell. |
| TransformProps.EarlyOther | transform.py:46-58 | The early steps leave the columns the later steps read as in the raw record. |
| TransformProps.PreparedCredits | transform.py:50-53 | In a prepared record the credits columns hold the helpers' results on the raw credits cell. |
| TransformProps.PreparedNames | transform.py:56-58 | In a prepared record each name-list column holds `extract_names` of its raw cell. |
| TransformProps.PreparedLateCell | transform.py:60-74 | In a prepared record the collection, numeric, date and money columns depend on the raw record only through their own cells (and raw budget or revenue). |
| TransformProps.NamesRowOk | transform.py:56-58 | Over distinct columns, the name-list loop succeeds iff `extract_names` succeeds on each listed column's original cell. |
| TransformProps.PrepareRowOk | transform.py:46-74 | A record gets through the steps before the row filter iff the four credits helpers read its credits cell and `extract_names` reads each of its name-list cells. |
| TransformProps.CompleteRow | transform.py:77 | A row with fewer than ten columns never passes `dropna(thresh=10)`, and an NA cell counts the same as an absent one. |
| TransformProps.ColumnLists | transform.py:46-86 | The name-list columns are distinct. The credits columns are written by no other step. Name-list and late columns are disjoint and never denylisted. Every derived column is final, and no denylisted column is final or a KPI column. |
| TransformProps.LateCellCongruent | transform.py:60-74 | Two records that agree on a column and on the raw budget and revenue agree on that column after the late steps. |
| TransformProps.EmptyInput | transform.py:50 | An empty record list raises KeyError on `credits`. |
| TransformProps.DenylistIgnored | transform.py:46-47 | Dropping the denylisted columns beforehand does not change the output: absent ones are ignored and the rest have no effect. |
| TransformProps.TransformedParts | transform.py:77-91 | A successful transform() is the filtered, projected prepared rows with KPI columns appended. |
| TransformProps.SelectedColumns | transform.py:80-86 | The kept columns are exactly the final-list entries present in the frame, in list order. The six derived columns are always among them and no denylisted column ever is. |
| TransformProps.Finished | transform.py:86-91 | An output row has exactly the selected columns plus `profit` and `roi`, with the prepared row's cells in the selected ones. |
| TransformProps.FinishedRows | transform.py:77-91 | The output rows are, in order, one finished row per prepared row with at least ten non-missing cells. |
| TransformProps.FinishedColumns | transform.py:86-91 | Every output row has exactly the selected and KPI columns. |
| TransformProps.OutputColumns | transform.py:80-91 | The output's column labels are the present final-list columns in order, then `profit` and `roi`, and every row has exactly those. |
| TransformProps.OutputRows | transform.py:77-86 | The output holds, in input order, one finished row for each record whose prepared row has at least ten non-missing cells, and no other. |
| TransformProps.PreparedBudgets | transform.py:70-73 | No prepared row has a zero budget in millions. |
| TransformProps.FinishedKpisAll | transform.py:89-91 | When budgets are NA or non-zero, every output row's profit and ROI are numbers exactly when both money cells are, and equal the difference and the quotient. |
| TransformProps.FinishedKpis | transform.py:89-91 | The same for one output row. |
| TransformProps.OutputKpis | transform.py:89-91 | In every output row profit and ROI are numbers exactly when both money cells are, equal the difference and the quotient, and ROI is never lost to a zero budget. |
| Reports.Require | visualization.py:90 | Selecting columns succeeds iff all are present; otherwise it raises KeyError naming the first absent one. |
| Reports.Partition | visualization.py:86-88 | The `notna()`/`isna()` masks succeed iff the collection column exists. They split the rows into two order-keeping subsequences (rows with a collection, rows without) that together hold every row exactly once. |
| Reports.Numbers | visualization.py:90 | A column has at most one number per row. |
| Reports.NumbersOfColumn | visualization.py:90 | The numbers of a column are exactly the values of its numeric cells. |
| Reports.Mean | visualization.py:90-91 | A mean exists iff there is a number; it times the count is the sum. |
| Reports.Means | visualization.py:90-91 | One mean per statistic column. |
| Reports.FranchiseVsStandalone | visualization.py:86-91 | The statistics succeed iff the collection and the five statistic columns exist; each side's entries are the means of its non-NA values. |
| Reports.SumAppend | visualization.py:90 | Sums add over concatenation. |
| Reports.NumbersAppend | visualization.py:90 | A column's numbers over concatenated rows are the two parts' numbers concatenated. |
| Reports.PartitionTotals | visualization.py:87-91 | Over any column the two sides' counts and sums of non-NA values add up to those of the whole table. |
| Reports.Keys | visualization.py:100 | The group keys are the distinct non-NA values of the key column, each once. |
| Reports.Present | visualization.py:101 | `'count'` is at most the number of rows in the group. |
| Reports.PresentNone | visualization.py:101 | `'count'` is zero iff no row of the group has an id. |
| Reports.MeanAgrees | visualization.py:102-103 | A mean times the number of values it averages is their sum, and a column with no values sums to 0. |
| Reports.CollectionStatsOf | visualization.py:100-105 | A group's count is at most its row count. Its budget and revenue means agree with their sums (mean × number of values = sum, and sum 0 when no value is present), and its vote mean agrees with the sum of its votes. |
| Reports.DirectorStatsOf | visualization.py:115-118 | A director's count is at most the group's row count. Its revenue sum is the mean revenue times the number of revenues (0 when none is present), and its vote mean agrees with the sum of its votes. |
| Reports.CollectionGroups | visualization.py:100-105 | One aggregate per collection key, in key order. |
| Reports.DirectorGroups | visualization.py:115-118 | One aggregate per director key, in key order. |
| Reports.GroupMembership | visualization.py:100 | A row with an NA key is in no group. A row with a key is in the group of that key and in no other. |
| Reports.CollectionGroupContents | visualization.py:100-105 | Each franchise group aggregates exactly the rows carrying its name: the count of their present ids and the sums of their non-NA budgets and revenues. |
| Reports.DirectorGroupContents | visualization.py:115-118 | Each director group aggregates exactly that director's rows: the count of present ids and the sum of non-NA revenues. |
| Reports.CollectionTop | visualization.py:107-109 | Sorting franchise groups by revenue sum and taking five gives the five best, in order. |
| Reports.FranchiseGroups | visualization.py:98-109 | Succeeds iff the five columns it reads exist. It returns min(5, #groups) distinct groups of the rows with a collection, sorted by descending revenue sum. Any group left out has a revenue sum no larger than the fifth one's. |
| Reports.DirectorTop | visualization.py:119-121 | Sorting director groups by revenue sum and taking five gives the five best, in order. |
| Reports.DirectorGroupsTop | visualization.py:113-121 | The same promise per director over all rows; rows with no director belong to no group. |
| Reports.Search | visualization.py:126-132 | A mask followed by a sort returns exactly the matching rows, each as often as in the input, sorted by the key with NA keys last. |
| Reports.Has | visualization.py:127-129 | `str.contains(sub, na=False)` matches only a string cell that holds `sub`; an NA or non-string cell never matches. |
| Reports.SearchBruceWillis | visualization.py:125-134 | Succeeds iff the four columns it reads exist. It returns the title/genres/vote_average projection of the sorted matches. |
| Reports.SearchTarantino | visualization.py:138-146 | Succeeds iff the four columns it reads exist. It returns the title/runtime/director projection of the sorted matches. |
| Reports.SearchResult | visualization.py:132-134 | Projecting a sorted search onto columns that include the key keeps it sorted, one projected row per match and no other. |
| Reports.ProjectKeepsOrder | visualization.py:134 | Projecting onto columns that include the sort column keeps the order. |
| Reports.ProjectKeepsRows | visualization.py:134 | Every match appears projected in the output, and every output row is a projected match. |
| Reports.BruceWillisResult | visualization.py:125-134 | Every returned movie has string genres containing "Science Fiction" and "Action" and a string cast containing "Bruce Willis". Every such movie is returned. Results run by descending vote average, NA last. |
| Reports.TarantinoResult | visualization.py:138-146 | Exactly the movies whose cast names Uma Thurman and whose director is exactly "Quentin Tarantino", by ascending runtime, NA last. |
| Reports.Tokens | visualization.py:27 | A genres string yields one token per separator plus one, each a string free of `|`. Any other cell yields a single NA. |
| Reports.Exploded | visualization.py:26-27 | At least one entry per row that survives `dropna()`, each carrying the non-NA ROI of such a row. |
| Reports.GenreExplode | visualization.py:26-27 | Succeeds iff `genres` and `roi` exist, and then it is the row-by-row explode. |
| Reports.ExplodedAppend | visualization.py:27 | The explode works row by row and keeps the row order. |
| Reports.ExplodedRow | visualization.py:26-27 | A row with NA genres or ROI contributes nothing. A string genres cell contributes one entry per `|`-token (separators + 1), each with the row's ROI, and the tokens joined with `|` give back the cell. A non-string genres cell gives one NA entry. |
| Reports.GenreNames | visualization.py:27 | One genre string per entry, equal to the entry's genre when it is a string. |

## Left out

- Fetching, loading, saving and the pipeline driver are outside the core, as are the
  `print` calls, every plot and `save_plot`.
  - Not modelled: Extraction_Files/extract.py, load.py and pipeline.py; `plot_revenue_vs_budget`,
    `plot_popularity_vs_rating`, `plot_yearly_avg_revenue`, `plot_franchise_vs_standalone` and
    `generate_all_visualizations`.
  - Of `plot_roi_by_genre` only the split and explode are modelled, not the box plot built from them.
- pandas' text-to-number and text-to-date parsing are parameters, not models.
  - `Transform.Coerce`: a list or mapping cell goes to the parameter like any other
    non-number. The model therefore does not capture pandas raising TypeError on such cells
    even with `errors="coerce"`.
- Floating point is modelled as exact reals: rounding, NaN and infinity are not modelled.
  NaN and NA are one value, and `Transform.Roi` reads "the quotient is infinite" as
  "the budget is zero".
- Money columns read as numbers for sums and means only when they hold numbers; any other
  non-NA value is skipped where pandas would raise a TypeError.
  - `Reports.Numbers`: this leaves out the TypeError.
  - `Reports.VoteKey` and `Reports.RuntimeKey`: these leave out the TypeError of sorting a
    mixed column; non-numeric keys sort last with the NA keys.
- `Reports.Has`: the `.str` accessor's AttributeError on a column with no string values is not
  modelled. A non-string cell simply never matches, as `na=False` makes an NA cell never match.
- `Reports.Tokens`: the `.str` accessor's AttributeError on a genres column with no string
  values is not modelled, so `Reports.GenreExplode` does not raise it. transform()'s output
  never has such a column: its genres cells are the strings `extract_names` builds, or NA.
- `Reports.Keys`: groups come in order of first appearance, while pandas sorts group keys. The
  contracts state only sorted-by-revenue and membership, so the order matters only among groups
  with equal revenue sums. Unhashable group keys (lists, mappings), which pandas rejects, are
  accepted.
- `Seqs.SortBy`: an insertion sort stands for pandas' quicksort, so ties may come out in a
  different order. The contracts state only sortedness and permutation, which both sorts meet.
- `Reports.Require`: when several selected columns are absent, pandas names all of them in one
  KeyError; the model names the first.
- The statistics `print`ed by `franchise_vs_standalone_stats` are returned instead.
