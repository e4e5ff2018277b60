# Salary preprocessing pipeline, modelled in Dafny

This project models the table transforms of `src/preprocessing_utils.py`, the
preprocessing stage of a data-career salary forecasting repository. The
pipeline takes a table of salary records and does the following, in a fixed order:

1. removes duplicate rows;
2. keeps the years 2020 to 2025;
3. keeps AI, ML and data roles by keyword;
4. drops salary outliers;
5. drops rows that lack a critical value;
6. adds readable labels for the experience, employment and company-size codes;
7. adds a remote-work category;
8. adds a salary band.

It then builds three aggregate tables (by year, by year and experience level, and
by year and company size) and a summary record.

Tables are values: `Table.Table` holds the set of columns the table has, the
names of the columns the pipeline never reads, and a sequence of `Table.Record`
rows. A missing cell is `None`. A stage that raises in the source returns
`Err`, with `MissingColumn`, `EmptyTable` (a division by the row count of an
empty table) or `InvalidBins` (`pd.cut` rejects its edges or labels).

Modules, one per file:

- `wrappers.dfy`: `Option` and `Result`.
- `seqops.dfy`: the sequence operations the stages are built from, with their
  laws. These are selection by a predicate (a boolean mask), keep-first
  de-duplication (`drop_duplicates`), and the minimum and maximum.
- `table.dfy`: columns, records, tables and errors. It also has `WellFormed`:
  a column the table lacks is `None` in every row.
- `cleaning.dfy`: `remove_duplicates`, `filter_by_years`,
  `filter_ai_ml_roles`, `remove_salary_outliers`, and the critical-value drop.
- `features.dfy`: `standardize_categories`, `categorize_remote` and
  `create_remote_category`, and `create_salary_bands` (right-closed bins, as
  `pd.cut`).
- `grouping.dfy`: a sorted group-by with per-group counts, proved to partition
  the rows it counts.
- `aggregation.dfy`: `aggregate_by_year`, `aggregate_by_experience` and
  `aggregate_by_company_size`.
- `summary.dfy`: `get_preprocessing_summary`.
- `pipeline.dfy`: `full_preprocessing_pipeline`, a method that runs the stages
  in order and stops at the first error.
- `scenarios.dfy`: worked examples on small concrete tables.

Where the code and its documented behaviour differ, the model follows the code:

- `pd.cut` is called without `include_lowest`, so the lowest band is open at 0.
  A salary of 0 or less gets no band (`Features.DefaultBandsCoverPositive`).
- `remove_duplicates` divides by the row count in its progress message, so it
  fails on an empty table.
- `get_preprocessing_summary` divides by the ORIGINAL row count, so it fails only
  when the loaded table is empty. An empty cleaned table does not fail.
- A `groupby` drops rows whose key is absent, and its `count` counts only present
  salaries. The per-group counts therefore add up to the rows with a present key
  and a present salary, not to all rows. The groups come out sorted by key.
- A missing column raises `ValueError` or `KeyError`, modelled as `MissingColumn`
  of the first column checked.

## Model

| member | source | states |
|---|---|---|
| Cleaning.RemoveDuplicates | src/preprocessing_utils.py:89-95 | fails exactly on an empty table; otherwise the columns are unchanged, no two rows are equal, every input row is still present, rows keep their order, and each kept row is the first occurrence of its value |
| SeqOps.DedupUnique | src/preprocessing_utils.py:90 | de-duplication leaves no two equal rows, keeps every distinct row, is a subsequence of the input and is no longer |
| SeqOps.DedupKeepsFirst | src/preprocessing_utils.py:90 | surviving rows appear in the order of their first occurrences in the input |
| SeqOps.DedupOfDistinct | src/preprocessing_utils.py:90 | a table without duplicate rows is left as it is |
| SeqOps.DedupIdempotent | src/preprocessing_utils.py:90 | de-duplicating twice is de-duplicating once |
| SeqOps.DedupFilterCommute | src/preprocessing_utils.py:90-122 | de-duplication commutes with any row filter, so de-duplicating first or last gives the same rows |
| Cleaning.FilterByYears | src/preprocessing_utils.py:118-122 | fails iff `work_year` is missing; otherwise keeps exactly the rows with start <= year <= end (absent year is out), in order, with multiplicities, columns unchanged |
| Cleaning.Keywords | src/preprocessing_utils.py:153-161 | a missing or empty custom keyword list falls back to the 17 default keywords; a non-empty one is used as given |
| Cleaning.Lower | src/preprocessing_utils.py:165 | lower-casing keeps the length and leaves no upper-case ASCII letter |
| Cleaning.FilterAiMlRoles | src/preprocessing_utils.py:149-166 | fails iff `job_title` is missing; otherwise keeps exactly the rows whose lower-cased title contains some keyword as a substring; an absent title never matches |
| Cleaning.UpperCaseKeywordNeverMatches | src/preprocessing_utils.py:163-165 | a keyword with an upper-case letter can never match, because titles are lower-cased and keywords are not |
| Cleaning.RemoveSalaryOutliers | src/preprocessing_utils.py:196-203 | fails iff `salary_in_usd` is missing; otherwise keeps exactly the rows with min <= salary <= max (absent salary is out), in order |
| Cleaning.RemoveSalaryOutliersIdempotent | src/preprocessing_utils.py:196-203 | removing outliers twice with the same bounds equals removing them once |
| Cleaning.FirstMissing | src/preprocessing_utils.py:539-541 | finds the first critical column, in the order `work_year`, `salary_in_usd`, `experience_level`, `employment_type`, that the table lacks (every column before it is present), or reports that all are present |
| Cleaning.DropMissingCritical | src/preprocessing_utils.py:538-541 | fails iff one of the four critical columns is missing, naming the first missing one in that order; otherwise keeps exactly the rows where year, salary, experience code and employment type are all present, and no row that has all four is removed |
| Features.Lookup | src/preprocessing_utils.py:229-258 | `Series.map(dict)`: a known code gives its label; an unknown or absent code gives absent |
| Features.LabelColumns | src/preprocessing_utils.py:234-258 | each `*_full` column is added iff its code column exists, and nothing else is added |
| Features.StandardizeCategories | src/preprocessing_utils.py:227-261 | keeps the row count and every existing column's values; each added `*_full` value is the lookup of its code |
| Features.CategorizeRemote | src/preprocessing_utils.py:283-289 | Onsite iff the ratio is 0, Remote iff it is 100, Hybrid otherwise, including for absent or out-of-range values |
| Features.CreateRemoteCategory | src/preprocessing_utils.py:278-291 | fails iff `remote_ratio` is missing; otherwise adds only `remote_category`, the category of each row's ratio, and keeps the row count |
| Features.BinFrom | src/preprocessing_utils.py:330-334 | finds the first bin (edges[k], edges[k+1]] at or after `from` that holds the salary, or reports that none does |
| Features.BinsDisjoint | src/preprocessing_utils.py:330-334 | with non-decreasing edges, a salary lies in at most one bin |
| Features.BinIndexExact | src/preprocessing_utils.py:330-334 | the bin found is bin i exactly when the salary lies in bin i |
| Features.BinsCover | src/preprocessing_utils.py:330-334 | a salary above the first edge and at most the last lies in some bin |
| Features.BinsMonotone | src/preprocessing_utils.py:330-334 | a larger salary never falls in an earlier bin |
| Features.DefaultCutValid | src/preprocessing_utils.py:324-328 | the default edges 0, 50000, 100000, 150000, 200000, unbounded and the five default labels are accepted by `pd.cut` |
| Features.DefaultBandsCoverPositive | src/preprocessing_utils.py:324-334 | with the defaults a salary gets a band iff it is above 0 |
| Features.CreateSalaryBands | src/preprocessing_utils.py:318-334 | fails on a missing salary column or rejected edges/labels; otherwise adds only `salary_band`, which is label k iff the salary lies in bin k, and keeps the row count |
| Grouping.AddRowKeepsOrder | src/preprocessing_utils.py:359 | adding a row to sorted groups keeps them sorted by key |
| Grouping.AddRowCounts | src/preprocessing_utils.py:359 | adding a row adds its key to the key set, bumps its key's count by one if the salary is present, and changes no other count |
| Grouping.SortedGroupsCardinality | src/preprocessing_utils.py:359 | sorted groups have pairwise distinct keys, one group per key |
| Grouping.GroupByCorrect | src/preprocessing_utils.py:359-367 | the groups are sorted, their keys are exactly the present keys, each count is the number of present salaries of its key, and the counts add up to the rows with a present key and salary |
| Grouping.GroupByFacts | src/preprocessing_utils.py:359-367 | one group per distinct present key, sorted and distinct, counts as above: the groups partition the counted rows |
| Grouping.PairLessIsOrder | src/preprocessing_utils.py:388 | the (year, label) key order of a two-column group-by is a strict total order |
| Aggregation.AggregateByYear | src/preprocessing_utils.py:356-367 | fails iff `work_year` or `salary_in_usd` is missing; otherwise one sorted row per distinct year, counts partitioning the rows with year and salary, and each row's min and max are the least and greatest salary of that year |
| Aggregation.AggregateByYearAndLabel | src/preprocessing_utils.py:384-423 | fails iff year, label or salary column is missing; otherwise one sorted row per distinct (year, label) present, counts partitioning the counted rows |
| Aggregation.AggregateByExperience | src/preprocessing_utils.py:384-395 | the same, for (year, `experience_level_full`) |
| Aggregation.AggregateByCompanySize | src/preprocessing_utils.py:412-423 | the same, for (year, `company_size_full`) |
| SeqOps.MinOf | src/preprocessing_utils.py:451 | the least value, absent exactly for no values |
| SeqOps.MaxOf | src/preprocessing_utils.py:452 | the greatest value, absent exactly for no values |
| Summary.GetPreprocessingSummary | src/preprocessing_utils.py:443-456 | fails on an empty original table or a cleaned table without salary or year; otherwise original rows = final rows + rows removed, final rows is the cleaned row count, and min/max salary and first/last year are the least and greatest present values |
| Summary.NumYearsIsYearTableSize | src/preprocessing_utils.py:455 | `num_years` equals the number of rows of the by-year aggregate: the distinct years |
| Pipeline.FourFiltersFuse | src/preprocessing_utils.py:533-541 | the year, role, salary and critical-value filters in turn keep exactly the rows passing all four tests |
| Pipeline.RemoveRows | src/preprocessing_utils.py:532-541 | the removal stages succeed iff the table is non-empty and has the five needed columns; the rows kept are the de-duplicated rows that pass all four tests |
| Pipeline.AddFeatures | src/preprocessing_utils.py:546-548 | the enrichment stages succeed iff `remote_ratio` and `salary_in_usd` exist; they add the derived columns and enrich every row, keeping the row count and order |
| Pipeline.EnrichedStages | src/preprocessing_utils.py:546-548 | with `remote_ratio` and `salary_in_usd` present, the three enrichment stages with the default bands succeed and give the table with the derived columns added and each row enriched on its own |
| Pipeline.EnrichRowKept | src/preprocessing_utils.py:532-548 | enrichment changes none of the cells the four removal tests read, and always sets the remote category |
| Pipeline.CleanedRows | src/preprocessing_utils.py:532-548 | the cleaned table has at most as many rows as the loaded one, every row passes all four tests and has a remote category, and every row is counted by the by-year aggregate |
| Pipeline.CleanTable | src/preprocessing_utils.py:532-548 | the removal then enrichment stages succeed iff the table is non-empty and has the core columns, fail with `EmptyTable` on an empty table and otherwise name a missing core column; the result has the derived columns added and holds the enriched de-duplicated rows passing the four tests, each counted by year |
| Pipeline.ReportsDescribe | src/preprocessing_utils.py:553-555 | the three aggregate tables of a run are the sorted groups of its cleaned table with counts partitioning the counted rows, and its summary's counts, salary range, year range and year count are those of the cleaned table |
| Pipeline.Report | src/preprocessing_utils.py:553-575 | aggregates and summary succeed iff the needed columns exist and the loaded table is non-empty, otherwise name the error; the output's cleaned table is the input one, and its three aggregate tables and summary are exactly what the aggregation and summary stages give for it |
| Pipeline.ReportColumns | src/preprocessing_utils.py:546-555 | after enrichment of a table with the core columns, the only column the reports can miss is `company_size_full`, and it is missing exactly when neither company-size column was loaded |
| Pipeline.RunFacts | src/preprocessing_utils.py:523-575 | in a run's outputs every cleaned row passes the four tests and has a remote category, there are no more cleaned rows than loaded ones, the by-year counts add up to the cleaned rows, and `num_years` is the number of distinct years and the by-year table size |
| Pipeline.FullPreprocessingPipeline | src/preprocessing_utils.py:523-578 | runs iff the table is non-empty and has the core columns and a company size; fails with `EmptyTable` on an empty table, otherwise names a missing column; the cleaned table is the enriched de-duplicated rows passing the four tests, with the derived columns added; the three aggregate tables and the summary are those of the cleaned table; the by-year counts add up to the cleaned row count and `num_years` is the by-year table size |
| Scenarios.DedupScenario | src/preprocessing_utils.py:90 | of five rows with one identical 2021 pair, de-duplication keeps four |
| Scenarios.YearScenario | src/preprocessing_utils.py:122 | the 2020-2025 window then drops the 2019 and 2026 rows |
| Scenarios.KeptScenario | src/preprocessing_utils.py:532-541 | the 2021 and 2023 rows pass every removal stage |
| Scenarios.GroupScenario | src/preprocessing_utils.py:359 | those two rows group into 2021 and 2023 with one salary each |
| Scenarios.RemoteScenario | src/preprocessing_utils.py:283-289 | remote ratios 0, 50, 100, 75 give Onsite, Hybrid, Remote, Hybrid |
| Scenarios.UnknownExperienceCodeSurvives | src/preprocessing_utils.py:538-546 | the code "XX" survives the critical-value drop, which runs first, and then gets no experience label |

## Left out

- Reading the CSV file (`load_salary_data`), `os.makedirs` and the four `to_csv`
  writes are file I/O. The pipeline takes the loaded table as a parameter and
  returns the tables it would write.
- All `print` output, `print_preprocessing_summary` and `check_missing_values`
  are console diagnostics and do not change any table. The one effect kept is
  the division by the row count in `remove_duplicates`' message, modelled as
  the `EmptyTable` error.
- `run_preprocessing.py` and `warnings.filterwarnings` are process plumbing. The
  first checks a path and maps exceptions to exit codes; the second is
  process-wide configuration.
- Mean, median, standard deviation, `.round(2)` and `removal_percentage` are
  floating-point statistics. Only the counts and the integer minimum and maximum
  are modelled.
- Aggregation.AggregateByYear: its statement leaves out the average, median and
  standard deviation columns, because they are floating point.
- Summary.GetPreprocessingSummary: its statement leaves out `salary_mean`,
  `salary_median`, `salary_std` and `removal_percentage`, for the same reason.
  The `years_covered` text is represented by the first and last year.
- Cleaning.FilterAiMlRoles: the keywords are joined with `|` into a regular
  expression (src/preprocessing_utils.py:163-165), and the model treats each as a
  plain substring instead. The default keywords contain no regex metacharacters.
  A custom keyword that does can match differently (`.` matches any character),
  and a malformed one such as `c++` or `(` makes `str.contains` raise `re.error`.
  For those inputs the contract `r.Ok? <==> JobTitle in t.columns` does not hold
  of the source. Lower-casing covers ASCII letters only.
- Salaries, the remote ratio and the bin edges are integers, and an unbounded edge
  stands for `float('inf')`. Fractional salaries and edges are not modelled.
- Pipeline.FullPreprocessingPipeline: the salary bounds are parameters, and the
  defaults are `Cleaning.DefaultMinSalary` and `Cleaning.DefaultMaxSalary`. The
  `output_dir` argument only concerns the writes.
- Pandas dtype behaviour is not modelled. Cases left out: a non-text `job_title`
  column, a non-numeric `salary_in_usd`, and the `Categorical` type of
  `salary_band`. Derived columns are typed fields of the record.
- When several required columns are missing, pandas lists them all; the model
  reports the first one it checks.
