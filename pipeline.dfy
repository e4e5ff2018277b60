/** `full_preprocessing_pipeline`: the stages threaded in their fixed order,
    the three aggregate tables and the summary. Reading the file and writing the
    four output files are left to the caller. */
module Pipeline {
  import opened Wrappers
  import opened SeqOps
  import opened Table
  import opened Cleaning
  import opened Features
  import opened Grouping
  import opened Aggregation
  import opened Summary

  /** The columns the stages require of the loaded table; in addition it needs
      `company_size` or an existing `company_size_full`. */
  const CoreColumns: set<Column> :=
    {WorkYear, JobTitle, SalaryInUsd, ExperienceLevel, EmploymentType, RemoteRatio}

  predicate Runnable(raw: Table)
  {
    && raw.rows != []
    && CoreColumns <= raw.columns
    && (CompanySize in raw.columns || CompanySizeFull in raw.columns)
  }

  /** The row test that all four removal filters amount to, after de-duplication. */
  predicate Kept(r: Record, minSalary: int, maxSalary: int)
  {
    && InYears(r, DefaultStartYear, DefaultEndYear)
    && RoleMatches(r, DefaultKeywords)
    && InSalaryRange(r, minSalary, maxSalary)
    && HasCritical(r)
  }

  function KeptBy(minSalary: int, maxSalary: int): Record -> bool
  {
    r => Kept(r, minSalary, maxSalary)
  }

  /** The columns the enrichment stages derive from the columns of `cols`. */
  function DerivedColumns(cols: set<Column>): set<Column>
  {
    LabelColumns(cols) + {RemoteCategoryColumn, SalaryBand}
  }

  /** One row after the three enrichment stages, with the default salary bands. */
  function EnrichRow(r: Record, cols: set<Column>): Record
  {
    StandardizeRow(r, cols).(
      remoteCategory := Some(CategorizeRemote(r.remoteRatio)),
      salaryBand := BandOf(r.salaryInUsd, DefaultEdges, DefaultBandLabels))
  }

  function Enrich(rows: seq<Record>, cols: set<Column>): seq<Record>
  {
    seq(|rows|, i requires 0 <= i < |rows| => EnrichRow(rows[i], cols))
  }

  datatype PipelineOutput = PipelineOutput(
    cleaned: Table,
    byYear: seq<YearStats>,
    byExperience: seq<Group<(int, string)>>,
    byCompanySize: seq<Group<(int, string)>>,
    summary: Summary)

  /** The four removal filters, run one after another, select exactly the rows
      passing their conjunction. */
  lemma FourFiltersFuse(rows: seq<Record>, minSalary: int, maxSalary: int)
    ensures Filter(CriticalPresent(), Filter(SalaryWindow(minSalary, maxSalary),
              Filter(RoleFilter(DefaultKeywords), Filter(YearWindow(DefaultStartYear, DefaultEndYear), rows))))
            == Filter(KeptBy(minSalary, maxSalary), rows)
  {
    var y, k, s, c := YearWindow(DefaultStartYear, DefaultEndYear), RoleFilter(DefaultKeywords),
                      SalaryWindow(minSalary, maxSalary), CriticalPresent();
    FilterFuse(y, k, rows);
    FilterFuse(Both(y, k), s, rows);
    FilterFuse(Both(Both(y, k), s), c, rows);
    FilterCongruent(Both(Both(Both(y, k), s), c), KeptBy(minSalary, maxSalary), rows);
  }

  /** The columns the five removal stages require. */
  const FilterColumns: set<Column> := {WorkYear, JobTitle, SalaryInUsd, ExperienceLevel, EmploymentType}

  /** The removal half of the run: de-duplicate, keep 2020-2025, keep AI/ML
      roles, drop salary outliers, drop rows missing a critical value. */
  method RemoveRows(raw: Table, minSalary: int, maxSalary: int) returns (r: Result<Table, Error>)
    ensures r.Ok? <==> raw.rows != [] && FilterColumns <= raw.columns
    ensures raw.rows == [] ==> r == Err(EmptyTable)
    ensures r.Err? && raw.rows != [] ==>
              r.error.MissingColumn? && r.error.column !in raw.columns && r.error.column in FilterColumns
    ensures r.Ok? ==> r.value.columns == raw.columns && r.value.extraColumns == raw.extraColumns
    ensures r.Ok? ==> r.value.rows == Filter(KeptBy(minSalary, maxSalary), Dedup(raw.rows))
    ensures r.Ok? && WellFormed(raw) ==> WellFormed(r.value)
  {
    var df :- RemoveDuplicates(raw);
    df :- FilterByYears(df, DefaultStartYear, DefaultEndYear);
    df :- FilterAiMlRoles(df, None);
    df :- RemoveSalaryOutliers(df, minSalary, maxSalary);
    df :- DropMissingCritical(df);
    FourFiltersFuse(Dedup(raw.rows), minSalary, maxSalary);
    return Ok(df);
  }

  /** The enrichment half: category labels, remote category, default salary bands. */
  method AddFeatures(t: Table) returns (r: Result<Table, Error>)
    ensures r.Ok? <==> RemoteRatio in t.columns && SalaryInUsd in t.columns
    ensures r.Err? ==> r.error.MissingColumn? && r.error.column !in t.columns
                       && r.error.column in {RemoteRatio, SalaryInUsd}
    ensures r.Ok? ==> r.value == Table(t.columns + DerivedColumns(t.columns), t.extraColumns, Enrich(t.rows, t.columns))
    ensures r.Ok? && WellFormed(t) ==> WellFormed(r.value)
  {
    DefaultCutValid();
    if RemoteRatio in t.columns && SalaryInUsd in t.columns {
      EnrichedStages(t);
    }
    var df := StandardizeCategories(t);
    df :- CreateRemoteCategory(df);
    df :- CreateSalaryBands(df, None, None);
    return Ok(df);
  }

  /** The three enrichment stages, with the default salary bands, add the
      derived columns and enrich each row on its own. */
  lemma EnrichedStages(t: Table)
    requires RemoteRatio in t.columns && SalaryInUsd in t.columns
    ensures CreateRemoteCategory(StandardizeCategories(t)).Ok?
    ensures CreateSalaryBands(CreateRemoteCategory(StandardizeCategories(t)).value, None, None)
            == Ok(Table(t.columns + DerivedColumns(t.columns), t.extraColumns, Enrich(t.rows, t.columns)))
  {
    DefaultCutValid();
    var standard := StandardizeCategories(t);
    var remote := CreateRemoteCategory(standard).value;
    var banded := CreateSalaryBands(remote, None, None).value;
    assert |banded.rows| == |t.rows|;
    forall i | 0 <= i < |t.rows|
      ensures banded.rows[i] == EnrichRow(t.rows[i], t.columns)
    {
      assert standard.rows[i] == StandardizeRow(t.rows[i], t.columns);
      assert remote.rows[i] == standard.rows[i].(remoteCategory := Some(CategorizeRemote(standard.rows[i].remoteRatio)));
      assert banded.rows[i] == remote.rows[i].(salaryBand := BandOf(remote.rows[i].salaryInUsd, DefaultEdges, DefaultBandLabels));
    }
    assert banded.rows == Enrich(t.rows, t.columns);
    assert banded.columns == t.columns + DerivedColumns(t.columns);
  }

  /** Enrichment changes none of the cells the removal filters read, and sets
      the remote category. */
  lemma EnrichRowKept(x: Record, cols: set<Column>, minSalary: int, maxSalary: int)
    ensures Kept(EnrichRow(x, cols), minSalary, maxSalary) == Kept(x, minSalary, maxSalary)
    ensures EnrichRow(x, cols).remoteCategory.Some?
  {
    assert EnrichRow(x, cols).jobTitle == x.jobTitle;
  }

  /** The rows a run keeps: at most the loaded rows, each passing the four
      filters and carrying a remote category, and each counted by the
      by-year aggregation. */
  lemma CleanedRows(rows: seq<Record>, cols: set<Column>, minSalary: int, maxSalary: int)
    ensures var out := Enrich(Filter(KeptBy(minSalary, maxSalary), Dedup(rows)), cols);
            && |out| <= |rows|
            && (forall i :: 0 <= i < |out| ==> Kept(out[i], minSalary, maxSalary) && out[i].remoteCategory.Some?)
            && Filter(CountedBy(YearKey), out) == out
  {
    var kept := Filter(KeptBy(minSalary, maxSalary), Dedup(rows));
    var out := Enrich(kept, cols);
    FilterMembers(KeptBy(minSalary, maxSalary), Dedup(rows));
    DedupUnique(rows);
    assert |out| == |kept|;
    forall i | 0 <= i < |out|
      ensures Kept(out[i], minSalary, maxSalary) && out[i].remoteCategory.Some?
    {
      assert kept[i] in kept;
      assert out[i] == EnrichRow(kept[i], cols);
      EnrichRowKept(kept[i], cols, minSalary, maxSalary);
    }
    forall i | 0 <= i < |out|
      ensures CountedBy(YearKey)(out[i])
    {
      assert HasCritical(out[i]);
    }
    FilterKeepsAll(CountedBy(YearKey), out);
  }

  /** The cleaning half of the run: the removal stages, then the enrichment
      stages. */
  method CleanTable(raw: Table, minSalary: int, maxSalary: int) returns (r: Result<Table, Error>)
    ensures r.Ok? <==> raw.rows != [] && CoreColumns <= raw.columns
    ensures raw.rows == [] ==> r == Err(EmptyTable)
    ensures r.Err? && raw.rows != [] ==>
              r.error.MissingColumn? && r.error.column !in raw.columns && r.error.column in CoreColumns
    ensures r.Ok? ==> r.value.columns == raw.columns + DerivedColumns(raw.columns)
    ensures r.Ok? ==> r.value.extraColumns == raw.extraColumns
    ensures r.Ok? ==> r.value.rows == Enrich(Filter(KeptBy(minSalary, maxSalary), Dedup(raw.rows)), raw.columns)
    ensures r.Ok? ==> |r.value.rows| <= |raw.rows|
    ensures r.Ok? ==> forall i :: 0 <= i < |r.value.rows| ==>
              Kept(r.value.rows[i], minSalary, maxSalary) && r.value.rows[i].remoteCategory.Some?
    ensures r.Ok? ==> Filter(CountedBy(YearKey), r.value.rows) == r.value.rows
    ensures r.Ok? && WellFormed(raw) ==> WellFormed(r.value)
  {
    var kept :- RemoveRows(raw, minSalary, maxSalary);
    var df :- AddFeatures(kept);
    CleanedRows(raw.rows, raw.columns, minSalary, maxSalary);
    return Ok(df);
  }

  /** The outputs of a run are the aggregate tables and the summary of its
      cleaned table. */
  ghost predicate ReportsOf(raw: Table, o: PipelineOutput)
  {
    && AggregateByYear(o.cleaned) == Ok(o.byYear)
    && AggregateByExperience(o.cleaned) == Ok(o.byExperience)
    && AggregateByCompanySize(o.cleaned) == Ok(o.byCompanySize)
    && GetPreprocessingSummary(raw, o.cleaned) == Ok(o.summary)
  }

  /** What the reports of a run say about its cleaned table: one sorted row per
      distinct year, per (year, experience label) and per (year, company-size
      label), with counts partitioning the rows that have the key and a salary;
      a summary whose counts, salary range and year range are those of the
      cleaned table, and whose year count is the by-year table's size. */
  lemma ReportsDescribe(raw: Table, o: PipelineOutput)
    requires ReportsOf(raw, o)
    ensures GroupCounts(YearGroups(o.byYear), o.cleaned.rows, YearKey, IntLess)
    ensures GroupCounts(o.byExperience, o.cleaned.rows, PairKey(ExperienceLabelOf), PairLess)
    ensures GroupCounts(o.byCompanySize, o.cleaned.rows, PairKey(CompanySizeLabelOf), PairLess)
    ensures o.summary.originalRows == |raw.rows| && o.summary.finalRows == |o.cleaned.rows|
    ensures o.summary.rowsRemoved == |raw.rows| - |o.cleaned.rows|
    ensures o.summary.finalColumns == |o.cleaned.columns| + |o.cleaned.extraColumns|
    ensures IsLeast(o.summary.salaryMin, PresentValues(o.cleaned.rows, SalaryOf))
    ensures IsGreatest(o.summary.salaryMax, PresentValues(o.cleaned.rows, SalaryOf))
    ensures IsLeast(o.summary.firstYear, PresentValues(o.cleaned.rows, YearKey))
    ensures IsGreatest(o.summary.lastYear, PresentValues(o.cleaned.rows, YearKey))
    ensures o.summary.numYears == |PresentKeys(o.cleaned.rows, YearKey)| == |o.byYear|
  {
    NumYearsIsYearTableSize(raw, o.cleaned);
  }

  /** The reporting half: the three aggregate tables and the summary of a run
      that started from `raw` and produced `df`. */
  method Report(raw: Table, df: Table) returns (r: Result<PipelineOutput, Error>)
    ensures r.Ok? <==> raw.rows != [] && {WorkYear, SalaryInUsd, ExperienceLevelFull, CompanySizeFull} <= df.columns
    ensures raw.rows == [] && {WorkYear, SalaryInUsd, ExperienceLevelFull, CompanySizeFull} <= df.columns
            ==> r == Err(EmptyTable)
    ensures r.Err? ==> (r.error == EmptyTable && raw.rows == [])
                       || (r.error.MissingColumn? && r.error.column !in df.columns
                           && r.error.column in {WorkYear, SalaryInUsd, ExperienceLevelFull, CompanySizeFull})
    ensures r.Ok? ==> r.value.cleaned == df
    ensures r.Ok? ==> r.value.summary.originalRows == |raw.rows|
    ensures r.Ok? ==> r.value.summary.finalRows == |df.rows|
    ensures r.Ok? ==> r.value.summary.rowsRemoved == |raw.rows| - |df.rows|
    ensures r.Ok? ==> SumCounts(YearGroups(r.value.byYear)) == |Filter(CountedBy(YearKey), df.rows)|
    ensures r.Ok? ==> r.value.summary.numYears == |r.value.byYear|
    ensures r.Ok? ==> ReportsOf(raw, r.value)
  {
    var byYear :- AggregateByYear(df);
    var byExperience :- AggregateByExperience(df);
    var byCompanySize :- AggregateByCompanySize(df);
    var summary :- GetPreprocessingSummary(raw, df);
    return Ok(PipelineOutput(df, byYear, byExperience, byCompanySize, summary));
  }

  /** The columns the reports need, once the derived columns are added to a
      table with the core columns: only `company_size_full` can be missing, and
      it is missing exactly when neither `company_size` nor `company_size_full`
      was loaded. */
  lemma ReportColumns(cols: set<Column>)
    requires CoreColumns <= cols
    ensures {WorkYear, SalaryInUsd, ExperienceLevelFull, CompanySizeFull} <= cols + DerivedColumns(cols)
            <==> CompanySize in cols || CompanySizeFull in cols
    ensures forall c :: (c in {WorkYear, SalaryInUsd, ExperienceLevelFull, CompanySizeFull}
                         && c !in cols + DerivedColumns(cols)) ==> c == CompanySizeFull && c !in cols
  {
    assert ExperienceLevelFull in LabelColumns(cols);
  }

  /** The cleaned table a run produces from `raw`: the derived columns added,
      and the enriched rows of the de-duplicated rows that pass all four tests. */
  function Cleaned(raw: Table, minSalary: int, maxSalary: int): Table
  {
    Table(raw.columns + DerivedColumns(raw.columns), raw.extraColumns,
          Enrich(Filter(KeptBy(minSalary, maxSalary), Dedup(raw.rows)), raw.columns))
  }

  /** What the outputs of a run say about its cleaned table: every row passes
      the four tests and has a remote category, no more rows than were loaded,
      the by-year counts add up to the cleaned rows, and the summary's counts
      and year count agree with the cleaned table and the by-year table. */
  lemma RunFacts(raw: Table, minSalary: int, maxSalary: int, o: PipelineOutput)
    requires o.cleaned == Cleaned(raw, minSalary, maxSalary) && ReportsOf(raw, o)
    ensures forall i :: 0 <= i < |o.cleaned.rows| ==>
              Kept(o.cleaned.rows[i], minSalary, maxSalary) && o.cleaned.rows[i].remoteCategory.Some?
    ensures o.summary.originalRows == |raw.rows|
    ensures o.summary.finalRows == |o.cleaned.rows| <= |raw.rows|
    ensures o.summary.rowsRemoved >= 0
    ensures SumCounts(YearGroups(o.byYear)) == |o.cleaned.rows|
    ensures o.summary.numYears == |PresentKeys(o.cleaned.rows, YearKey)| == |o.byYear|
  {
    CleanedRows(raw.rows, raw.columns, minSalary, maxSalary);
    ReportsDescribe(raw, o);
  }

  /** Runs the stages in the fixed order: the removal stages, the enrichment
      stages, the three aggregations and the summary. Any stage that raises ends
      the run with its error. */
  method FullPreprocessingPipeline(raw: Table, minSalary: int, maxSalary: int)
    returns (r: Result<PipelineOutput, Error>)
    ensures r.Ok? <==> Runnable(raw)
    ensures raw.rows == [] ==> r == Err(EmptyTable)
    ensures r.Err? && raw.rows != [] ==>
              r.error.MissingColumn? && r.error.column !in raw.columns
              && r.error.column in CoreColumns + {CompanySizeFull}
    ensures r.Ok? ==> r.value.cleaned == Cleaned(raw, minSalary, maxSalary)
    ensures r.Ok? ==> forall i :: 0 <= i < |r.value.cleaned.rows| ==>
              Kept(r.value.cleaned.rows[i], minSalary, maxSalary)
              && r.value.cleaned.rows[i].remoteCategory.Some?
    ensures r.Ok? ==> r.value.summary.originalRows == |raw.rows|
    ensures r.Ok? ==> r.value.summary.finalRows == |r.value.cleaned.rows| <= |raw.rows|
    ensures r.Ok? ==> r.value.summary.rowsRemoved >= 0
    ensures r.Ok? ==> SumCounts(YearGroups(r.value.byYear)) == |r.value.cleaned.rows|
    ensures r.Ok? ==> r.value.summary.numYears == |PresentKeys(r.value.cleaned.rows, YearKey)| == |r.value.byYear|
    ensures r.Ok? && WellFormed(raw) ==> WellFormed(r.value.cleaned)
    ensures r.Ok? ==> ReportsOf(raw, r.value)
  {
    var df :- CleanTable(raw, minSalary, maxSalary);
    ReportColumns(raw.columns);
    r := Report(raw, df);
    if r.Ok? {
      RunFacts(raw, minSalary, maxSalary, r.value);
    }
  }
}
