/** The row-removing stages: de-duplication, the year window, the role filter,
    the salary bounds and the drop of rows missing a critical value. Each keeps
    the table's columns and removes rows only. */
module Cleaning {
  import opened Wrappers
  import opened SeqOps
  import opened Table

  /** Rows taken from a well-formed table fit its header. */
  lemma RowsFromConforming(t: Table, rows: seq<Record>)
    requires forall x :: x in rows ==> x in t.rows
    ensures WellFormed(t) ==> WellFormed(t.(rows := rows))
  {
    forall i | WellFormed(t) && 0 <= i < |rows|
      ensures Conforms(rows[i], t.columns, t.extraColumns)
    {
      assert rows[i] in t.rows;
      var j :| 0 <= j < |t.rows| && t.rows[j] == rows[i];
    }
  }

  /** Boolean-mask indexing `df[mask]`: the rows satisfying `p`, same header. */
  function Select(t: Table, p: Record -> bool): (r: Table)
    ensures r.columns == t.columns && r.extraColumns == t.extraColumns
    ensures SelectedBy(r.rows, t.rows, p)
    ensures forall x :: x in r.rows <==> x in t.rows && p(x)
    ensures |r.rows| <= |t.rows|
    ensures WellFormed(t) ==> WellFormed(r)
  {
    FilterSelects(p, t.rows);
    RowsFromConforming(t, Filter(p, t.rows));
    t.(rows := Filter(p, t.rows))
  }

  // ---------------------------------------------------------------------------
  // remove_duplicates
  // ---------------------------------------------------------------------------

  /** Drops rows identical, across all columns, to an earlier row. The stage
      reports the removed share of the table, which divides by its row count:
      an empty table raises. */
  function RemoveDuplicates(t: Table): (r: Result<Table, Error>)
    ensures r.Err? <==> t.rows == []
    ensures r.Err? ==> r.error == EmptyTable
    ensures r.Ok? ==> r.value.columns == t.columns && r.value.extraColumns == t.extraColumns
    ensures r.Ok? ==> NoDuplicates(r.value.rows)
    ensures r.Ok? ==> forall x :: x in r.value.rows <==> x in t.rows
    ensures r.Ok? ==> IsSubsequence(r.value.rows, t.rows)
    ensures r.Ok? ==> forall i, j :: 0 <= i < j < |r.value.rows| ==>
              FirstIndex(t.rows, r.value.rows[i]) < FirstIndex(t.rows, r.value.rows[j])
    ensures r.Ok? ==> |r.value.rows| <= |t.rows|
    ensures r.Ok? && WellFormed(t) ==> WellFormed(r.value)
  {
    if t.rows == [] then Err(EmptyTable)
    else
      DedupUnique(t.rows);
      DedupKeepsFirst(t.rows);
      RowsFromConforming(t, Dedup(t.rows));
      Ok(t.(rows := Dedup(t.rows)))
  }

  // ---------------------------------------------------------------------------
  // filter_by_years
  // ---------------------------------------------------------------------------

  /** `work_year.between(start, end)`: both ends inclusive; an absent year is out. */
  predicate InYears(r: Record, startYear: int, endYear: int)
  {
    r.workYear.Some? && startYear <= r.workYear.value <= endYear
  }

  function YearWindow(startYear: int, endYear: int): Record -> bool
  {
    r => InYears(r, startYear, endYear)
  }

  const DefaultStartYear := 2020
  const DefaultEndYear := 2025

  function FilterByYears(t: Table, startYear: int, endYear: int): (r: Result<Table, Error>)
    ensures r.Ok? <==> WorkYear in t.columns
    ensures r.Err? ==> r.error == MissingColumn(WorkYear)
    ensures r.Ok? ==> r.value.columns == t.columns && r.value.extraColumns == t.extraColumns
    ensures r.Ok? ==> SelectedBy(r.value.rows, t.rows, YearWindow(startYear, endYear))
    ensures r.Ok? ==> forall x :: x in r.value.rows <==>
              x in t.rows && x.workYear.Some? && startYear <= x.workYear.value <= endYear
    ensures r.Ok? && WellFormed(t) ==> WellFormed(r.value)
  {
    if WorkYear !in t.columns then Err(MissingColumn(WorkYear))
    else Ok(Select(t, YearWindow(startYear, endYear)))
  }

  // ---------------------------------------------------------------------------
  // filter_ai_ml_roles
  // ---------------------------------------------------------------------------

  /** The 17 role keywords used when the caller gives none. */
  const DefaultKeywords: seq<string> := [
    "data scientist", "data science", "machine learning", "ml engineer",
    "ai engineer", "artificial intelligence", "data engineer",
    "analytics engineer", "data analyst", "research scientist",
    "deep learning", "nlp engineer", "computer vision", "mlops",
    "data architect", "big data", "business intelligence"
  ]

  /** The keyword list in force: the caller's list unless it is missing or empty. */
  function Keywords(custom: Option<seq<string>>): (k: seq<string>)
    ensures custom.None? ==> k == DefaultKeywords
    ensures custom.Some? && custom.value == [] ==> k == DefaultKeywords
    ensures custom.Some? && custom.value != [] ==> k == custom.value
    ensures |k| > 0
  {
    if custom.Some? && custom.value != [] then custom.value else DefaultKeywords
  }

  predicate IsUpper(c: char)
  {
    'A' <= c <= 'Z'
  }

  function LowerChar(c: char): char
  {
    if IsUpper(c) then (c as int + 32) as char else c
  }

  /** `str.lower()`, for ASCII letters. */
  function Lower(s: string): (l: string)
    ensures |l| == |s|
    ensures forall i :: 0 <= i < |s| ==> l[i] == LowerChar(s[i]) && !IsUpper(l[i])
  {
    seq(|s|, i requires 0 <= i < |s| => LowerChar(s[i]))
  }

  predicate OccursAt(k: string, s: string, i: int)
  {
    0 <= i && i + |k| <= |s| && s[i..i + |k|] == k
  }

  /** `k` is a substring of `s`. */
  predicate Contains(s: string, k: string)
  {
    exists i | 0 <= i <= |s| :: OccursAt(k, s, i)
  }

  /** The lower-cased title contains at least one keyword; an absent title never matches. */
  predicate RoleMatches(r: Record, keywords: seq<string>)
  {
    r.jobTitle.Some? &&
    exists j | 0 <= j < |keywords| :: Contains(Lower(r.jobTitle.value), keywords[j])
  }

  function RoleFilter(keywords: seq<string>): Record -> bool
  {
    r => RoleMatches(r, keywords)
  }

  function FilterAiMlRoles(t: Table, custom: Option<seq<string>>): (r: Result<Table, Error>)
    ensures r.Ok? <==> JobTitle in t.columns
    ensures r.Err? ==> r.error == MissingColumn(JobTitle)
    ensures r.Ok? ==> r.value.columns == t.columns && r.value.extraColumns == t.extraColumns
    ensures r.Ok? ==> SelectedBy(r.value.rows, t.rows, RoleFilter(Keywords(custom)))
    ensures r.Ok? ==> forall x :: x in r.value.rows <==> x in t.rows && RoleMatches(x, Keywords(custom))
    ensures r.Ok? ==> forall x :: x in r.value.rows ==> x.jobTitle.Some?
    ensures r.Ok? && WellFormed(t) ==> WellFormed(r.value)
  {
    if JobTitle !in t.columns then Err(MissingColumn(JobTitle))
    else Ok(Select(t, RoleFilter(Keywords(custom))))
  }

  /** Titles are lower-cased but keywords are not: a keyword holding an upper-case
      letter never matches any title. */
  lemma UpperCaseKeywordNeverMatches(title: string, k: string, m: nat)
    requires m < |k| && IsUpper(k[m])
    ensures !Contains(Lower(title), k)
  {
  }

  // ---------------------------------------------------------------------------
  // remove_salary_outliers
  // ---------------------------------------------------------------------------

  /** `min_salary <= salary_in_usd <= max_salary`; an absent salary is out. */
  predicate InSalaryRange(r: Record, minSalary: int, maxSalary: int)
  {
    r.salaryInUsd.Some? && minSalary <= r.salaryInUsd.value <= maxSalary
  }

  function SalaryWindow(minSalary: int, maxSalary: int): Record -> bool
  {
    r => InSalaryRange(r, minSalary, maxSalary)
  }

  const DefaultMinSalary := 10000
  const DefaultMaxSalary := 1000000

  function RemoveSalaryOutliers(t: Table, minSalary: int, maxSalary: int): (r: Result<Table, Error>)
    ensures r.Ok? <==> SalaryInUsd in t.columns
    ensures r.Err? ==> r.error == MissingColumn(SalaryInUsd)
    ensures r.Ok? ==> r.value.columns == t.columns && r.value.extraColumns == t.extraColumns
    ensures r.Ok? ==> SelectedBy(r.value.rows, t.rows, SalaryWindow(minSalary, maxSalary))
    ensures r.Ok? ==> forall x :: x in r.value.rows <==>
              x in t.rows && x.salaryInUsd.Some? && minSalary <= x.salaryInUsd.value <= maxSalary
    ensures r.Ok? && WellFormed(t) ==> WellFormed(r.value)
  {
    if SalaryInUsd !in t.columns then Err(MissingColumn(SalaryInUsd))
    else Ok(Select(t, SalaryWindow(minSalary, maxSalary)))
  }

  /** Removing outliers a second time with the same bounds changes nothing. */
  lemma RemoveSalaryOutliersIdempotent(t: Table, minSalary: int, maxSalary: int)
    requires SalaryInUsd in t.columns
    ensures RemoveSalaryOutliers(RemoveSalaryOutliers(t, minSalary, maxSalary).value, minSalary, maxSalary)
         == RemoveSalaryOutliers(t, minSalary, maxSalary)
  {
    FilterIdempotent(SalaryWindow(minSalary, maxSalary), t.rows);
  }

  // ---------------------------------------------------------------------------
  // dropna(subset=critical_cols)
  // ---------------------------------------------------------------------------

  /** The columns no cleaned row may leave empty, in the order the pipeline names them. */
  const CriticalColumns: seq<Column> := [WorkYear, SalaryInUsd, ExperienceLevel, EmploymentType]

  predicate HasCritical(r: Record)
  {
    r.workYear.Some? && r.salaryInUsd.Some? && r.experienceLevel.Some? && r.employmentType.Some?
  }

  function CriticalPresent(): Record -> bool
  {
    r => HasCritical(r)
  }

  /** The first of `cols` the table lacks, if any. */
  function FirstMissing(cols: seq<Column>, present: set<Column>): (m: Option<Column>)
    ensures m.None? <==> forall i :: 0 <= i < |cols| ==> cols[i] in present
    ensures m.Some? ==> m.value in cols && m.value !in present
    ensures m.Some? ==> exists i :: 0 <= i < |cols| && cols[i] == m.value
                                    && forall j :: 0 <= j < i ==> cols[j] in present
  {
    if cols == [] then None
    else if cols[0] !in present then Some(cols[0])
    else FirstMissing(cols[1..], present)
  }

  /** Drops every row with an absent work year, salary, experience level or
      employment type; naming a column the table lacks raises. */
  function DropMissingCritical(t: Table): (r: Result<Table, Error>)
    ensures r.Ok? <==> {WorkYear, SalaryInUsd, ExperienceLevel, EmploymentType} <= t.columns
    ensures r.Err? ==> r.error.MissingColumn? && r.error.column in CriticalColumns
                       && r.error.column !in t.columns
    ensures r.Err? ==> exists i :: 0 <= i < |CriticalColumns| && CriticalColumns[i] == r.error.column
                                   && forall j :: 0 <= j < i ==> CriticalColumns[j] in t.columns
    ensures r.Ok? ==> r.value.columns == t.columns && r.value.extraColumns == t.extraColumns
    ensures r.Ok? ==> SelectedBy(r.value.rows, t.rows, CriticalPresent())
    ensures r.Ok? ==> forall x :: x in r.value.rows <==> x in t.rows && HasCritical(x)
    ensures r.Ok? && WellFormed(t) ==> WellFormed(r.value)
  {
    match FirstMissing(CriticalColumns, t.columns)
    case Some(c) => Err(MissingColumn(c))
    case None =>
      assert forall i :: 0 <= i < |CriticalColumns| ==> CriticalColumns[i] in t.columns;
      assert CriticalColumns[0] == WorkYear && CriticalColumns[1] == SalaryInUsd;
      assert CriticalColumns[2] == ExperienceLevel && CriticalColumns[3] == EmploymentType;
      Ok(Select(t, CriticalPresent()))
  }
}
