/** `get_preprocessing_summary`: the row and column counts of the run and the
    range of salaries and years left in the cleaned table. */
module Summary {
  import opened Wrappers
  import opened SeqOps
  import opened Table
  import opened Grouping
  import opened Aggregation

  datatype Summary = Summary(
    originalRows: nat,
    finalRows: nat,
    rowsRemoved: int,
    finalColumns: nat,
    salaryMin: Option<int>,
    salaryMax: Option<int>,
    firstYear: Option<int>,
    lastYear: Option<int>,
    numYears: nat)

  /** The present values of one integer column, in row order. */
  function PresentValues(rows: seq<Record>, f: Record -> Option<int>): seq<int>
  {
    if rows == [] then []
    else
      PresentValues(rows[..|rows| - 1], f)
      + (match f(rows[|rows| - 1]) case None => [] case Some(v) => [v])
  }

  function SalaryOf(r: Record): Option<int>
  {
    r.salaryInUsd
  }

  /** Raises when the original table is empty (its removal percentage divides by
      the original row count) or when the cleaned table lacks the salary or year
      column. */
  function GetPreprocessingSummary(original: Table, clean: Table): (r: Result<Summary, Error>)
    ensures r.Ok? <==> original.rows != [] && SalaryInUsd in clean.columns && WorkYear in clean.columns
    ensures original.rows == [] ==> r == Err(EmptyTable)
    ensures r.Err? && original.rows != [] ==>
              r.error.MissingColumn? && r.error.column in {SalaryInUsd, WorkYear}
              && r.error.column !in clean.columns
    ensures r.Ok? ==> r.value.originalRows == |original.rows| && r.value.finalRows == |clean.rows|
    ensures r.Ok? ==> r.value.originalRows == r.value.finalRows + r.value.rowsRemoved
    ensures r.Ok? ==> r.value.finalColumns == |clean.columns| + |clean.extraColumns|
    ensures r.Ok? ==> IsLeast(r.value.salaryMin, PresentValues(clean.rows, SalaryOf))
    ensures r.Ok? ==> IsGreatest(r.value.salaryMax, PresentValues(clean.rows, SalaryOf))
    ensures r.Ok? ==> IsLeast(r.value.firstYear, PresentValues(clean.rows, YearKey))
    ensures r.Ok? ==> IsGreatest(r.value.lastYear, PresentValues(clean.rows, YearKey))
    ensures r.Ok? ==> r.value.numYears == |PresentKeys(clean.rows, YearKey)|
  {
    if original.rows == [] then Err(EmptyTable)
    else if SalaryInUsd !in clean.columns then Err(MissingColumn(SalaryInUsd))
    else if WorkYear !in clean.columns then Err(MissingColumn(WorkYear))
    else
      var salaries := PresentValues(clean.rows, SalaryOf);
      var years := PresentValues(clean.rows, YearKey);
      Ok(Summary(
        |original.rows|, |clean.rows|, |original.rows| - |clean.rows|,
        |clean.columns| + |clean.extraColumns|,
        MinOf(salaries), MaxOf(salaries), MinOf(years), MaxOf(years),
        |PresentKeys(clean.rows, YearKey)|))
  }

  /** The summary's year count is the number of rows of the by-year table. */
  lemma NumYearsIsYearTableSize(original: Table, clean: Table)
    requires GetPreprocessingSummary(original, clean).Ok?
    ensures AggregateByYear(clean).Ok?
    ensures GetPreprocessingSummary(original, clean).value.numYears == |AggregateByYear(clean).value|
  {
    var ys := AggregateByYear(clean).value;
    assert |YearGroups(ys)| == |ys|;
  }
}
