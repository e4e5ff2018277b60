/** The three aggregate tables: by year, by (year, experience level) and by
    (year, company size). Only the counts (and, by year, the minimum and
    maximum salary) are modelled. */
module Aggregation {
  import opened Wrappers
  import opened SeqOps
  import opened Table
  import opened Grouping

  function YearKey(r: Record): Option<int>
  {
    r.workYear
  }

  /** One row of `average_salary_by_year`: the year, the number of salaries and
      the smallest and largest of them. */
  datatype YearStats = YearStats(workYear: int, count: nat, minSalary: Option<int>, maxSalary: Option<int>)

  function YearGroups(ys: seq<YearStats>): seq<Group<int>>
  {
    seq(|ys|, i requires 0 <= i < |ys| => Group(ys[i].workYear, ys[i].count))
  }

  function AggregateByYear(t: Table): (r: Result<seq<YearStats>, Error>)
    ensures r.Ok? <==> WorkYear in t.columns && SalaryInUsd in t.columns
    ensures r.Err? ==> r.error.MissingColumn? && r.error.column in {WorkYear, SalaryInUsd}
                       && r.error.column !in t.columns
    ensures r.Ok? ==> GroupCounts(YearGroups(r.value), t.rows, YearKey, IntLess)
    ensures r.Ok? ==> forall i :: 0 <= i < |r.value| ==>
              IsLeast(r.value[i].minSalary, Matching(t.rows, YearKey, r.value[i].workYear))
              && IsGreatest(r.value[i].maxSalary, Matching(t.rows, YearKey, r.value[i].workYear))
  {
    if WorkYear !in t.columns then Err(MissingColumn(WorkYear))
    else if SalaryInUsd !in t.columns then Err(MissingColumn(SalaryInUsd))
    else
      var gs := GroupBy(t.rows, YearKey, IntLess);
      IntLessIsOrder();
      GroupByFacts(t.rows, YearKey, IntLess);
      var ys := seq(|gs|, i requires 0 <= i < |gs| =>
        var xs := Matching(t.rows, YearKey, gs[i].key);
        YearStats(gs[i].key, gs[i].count, MinOf(xs), MaxOf(xs)));
      assert YearGroups(ys) == gs;
      Ok(ys)
  }

  /** The key (work_year, label), absent when either part is absent. */
  function PairKey(labelOf: Record -> Option<string>): Record -> Option<(int, string)>
  {
    (r: Record) => if r.workYear.Some? && labelOf(r).Some? then Some((r.workYear.value, labelOf(r).value)) else None
  }

  function ExperienceLabelOf(r: Record): Option<string>
  {
    r.experienceLevelFull
  }

  function CompanySizeLabelOf(r: Record): Option<string>
  {
    r.companySizeFull
  }

  /** Groups by (work_year, the label column); raises when a required column is missing. */
  function AggregateByYearAndLabel(t: Table, labelColumn: Column, labelOf: Record -> Option<string>)
    : (r: Result<seq<Group<(int, string)>>, Error>)
    ensures r.Ok? <==> {WorkYear, labelColumn, SalaryInUsd} <= t.columns
    ensures r.Err? ==> r.error.MissingColumn? && r.error.column in {WorkYear, labelColumn, SalaryInUsd}
                       && r.error.column !in t.columns
    ensures r.Ok? ==> GroupCounts(r.value, t.rows, PairKey(labelOf), PairLess)
  {
    if WorkYear !in t.columns then Err(MissingColumn(WorkYear))
    else if labelColumn !in t.columns then Err(MissingColumn(labelColumn))
    else if SalaryInUsd !in t.columns then Err(MissingColumn(SalaryInUsd))
    else
      PairLessIsOrder();
      GroupByFacts(t.rows, PairKey(labelOf), PairLess);
      Ok(GroupBy(t.rows, PairKey(labelOf), PairLess))
  }

  function AggregateByExperience(t: Table): (r: Result<seq<Group<(int, string)>>, Error>)
    ensures r.Ok? <==> {WorkYear, ExperienceLevelFull, SalaryInUsd} <= t.columns
    ensures r.Ok? ==> GroupCounts(r.value, t.rows, PairKey(ExperienceLabelOf), PairLess)
  {
    AggregateByYearAndLabel(t, ExperienceLevelFull, ExperienceLabelOf)
  }

  function AggregateByCompanySize(t: Table): (r: Result<seq<Group<(int, string)>>, Error>)
    ensures r.Ok? <==> {WorkYear, CompanySizeFull, SalaryInUsd} <= t.columns
    ensures r.Ok? ==> GroupCounts(r.value, t.rows, PairKey(CompanySizeLabelOf), PairLess)
  {
    AggregateByYearAndLabel(t, CompanySizeFull, CompanySizeLabelOf)
  }
}
