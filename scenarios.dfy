/** Worked examples of the stages on small concrete tables. */
module Scenarios {
  import opened Wrappers
  import opened SeqOps
  import opened Table
  import opened Cleaning
  import opened Features
  import opened Grouping
  import opened Aggregation
  import opened Pipeline

  /** A full-time mid-level data scientist at a medium company, fully remote. */
  function Row(year: int, salary: int): Record
  {
    Record(Some(year), Some("Data Scientist"), Some(salary), Some("MI"), Some("FT"), Some("M"),
           Some(100), None, None, None, None, None, map[])
  }

  /** Five rows: one each from 2019, 2023 and 2026 and an identical pair from 2021. */
  function FiveRows(): seq<Record>
  {
    [Row(2019, 5000), Row(2021, 80000), Row(2021, 80000), Row(2023, 150000), Row(2026, 90000)]
  }

  /** De-duplication drops the second of the identical 2021 rows. */
  lemma DedupScenario()
    ensures Dedup(FiveRows()) == [Row(2019, 5000), Row(2021, 80000), Row(2023, 150000), Row(2026, 90000)]
  {
    var a, b, c, d := Row(2019, 5000), Row(2021, 80000), Row(2023, 150000), Row(2026, 90000);
    var rows := FiveRows();
    assert a.workYear != b.workYear && a.workYear != c.workYear && b.workYear != c.workYear;
    assert d.workYear !in {a.workYear, b.workYear, c.workYear};
    assert [a][..0] == [];
    assert [a, b][..1] == [a];
    assert rows[..4] == [a, b, b, c];
    assert rows[..4][..3] == [a, b, b];
    assert rows[..4][..3][..2] == [a, b];
    assert Dedup([a]) == [a];
    assert Dedup([a, b]) == [a, b];
    assert Dedup([a, b, b]) == [a, b];
    assert Dedup([a, b, b, c]) == [a, b, c];
  }

  /** A one-row sequence is kept exactly when its row passes `p`. */
  lemma FilterOne<T>(p: T -> bool, a: T)
    ensures Filter(p, [a]) == if p(a) then [a] else []
  {
    assert [a][..0] == [];
  }

  /** Keeping the rows of a four-row sequence that pass `p`, one row at a time. */
  lemma FilterFour<T>(p: T -> bool, a: T, b: T, c: T, d: T)
    ensures Filter(p, [a, b, c, d])
            == (if p(a) then [a] else []) + (if p(b) then [b] else [])
               + (if p(c) then [c] else []) + (if p(d) then [d] else [])
  {
    assert [a, b, c, d] == [a] + [b] + [c] + [d];
    FilterConcat(p, [a] + [b] + [c], [d]);
    FilterConcat(p, [a] + [b], [c]);
    FilterConcat(p, [a], [b]);
    FilterOne(p, a);
    FilterOne(p, b);
    FilterOne(p, c);
    FilterOne(p, d);
  }

  /** After de-duplication the 2020-2025 window drops the 2019 and 2026 rows. */
  lemma YearScenario()
    ensures Filter(YearWindow(DefaultStartYear, DefaultEndYear), Dedup(FiveRows()))
            == [Row(2021, 80000), Row(2023, 150000)]
  {
    DedupScenario();
    var y := YearWindow(DefaultStartYear, DefaultEndYear);
    assert !y(Row(2019, 5000)) && y(Row(2021, 80000)) && y(Row(2023, 150000)) && !y(Row(2026, 90000));
    FilterFour(y,
               Row(2019, 5000), Row(2021, 80000), Row(2023, 150000), Row(2026, 90000));
  }

  /** The two rows left also pass the role, salary and critical-value tests, so
      the cleaned table has two rows. */
  lemma KeptScenario()
    ensures Filter(KeptBy(DefaultMinSalary, DefaultMaxSalary), Dedup(FiveRows()))
            == [Row(2021, 80000), Row(2023, 150000)]
  {
    DedupScenario();
    TitleMatches();
    var k := KeptBy(DefaultMinSalary, DefaultMaxSalary);
    assert !k(Row(2019, 5000)) && k(Row(2021, 80000)) && k(Row(2023, 150000)) && !k(Row(2026, 90000));
    FilterFour(k,
               Row(2019, 5000), Row(2021, 80000), Row(2023, 150000), Row(2026, 90000));
  }

  /** The by-year groups of the cleaned rows: 2021 and 2023 with one salary each. */
  lemma GroupScenario()
    ensures GroupBy([Row(2021, 80000), Row(2023, 150000)], YearKey, IntLess)
            == [Group(2021, 1), Group(2023, 1)]
  {
    var b, c := Row(2021, 80000), Row(2023, 150000);
    assert [b, c][..1] == [b];
    assert [b][..0] == [];
    assert GroupBy([b], YearKey, IntLess) == [Group(2021, 1)];
    assert AddRow([Group(2021, 1)], 2023, Some(150000), IntLess) == [Group(2021, 1), Group(2023, 1)] by {
      assert [Group(2021, 1)][1..] == [];
    }
  }

  /** "Data Scientist" matches the first default keyword once lower-cased. */
  lemma TitleMatches()
    ensures RoleMatches(Row(2021, 80000), DefaultKeywords)
    ensures RoleMatches(Row(2023, 150000), DefaultKeywords)
  {
    assert Lower("Data Scientist") == "data scientist";
    assert OccursAt(DefaultKeywords[0], "data scientist", 0);
  }

  /** Remote ratios 0, 50, 100 and 75 give onsite, hybrid, remote and hybrid. */
  lemma RemoteScenario()
    ensures [CategorizeRemote(Some(0)), CategorizeRemote(Some(50)), CategorizeRemote(Some(100)),
             CategorizeRemote(Some(75))] == [Onsite, Hybrid, Remote, Hybrid]
  {
  }

  /** An unknown experience code "XX" is not a missing value, so the row passes
      the critical-value test (which runs first) and then gets no experience label. */
  lemma UnknownExperienceCodeSurvives(cols: set<Column>)
    requires ExperienceLevel in cols
    ensures HasCritical(Row(2021, 80000).(experienceLevel := Some("XX")))
    ensures EnrichRow(Row(2021, 80000).(experienceLevel := Some("XX")), cols).experienceLevelFull == None
  {
  }
}
