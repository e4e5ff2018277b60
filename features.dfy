/** The stages that add columns and never remove rows: the code-to-label
    lookups, the remote-work category and the salary bands. */
module Features {
  import opened Wrappers
  import opened SeqOps
  import opened Table

  // ---------------------------------------------------------------------------
  // standardize_categories
  // ---------------------------------------------------------------------------

  const ExperienceLabels: map<string, string> :=
    map["EN" := "Entry", "MI" := "Mid", "SE" := "Senior", "EX" := "Executive"]
  const EmploymentLabels: map<string, string> :=
    map["FT" := "Full-time", "PT" := "Part-time", "CT" := "Contract", "FL" := "Freelance"]
  const CompanySizeLabels: map<string, string> :=
    map["S" := "Small", "M" := "Medium", "L" := "Large"]

  /** `Series.map(dict)`: the label of a known code; absent for an unknown or absent code. */
  function Lookup(m: map<string, string>, code: Option<string>): (found: Option<string>)
    ensures found.Some? <==> code.Some? && code.value in m
    ensures found.Some? ==> found.value == m[code.value]
  {
    if code.Some? && code.value in m then Some(m[code.value]) else None
  }

  /** The `*_full` columns added for the code columns the table has. */
  function LabelColumns(cols: set<Column>): (added: set<Column>)
    ensures ExperienceLevelFull in added <==> ExperienceLevel in cols
    ensures EmploymentTypeFull in added <==> EmploymentType in cols
    ensures CompanySizeFull in added <==> CompanySize in cols
    ensures added <= {ExperienceLevelFull, EmploymentTypeFull, CompanySizeFull}
  {
    (if ExperienceLevel in cols then {ExperienceLevelFull} else {})
    + (if EmploymentType in cols then {EmploymentTypeFull} else {})
    + (if CompanySize in cols then {CompanySizeFull} else {})
  }

  function StandardizeRow(r: Record, cols: set<Column>): Record
  {
    r.(experienceLevelFull :=
         if ExperienceLevel in cols then Lookup(ExperienceLabels, r.experienceLevel) else r.experienceLevelFull,
       employmentTypeFull :=
         if EmploymentType in cols then Lookup(EmploymentLabels, r.employmentType) else r.employmentTypeFull,
       companySizeFull :=
         if CompanySize in cols then Lookup(CompanySizeLabels, r.companySize) else r.companySizeFull)
  }

  /** Adds `experience_level_full`, `employment_type_full` and `company_size_full`,
      each only when its code column exists; nothing else changes. */
  function StandardizeCategories(t: Table): (r: Table)
    ensures r.columns == t.columns + LabelColumns(t.columns)
    ensures r.extraColumns == t.extraColumns
    ensures |r.rows| == |t.rows|
    ensures forall i :: 0 <= i < |t.rows| ==> SameExcept(r.rows[i], t.rows[i], LabelColumns(t.columns))
    ensures forall i :: 0 <= i < |t.rows| && ExperienceLevel in t.columns ==>
              r.rows[i].experienceLevelFull == Lookup(ExperienceLabels, t.rows[i].experienceLevel)
    ensures forall i :: 0 <= i < |t.rows| && EmploymentType in t.columns ==>
              r.rows[i].employmentTypeFull == Lookup(EmploymentLabels, t.rows[i].employmentType)
    ensures forall i :: 0 <= i < |t.rows| && CompanySize in t.columns ==>
              r.rows[i].companySizeFull == Lookup(CompanySizeLabels, t.rows[i].companySize)
    ensures WellFormed(t) ==> WellFormed(r)
  {
    var rows := seq(|t.rows|, i requires 0 <= i < |t.rows| => StandardizeRow(t.rows[i], t.columns));
    t.(columns := t.columns + LabelColumns(t.columns), rows := rows)
  }

  // ---------------------------------------------------------------------------
  // create_remote_category / categorize_remote
  // ---------------------------------------------------------------------------

  /** 0 is on-site, 100 is fully remote, every other value (absent or out of
      range included) is hybrid. */
  function CategorizeRemote(ratio: Option<int>): (c: RemoteCategory)
    ensures c == Onsite <==> ratio == Some(0)
    ensures c == Remote <==> ratio == Some(100)
    ensures c == Hybrid <==> ratio != Some(0) && ratio != Some(100)
  {
    if ratio == Some(0) then Onsite
    else if ratio == Some(100) then Remote
    else Hybrid
  }

  function CreateRemoteCategory(t: Table): (r: Result<Table, Error>)
    ensures r.Ok? <==> RemoteRatio in t.columns
    ensures r.Err? ==> r.error == MissingColumn(RemoteRatio)
    ensures r.Ok? ==> r.value.columns == t.columns + {RemoteCategoryColumn}
    ensures r.Ok? ==> r.value.extraColumns == t.extraColumns && |r.value.rows| == |t.rows|
    ensures r.Ok? ==> forall i :: 0 <= i < |t.rows| ==>
              SameExcept(r.value.rows[i], t.rows[i], {RemoteCategoryColumn})
              && r.value.rows[i].remoteCategory == Some(CategorizeRemote(t.rows[i].remoteRatio))
    ensures r.Ok? && WellFormed(t) ==> WellFormed(r.value)
  {
    if RemoteRatio !in t.columns then Err(MissingColumn(RemoteRatio))
    else
      var rows := seq(|t.rows|, i requires 0 <= i < |t.rows| =>
                    t.rows[i].(remoteCategory := Some(CategorizeRemote(t.rows[i].remoteRatio))));
      Ok(t.(columns := t.columns + {RemoteCategoryColumn}, rows := rows))
  }

  // ---------------------------------------------------------------------------
  // create_salary_bands (pd.cut, right-closed, without include_lowest)
  // ---------------------------------------------------------------------------

  /** A bin edge: an integer, or an infinity. */
  datatype Edge = NegInf | Finite(v: int) | PosInf

  predicate EdgeLe(a: Edge, b: Edge)
  {
    a.NegInf? || b.PosInf? || (a.Finite? && b.Finite? && a.v <= b.v)
  }

  /** e < x */
  predicate Below(e: Edge, x: int)
  {
    e.NegInf? || (e.Finite? && e.v < x)
  }

  /** x <= e */
  predicate AtOrAbove(e: Edge, x: int)
  {
    e.PosInf? || (e.Finite? && x <= e.v)
  }

  /** Bin `i` is the right-closed interval (edges[i], edges[i+1]]. */
  predicate InBin(edges: seq<Edge>, i: int, x: int)
  {
    0 <= i && i + 1 < |edges| && Below(edges[i], x) && AtOrAbove(edges[i + 1], x)
  }

  predicate NonDecreasing(edges: seq<Edge>)
  {
    forall i, j | 0 <= i < j < |edges| :: EdgeLe(edges[i], edges[j])
  }

  const DefaultEdges: seq<Edge> :=
    [Finite(0), Finite(50000), Finite(100000), Finite(150000), Finite(200000), PosInf]
  const DefaultBandLabels: seq<string> :=
    ["<$50K", "$50K-$100K", "$100K-$150K", "$150K-$200K", ">$200K"]

  /** The edges in force: the caller's unless missing or empty. */
  function Edges(bins: Option<seq<Edge>>): seq<Edge>
  {
    if bins.Some? && bins.value != [] then bins.value else DefaultEdges
  }

  /** The labels in force: the caller's unless missing or empty. */
  function BandLabels(labels: Option<seq<string>>): seq<string>
  {
    if labels.Some? && labels.value != [] then labels.value else DefaultBandLabels
  }

  /** What `pd.cut` accepts: edges that never decrease, no repeated edge unless
      there are exactly two, distinct labels, one label per bin. */
  predicate ValidCut(edges: seq<Edge>, labels: seq<string>)
  {
    && NonDecreasing(edges)
    && (NoDuplicates(edges) || |edges| == 2)
    && NoDuplicates(labels)
    && |labels| == |edges| - 1
  }

  /** The first bin at or after `from` that holds `x`. */
  function BinFrom(edges: seq<Edge>, x: int, from: nat): (k: Option<nat>)
    ensures k.Some? ==> from <= k.value && InBin(edges, k.value, x)
    ensures k.Some? ==> forall j :: from <= j < k.value ==> !InBin(edges, j, x)
    ensures k.None? ==> forall j :: from <= j ==> !InBin(edges, j, x)
    decreases |edges| - from
  {
    if from + 1 >= |edges| then None
    else if InBin(edges, from, x) then Some(from)
    else BinFrom(edges, x, from + 1)
  }

  function BinIndex(edges: seq<Edge>, x: int): Option<nat>
  {
    BinFrom(edges, x, 0)
  }

  /** Over non-decreasing edges the bins are disjoint: a value lies in at most one. */
  lemma BinsDisjoint(edges: seq<Edge>, x: int, i: int, j: int)
    requires NonDecreasing(edges)
    requires InBin(edges, i, x) && InBin(edges, j, x)
    ensures i == j
  {
  }

  /** Over non-decreasing edges, BinIndex names exactly the bin holding the value. */
  lemma BinIndexExact(edges: seq<Edge>, x: int, i: int)
    requires NonDecreasing(edges)
    ensures BinIndex(edges, x) == Some(i) <==> InBin(edges, i, x)
  {
    if InBin(edges, i, x) {
      var k := BinIndex(edges, x);
      assert k.Some?;
      BinsDisjoint(edges, x, i, k.value);
    }
  }

  /** A value above the lowest edge and not above the highest lies in some bin. */
  lemma {:induction false} BinsCover(edges: seq<Edge>, x: int, k: nat)
    requires k + 1 < |edges|
    requires Below(edges[k], x) && AtOrAbove(edges[|edges| - 1], x)
    ensures BinFrom(edges, x, k).Some?
    decreases |edges| - k
  {
    if !AtOrAbove(edges[k + 1], x) {
      BinsCover(edges, x, k + 1);
    }
  }

  /** Bands preserve order: a larger salary never gets a lower bin. */
  lemma BinsMonotone(edges: seq<Edge>, x: int, y: int, i: int, j: int)
    requires NonDecreasing(edges)
    requires x <= y && InBin(edges, i, x) && InBin(edges, j, y)
    ensures i <= j
  {
  }

  /** The default edges are accepted by `pd.cut`. */
  lemma DefaultCutValid()
    ensures ValidCut(DefaultEdges, DefaultBandLabels)
  {
  }

  /** With the default edges a salary gets a band iff it is above 0: a salary of
      0 or below gets none, since the lowest bin is open at 0. */
  lemma DefaultBandsCoverPositive(x: int)
    ensures BinIndex(DefaultEdges, x).Some? <==> x > 0
  {
    if x > 0 {
      BinsCover(DefaultEdges, x, 0);
    }
  }

  function BandOf(salary: Option<int>, edges: seq<Edge>, labels: seq<string>): Option<string>
    requires |labels| == |edges| - 1
  {
    match salary
    case None => None
    case Some(x) =>
      match BinIndex(edges, x)
      case None => None
      case Some(i) => Some(labels[i])
  }

  /** Adds `salary_band`: the label of the bin (edges[i], edges[i+1]] that holds the
      salary; absent when the salary is absent or lies in no bin. */
  function CreateSalaryBands(t: Table, bins: Option<seq<Edge>>, labels: Option<seq<string>>)
    : (r: Result<Table, Error>)
    ensures r.Ok? <==> SalaryInUsd in t.columns && ValidCut(Edges(bins), BandLabels(labels))
    ensures r.Err? && SalaryInUsd !in t.columns ==> r.error == MissingColumn(SalaryInUsd)
    ensures r.Err? && SalaryInUsd in t.columns ==> r.error == InvalidBins
    ensures r.Ok? ==> r.value.columns == t.columns + {SalaryBand}
    ensures r.Ok? ==> r.value.extraColumns == t.extraColumns && |r.value.rows| == |t.rows|
    ensures r.Ok? ==> forall n :: 0 <= n < |t.rows| ==> SameExcept(r.value.rows[n], t.rows[n], {SalaryBand})
    ensures r.Ok? ==> forall n, k :: 0 <= n < |t.rows| && 0 <= k < |BandLabels(labels)| ==>
              (r.value.rows[n].salaryBand == Some(BandLabels(labels)[k]) <==>
               t.rows[n].salaryInUsd.Some? && InBin(Edges(bins), k, t.rows[n].salaryInUsd.value))
    ensures r.Ok? ==> forall n :: 0 <= n < |t.rows| && r.value.rows[n].salaryBand.Some? ==>
              r.value.rows[n].salaryBand.value in BandLabels(labels)
    ensures r.Ok? && WellFormed(t) ==> WellFormed(r.value)
  {
    var edges, names := Edges(bins), BandLabels(labels);
    if SalaryInUsd !in t.columns then Err(MissingColumn(SalaryInUsd))
    else if !ValidCut(edges, names) then Err(InvalidBins)
    else
      var rows := seq(|t.rows|, n requires 0 <= n < |t.rows| =>
                    t.rows[n].(salaryBand := BandOf(t.rows[n].salaryInUsd, edges, names)));
      assert forall n, k :: 0 <= n < |t.rows| && 0 <= k < |names| ==>
               (rows[n].salaryBand == Some(names[k]) <==>
                t.rows[n].salaryInUsd.Some? && InBin(edges, k, t.rows[n].salaryInUsd.value)) by {
        forall n, k | 0 <= n < |t.rows| && 0 <= k < |names|
          ensures rows[n].salaryBand == Some(names[k]) <==>
                  t.rows[n].salaryInUsd.Some? && InBin(edges, k, t.rows[n].salaryInUsd.value)
        {
          if t.rows[n].salaryInUsd.Some? {
            BinIndexExact(edges, t.rows[n].salaryInUsd.value, k);
          }
        }
      }
      Ok(t.(columns := t.columns + {SalaryBand}, rows := rows))
  }
}
