/** The salary record table: named columns, rows of optional cells, and the
    errors the stages raise. */
module Table {
  import opened Wrappers

  /** The columns the pipeline reads or derives. */
  datatype Column =
    | WorkYear | JobTitle | SalaryInUsd
    | ExperienceLevel | EmploymentType | CompanySize | RemoteRatio
    | ExperienceLevelFull | EmploymentTypeFull | CompanySizeFull
    | RemoteCategoryColumn | SalaryBand

  /** The three arrangements derived from `remote_ratio`. */
  datatype RemoteCategory = Onsite | Hybrid | Remote

  /** One row. A cell the file leaves empty, or a column the table does not have,
      is `None`. Columns the pipeline never reads (salary currency, residence, ...)
      are kept as text in `extra`, keyed by column name, so that equality of
      records is equality across all columns. */
  datatype Record = Record(
    workYear: Option<int>,
    jobTitle: Option<string>,
    salaryInUsd: Option<int>,
    experienceLevel: Option<string>,
    employmentType: Option<string>,
    companySize: Option<string>,
    remoteRatio: Option<int>,
    experienceLevelFull: Option<string>,
    employmentTypeFull: Option<string>,
    companySizeFull: Option<string>,
    remoteCategory: Option<RemoteCategory>,
    salaryBand: Option<string>,
    extra: map<string, string>)

  /** A table: the set of columns it has, the names of its other columns, and its rows. */
  datatype Table = Table(columns: set<Column>, extraColumns: set<string>, rows: seq<Record>)

  /** The errors a stage raises: a required column is missing (ValueError or
      KeyError), a percentage divides by an empty table (ZeroDivisionError), or
      `pd.cut` rejects its bin edges or labels (ValueError). */
  datatype Error = MissingColumn(column: Column) | EmptyTable | InvalidBins

  /** A cell seen independently of its column's type. */
  datatype Cell = Missing | IntCell(i: int) | TextCell(s: string) | CategoryCell(c: RemoteCategory)

  function IntCellOf(v: Option<int>): Cell
  {
    match v
    case None => Missing
    case Some(i) => IntCell(i)
  }

  function TextCellOf(v: Option<string>): Cell
  {
    match v
    case None => Missing
    case Some(s) => TextCell(s)
  }

  /** The cell of row `r` in column `c`. */
  function CellOf(r: Record, c: Column): Cell
  {
    match c
    case WorkYear => IntCellOf(r.workYear)
    case JobTitle => TextCellOf(r.jobTitle)
    case SalaryInUsd => IntCellOf(r.salaryInUsd)
    case ExperienceLevel => TextCellOf(r.experienceLevel)
    case EmploymentType => TextCellOf(r.employmentType)
    case CompanySize => TextCellOf(r.companySize)
    case RemoteRatio => IntCellOf(r.remoteRatio)
    case ExperienceLevelFull => TextCellOf(r.experienceLevelFull)
    case EmploymentTypeFull => TextCellOf(r.employmentTypeFull)
    case CompanySizeFull => TextCellOf(r.companySizeFull)
    case RemoteCategoryColumn =>
      (match r.remoteCategory
       case None => Missing
       case Some(k) => CategoryCell(k))
    case SalaryBand => TextCellOf(r.salaryBand)
  }

  /** A row fits a table's header: no value in a column the table lacks. */
  ghost predicate Conforms(r: Record, columns: set<Column>, extraColumns: set<string>)
  {
    && (forall c :: c !in columns ==> CellOf(r, c) == Missing)
    && r.extra.Keys <= extraColumns
  }

  /** Every row fits the header. Every stage keeps this invariant. */
  ghost predicate WellFormed(t: Table)
  {
    forall i :: 0 <= i < |t.rows| ==> Conforms(t.rows[i], t.columns, t.extraColumns)
  }

  /** `a` and `b` agree on every column outside `changed`, and on the other columns. */
  ghost predicate SameExcept(a: Record, b: Record, changed: set<Column>)
  {
    && a.extra == b.extra
    && forall c :: c !in changed ==> CellOf(a, c) == CellOf(b, c)
  }
}
