/**
 * The shape of the two descriptions the application derives from its table:
 * the data summary sent as grounding context when a session starts
 * (`get_data_summary`) and the payload of the data-info route (`data_info`).
 *
 * The table is modelled by its columns (name and inferred dtype) and its rows
 * (one cell per column); cell values are kept as rendered text.
 */
module DataSummary {
  import opened Wrappers

  /** Number of rows in the summary's sample. */
  const SummarySampleSize: nat := 10

  /** Number of rows in the data-info sample. */
  const InfoSampleSize: nat := 5

  /** The column dtypes modelled: those `read_csv` infers for plain CSV text without date parsing. */
  datatype Dtype = Int64 | UInt64 | Float64 | Bool | Object

  /** The dtype as rendered by `astype(str)`. */
  function DtypeLabel(d: Dtype): string {
    match d
    case Int64 => "int64"
    case UInt64 => "uint64"
    case Float64 => "float64"
    case Bool => "bool"
    case Object => "object"
  }

  /** Selected by `select_dtypes(include=['number'])`; booleans are not numbers there. */
  predicate IsNumeric(d: Dtype) {
    d == Int64 || d == UInt64 || d == Float64
  }

  datatype Column = Column(name: string, dtype: Dtype)

  /** A cell: missing (pandas NaN) or a value in its rendered form. */
  datatype Cell = Missing | Value(text: string)

  /** A row, one cell per column, in column order. */
  type Record = seq<Cell>

  datatype Table = Table(columns: seq<Column>, rows: seq<Record>)

  /** The summary dictionary; `statistics` is the set of described columns, absent when none is numeric. */
  datatype Summary = Summary(
    rows: nat,
    columns: nat,
    columnNames: seq<string>,
    dtypes: seq<string>,
    sampleRows: seq<Record>,
    statistics: Option<seq<string>>)

  /** The data-info payload. */
  datatype DataInfo = DataInfo(
    rows: nat,
    columns: nat,
    columnNames: seq<string>,
    dtypes: seq<string>,
    sample: seq<Record>)

  function Min(a: nat, b: nat): nat {
    if a <= b then a else b
  }

  /** `head(n)`: the first `n` rows, or all of them when there are fewer. */
  function Head(rows: seq<Record>, n: nat): (h: seq<Record>)
    ensures |h| == Min(n, |rows|)
    ensures h <= rows
  {
    if |rows| <= n then rows else rows[..n]
  }

  /** `columns.tolist()`. */
  function ColumnNames(cols: seq<Column>): seq<string>
  {
    seq(|cols|, i requires 0 <= i < |cols| => cols[i].name)
  }

  /** `dtypes.astype(str)`, in column order. */
  function DtypeLabels(cols: seq<Column>): seq<string>
  {
    seq(|cols|, i requires 0 <= i < |cols| => DtypeLabel(cols[i].dtype))
  }

  /** Some column of the table is numeric. */
  predicate HasNumericColumn(cols: seq<Column>) {
    exists i :: 0 <= i < |cols| && IsNumeric(cols[i].dtype)
  }

  /**
   * The indices, from `from` on, of the numeric columns: strictly increasing,
   * each one numeric, and every numeric column at or after `from` among them.
   */
  function NumericIndicesFrom(cols: seq<Column>, from: nat): (idx: seq<nat>)
    requires from <= |cols|
    ensures forall k :: 0 <= k < |idx| ==> from <= idx[k] < |cols| && IsNumeric(cols[idx[k]].dtype)
    ensures forall k, l :: 0 <= k < l < |idx| ==> idx[k] < idx[l]
    ensures forall j :: from <= j < |cols| && IsNumeric(cols[j].dtype) ==> j in idx
    decreases |cols| - from
  {
    if from == |cols| then []
    else
      var rest := NumericIndicesFrom(cols, from + 1);
      if IsNumeric(cols[from].dtype) then [from] + rest else rest
  }

  /**
   * `select_dtypes(include=['number']).columns`: the names of exactly the
   * numeric columns, in column order (the k-th name is that of the k-th
   * numeric column). It is empty exactly when no column is numeric.
   */
  function NumericColumns(cols: seq<Column>): (names: seq<string>)
    ensures var idx := NumericIndicesFrom(cols, 0);
      |names| == |idx| && forall k :: 0 <= k < |idx| ==> names[k] == cols[idx[k]].name
    ensures forall i :: 0 <= i < |cols| && IsNumeric(cols[i].dtype) ==> cols[i].name in names
    ensures forall n :: n in names ==> exists i :: 0 <= i < |cols| && cols[i].name == n && IsNumeric(cols[i].dtype)
    ensures |names| > 0 <==> HasNumericColumn(cols)
  {
    var idx := NumericIndicesFrom(cols, 0);
    var names := seq(|idx|, k requires 0 <= k < |idx| => cols[idx[k]].name);
    assert forall i :: 0 <= i < |cols| && IsNumeric(cols[i].dtype) ==> cols[i].name in names by {
      forall i | 0 <= i < |cols| && IsNumeric(cols[i].dtype) ensures cols[i].name in names {
        var k :| 0 <= k < |idx| && idx[k] == i;
        assert names[k] == cols[i].name;
      }
    }
    assert HasNumericColumn(cols) ==> |names| > 0;
    assert |names| > 0 ==> IsNumeric(cols[idx[0]].dtype);
    names
  }

  /**
   * `get_data_summary`, before rendering: the shape, the column names and dtypes,
   * the first ten rows, and statistics for the numeric columns when there are any.
   */
  function Summarize(t: Table): (s: Summary)
    ensures s.rows == |t.rows| && s.columns == |t.columns|
    ensures s.columnNames == ColumnNames(t.columns) && s.dtypes == DtypeLabels(t.columns)
    ensures |s.sampleRows| == Min(SummarySampleSize, |t.rows|) && s.sampleRows <= t.rows
    ensures s.statistics.Some? <==> HasNumericColumn(t.columns)
    ensures s.statistics.Some? ==> s.statistics.value == NumericColumns(t.columns)
  {
    var numeric := NumericColumns(t.columns);
    Summary(
      |t.rows|,
      |t.columns|,
      ColumnNames(t.columns),
      DtypeLabels(t.columns),
      Head(t.rows, SummarySampleSize),
      if |numeric| > 0 then Some(numeric) else None)
  }

  /** `data_info`: the shape, the column names and dtypes, and the first five rows. */
  function Info(t: Table): (d: DataInfo)
    ensures d.rows == |t.rows| && d.columns == |t.columns|
    ensures d.columnNames == ColumnNames(t.columns) && d.dtypes == DtypeLabels(t.columns)
    ensures |d.sample| == Min(InfoSampleSize, |t.rows|) && d.sample <= t.rows
  {
    DataInfo(
      |t.rows|,
      |t.columns|,
      ColumnNames(t.columns),
      DtypeLabels(t.columns),
      Head(t.rows, InfoSampleSize))
  }

  /**
   * The data-info payload agrees with the summary on the table's shape, and its
   * sample is a prefix of the summary's sample.
   */
  lemma InfoAgreesWithSummary(t: Table)
    ensures Info(t).rows == Summarize(t).rows && Info(t).columns == Summarize(t).columns
    ensures Info(t).columnNames == Summarize(t).columnNames
    ensures Info(t).sample <= Summarize(t).sampleRows
  {
  }
}
