/**
 * The records a profiling connector hands to the analyzer: the statistics of one
 * column, the profile of one table, and the errors the analysis can raise.
 * Python dictionaries with optional keys become records of `Option` fields.
 */
module Profiles {
  import opened Wrappers

  /** A value of `min`, `max`, `mean` and the percentiles: a number for NUMERIC
      columns, an ISO timestamp string for TIMESTAMP columns. */
  datatype Scalar = Num(n: real) | Str(s: string)

  /** The statistics of one column; `None` is a key the connector did not set. */
  datatype ColumnStats = ColumnStats(
    colType: Option<string>,
    count: Option<int>,
    share: Option<real>,
    uniq: Option<int>,
    uniqUpper: Option<int>,
    topValue: Option<string>,
    topFreq: Option<int>,
    topShare: Option<real>,
    mean: Option<Scalar>,
    min: Option<Scalar>,
    max: Option<Scalar>,
    perc25: Option<Scalar>,
    median: Option<Scalar>,
    perc75: Option<Scalar>,
    error: Option<string>)

  /** A dictionary has each key once. */
  predicate DistinctNames(cols: seq<(string, ColumnStats)>) {
    forall i, j :: 0 <= i < j < |cols| ==> cols[i].0 != cols[j].0
  }

  /** The `COLUMNS` dictionary: column name to statistics, in insertion order. */
  type Columns = cols: seq<(string, ColumnStats)> | DistinctNames(cols)

  /** The `TABLE_PROFILING_INFO` dictionary. */
  datatype ProfilingInfo = ProfilingInfo(tableCount: Option<int>, columns: Option<Columns>)

  /** One entry of the profiling results. */
  datatype TableProfile = TableProfile(
    tableName: Option<string>,
    profilingInfo: Option<ProfilingInfo>,
    error: Option<string>)

  /** The exceptions the analysis lets escape to its caller. */
  datatype Error =
    | LackDataForAnalysis(dataProvided: TableProfile)  // table without usable column statistics
    | UndefinedColumnType                              // column statistics without `col_type`
    | MissingRuleSet(colType: string)                  // KeyError on the rule configuration
    | InvalidIsoFormat(value: Option<Scalar>)          // `datetime.fromisoformat` refused its argument

  // Python's truth test on an optional value: a missing key (None), a zero and an
  // empty string are all false.

  predicate Truthy(v: Option<Scalar>) {
    match v
    case None => false
    case Some(Num(x)) => x != 0.0
    case Some(Str(s)) => s != ""
  }

  predicate TruthyInt(v: Option<int>) {
    v.Some? && v.value != 0
  }

  predicate TruthyReal(v: Option<real>) {
    v.Some? && v.value != 0.0
  }

  predicate TruthyStr(v: Option<string>) {
    v.Some? && v.value != ""
  }

  /** A dictionary is true when it has at least one key. */
  predicate TruthyInfo(v: Option<ProfilingInfo>) {
    v.Some? && (v.value.tableCount.Some? || v.value.columns.Some?)
  }

  predicate TruthyColumns(v: Option<Columns>) {
    v.Some? && |v.value| != 0
  }
}
