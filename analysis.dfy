/**
 * The analyzer of utils/analyzer.py: it drops the profiling results that carry an
 * error, walks the remaining tables and their columns, and asks the constraint
 * identifier for each column's suggestions under the rules configured for the
 * column's type.
 */
module Analysis {
  import opened Wrappers
  import opened Profiles
  import opened ConstraintIdentification

  /** The semantic column types the analyzer recognises. */
  datatype ColumnType = Numeric | Text | Timestamp

  function TypeName(t: ColumnType): string {
    match t
    case Numeric => "NUMERIC"
    case Text => "TEXT"
    case Timestamp => "TIMESTAMP"
  }

  /** `ColumnType.list_possible_types()`. */
  const PossibleTypes: seq<string> := ["NUMERIC", "TIMESTAMP", "TEXT"]

  /** The recognised type a `col_type` string names, if any. */
  function ParseColumnType(s: string): (r: Option<ColumnType>)
    ensures r.Some? <==> s in PossibleTypes
    ensures r.Some? ==> TypeName(r.value) == s
  {
    if s == "NUMERIC" then Some(Numeric)
    else if s == "TIMESTAMP" then Some(Timestamp)
    else if s == "TEXT" then Some(Text)
    else None
  }

  /** `constraint_identification_rules`: the ordered rule list for each column type. */
  type RuleConfig = map<ColumnType, seq<Rule>>

  /** One entry of `SUGGESTED_CONSTRAINTS`: `POSSIBLE_CONSTRAINTS` and `BASE_INFO`. */
  datatype ColumnReport = ColumnReport(possibleConstraints: seq<Suggestion>, baseInfo: ColumnStats)

  /** One entry of the analyzer's output: `TABLE_NAME` and `SUGGESTED_CONSTRAINTS`. */
  datatype TableReport = TableReport(tableName: Option<string>, suggestedConstraints: seq<(string, ColumnReport)>)

  /** The sentinel answer for a column type outside the recognised ones. */
  const Unidentified: seq<Suggestion> := [Suggestion(NoIdentifiedConstraints, None, None)]

  /** The constructor's filter: the profiling results whose `ERROR` is false, in order. */
  function KeepUnerrored(results: seq<TableProfile>): (r: seq<TableProfile>)
    ensures |r| <= |results|
    ensures forall t :: t in r <==> t in results && !TruthyStr(t.error)
  {
    if results == [] then []
    else if TruthyStr(results[0].error) then KeepUnerrored(results[1..])
    else [results[0]] + KeepUnerrored(results[1..])
  }

  /**
   * The suggestions for one column whose statistics carry no error: a false
   * `col_type` raises, an unrecognised one gets the sentinel, a recognised one
   * runs the rules configured for it (a type missing from the configuration is a
   * failed lookup).
   */
  function ColumnSuggestions(stat: ColumnStats, colName: string, tblName: Option<string>,
                             rules: RuleConfig, env: Env): (r: Result<seq<Suggestion>, Error>)
    ensures r == Err(UndefinedColumnType) <==> !TruthyStr(stat.colType)
    ensures TruthyStr(stat.colType) && stat.colType.value !in PossibleTypes ==> r == Ok(Unidentified)
    ensures TruthyStr(stat.colType) && stat.colType.value in PossibleTypes ==>
      var t := ParseColumnType(stat.colType.value).value;
      && (t !in rules ==> r == Err(MissingRuleSet(stat.colType.value)))
      && (t in rules ==> r == Identify(Context(stat, colName, tblName), rules[t], env))
    ensures r.Ok? ==> |r.value| <= 6
    ensures r.Err? ==> !r.error.LackDataForAnalysis?
  {
    if !TruthyStr(stat.colType) then Err(UndefinedColumnType)
    else match ParseColumnType(stat.colType.value)
      case None => Ok(Unidentified)
      case Some(t) =>
        if t !in rules then Err(MissingRuleSet(stat.colType.value))
        else Identify(Context(stat, colName, tblName), rules[t], env)
  }

  /** The `SUGGESTED_CONSTRAINTS` of one table, column by column; the first error aborts. */
  function SuggestColumns(tblName: Option<string>, cols: seq<(string, ColumnStats)>,
                          rules: RuleConfig, env: Env): (r: Result<seq<(string, ColumnReport)>, Error>)
    ensures r.Ok? ==> |r.value| == |cols|
    ensures r.Ok? ==> forall i :: 0 <= i < |cols| ==>
      && r.value[i].0 == cols[i].0
      && r.value[i].1.baseInfo == cols[i].1
      && (TruthyStr(cols[i].1.error) ==> r.value[i].1.possibleConstraints == [])
      && (!TruthyStr(cols[i].1.error) ==>
            Ok(r.value[i].1.possibleConstraints) == ColumnSuggestions(cols[i].1, cols[i].0, tblName, rules, env))
    ensures r.Err? <==> exists i :: 0 <= i < |cols| && !TruthyStr(cols[i].1.error)
                                    && ColumnSuggestions(cols[i].1, cols[i].0, tblName, rules, env).Err?
    ensures r.Err? ==> !r.error.LackDataForAnalysis?
    decreases |cols|
  {
    if cols == [] then Ok([])
    else
      var (name, stat) := cols[0];
      var head: Result<ColumnReport, Error> :=
        if TruthyStr(stat.error) then Ok(ColumnReport([], stat))
        else match ColumnSuggestions(stat, name, tblName, rules, env)
          case Err(e) => Err(e)
          case Ok(found) => Ok(ColumnReport(found, stat));
      match head
      case Err(e) => Err(e)
      case Ok(report) =>
        match SuggestColumns(tblName, cols[1..], rules, env)
        case Err(e) => Err(e)
        case Ok(rest) => Ok([(name, report)] + rest)
  }

  /** The table has no usable column statistics: `TABLE_PROFILING_INFO` or its
      `COLUMNS` is missing or empty. */
  predicate LacksColumns(t: TableProfile) {
    !TruthyInfo(t.profilingInfo) || !TruthyColumns(t.profilingInfo.value.columns)
  }

  /** The report for one table, or the error that aborts the analysis. */
  function SuggestTable(t: TableProfile, rules: RuleConfig, env: Env): (r: Result<TableReport, Error>)
    ensures r == Err(LackDataForAnalysis(t)) <==>
      t.profilingInfo.None? || t.profilingInfo.value.columns.None? || |t.profilingInfo.value.columns.value| == 0
    ensures r.Ok? ==> r.value.tableName == t.tableName
    ensures r.Ok? ==>
      var cols := t.profilingInfo.value.columns.value;
      && |r.value.suggestedConstraints| == |cols|
      && forall i :: 0 <= i < |cols| ==> r.value.suggestedConstraints[i].0 == cols[i].0
    ensures !LacksColumns(t) ==>
      (r.Ok? <==> SuggestColumns(t.tableName, t.profilingInfo.value.columns.value, rules, env).Ok?)
    ensures r.Ok? ==> Ok(r.value.suggestedConstraints) == SuggestColumns(t.tableName, t.profilingInfo.value.columns.value, rules, env)
  {
    if LacksColumns(t) then Err(LackDataForAnalysis(t))
    else match SuggestColumns(t.tableName, t.profilingInfo.value.columns.value, rules, env)
      case Err(e) => Err(e)
      case Ok(cols) => Ok(TableReport(t.tableName, cols))
  }

  /** `suggest_constraints` on a list of tables: one report per table, in order,
      unless some table raises, in which case nothing but the first error comes back. */
  function SuggestAll(tables: seq<TableProfile>, rules: RuleConfig, env: Env): (r: Result<seq<TableReport>, Error>)
    ensures r.Ok? ==> |r.value| == |tables|
    ensures r.Ok? ==> forall i :: 0 <= i < |tables| ==>
      SuggestTable(tables[i], rules, env) == Ok(r.value[i])
    ensures r.Ok? <==> forall i :: 0 <= i < |tables| ==> SuggestTable(tables[i], rules, env).Ok?
    decreases |tables|
  {
    if tables == [] then Ok([])
    else match SuggestTable(tables[0], rules, env)
      case Err(e) => Err(e)
      case Ok(first) =>
        match SuggestAll(tables[1..], rules, env)
        case Err(e) => Err(e)
        case Ok(rest) => Ok([first] + rest)
  }

  /** One step of the walk over tables. */
  lemma SuggestAllStep(tables: seq<TableProfile>, i: nat, rules: RuleConfig, env: Env)
    requires i < |tables|
    ensures SuggestAll(tables[i..], rules, env) ==
      match SuggestTable(tables[i], rules, env)
      case Err(e) => Err(e)
      case Ok(t) => Prepend([t], SuggestAll(tables[i + 1..], rules, env))
  {
    assert tables[i..][0] == tables[i] && tables[i..][1..] == tables[i + 1..];
  }

  /** One step of the walk over a table's columns. */
  lemma SuggestColumnsStep(tblName: Option<string>, cols: seq<(string, ColumnStats)>, j: nat, rules: RuleConfig, env: Env)
    requires j < |cols|
    ensures SuggestColumns(tblName, cols[j..], rules, env) ==
      if TruthyStr(cols[j].1.error)
      then Prepend([(cols[j].0, ColumnReport([], cols[j].1))], SuggestColumns(tblName, cols[j + 1..], rules, env))
      else match ColumnSuggestions(cols[j].1, cols[j].0, tblName, rules, env)
        case Err(e) => Err(e)
        case Ok(found) => Prepend([(cols[j].0, ColumnReport(found, cols[j].1))], SuggestColumns(tblName, cols[j + 1..], rules, env))
  {
    assert cols[j..][0] == cols[j] && cols[j..][1..] == cols[j + 1..];
  }

  class Analyzer {
    var profilingResults: seq<TableProfile>
    var constraintIdentificationRules: RuleConfig
    var addAdfFrameworkTemplate: bool

    constructor (profilingResults: seq<TableProfile>, constraintIdentificationRules: RuleConfig,
                 addAdfFrameworkTemplate: bool := false)
      ensures this.profilingResults == KeepUnerrored(profilingResults)
      ensures this.constraintIdentificationRules == constraintIdentificationRules
      ensures this.addAdfFrameworkTemplate == addAdfFrameworkTemplate
    {
      this.profilingResults := KeepUnerrored(profilingResults);
      this.constraintIdentificationRules := constraintIdentificationRules;
      this.addAdfFrameworkTemplate := addAdfFrameworkTemplate;
    }

    /** The `profiling_results` setter re-runs the constructor with the current
        rules and without the template flag, which falls back to false. */
    method SetProfilingResults(profilingResults: seq<TableProfile>)
      modifies this
      ensures this.profilingResults == KeepUnerrored(profilingResults)
      ensures constraintIdentificationRules == old(constraintIdentificationRules)
      ensures !addAdfFrameworkTemplate
    {
      this.profilingResults := KeepUnerrored(profilingResults);
      addAdfFrameworkTemplate := false;
    }

    /** `__identify_constraints_for_column`, for a column whose statistics carry no error. */
    method IdentifyConstraintsForColumn(colStat: ColumnStats, colName: string, tblName: Option<string>, env: Env)
      returns (r: Result<seq<Suggestion>, Error>)
      ensures r == ColumnSuggestions(colStat, colName, tblName, constraintIdentificationRules, env)
    {
      if !TruthyStr(colStat.colType) {
        return Err(UndefinedColumnType);
      }
      var colType := ParseColumnType(colStat.colType.value);
      if colType.None? {
        return Ok(Unidentified);
      }
      if colType.value !in constraintIdentificationRules {
        return Err(MissingRuleSet(colStat.colType.value));
      }
      r := IdentifyWithRules(colStat, colName, tblName, constraintIdentificationRules[colType.value], env);
    }

    /** `suggest_constraints`: the nested walk over tables and columns. */
    method SuggestConstraints(env: Env) returns (r: Result<seq<TableReport>, Error>)
      ensures r == SuggestAll(profilingResults, constraintIdentificationRules, env)
    {
      var tables, rules := profilingResults, constraintIdentificationRules;
      var suggestedConstraints: seq<TableReport> := [];
      assert tables[0..] == tables;
      PrependNothing(SuggestAll(tables, rules, env));
      for i := 0 to |tables|
        invariant SuggestAll(tables, rules, env) == Prepend(suggestedConstraints, SuggestAll(tables[i..], rules, env))
      {
        SuggestAllStep(tables, i, rules, env);
        var table := tables[i];
        if LacksColumns(table) {
          return Err(LackDataForAnalysis(table));
        }
        var columns := table.profilingInfo.value.columns.value;
        var suggestionsForTable: seq<(string, ColumnReport)> := [];
        assert columns[0..] == columns;
        PrependNothing(SuggestColumns(table.tableName, columns, rules, env));
        for j := 0 to |columns|
          invariant SuggestColumns(table.tableName, columns, rules, env) ==
            Prepend(suggestionsForTable, SuggestColumns(table.tableName, columns[j..], rules, env))
        {
          SuggestColumnsStep(table.tableName, columns, j, rules, env);
          var (colName, colStat) := columns[j];
          var report: ColumnReport;
          if TruthyStr(colStat.error) {
            report := ColumnReport([], colStat);
          } else {
            var found := IdentifyConstraintsForColumn(colStat, colName, table.tableName, env);
            if found.Err? {
              assert SuggestColumns(table.tableName, columns, rules, env) == Err(found.error);
              assert SuggestTable(table, rules, env) == Err(found.error);
              return Err(found.error);
            }
            report := ColumnReport(found.value, colStat);
          }
          PrependTwice(suggestionsForTable, [(colName, report)], SuggestColumns(table.tableName, columns[j + 1..], rules, env));
          suggestionsForTable := suggestionsForTable + [(colName, report)];
        }
        assert columns[|columns|..] == [] && suggestionsForTable + [] == suggestionsForTable;
        assert SuggestTable(table, rules, env) == Ok(TableReport(table.tableName, suggestionsForTable));
        PrependTwice(suggestedConstraints, [TableReport(table.tableName, suggestionsForTable)], SuggestAll(tables[i + 1..], rules, env));
        suggestedConstraints := suggestedConstraints + [TableReport(table.tableName, suggestionsForTable)];
      }
      assert tables[|tables|..] == [] && suggestedConstraints + [] == suggestedConstraints;
      r := Ok(suggestedConstraints);
    }
  }
}
