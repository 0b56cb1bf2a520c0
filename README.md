# Constraint suggestion in spark-dq-profiler, modelled in Dafny

spark-dq-profiler profiles database tables. It then suggests data-quality
constraints for every profiled column. This project models that suggestion
engine:

- **The constraint identifier** (`utils/constraint_identifier.py`). It holds one
  column's statistics (`base_info`) and six result slots. Six threshold
  heuristics each fill their own slot when they fire:
  - NULLABILITY
  - MINMAX
  - DETERMINED_LIST
  - INCONSISTENT_NAMES
  - FUTURE_DATES
  - FOREIGN_KEY

  `identify_constraints` lists the filled slots in that fixed order. Its
  builder wraps one identifier. Each `include_*` method runs one heuristic and
  returns the builder.
- **The analyzer** (`utils/analyzer.py`). It drops the profiling results that
  carry an `ERROR`. It walks the remaining tables and their columns, and runs
  the rule list configured for each column's type. Errors escape to the caller.

The project has seven modules:

- `Wrappers` holds `Option` and `Result`. `Somes` is the filter of
  `identify_constraints`. `Prepend` is the accumulator used in loop invariants.
- `Profiles` holds the input records. Python dictionaries with optional keys
  become records of `Option` fields. It also holds Python's truth test on such
  values and the four exceptions, as one `Error` datatype.
- `ConstraintIdentification` has three parts:
  - Each heuristic is a pure evaluator `Eval…`. Its contract states when it
    fires and what it yields.
  - The classes `ConstraintIdentifier` and `ConstraintIdentifierBuilder` update
    their slot fields in place, as the Python objects do.
  - `RunRules` and `Identify` specify a run of configured rules as a fold over
    the six slots. The method `IdentifyWithRules` drives the builder in a loop
    and is proved equal to `Identify`.
- `IdentificationProperties` characterises a run without any order. It proves
  that the outcome depends only on which rules are configured, not on their
  order or their repetition.
- `Analysis` holds the specification functions `ColumnSuggestions`,
  `SuggestColumns`, `SuggestTable` and `SuggestAll`, and the class `Analyzer`.
  Its `SuggestConstraints` walks tables and columns in nested loops and is
  proved equal to `SuggestAll`.
- `AnalysisProperties` proves properties of whole runs: the filter, the abort
  on a table without columns, and what a suggestion carries.
- `Scenarios` works through concrete statistics for each rule, and one TEXT
  table from profile to report.

The outside world comes in as parameters, in the record `Env`:

- the wall clock, `now`;
- `datetime.fromisoformat`, as `parse`;
- Python's `round(x, 3)` on floats, as `round3`.

## Where the code departs from its evident design

The model follows the code as written:

- **ONLY NULLS never fires.** The branch at `utils/constraint_identifier.py:61-65`
  shows the intent: a share of 0 should yield an "only nulls" suggestion. But
  a share of 0 is false, so the early return at lines 36-37 comes first and the
  branch is unreachable (`EvalNullability`, `Scenarios.NullabilityScenarios`).
- **A complete column fires NULLABILITY.** Take the example column shown in
  the `LackDataForAnalysisError` message (`helpers/exceptions.py:44-53`): count 5,
  share 1.0, uniq 5, uniq_upper 5, top_freq 1, top_share 0.2. Under the rules
  NULLABILITY(0.99), INCONSISTENT_NAMES, DETERMINED_LIST(7), FOREIGN_KEY it gets
  three suggestions (`Scenarios.TextColumnScenario`, `Scenarios.TextTableScenario`):
  - NULLABILITY, because 0.99 < 1.0 <= 1;
  - DETERMINED_LIST, because 5 < 7;
  - FOREIGN_KEY, because 1 / 5 equals the top share 0.2.
- **A past `max` with no `min` is an error.** When `max` parses to a moment
  before now, line 158 calls `fromisoformat` on the missing `min`, which
  raises. The suggestion is not simply absent (`Scenarios.FutureDatesScenarios`).
- **`UndefinedColumnTypeError` carries nothing.** `utils/analyzer.py:58` raises
  it without arguments.
- **The template flag never reaches the identifier.** `utils/analyzer.py:72`
  reads `add_adf_framework_template` and passes it to the builder. The builder
  accepts no such parameter (`utils/constraint_identifier.py:199-205`). The
  identifier always attaches its `MERGE_INTO_ADF_FRM` to every firing rule
  except FOREIGN_KEY. The model follows the intent of the rule-list argument
  in the same call, but drops the flag.
- **A missing rule list is a `KeyError`.** The analyzer indexes
  `constraint_identification_rules[col_type]` directly
  (`utils/analyzer.py:71`), so it raises rather than returning an empty list
  (`MissingRuleSet`).
- **The builder call does not match the builder.** The analyzer passes
  `constraint_identification_rules` and `add_adf_framework_template` to
  `ConstraintIdentifierBuilder` (`utils/analyzer.py:67-72`). The builder
  accepts only three parameters (`utils/constraint_identifier.py:199-205`). The
  model takes the evident intent of the rule list (`IdentifyWithRules`):
  - a fresh identifier;
  - each configured rule, in list order, through its `include_*` method;
  - then `build_identifier().identify_constraints()`.

## Model

| member | source | states |
|---|---|---|
| ConstraintIdentification.EvalNullability | utils/constraint_identifier.py:35-65 | fires iff `share` is true and threshold < share <= 1, and then yields the NULLABILITY suggestion; a zero share yields nothing |
| ConstraintIdentification.EvalMinMax | utils/constraint_identifier.py:67-94 | fires iff min, max and uniq are true, min != max and uniq > 2; a zero min never fires; the template embeds exactly that min and max |
| ConstraintIdentification.EvalDeterminedList | utils/constraint_identifier.py:96-121 | fires iff 0 < uniq < threshold (strict: uniq equal to the threshold never fires) |
| ConstraintIdentification.EvalInconsistentNames | utils/constraint_identifier.py:123-150 | fires iff uniq_upper and uniq are both non-zero and differ |
| ConstraintIdentification.ParseIso | utils/constraint_identifier.py:157-158 | `fromisoformat` succeeds iff its argument is a non-empty parseable string; otherwise the error names the refused value |
| ConstraintIdentification.EvalFutureDates | utils/constraint_identifier.py:152-181 | skipped iff min and max are both false; otherwise fires iff max is later than now, or max parses and min is later; raises iff max fails to parse, or max is not later and min fails to parse; only a parse error can arise |
| ConstraintIdentification.EvalForeignKey | utils/constraint_identifier.py:183-195 | fires iff count, top_freq and top_share are true and round(top_freq / count, 3) == round(top_share, 3); the suggestion carries no template |
| ConstraintIdentification.Collect | utils/constraint_identifier.py:20-33 | exactly the filled slots, in the fixed slot order, at most six |
| ConstraintIdentification.ApplyRule | utils/constraint_identifier.py:210-232 | a rule changes only its own slot; only FUTURE_DATES can raise, and it raises exactly when its evaluator does |
| ConstraintIdentification.RunRules | utils/constraint_identifier.py:198-232 | a run of rules can fail only with a timestamp parse error, and only when FUTURE_DATES is configured |
| ConstraintIdentification.Identify | utils/analyzer.py:67-74 | the builder's result: at most six suggestions, or a timestamp parse error that only FUTURE_DATES can cause |
| ConstraintIdentification.ConstraintIdentifier.constructor | utils/constraint_identifier.py:5-18 | the identifier holds the statistics and names it was given, with all six slots empty |
| ConstraintIdentification.ConstraintIdentifier.IdentifyConstraints | utils/constraint_identifier.py:20-33 | the identifier's own slots, filtered: at most six, exactly the filled ones, in the fixed slot order |
| ConstraintIdentification.ConstraintIdentifier.IdentifyNullability | utils/constraint_identifier.py:35-65 | assigns only the nullability slot, and only when its evaluator fires (default threshold 0.99) |
| ConstraintIdentification.ConstraintIdentifier.IdentifyMinMaxRange | utils/constraint_identifier.py:67-94 | assigns only the minmax slot, and only when its evaluator fires |
| ConstraintIdentification.ConstraintIdentifier.IdentifyDeterminedList | utils/constraint_identifier.py:96-121 | assigns only the determined-list slot, and only when its evaluator fires (default threshold 10) |
| ConstraintIdentification.ConstraintIdentifier.IdentifyInconsistentNames | utils/constraint_identifier.py:123-150 | assigns only the inconsistent-names slot, and only when its evaluator fires |
| ConstraintIdentification.ConstraintIdentifier.IdentifyDatesInFuture | utils/constraint_identifier.py:152-181 | raises exactly when the evaluator does, leaving the slot untouched; otherwise assigns only the future-dates slot, and only when the evaluator fires |
| ConstraintIdentification.ConstraintIdentifier.IdentifyForeignKey | utils/constraint_identifier.py:183-195 | assigns only the foreign-key slot, and only when its evaluator fires |
| ConstraintIdentification.ConstraintIdentifierBuilder.constructor | utils/constraint_identifier.py:199-205 | the builder wraps a fresh identifier for the given column, with every slot empty |
| ConstraintIdentification.ConstraintIdentifierBuilder.BuildIdentifier | utils/constraint_identifier.py:207-208 | returns the wrapped identifier itself |
| ConstraintIdentification.ConstraintIdentifierBuilder.IncludeIdentificationNullability | utils/constraint_identifier.py:210-212 | runs exactly the nullability rule on the wrapped identifier and returns the same builder |
| ConstraintIdentification.ConstraintIdentifierBuilder.IncludeIdentificationMinMax | utils/constraint_identifier.py:214-216 | runs exactly the minmax rule and returns the same builder |
| ConstraintIdentification.ConstraintIdentifierBuilder.IncludeIdentificationDeterminedList | utils/constraint_identifier.py:218-220 | runs exactly the determined-list rule and returns the same builder |
| ConstraintIdentification.ConstraintIdentifierBuilder.IncludeIdentificationInconsistentNames | utils/constraint_identifier.py:222-224 | runs exactly the inconsistent-names rule and returns the same builder |
| ConstraintIdentification.ConstraintIdentifierBuilder.IncludeIdentificationFutureDates | utils/constraint_identifier.py:226-228 | runs exactly the future-dates rule; returns the same builder, or the parse error it raised with the slot untouched |
| ConstraintIdentification.ConstraintIdentifierBuilder.IncludeIdentificationForeignKey | utils/constraint_identifier.py:230-232 | runs exactly the foreign-key rule and returns the same builder |
| ConstraintIdentification.IdentifyWithRules | utils/analyzer.py:67-74 | running each configured rule in list order through the builder, then collecting, yields exactly `Identify` |
| IdentificationProperties.RunRulesCharacterized | utils/constraint_identifier.py:35-195 | a run equals an order-free outcome: each slot holds its rule's suggestion iff some configured rule of its kind fires, and is untouched otherwise |
| IdentificationProperties.RulesOrderIrrelevant | utils/constraint_identifier.py:35-195 | two rule lists naming the same rules give the same slots, whatever the order and repetition |
| IdentificationProperties.IdentifyIgnoresRuleOrder | utils/analyzer.py:67-74 | permuting the configured rule list does not change a column's suggestions |
| IdentificationProperties.RuleTwiceIsRuleOnce | utils/constraint_identifier.py:35-195 | running a rule twice equals running it once |
| IdentificationProperties.SlotsFilledByTheirRules | utils/constraint_identifier.py:13-33 | after a run from empty slots, each slot is filled iff a configured rule of its kind fires; ONLY NULLS never appears |
| Analysis.ParseColumnType | helpers/object_types.py:13-20 | a type name is recognised iff it is one of NUMERIC, TIMESTAMP, TEXT, and it names the recognised type |
| Analysis.KeepUnerrored | utils/analyzer.py:11 | keeps exactly the profiling results whose `ERROR` is false |
| Analysis.ColumnSuggestions | utils/analyzer.py:53-74 | a false `col_type` raises; an unrecognised one yields the single sentinel; a recognised one yields `Identify` under its rule list, or a lookup error when the list is missing |
| Analysis.SuggestColumns | utils/analyzer.py:35-47 | one entry per column, in order, with the column's name and statistics; an errored column gets no suggestions; any other gets `ColumnSuggestions`; fails iff some unerrored column fails |
| Analysis.SuggestTable | utils/analyzer.py:26-49 | raises `LackDataForAnalysis` iff the table has no profiling info or no columns; otherwise succeeds iff its columns do, copies `TABLE_NAME`, and its column reports are exactly `SuggestColumns` (names, `BASE_INFO`, `POSSIBLE_CONSTRAINTS`) |
| Analysis.SuggestAll | utils/analyzer.py:23-51 | succeeds iff every table's report does; then one report per table in order, each the table's own report |
| Analysis.Analyzer.constructor | utils/analyzer.py:7-13 | keeps only the unerrored profiling results and stores the rules and flag (flag false by default) |
| Analysis.Analyzer.SetProfilingResults | utils/analyzer.py:19-21 | re-filters the new results, keeps the rules, and resets the template flag to false |
| Analysis.Analyzer.IdentifyConstraintsForColumn | utils/analyzer.py:53-74 | returns exactly `ColumnSuggestions` for the analyzer's rules |
| Analysis.Analyzer.SuggestConstraints | utils/analyzer.py:23-51 | the nested table and column loops return exactly `SuggestAll` of the kept results |
| AnalysisProperties.KeepUnerroredAppend | utils/analyzer.py:11 | the filter works entry by entry: filtering a concatenation concatenates the filtered parts |
| AnalysisProperties.KeepUnerroredIdempotent | utils/analyzer.py:19-21 | filtering already filtered results changes nothing |
| AnalysisProperties.LackingTableAbortsAll | utils/analyzer.py:31-33 | one table without columns anywhere in the list makes the whole call fail, with no partial list |
| AnalysisProperties.ReportsCoverOnlyUnerroredTables | utils/analyzer.py:11-27 | each report belongs to an input table without `ERROR`, in order, with its `TABLE_NAME` |
| AnalysisProperties.IdentifiedSuggestionsDescribeTheColumn | utils/constraint_identifier.py:35-195 | every suggestion of a run carries the column's statistics and is neither ONLY NULLS nor the sentinel |
| AnalysisProperties.SlotsHoldTheirSuggestions | utils/constraint_identifier.py:35-195 | after a run each slot is empty or holds exactly its own rule's suggestion about the column |
| Scenarios.NullabilityScenarios | utils/constraint_identifier.py:35-65 | share 0.995 fires at the default threshold; share 0 yields nothing |
| Scenarios.MinMaxScenarios | utils/constraint_identifier.py:67-94 | min 0, max 1, uniq 2 yields no range; min 1, max 100, uniq 50 yields the range [1, 100] |
| Scenarios.DeterminedListScenarios | utils/constraint_identifier.py:96-121 | uniq 2 under threshold 2 does not fire; uniq 1 does |
| Scenarios.InconsistentNamesScenarios | utils/constraint_identifier.py:123-150 | uniq 5 against uniq_upper 3 fires; 5 against 5 does not |
| Scenarios.FutureDatesScenarios | utils/constraint_identifier.py:152-181 | a later max fires; earlier min and max yield nothing; an earlier max without min is a parse error |
| Scenarios.ForeignKeyScenarios | utils/constraint_identifier.py:183-195 | 50 of 100 rows with top share 0.5 fires; with top share 0.4 it fires only if rounding equates 0.5 and 0.4 |
| Scenarios.ColumnTypeScenarios | utils/analyzer.py:57-65 | `col_type` BOOLEAN yields the single sentinel; a missing `col_type` raises |
| Scenarios.TextColumnScenario | utils/analyzer.py:67-74 | the example TEXT column yields NULLABILITY, DETERMINED_LIST and FOREIGN_KEY, in slot order |
| Scenarios.TextTableScenario | utils/analyzer.py:23-51 | the example table's full report: its name, its one column, that column's three suggestions and its statistics |

## Left out

- The SQL text of the `MERGE_INTO_ADF_FRM` templates is left out. `Template` keeps only the parameters they embed: dimension, rule type, table, column, min and max.
- EvalForeignKey: Python's float division and `round(x, 3)` are not modelled. Division is exact over `real`, and rounding is the parameter `round3`, so the contract holds for every rounding function.
- ParseIso: ISO-8601 parsing, time zones and the naive/aware comparison error are the parameter `parse`. `TypeError` on `None` or a number and `ValueError` on a bad string are both `InvalidIsoFormat`.
- EvalFutureDates: the wall clock is the parameter `now`. Instants are integers on one time line. The source reads `datetime.now()` twice, once for `max` and once for `min` (`utils/constraint_identifier.py:157-158`). The model compares both against one `now`.
- Integers and floats are separate field types in the model (`int` for counts, `real` for shares). Python compares across them, for example `share <= 1` and `min == 0`. Timestamps and numbers share `Scalar`.
- Statistics keys outside the fifteen fields of `ColumnStats` are left out. The analysis reads ten of them: `col_type`, `count`, `share`, `uniq`, `uniq_upper`, `top_freq`, `top_share`, `min`, `max`, `ERROR`. It only carries `top_value`, `mean`, `perc25`, `median` and `perc75` into `BASE_INFO`. Any other key would likewise only be carried along.
- The `DESCRIPTION` texts are represented by the constructors of `Kind`, one per distinct text. The strings themselves are left out.
- The exception message text in `helpers/exceptions.py` is left out. `Error` keeps only which exception arose and the table attached to `LackDataForAnalysis`.
- Python's `KeyError` on an absent `TABLE_PROFILING_INFO` is left out. The code reads that key with `get`, so it cannot arise.
- The `add_adf_framework_template` flag is stored and reset, and passed to the builder at `utils/analyzer.py:72`. The builder shown has no such parameter, and the identifier always attaches templates. So the model drops the flag from that call and it affects no result.
- The profiling connectors are not part of this model: `helpers/db_objects.py`, `db_objects.py`, `utils/profilers.py`, `profiler.py`, `utils/executors.py` and `executor.py`. They are SQL generation, asynchronous fan-out and database I/O.
- The root `analyzer.py` is not part of this model. It is a stub that replaces its input with constants.
- `main.py`, `config.py`, `config/config.py` and `helpers/results_printing.py` are not part of this model. They are entry point, static configuration and console output.
- Mutation through aliases of `base_info` is left out. The identifier's statistics are a value, so a caller changing the dictionary after construction is not captured.
