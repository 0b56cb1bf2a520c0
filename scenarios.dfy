/**
 * Worked examples: concrete column statistics and what the model answers for
 * them, one lemma per rule plus a whole table run through the analyzer.
 */
module Scenarios {
  import opened Wrappers
  import opened Profiles
  import opened ConstraintIdentification
  import opened Analysis

  const NoStats := ColumnStats(None, None, None, None, None, None, None, None, None, None, None, None, None, None, None)

  /** A column with only the given statistics, as a context without a table. */
  function Column(stats: ColumnStats): Context {
    Context(stats, "C", None)
  }

  /** A share of 0.995 is above the default 0.99; a share of 0 is false, so the
      all-null column gets nothing rather than the ONLY NULLS suggestion. */
  lemma NullabilityScenarios()
    ensures EvalNullability(Column(NoStats.(share := Some(0.995))), DefaultNullabilityThreshold)
            == Some(NullabilitySuggestion(Column(NoStats.(share := Some(0.995)))))
    ensures EvalNullability(Column(NoStats.(share := Some(0.0))), DefaultNullabilityThreshold).None?
  {
  }

  /** The boolean-like column gets no range; a wide numeric column gets [min, max]. */
  lemma MinMaxScenarios()
    ensures EvalMinMax(Column(NoStats.(min := Some(Num(0.0)), max := Some(Num(1.0)), uniq := Some(2)))).None?
    ensures var ctx := Column(NoStats.(min := Some(Num(1.0)), max := Some(Num(100.0)), uniq := Some(50)));
      EvalMinMax(ctx) == Some(MinMaxSuggestion(ctx, Num(1.0), Num(100.0)))
  {
  }

  /** The list-size threshold is strict. */
  lemma DeterminedListScenarios()
    ensures EvalDeterminedList(Column(NoStats.(uniq := Some(2))), 2).None?
    ensures EvalDeterminedList(Column(NoStats.(uniq := Some(1))), 2).Some?
  {
  }

  /** Upper-casing five values into three is inconsistent naming; five into five is not. */
  lemma InconsistentNamesScenarios()
    ensures EvalInconsistentNames(Column(NoStats.(uniq := Some(5), uniqUpper := Some(3)))).Some?
    ensures EvalInconsistentNames(Column(NoStats.(uniq := Some(5), uniqUpper := Some(5)))).None?
  {
  }

  /** A latest timestamp after the clock fires FUTURE_DATES without parsing the
      earliest one; a latest timestamp before it goes on to parse the earliest,
      and a missing earliest one is then a parse failure, not a silent skip. */
  lemma FutureDatesScenarios(env: Env, later: string, earlier: string)
    requires later != "" && env.parse(later).Some? && env.parse(later).value > env.now
    requires earlier != "" && env.parse(earlier).Some? && env.parse(earlier).value <= env.now
    ensures var ctx := Column(NoStats.(max := Some(Str(later))));
      EvalFutureDates(ctx, env) == Ok(Some(FutureDatesSuggestion(ctx)))
    ensures EvalFutureDates(Column(NoStats.(min := Some(Str(earlier)), max := Some(Str(earlier)))), env) == Ok(None)
    ensures EvalFutureDates(Column(NoStats.(max := Some(Str(earlier)))), env) == Err(InvalidIsoFormat(None))
  {
  }

  /** 50 of 100 rows agrees with a top share of 0.5 under any rounding; against a
      top share of 0.4 it agrees only if rounding confuses 0.5 with 0.4. */
  lemma ForeignKeyScenarios(round3: real -> real)
    ensures EvalForeignKey(Column(NoStats.(count := Some(100), topFreq := Some(50), topShare := Some(0.5))), round3).Some?
    ensures EvalForeignKey(Column(NoStats.(count := Some(100), topFreq := Some(50), topShare := Some(0.4))), round3).Some?
            <==> round3(0.5) == round3(0.4)
  {
    assert 50 as real / 100 as real == 0.5;
  }

  /** A type outside the recognised ones is answered, not refused; a missing one is refused. */
  lemma ColumnTypeScenarios(rules: RuleConfig, env: Env)
    ensures ColumnSuggestions(NoStats.(colType := Some("BOOLEAN")), "C", None, rules, env) == Ok(Unidentified)
    ensures ColumnSuggestions(NoStats, "C", None, rules, env) == Err(UndefinedColumnType)
  {
  }

  // ---------------------------------------------------------------------------
  // One TEXT column from profile to report.
  // ---------------------------------------------------------------------------

  /** The example column the analyzer's error messages show: TEXT, five rows, five
      distinct values, a share of 1.0, top value "1" once, top share 0.2. */
  const TextStats := NoStats.(colType := Some("TEXT"), count := Some(5), share := Some(1.0), uniq := Some(5),
                              uniqUpper := Some(5), topValue := Some("1"), topFreq := Some(1), topShare := Some(0.2))

  const TextRules := [Nullability(Some(0.99)), InconsistentNames, DeterminedList(Some(7)), ForeignKey]

  const TextContext := Context(TextStats, "EXAMPLE_COLUMN_NAME", Some("EXAMPLE_TABLE_NAME"))

  /** The slots the example column ends with. */
  const TextSlots := NoSuggestions.(nullability := Some(NullabilitySuggestion(TextContext)),
                                    determinedList := Some(DeterminedListSuggestion(TextContext)),
                                    foreignKey := Some(ForeignKeySuggestion(TextContext)))

  /** A share of 1.0 is above the 0.99 threshold, so NULLABILITY fires; five
      distinct values under seven give DETERMINED_LIST; equal case-folded counts
      give no INCONSISTENT_NAMES; one top value in five rows matches the top
      share 0.2, so FOREIGN_KEY fires under any rounding. */
  lemma TextColumnEvaluations(env: Env)
    ensures EvalNullability(TextContext, 0.99) == Some(NullabilitySuggestion(TextContext))
    ensures EvalInconsistentNames(TextContext) == None
    ensures EvalDeterminedList(TextContext, 7) == Some(DeterminedListSuggestion(TextContext))
    ensures EvalForeignKey(TextContext, env.round3) == Some(ForeignKeySuggestion(TextContext))
  {
    assert 1 as real / 5 as real == 0.2;
  }

  /** The four configured rules fill the NULLABILITY, DETERMINED_LIST and FOREIGN_KEY slots. */
  lemma TextColumnRun(env: Env)
    ensures RunRules(NoSuggestions, TextContext, TextRules, env) == Ok(TextSlots)
  {
    var ctx := TextContext;
    TextColumnEvaluations(env);
    var s1 := NoSuggestions.(nullability := Some(NullabilitySuggestion(ctx)));
    assert ApplyRule(NoSuggestions, ctx, TextRules[0], env) == Ok(s1);
    assert ApplyRule(s1, ctx, TextRules[1], env) == Ok(s1);
    var s3 := s1.(determinedList := Some(DeterminedListSuggestion(ctx)));
    assert ApplyRule(s1, ctx, TextRules[2], env) == Ok(s3);
    assert ApplyRule(s3, ctx, TextRules[3], env) == Ok(TextSlots);
    assert TextRules[4..] == [];
  }

  /** The example column's suggestions, in the identifier's fixed order. */
  lemma TextColumnScenario(env: Env)
    ensures Identify(TextContext, TextRules, env) ==
      Ok([NullabilitySuggestion(TextContext), DeterminedListSuggestion(TextContext), ForeignKeySuggestion(TextContext)])
  {
    TextColumnRun(env);
    CollectFilled(NullabilitySuggestion(TextContext), DeterminedListSuggestion(TextContext), ForeignKeySuggestion(TextContext));
  }

  lemma CollectFilled(a: Suggestion, b: Suggestion, c: Suggestion)
    ensures Collect(NoSuggestions.(nullability := Some(a), determinedList := Some(b), foreignKey := Some(c))) == [a, b, c]
  {
    assert [a] + [] + [b] + [] + [] + [c] == [a, b, c];
  }

  /** The example table: one TEXT column, profiled without error. */
  const TextTable := TableProfile(Some("EXAMPLE_TABLE_NAME"),
                                  Some(ProfilingInfo(None, Some([("EXAMPLE_COLUMN_NAME", TextStats)]))), None)

  /** The whole analysis of the example table under a configuration for TEXT columns. */
  lemma TextTableScenario(env: Env)
    ensures var found := [NullabilitySuggestion(TextContext), DeterminedListSuggestion(TextContext), ForeignKeySuggestion(TextContext)];
      SuggestAll([TextTable], map[Text := TextRules], env) ==
        Ok([TableReport(Some("EXAMPLE_TABLE_NAME"), [("EXAMPLE_COLUMN_NAME", ColumnReport(found, TextStats))])])
  {
    var rules := map[Text := TextRules];
    var found := [NullabilitySuggestion(TextContext), DeterminedListSuggestion(TextContext), ForeignKeySuggestion(TextContext)];
    var report := TableReport(Some("EXAMPLE_TABLE_NAME"), [("EXAMPLE_COLUMN_NAME", ColumnReport(found, TextStats))]);
    assert SuggestTable(TextTable, rules, env) == Ok(report) by {
      assert ColumnSuggestions(TextStats, "EXAMPLE_COLUMN_NAME", Some("EXAMPLE_TABLE_NAME"), rules, env) == Ok(found) by {
        TextColumnScenario(env);
      }
      SingleColumn(Some("EXAMPLE_TABLE_NAME"), "EXAMPLE_COLUMN_NAME", TextStats, rules, env, found);
    }
    SingleTable(TextTable, rules, env);
  }

  lemma SingleColumn(tblName: Option<string>, name: string, stat: ColumnStats, rules: RuleConfig, env: Env, found: seq<Suggestion>)
    requires !TruthyStr(stat.error) && ColumnSuggestions(stat, name, tblName, rules, env) == Ok(found)
    ensures SuggestColumns(tblName, [(name, stat)], rules, env) == Ok([(name, ColumnReport(found, stat))])
  {
    assert [(name, stat)][0] == (name, stat) && [(name, stat)][1..] == [];
    assert SuggestColumns(tblName, [], rules, env) == Ok([]);
    var report := (name, ColumnReport(found, stat));
    assert [report] + [] == [report];
  }

  lemma SingleTable(t: TableProfile, rules: RuleConfig, env: Env)
    requires SuggestTable(t, rules, env).Ok?
    ensures SuggestAll([t], rules, env) == Ok([SuggestTable(t, rules, env).value])
  {
    assert [t][0] == t && [t][1..] == [];
    assert SuggestAll([], rules, env) == Ok([]);
    var report := SuggestTable(t, rules, env).value;
    assert [report] + [] == [report];
  }
}
