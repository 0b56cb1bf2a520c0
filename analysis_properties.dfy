/**
 * Properties of the analysis that relate several calls or the whole walk: the
 * filter keeps order and is stable, one table without columns aborts the whole
 * report, and every suggestion the identifier produces is one of its fixed
 * suggestions about the column it was given.
 */
module AnalysisProperties {
  import opened Wrappers
  import opened Profiles
  import opened ConstraintIdentification
  import opened IdentificationProperties
  import opened Analysis

  /** The filter works entry by entry: filtering a concatenation concatenates the filtered parts. */
  lemma {:induction false} KeepUnerroredAppend(a: seq<TableProfile>, b: seq<TableProfile>)
    ensures KeepUnerrored(a + b) == KeepUnerrored(a) + KeepUnerrored(b)
  {
    if a == [] {
      assert a + b == b;
    } else {
      assert (a + b)[0] == a[0] && (a + b)[1..] == a[1..] + b;
      KeepUnerroredAppend(a[1..], b);
    }
  }

  /** Setting the profiling results to what the analyzer already holds changes nothing. */
  lemma {:induction false} KeepUnerroredIdempotent(results: seq<TableProfile>)
    ensures KeepUnerrored(KeepUnerrored(results)) == KeepUnerrored(results)
  {
    if results != [] {
      KeepUnerroredIdempotent(results[1..]);
      if !TruthyStr(results[0].error) {
        var rest := KeepUnerrored(results[1..]);
        assert ([results[0]] + rest)[1..] == rest;
      }
    }
  }

  /** One table without usable column statistics makes the whole call fail: no
      partial list of reports is ever returned. */
  lemma {:induction false} LackingTableAbortsAll(tables: seq<TableProfile>, k: nat, rules: RuleConfig, env: Env)
    requires k < |tables| && LacksColumns(tables[k])
    ensures SuggestAll(tables, rules, env).Err?
  {
    if k > 0 {
      assert tables[1..][k - 1] == tables[k];
      LackingTableAbortsAll(tables[1..], k - 1, rules, env);
    }
  }

  /** The report never mentions a profiling result that carries an error: each
      report belongs to the corresponding error-free table, in order. */
  lemma ReportsCoverOnlyUnerroredTables(results: seq<TableProfile>, rules: RuleConfig, env: Env)
    ensures var kept := KeepUnerrored(results);
      var r := SuggestAll(kept, rules, env);
      r.Ok? ==> |r.value| == |kept| && forall i :: 0 <= i < |kept| ==>
        && kept[i] in results && !TruthyStr(kept[i].error)
        && r.value[i].tableName == kept[i].tableName
  {
    var kept := KeepUnerrored(results);
    assert forall i :: 0 <= i < |kept| ==> kept[i] in kept;
  }

  /** A suggestion is one of the rules' own about the column: it carries the
      column's statistics and is neither "only nulls" nor the sentinel. */
  predicate AboutColumn(x: Suggestion, ctx: Context) {
    x.baseInformation == Some(ctx.baseInfo) && x.kind != OnlyNulls && x.kind != NoIdentifiedConstraints
  }

  /** Every suggestion of a builder run is that rule's fixed suggestion about the
      column: it carries the column's statistics, and "only nulls" never occurs. */
  lemma IdentifiedSuggestionsDescribeTheColumn(ctx: Context, rules: seq<Rule>, env: Env)
    requires Identify(ctx, rules, env).Ok?
    ensures forall x :: x in Identify(ctx, rules, env).value ==> AboutColumn(x, ctx)
  {
    var s := RunRules(NoSuggestions, ctx, rules, env).value;
    SlotsHoldTheirSuggestions(ctx, rules, env);
    FilledSlotsAboutColumn(s, ctx);
    CollectKeeps(s, ctx);
  }

  /** Each rule's own suggestion is about the column. */
  lemma FilledSlotsAboutColumn(s: Slots, ctx: Context)
    requires s.nullability.None? || s.nullability == Some(NullabilitySuggestion(ctx))
    requires s.minmax.None? || (ctx.baseInfo.min.Some? && ctx.baseInfo.max.Some?
                                && s.minmax == Some(MinMaxSuggestion(ctx, ctx.baseInfo.min.value, ctx.baseInfo.max.value)))
    requires s.determinedList.None? || s.determinedList == Some(DeterminedListSuggestion(ctx))
    requires s.inconsistentNames.None? || s.inconsistentNames == Some(InconsistentNamesSuggestion(ctx))
    requires s.futureDates.None? || s.futureDates == Some(FutureDatesSuggestion(ctx))
    requires s.foreignKey.None? || s.foreignKey == Some(ForeignKeySuggestion(ctx))
    ensures forall o :: o in SlotList(s) ==> o.None? || AboutColumn(o.value, ctx)
  {
  }

  /** What holds of every filled slot holds of every collected suggestion. */
  lemma CollectKeeps(s: Slots, ctx: Context)
    requires forall o :: o in SlotList(s) ==> o.None? || AboutColumn(o.value, ctx)
    ensures forall x :: x in Collect(s) ==> AboutColumn(x, ctx)
  {
    forall x | x in Collect(s) ensures AboutColumn(x, ctx) {
      assert Some(x) in SlotList(s);
    }
  }

  /** After a run from empty slots each slot is empty or holds its rule's suggestion. */
  lemma SlotsHoldTheirSuggestions(ctx: Context, rules: seq<Rule>, env: Env)
    requires RunRules(NoSuggestions, ctx, rules, env).Ok?
    ensures var s := RunRules(NoSuggestions, ctx, rules, env).value;
      && (s.nullability.None? || s.nullability == Some(NullabilitySuggestion(ctx)))
      && (s.minmax.None? || (ctx.baseInfo.min.Some? && ctx.baseInfo.max.Some?
                             && s.minmax == Some(MinMaxSuggestion(ctx, ctx.baseInfo.min.value, ctx.baseInfo.max.value))))
      && (s.determinedList.None? || s.determinedList == Some(DeterminedListSuggestion(ctx)))
      && (s.inconsistentNames.None? || s.inconsistentNames == Some(InconsistentNamesSuggestion(ctx)))
      && (s.futureDates.None? || s.futureDates == Some(FutureDatesSuggestion(ctx)))
      && (s.foreignKey.None? || s.foreignKey == Some(ForeignKeySuggestion(ctx)))
  {
    RunRulesCharacterized(NoSuggestions, ctx, rules, env);
  }
}
