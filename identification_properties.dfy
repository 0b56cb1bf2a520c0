/**
 * What running a list of configured rules amounts to: every slot is filled by
 * its own rules alone, so the outcome depends only on which rules are
 * configured, not on their order or on repetitions.
 */
module IdentificationProperties {
  import opened Wrappers
  import opened Profiles
  import opened ConstraintIdentification

  /** Some configured NULLABILITY rule fires at its own threshold. */
  predicate NullabilityFiresIn(ctx: Context, rules: seq<Rule>) {
    exists rule :: rule in rules && rule.Nullability?
      && EvalNullability(ctx, rule.nullabilityThreshold.GetOr(DefaultNullabilityThreshold)).Some?
  }

  /** Some configured DETERMINED_LIST rule fires at its own threshold. */
  predicate DeterminedListFiresIn(ctx: Context, rules: seq<Rule>) {
    exists rule :: rule in rules && rule.DeterminedList?
      && EvalDeterminedList(ctx, rule.listSizeThreshold.GetOr(DefaultListSizeThreshold)).Some?
  }

  /**
   * The outcome of running `rules` from the slots `s`, stated without any order:
   * FUTURE_DATES raises if it is configured and raises on its own; otherwise a
   * slot holds its rule's suggestion when some configured rule of its kind fires,
   * and keeps its old value when none does.
   */
  function Expected(s: Slots, ctx: Context, rules: seq<Rule>, env: Env): Result<Slots, Error> {
    if FutureDates in rules && EvalFutureDates(ctx, env).Err? then Err(EvalFutureDates(ctx, env).error)
    else Ok(Slots(
      if NullabilityFiresIn(ctx, rules) then Some(NullabilitySuggestion(ctx)) else s.nullability,
      if MinMax in rules then Fill(s.minmax, EvalMinMax(ctx)) else s.minmax,
      if DeterminedListFiresIn(ctx, rules) then Some(DeterminedListSuggestion(ctx)) else s.determinedList,
      if InconsistentNames in rules then Fill(s.inconsistentNames, EvalInconsistentNames(ctx)) else s.inconsistentNames,
      if FutureDates in rules then Fill(s.futureDates, EvalFutureDates(ctx, env).value) else s.futureDates,
      if ForeignKey in rules then Fill(s.foreignKey, EvalForeignKey(ctx, env.round3)) else s.foreignKey))
  }

  /** Running the rules in list order yields exactly the order-free outcome. */
  lemma {:induction false} RunRulesCharacterized(s: Slots, ctx: Context, rules: seq<Rule>, env: Env)
    ensures RunRules(s, ctx, rules, env) == Expected(s, ctx, rules, env)
    decreases |rules|
  {
    if rules != [] {
      var rule, rest := rules[0], rules[1..];
      assert rules == [rule] + rest;
      match ApplyRule(s, ctx, rule, env)
      case Err(e) =>
        assert FutureDates in rules;
      case Ok(next) =>
        RunRulesCharacterized(next, ctx, rest, env);
        ExpectedStep(s, ctx, rule, rest, env);
    }
  }

  /** Running one rule first and the rest afterwards agrees with the order-free outcome. */
  lemma ExpectedStep(s: Slots, ctx: Context, rule: Rule, rest: seq<Rule>, env: Env)
    requires ApplyRule(s, ctx, rule, env).Ok?
    ensures Expected(ApplyRule(s, ctx, rule, env).value, ctx, rest, env) == Expected(s, ctx, [rule] + rest, env)
  {
    var rules := [rule] + rest;
    var next := ApplyRule(s, ctx, rule, env).value;
    assert forall x :: x in rules <==> x == rule || x in rest;
    assert NullabilityFiresIn(ctx, rules) <==>
      (rule.Nullability? && EvalNullability(ctx, rule.nullabilityThreshold.GetOr(DefaultNullabilityThreshold)).Some?)
      || NullabilityFiresIn(ctx, rest);
    assert DeterminedListFiresIn(ctx, rules) <==>
      (rule.DeterminedList? && EvalDeterminedList(ctx, rule.listSizeThreshold.GetOr(DefaultListSizeThreshold)).Some?)
      || DeterminedListFiresIn(ctx, rest);
    match rule {
      case Nullability(_) =>
      case MinMax =>
      case DeterminedList(_) =>
      case InconsistentNames =>
      case FutureDates =>
      case ForeignKey =>
    }
  }

  /** Two configurations naming the same rules give the same outcome, whatever
      their order and however often a rule is repeated. */
  lemma RulesOrderIrrelevant(s: Slots, ctx: Context, rules1: seq<Rule>, rules2: seq<Rule>, env: Env)
    requires forall rule :: rule in rules1 <==> rule in rules2
    ensures RunRules(s, ctx, rules1, env) == RunRules(s, ctx, rules2, env)
  {
    RunRulesCharacterized(s, ctx, rules1, env);
    RunRulesCharacterized(s, ctx, rules2, env);
    assert NullabilityFiresIn(ctx, rules1) == NullabilityFiresIn(ctx, rules2);
    assert DeterminedListFiresIn(ctx, rules1) == DeterminedListFiresIn(ctx, rules2);
  }

  /** The builder's suggestions for a column do not depend on the order of the
      configured rule list. */
  lemma IdentifyIgnoresRuleOrder(ctx: Context, rules1: seq<Rule>, rules2: seq<Rule>, env: Env)
    requires multiset(rules1) == multiset(rules2)
    ensures Identify(ctx, rules1, env) == Identify(ctx, rules2, env)
  {
    forall rule ensures rule in rules1 <==> rule in rules2 {
      assert rule in rules1 <==> rule in multiset(rules1);
      assert rule in rules2 <==> rule in multiset(rules2);
    }
    RulesOrderIrrelevant(NoSuggestions, ctx, rules1, rules2, env);
  }

  /** Running a rule a second time changes nothing. */
  lemma RuleTwiceIsRuleOnce(s: Slots, ctx: Context, rule: Rule, env: Env)
    ensures RunRules(s, ctx, [rule, rule], env) == RunRules(s, ctx, [rule], env)
  {
    RulesOrderIrrelevant(s, ctx, [rule, rule], [rule], env);
  }

  /** A slot is filled after the run exactly when a rule of its kind fired, and
      then it holds that rule's suggestion. */
  lemma {:induction false} SlotsFilledByTheirRules(ctx: Context, rules: seq<Rule>, env: Env)
    requires RunRules(NoSuggestions, ctx, rules, env).Ok?
    ensures var s := RunRules(NoSuggestions, ctx, rules, env).value;
      && (s.nullability.Some? <==> NullabilityFiresIn(ctx, rules))
      && (s.minmax.Some? <==> MinMax in rules && EvalMinMax(ctx).Some?)
      && (s.determinedList.Some? <==> DeterminedListFiresIn(ctx, rules))
      && (s.inconsistentNames.Some? <==> InconsistentNames in rules && EvalInconsistentNames(ctx).Some?)
      && (s.futureDates.Some? <==> FutureDates in rules && EvalFutureDates(ctx, env) == Ok(Some(FutureDatesSuggestion(ctx))))
      && (s.foreignKey.Some? <==> ForeignKey in rules && EvalForeignKey(ctx, env.round3).Some?)
      && (s.nullability.Some? ==> s.nullability.value.kind == NonNullable)
  {
    RunRulesCharacterized(NoSuggestions, ctx, rules, env);
  }
}
