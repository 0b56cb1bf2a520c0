/**
 * The constraint identifier of utils/constraint_identifier.py: six threshold
 * heuristics over one column's statistics, each filling its own suggestion slot,
 * the collection of the filled slots, and the builder that runs configured rules.
 *
 * Each heuristic is a pure evaluator (`Eval...`) whose contract states exactly
 * when it fires; the `ConstraintIdentifier` methods write the evaluator's result
 * into their own slot, as the Python methods assign their own attribute.
 */
module ConstraintIdentification {
  import opened Wrappers
  import opened Profiles

  const DefaultNullabilityThreshold: real := 0.99
  const DefaultListSizeThreshold: int := 10

  /**
   * What the identifier takes from outside Python: the wall clock (`now`), the
   * ISO timestamp parser (`parse`, yielding an instant on an ordered time line,
   * or None where `fromisoformat` raises or the parsed instant cannot be
   * compared with the naive clock), and `round(x, 3)` on floats (`round3`).
   */
  datatype Env = Env(now: int, parse: string -> Option<int>, round3: real -> real)

  /** `META_DQ_DIMENSION` of a rule template. */
  datatype Dimension = Completeness | Validity | Consistency

  /** `META_RULE_TYPE` of a rule template. */
  datatype RuleType = NullabilityType | MinMaxType | RegexpType | DefaultType

  /** The parameters a `MERGE_INTO_ADF_FRM` template embeds (its SQL text is not modelled). */
  datatype Template = Template(
    dimension: Dimension,
    ruleType: RuleType,
    paramTableName: Option<string>,
    paramTableColumn: string,
    paramMin: Option<Scalar>,
    paramMax: Option<Scalar>)

  /** Which `DESCRIPTION` a suggestion carries: one constructor per distinct text
      (NULLABILITY, ONLY NULLS, MINMAX, DETERMINED LIST, INCONSISTENT NAMES,
      FUTURE DATES, POSSIBLE FOREIGN KEY, and the analyzer's "No identified constraints"). */
  datatype Kind =
    | NonNullable | OnlyNulls | ValidityRange | DeterminedValues
    | InconsistentCase | DatesInFuture | ForeignKeyCandidate | NoIdentifiedConstraints

  /** One suggested constraint: `DESCRIPTION`, `BASE_INFORMATION`, `MERGE_INTO_ADF_FRM`. */
  datatype Suggestion = Suggestion(kind: Kind, baseInformation: Option<ColumnStats>, mergeIntoAdfFrm: Option<Template>)

  /** What an identifier is constructed from: `base_info`, `related_column`, `related_table`. */
  datatype Context = Context(baseInfo: ColumnStats, relatedColumn: string, relatedTable: Option<string>)

  function TemplateFor(ctx: Context, dimension: Dimension, ruleType: RuleType): Template {
    Template(dimension, ruleType, ctx.relatedTable, ctx.relatedColumn, None, None)
  }

  function NullabilitySuggestion(ctx: Context): Suggestion {
    Suggestion(NonNullable, Some(ctx.baseInfo), Some(TemplateFor(ctx, Completeness, NullabilityType)))
  }

  function OnlyNullsSuggestion(ctx: Context): Suggestion {
    Suggestion(OnlyNulls, Some(ctx.baseInfo), None)
  }

  function MinMaxSuggestion(ctx: Context, lo: Scalar, hi: Scalar): Suggestion {
    Suggestion(ValidityRange, Some(ctx.baseInfo),
      Some(TemplateFor(ctx, Validity, MinMaxType).(paramMin := Some(lo), paramMax := Some(hi))))
  }

  function DeterminedListSuggestion(ctx: Context): Suggestion {
    Suggestion(DeterminedValues, Some(ctx.baseInfo), Some(TemplateFor(ctx, Validity, RegexpType)))
  }

  function InconsistentNamesSuggestion(ctx: Context): Suggestion {
    Suggestion(InconsistentCase, Some(ctx.baseInfo), Some(TemplateFor(ctx, Consistency, DefaultType)))
  }

  function FutureDatesSuggestion(ctx: Context): Suggestion {
    Suggestion(DatesInFuture, Some(ctx.baseInfo), Some(TemplateFor(ctx, Validity, DefaultType)))
  }

  function ForeignKeySuggestion(ctx: Context): Suggestion {
    Suggestion(ForeignKeyCandidate, Some(ctx.baseInfo), None)
  }

  // ---------------------------------------------------------------------------
  // The six evaluators, branch for branch as the Python methods test.
  // ---------------------------------------------------------------------------

  /** NULLABILITY. A zero share fails the truth test first, so the "only nulls"
      branch never produces anything. */
  function EvalNullability(ctx: Context, nullabilityThreshold: real): (r: Option<Suggestion>)
    ensures r.Some? <==> TruthyReal(ctx.baseInfo.share) && nullabilityThreshold < ctx.baseInfo.share.value <= 1.0
    ensures r.Some? ==> r.value == NullabilitySuggestion(ctx)
  {
    var share := ctx.baseInfo.share;
    if !TruthyReal(share) then None
    else if nullabilityThreshold < share.value <= 1.0 then Some(NullabilitySuggestion(ctx))
    else if share.value == 0.0 then Some(OnlyNullsSuggestion(ctx))
    else None
  }

  /** MINMAX. A zero `min` fails the truth test, so the boolean-column exclusion
      (`min == 0 and max == 1`) never decides anything. */
  function EvalMinMax(ctx: Context): (r: Option<Suggestion>)
    ensures r.Some? <==>
      && Truthy(ctx.baseInfo.min) && Truthy(ctx.baseInfo.max) && TruthyInt(ctx.baseInfo.uniq)
      && ctx.baseInfo.min != ctx.baseInfo.max && ctx.baseInfo.uniq.value > 2
    ensures ctx.baseInfo.min == Some(Num(0.0)) ==> r.None?
    ensures r.Some? ==> r.value == MinMaxSuggestion(ctx, ctx.baseInfo.min.value, ctx.baseInfo.max.value)
    ensures r.Some? ==>
      && r.value.mergeIntoAdfFrm.value.paramMin == ctx.baseInfo.min
      && r.value.mergeIntoAdfFrm.value.paramMax == ctx.baseInfo.max
  {
    var lo, hi, uniq := ctx.baseInfo.min, ctx.baseInfo.max, ctx.baseInfo.uniq;
    if !Truthy(lo) || !Truthy(hi) || !TruthyInt(uniq) then None
    else
      var least, greatest, distinct := lo.value, hi.value, uniq.value;
      if least != greatest && !(least == Num(0.0) && greatest == Num(1.0)) && distinct > 2
      then Some(MinMaxSuggestion(ctx, least, greatest))
      else None
  }

  /** DETERMINED_LIST: fewer distinct values than the (strict) threshold. */
  function EvalDeterminedList(ctx: Context, listSizeThreshold: int): (r: Option<Suggestion>)
    ensures r.Some? <==> ctx.baseInfo.uniq.Some? && 0 < ctx.baseInfo.uniq.value < listSizeThreshold
    ensures ctx.baseInfo.uniq == Some(listSizeThreshold) ==> r.None?
    ensures r.Some? ==> r.value == DeterminedListSuggestion(ctx)
  {
    var uniq := ctx.baseInfo.uniq;
    if !TruthyInt(uniq) then None
    else if 0 < uniq.value < listSizeThreshold then Some(DeterminedListSuggestion(ctx))
    else None
  }

  /** INCONSISTENT_NAMES: upper-casing changes the number of distinct values. */
  function EvalInconsistentNames(ctx: Context): (r: Option<Suggestion>)
    ensures r.Some? <==>
      && ctx.baseInfo.uniqUpper.Some? && ctx.baseInfo.uniq.Some?
      && ctx.baseInfo.uniqUpper.value != 0 && ctx.baseInfo.uniq.value != 0
      && ctx.baseInfo.uniqUpper.value != ctx.baseInfo.uniq.value
    ensures r.Some? ==> r.value == InconsistentNamesSuggestion(ctx)
  {
    var upper, uniq := ctx.baseInfo.uniqUpper, ctx.baseInfo.uniq;
    if !TruthyInt(upper) || !TruthyInt(uniq) then None
    else if upper.value != uniq.value then Some(InconsistentNamesSuggestion(ctx))
    else None
  }

  /** `datetime.fromisoformat(v)`: None, a number and the empty string are refused. */
  function ParseIso(v: Option<Scalar>, env: Env): (r: Result<int, Error>)
    ensures r.Ok? <==> v.Some? && v.value.Str? && v.value.s != "" && env.parse(v.value.s).Some?
    ensures r.Ok? ==> r.value == env.parse(v.value.s).value
    ensures r.Err? ==> r.error == InvalidIsoFormat(v)
  {
    match v
    case Some(Str(s)) =>
      if s == "" then Err(InvalidIsoFormat(v))
      else (match env.parse(s)
            case Some(t) => Ok(t)
            case None => Err(InvalidIsoFormat(v)))
    case _ => Err(InvalidIsoFormat(v))
  }

  /** `v` parses to an instant later than the clock. */
  predicate IsLater(v: Option<Scalar>, env: Env) {
    ParseIso(v, env).Ok? && ParseIso(v, env).value > env.now
  }

  /** FUTURE_DATES. Skipped only when both bounds are false; otherwise `max` is
      parsed first, and `min` only when `max` is not in the future. */
  function EvalFutureDates(ctx: Context, env: Env): (r: Result<Option<Suggestion>, Error>)
    ensures !Truthy(ctx.baseInfo.min) && !Truthy(ctx.baseInfo.max) ==> r == Ok(None)
    ensures Truthy(ctx.baseInfo.min) || Truthy(ctx.baseInfo.max) ==>
      && (r == Ok(Some(FutureDatesSuggestion(ctx))) <==>
            IsLater(ctx.baseInfo.max, env) || (ParseIso(ctx.baseInfo.max, env).Ok? && IsLater(ctx.baseInfo.min, env)))
      && (r.Err? <==>
            ParseIso(ctx.baseInfo.max, env).Err? || (!IsLater(ctx.baseInfo.max, env) && ParseIso(ctx.baseInfo.min, env).Err?))
    ensures r.Ok? && r.value.Some? ==> r.value.value == FutureDatesSuggestion(ctx)
    ensures Truthy(ctx.baseInfo.min) && ctx.baseInfo.max.None? ==> r.Err?
    ensures r.Err? ==> r.error.InvalidIsoFormat?
  {
    var lo, hi := ctx.baseInfo.min, ctx.baseInfo.max;
    if !Truthy(hi) && !Truthy(lo) then Ok(None)
    else match ParseIso(hi, env)
      case Err(e) => Err(e)
      case Ok(latest) =>
        if latest > env.now then Ok(Some(FutureDatesSuggestion(ctx)))
        else match ParseIso(lo, env)
          case Err(e) => Err(e)
          case Ok(earliest) =>
            if earliest > env.now then Ok(Some(FutureDatesSuggestion(ctx))) else Ok(None)
  }

  /** FOREIGN_KEY: the top value's frequency over the count, rounded, equals its
      rounded share. The guard makes the divide-by-zero fallback unreachable. */
  function EvalForeignKey(ctx: Context, round3: real -> real): (r: Option<Suggestion>)
    ensures r.Some? <==>
      && TruthyInt(ctx.baseInfo.count) && TruthyInt(ctx.baseInfo.topFreq) && TruthyReal(ctx.baseInfo.topShare)
      && round3(ctx.baseInfo.topFreq.value as real / ctx.baseInfo.count.value as real) == round3(ctx.baseInfo.topShare.value)
    ensures r.Some? ==> r.value == ForeignKeySuggestion(ctx) && r.value.mergeIntoAdfFrm.None?
  {
    var count, topFreq, topShare := ctx.baseInfo.count, ctx.baseInfo.topFreq, ctx.baseInfo.topShare;
    if !TruthyInt(count) || !TruthyInt(topFreq) || !TruthyReal(topShare) then None
    else
      var divisor := if count.value != 0 then count.value else 1;
      if round3(topFreq.value as real / divisor as real) == round3(topShare.value)
      then Some(ForeignKeySuggestion(ctx))
      else None
  }

  // ---------------------------------------------------------------------------
  // The six slots, their collection, and the configured rules as a fold.
  // ---------------------------------------------------------------------------

  /** The identifier's six result slots, as a value. */
  datatype Slots = Slots(
    nullability: Option<Suggestion>,
    minmax: Option<Suggestion>,
    determinedList: Option<Suggestion>,
    inconsistentNames: Option<Suggestion>,
    futureDates: Option<Suggestion>,
    foreignKey: Option<Suggestion>)

  const NoSuggestions := Slots(None, None, None, None, None, None)

  /** The slots in the fixed order `identify_constraints` lists them. */
  function SlotList(s: Slots): seq<Option<Suggestion>> {
    [s.nullability, s.minmax, s.determinedList, s.inconsistentNames, s.futureDates, s.foreignKey]
  }

  /** `identify_constraints`: exactly the filled slots, in the fixed order. */
  function Collect(s: Slots): (r: seq<Suggestion>)
    ensures |r| <= 6
    ensures forall x :: x in r <==> Some(x) in SlotList(s)
    ensures r == OptionToSeq(s.nullability) + OptionToSeq(s.minmax) + OptionToSeq(s.determinedList)
               + OptionToSeq(s.inconsistentNames) + OptionToSeq(s.futureDates) + OptionToSeq(s.foreignKey)
  {
    SomesOfSlots(s);
    Somes(SlotList(s))
  }

  lemma SomesOfSlots(s: Slots)
    ensures Somes(SlotList(s)) == OptionToSeq(s.nullability) + OptionToSeq(s.minmax) + OptionToSeq(s.determinedList)
                                  + OptionToSeq(s.inconsistentNames) + OptionToSeq(s.futureDates) + OptionToSeq(s.foreignKey)
  {
    var Slots(a, b, c, d, e, f) := s;
    assert [f][1..] == [] && [e, f][1..] == [f] && [d, e, f][1..] == [e, f];
    assert [c, d, e, f][1..] == [d, e, f] && [b, c, d, e, f][1..] == [c, d, e, f];
    assert [a, b, c, d, e, f][1..] == [b, c, d, e, f];
    calc {
      Somes([a, b, c, d, e, f]);
      OptionToSeq(a) + Somes([b, c, d, e, f]);
      OptionToSeq(a) + OptionToSeq(b) + Somes([c, d, e, f]);
      OptionToSeq(a) + OptionToSeq(b) + OptionToSeq(c) + Somes([d, e, f]);
      OptionToSeq(a) + OptionToSeq(b) + OptionToSeq(c) + OptionToSeq(d) + Somes([e, f]);
      OptionToSeq(a) + OptionToSeq(b) + OptionToSeq(c) + OptionToSeq(d) + OptionToSeq(e) + Somes([f]);
      OptionToSeq(a) + OptionToSeq(b) + OptionToSeq(c) + OptionToSeq(d) + OptionToSeq(e) + OptionToSeq(f);
    }
  }

  /** A slot keeps its value unless its rule fires. */
  function Fill(slot: Option<Suggestion>, found: Option<Suggestion>): (r: Option<Suggestion>)
    ensures r == found || r == slot
    ensures found.Some? ==> r == found
    ensures r.None? ==> slot.None? && found.None?
  {
    if found.Some? then found else slot
  }

  /** A configured rule: its name and its properties. */
  datatype Rule =
    | Nullability(nullabilityThreshold: Option<real>)
    | MinMax
    | DeterminedList(listSizeThreshold: Option<int>)
    | InconsistentNames
    | FutureDates
    | ForeignKey

  /** Running one rule: only its own slot may change; only FUTURE_DATES can raise. */
  function ApplyRule(s: Slots, ctx: Context, rule: Rule, env: Env): (r: Result<Slots, Error>)
    ensures r.Err? <==> rule.FutureDates? && EvalFutureDates(ctx, env).Err?
    ensures r.Ok? ==> r.value.nullability == s.nullability || rule.Nullability?
    ensures r.Ok? ==> r.value.minmax == s.minmax || rule.MinMax?
    ensures r.Ok? ==> r.value.determinedList == s.determinedList || rule.DeterminedList?
    ensures r.Ok? ==> r.value.inconsistentNames == s.inconsistentNames || rule.InconsistentNames?
    ensures r.Ok? ==> r.value.futureDates == s.futureDates || rule.FutureDates?
    ensures r.Ok? ==> r.value.foreignKey == s.foreignKey || rule.ForeignKey?
  {
    match rule
    case Nullability(t) =>
      Ok(s.(nullability := Fill(s.nullability, EvalNullability(ctx, t.GetOr(DefaultNullabilityThreshold)))))
    case MinMax =>
      Ok(s.(minmax := Fill(s.minmax, EvalMinMax(ctx))))
    case DeterminedList(t) =>
      Ok(s.(determinedList := Fill(s.determinedList, EvalDeterminedList(ctx, t.GetOr(DefaultListSizeThreshold)))))
    case InconsistentNames =>
      Ok(s.(inconsistentNames := Fill(s.inconsistentNames, EvalInconsistentNames(ctx))))
    case FutureDates =>
      (match EvalFutureDates(ctx, env)
       case Err(e) => Err(e)
       case Ok(found) => Ok(s.(futureDates := Fill(s.futureDates, found))))
    case ForeignKey =>
      Ok(s.(foreignKey := Fill(s.foreignKey, EvalForeignKey(ctx, env.round3))))
  }

  /** Running the configured rules in list order, stopping at the first error. */
  function RunRules(s: Slots, ctx: Context, rules: seq<Rule>, env: Env): (r: Result<Slots, Error>)
    ensures r.Err? ==> r.error.InvalidIsoFormat? && FutureDates in rules
    decreases |rules|
  {
    if rules == [] then Ok(s)
    else match ApplyRule(s, ctx, rules[0], env)
      case Err(e) => Err(e)
      case Ok(next) => RunRules(next, ctx, rules[1..], env)
  }

  /** The builder's whole job: a fresh identifier, the rules, then `identify_constraints`. */
  function Identify(ctx: Context, rules: seq<Rule>, env: Env): (r: Result<seq<Suggestion>, Error>)
    ensures r.Err? ==> r.error.InvalidIsoFormat? && FutureDates in rules
    ensures r.Ok? ==> |r.value| <= 6
  {
    match RunRules(NoSuggestions, ctx, rules, env)
    case Err(e) => Err(e)
    case Ok(s) => Ok(Collect(s))
  }

  // ---------------------------------------------------------------------------
  // The identifier and its builder, as objects.
  // ---------------------------------------------------------------------------

  class ConstraintIdentifier {
    const baseInfo: ColumnStats
    const relatedColumn: string
    const relatedTable: Option<string>

    var nullability: Option<Suggestion>
    var minmax: Option<Suggestion>
    var determinedList: Option<Suggestion>
    var inconsistentNames: Option<Suggestion>
    var futureDates: Option<Suggestion>
    var foreignKey: Option<Suggestion>

    constructor (baseInfo: ColumnStats, relatedColumn: string, relatedTable: Option<string>)
      ensures Ctx() == Context(baseInfo, relatedColumn, relatedTable)
      ensures State() == NoSuggestions
    {
      this.baseInfo := baseInfo;
      this.relatedColumn := relatedColumn;
      this.relatedTable := relatedTable;
      nullability, minmax, determinedList := None, None, None;
      inconsistentNames, futureDates, foreignKey := None, None, None;
    }

    function Ctx(): Context {
      Context(baseInfo, relatedColumn, relatedTable)
    }

    function State(): Slots
      reads this
    {
      Slots(nullability, minmax, determinedList, inconsistentNames, futureDates, foreignKey)
    }

    /** `identify_constraints`: the filled slots, in the fixed slot order. */
    function IdentifyConstraints(): (r: seq<Suggestion>)
      reads this
      ensures |r| <= 6
      ensures forall x :: x in r <==> Some(x) in SlotList(State())
      ensures r == OptionToSeq(nullability) + OptionToSeq(minmax) + OptionToSeq(determinedList)
                 + OptionToSeq(inconsistentNames) + OptionToSeq(futureDates) + OptionToSeq(foreignKey)
    {
      Collect(State())
    }

    method IdentifyNullability(nullabilityThreshold: real := DefaultNullabilityThreshold)
      modifies this`nullability
      ensures nullability == Fill(old(nullability), EvalNullability(Ctx(), nullabilityThreshold))
    {
      var found := EvalNullability(Ctx(), nullabilityThreshold);
      if found.Some? {
        nullability := found;
      }
    }

    method IdentifyMinMaxRange()
      modifies this`minmax
      ensures minmax == Fill(old(minmax), EvalMinMax(Ctx()))
    {
      var found := EvalMinMax(Ctx());
      if found.Some? {
        minmax := found;
      }
    }

    method IdentifyDeterminedList(listSizeThreshold: int := DefaultListSizeThreshold)
      modifies this`determinedList
      ensures determinedList == Fill(old(determinedList), EvalDeterminedList(Ctx(), listSizeThreshold))
    {
      var found := EvalDeterminedList(Ctx(), listSizeThreshold);
      if found.Some? {
        determinedList := found;
      }
    }

    method IdentifyInconsistentNames()
      modifies this`inconsistentNames
      ensures inconsistentNames == Fill(old(inconsistentNames), EvalInconsistentNames(Ctx()))
    {
      var found := EvalInconsistentNames(Ctx());
      if found.Some? {
        inconsistentNames := found;
      }
    }

    /** Raises (returns Err, leaving the slot alone) where `fromisoformat` would. */
    method IdentifyDatesInFuture(env: Env) returns (r: Result<(), Error>)
      modifies this`futureDates
      ensures r.Err? <==> EvalFutureDates(Ctx(), env).Err?
      ensures r.Err? ==> r.error == EvalFutureDates(Ctx(), env).error && futureDates == old(futureDates)
      ensures r.Ok? ==> futureDates == Fill(old(futureDates), EvalFutureDates(Ctx(), env).value)
    {
      var found := EvalFutureDates(Ctx(), env);
      if found.Err? {
        return Err(found.error);
      }
      if found.value.Some? {
        futureDates := found.value;
      }
      r := Ok(());
    }

    method IdentifyForeignKey(round3: real -> real)
      modifies this`foreignKey
      ensures foreignKey == Fill(old(foreignKey), EvalForeignKey(Ctx(), round3))
    {
      var found := EvalForeignKey(Ctx(), round3);
      if found.Some? {
        foreignKey := found;
      }
    }
  }

  class ConstraintIdentifierBuilder {
    const identifier: ConstraintIdentifier

    constructor (baseInfo: ColumnStats, relatedColumn: string, relatedTable: Option<string>)
      ensures fresh(identifier)
      ensures identifier.Ctx() == Context(baseInfo, relatedColumn, relatedTable)
      ensures identifier.State() == NoSuggestions
    {
      identifier := new ConstraintIdentifier(baseInfo, relatedColumn, relatedTable);
    }

    method BuildIdentifier() returns (id: ConstraintIdentifier)
      ensures id == identifier
    {
      id := identifier;
    }

    method IncludeIdentificationNullability(nullabilityThreshold: real := DefaultNullabilityThreshold)
      returns (self: ConstraintIdentifierBuilder)
      modifies identifier`nullability
      ensures self == this
      ensures identifier.nullability == Fill(old(identifier.nullability), EvalNullability(identifier.Ctx(), nullabilityThreshold))
    {
      identifier.IdentifyNullability(nullabilityThreshold);
      self := this;
    }

    method IncludeIdentificationMinMax() returns (self: ConstraintIdentifierBuilder)
      modifies identifier`minmax
      ensures self == this
      ensures identifier.minmax == Fill(old(identifier.minmax), EvalMinMax(identifier.Ctx()))
    {
      identifier.IdentifyMinMaxRange();
      self := this;
    }

    method IncludeIdentificationDeterminedList(listSizeThreshold: int := DefaultListSizeThreshold)
      returns (self: ConstraintIdentifierBuilder)
      modifies identifier`determinedList
      ensures self == this
      ensures identifier.determinedList == Fill(old(identifier.determinedList), EvalDeterminedList(identifier.Ctx(), listSizeThreshold))
    {
      identifier.IdentifyDeterminedList(listSizeThreshold);
      self := this;
    }

    method IncludeIdentificationInconsistentNames() returns (self: ConstraintIdentifierBuilder)
      modifies identifier`inconsistentNames
      ensures self == this
      ensures identifier.inconsistentNames == Fill(old(identifier.inconsistentNames), EvalInconsistentNames(identifier.Ctx()))
    {
      identifier.IdentifyInconsistentNames();
      self := this;
    }

    /** Returns the builder, or the error the identifier raised. */
    method IncludeIdentificationFutureDates(env: Env) returns (r: Result<ConstraintIdentifierBuilder, Error>)
      modifies identifier`futureDates
      ensures r.Err? <==> EvalFutureDates(identifier.Ctx(), env).Err?
      ensures r.Err? ==>
        && r.error == EvalFutureDates(identifier.Ctx(), env).error
        && identifier.futureDates == old(identifier.futureDates)
      ensures r.Ok? ==>
        && r.value == this
        && identifier.futureDates == Fill(old(identifier.futureDates), EvalFutureDates(identifier.Ctx(), env).value)
    {
      var outcome := identifier.IdentifyDatesInFuture(env);
      if outcome.Err? {
        return Err(outcome.error);
      }
      r := Ok(this);
    }

    method IncludeIdentificationForeignKey(round3: real -> real) returns (self: ConstraintIdentifierBuilder)
      modifies identifier`foreignKey
      ensures self == this
      ensures identifier.foreignKey == Fill(old(identifier.foreignKey), EvalForeignKey(identifier.Ctx(), round3))
    {
      identifier.IdentifyForeignKey(round3);
      self := this;
    }
  }

  /**
   * The step the analyzer asks of the builder: a fresh identifier for the column,
   * each configured rule in list order through the matching `include_*`, then
   * `build_identifier().identify_constraints()`. An error aborts the run.
   */
  method IdentifyWithRules(baseInfo: ColumnStats, relatedColumn: string, relatedTable: Option<string>,
                           rules: seq<Rule>, env: Env)
    returns (r: Result<seq<Suggestion>, Error>)
    ensures r == Identify(Context(baseInfo, relatedColumn, relatedTable), rules, env)
  {
    var builder := new ConstraintIdentifierBuilder(baseInfo, relatedColumn, relatedTable);
    ghost var ctx := builder.identifier.Ctx();
    var i := 0;
    while i < |rules|
      invariant 0 <= i <= |rules|
      invariant fresh(builder.identifier) && builder.identifier.Ctx() == ctx
      invariant RunRules(builder.identifier.State(), ctx, rules[i..], env) == RunRules(NoSuggestions, ctx, rules, env)
    {
      assert rules[i..][1..] == rules[i + 1..];
      match rules[i] {
      case Nullability(t) =>
        builder := builder.IncludeIdentificationNullability(t.GetOr(DefaultNullabilityThreshold));
      case MinMax =>
        builder := builder.IncludeIdentificationMinMax();
      case DeterminedList(t) =>
        builder := builder.IncludeIdentificationDeterminedList(t.GetOr(DefaultListSizeThreshold));
      case InconsistentNames =>
        builder := builder.IncludeIdentificationInconsistentNames();
      case FutureDates =>
        var outcome := builder.IncludeIdentificationFutureDates(env);
        if outcome.Err? {
          return Err(outcome.error);
        }
        builder := outcome.value;
      case ForeignKey =>
        builder := builder.IncludeIdentificationForeignKey(env.round3);
      }
      i := i + 1;
    }
    var identifier := builder.BuildIdentifier();
    r := Ok(identifier.IdentifyConstraints());
  }
}
