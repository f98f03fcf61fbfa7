/** The tier judge: arithmetic on published thresholds, brackets where the figure is missing. */
module Tiers {
  import opened Entities
  import opened Snapshots
  import Publication
  import W = Workflow

  const AI_SET := "ai_generated"

  function FindSet(sets: seq<ThresholdSet>, name: string): Option<ThresholdSet> {
    if sets == [] then None else if sets[0].name == name then Some(sets[0]) else FindSet(sets[1..], name)
  }

  /** A set with no key at all is as good as none. */
  function NonEmptySet(s: Option<ThresholdSet>): Option<ThresholdSet> {
    if s.Some? && (s.value.t1.Some? || s.value.t2.Some? || s.value.clause.Some? || s.value.disputed.Some? || s.value.others)
    then s else None
  }

  function AiThresholds(p3: TierThresholds): Option<ThresholdSet> {
    NonEmptySet(if p3.sets != [] then FindSet(p3.sets, AI_SET) else p3.flat)
  }

  function ThresholdsPublished(p3: TierThresholds, snapshot: Option<bool>): bool {
    if p3.published.Some? then p3.published.value
    else if p3.official.Some? then p3.official.value
    else snapshot == Some(true)
  }

  predicate OnBoundary(amount: real, s: ThresholdSet) {
    s.disputed.Some? &&
    (("T1_min_rmb" in s.disputed.value && s.t1 == Some(amount)) || ("T2_min_rmb" in s.disputed.value && s.t2 == Some(amount)))
  }

  function TierFromAmount(amount: real, s: ThresholdSet): Option<Tier> {
    if s.t1.Some? && amount >= s.t1.value then Some(T1)
    else if s.t2.Some? && amount >= s.t2.value then Some(T2)
    else if s.t1.Some? || s.t2.Some? then Some(T3)
    else None
  }

  function BracketTier(b: AmountBracket): Tier {
    match b
    case AtOrAboveUpper => T1
    case Between => T2
    case BelowLower => T3
    case BracketUnknown => T2
  }

  function ClauseOf(s: Option<ThresholdSet>): Option<string> { if s.Some? then s.value.clause else None }

  function FromBracket(b: AmountBracket, s: Option<ThresholdSet>, settled: bool): W.TierDecision {
    if b.BracketUnknown? then W.TierDecision(T2, true, None)
    else W.TierDecision(BracketTier(b), !settled, if settled then ClauseOf(s) else None)
  }

  /** `promoted`: platform promotion or a voluntary declaration, either of which decides alone. */
  function JudgeTier(b: AmountBracket, p3: TierThresholds, snapshot: Option<bool>, amount: Option<real>, promoted: bool): W.TierDecision {
    var s := AiThresholds(p3);
    if promoted then W.TierDecision(T1, false, ClauseOf(s))
    else if !ThresholdsPublished(p3, snapshot) then FromBracket(b, s, false)
    else if amount.None? then FromBracket(b, s, s.Some?)
    else if s.Some? && TierFromAmount(amount.value, s.value).Some? then
      W.TierDecision(TierFromAmount(amount.value, s.value).value, OnBoundary(amount.value, s.value), s.value.clause)
    else FromBracket(b, s, false)
  }

  /** T1 is the heaviest. */
  function Weight(t: Tier): int {
    match t case T1 => 3 case T2 => 2 case T3 => 1 case TierUndetermined => 0
  }

  /** The packs the arithmetic is used with: published, with both figures of the AI set. */
  predicate Usable(p3: TierThresholds, snapshot: Option<bool>) {
    && ThresholdsPublished(p3, snapshot)
    && AiThresholds(p3).Some? && AiThresholds(p3).value.t1.Some? && AiThresholds(p3).value.t2.Some?
  }

  lemma {:induction false} FoundInSets(sets: seq<ThresholdSet>, name: string)
    requires FindSet(sets, name).Some?
    ensures FindSet(sets, name).value in sets && FindSet(sets, name).value.name == name
    decreases |sets|
  {
    if sets[0].name != name { FoundInSets(sets[1..], name); }
  }

  /** A validated, published snapshot with an AI set is usable. */
  lemma ValidatedIsUsable(p: Packs, version: nat, snapshot: Option<bool>)
    requires Valid(p, version) && Published(p.p3) && FindSet(p.p3.sets, AI_SET).Some?
    ensures Usable(p.p3, snapshot)
    ensures var s := AiThresholds(p.p3).value; Truncated(s.t1.value) >= Truncated(s.t2.value)
  {
    FoundInSets(p.p3.sets, AI_SET);
    assert SetOk(FindSet(p.p3.sets, AI_SET).value, true);
  }

  /** A larger amount never gives a lighter tier, whatever the pack holds. */
  lemma Monotone(b: AmountBracket, p3: TierThresholds, snapshot: Option<bool>, promoted: bool, low: real, high: real)
    requires low <= high
    ensures Weight(JudgeTier(b, p3, snapshot, Some(low), promoted).tier)
            <= Weight(JudgeTier(b, p3, snapshot, Some(high), promoted).tier)
  {
    var s := AiThresholds(p3);
    if s.Some? { MonotoneSet(s.value, low, high); }
  }

  lemma MonotoneSet(s: ThresholdSet, low: real, high: real)
    requires low <= high
    ensures TierFromAmount(low, s).Some? <==> TierFromAmount(high, s).Some?
    ensures TierFromAmount(low, s).Some? ==>
              Weight(TierFromAmount(low, s).value) <= Weight(TierFromAmount(high, s).value)
  {
  }

  /** Where an amount lies, as the form asks it. */
  predicate FallsIn(amount: real, b: AmountBracket, s: ThresholdSet)
    requires s.t1.Some? && s.t2.Some?
  {
    match b
    case AtOrAboveUpper => amount >= s.t1.value
    case Between => s.t2.value <= amount < s.t1.value
    case BelowLower => amount < s.t2.value
    case BracketUnknown => false
  }

  ghost predicate BracketsAgree(p3: TierThresholds, snapshot: Option<bool>)
    requires Usable(p3, snapshot)
  {
    forall amount: real, b: AmountBracket | FallsIn(amount, b, AiThresholds(p3).value) ::
      JudgeTier(b, p3, snapshot, Some(amount), false).tier == JudgeTier(b, p3, snapshot, None, false).tier
  }

  /** An amount and the bracket it falls in give one tier exactly when the upper figure is not below the lower. */
  lemma BracketsAgreeExactly(p3: TierThresholds, snapshot: Option<bool>)
    requires Usable(p3, snapshot)
    ensures BracketsAgree(p3, snapshot) <==> AiThresholds(p3).value.t1.value >= AiThresholds(p3).value.t2.value
  {
    var s := AiThresholds(p3).value;
    if s.t1.value < s.t2.value {
      assert FallsIn(s.t1.value, BelowLower, s);
      assert JudgeTier(BelowLower, p3, snapshot, Some(s.t1.value), false).tier == T1;
      assert JudgeTier(BelowLower, p3, snapshot, None, false).tier == T3;
    }
  }

  predicate Whole(x: real) { x == x.Floor as real }

  /** Validation compares whole parts, so for whole figures it is enough. */
  lemma ValidatedWholeFiguresAgree(p: Packs, version: nat, snapshot: Option<bool>)
    requires Valid(p, version) && Published(p.p3) && FindSet(p.p3.sets, AI_SET).Some?
    requires var s := FindSet(p.p3.sets, AI_SET).value; s.t1.Some? && s.t2.Some? ==> Whole(s.t1.value) && Whole(s.t2.value)
    ensures Usable(p.p3, snapshot) && BracketsAgree(p.p3, snapshot)
  {
    ValidatedIsUsable(p, version, snapshot);
    BracketsAgreeExactly(p.p3, snapshot);
    var s := AiThresholds(p.p3).value;
    TruncatedWhole(s.t1.value);
    TruncatedWhole(s.t2.value);
  }

  lemma TruncatedWhole(x: real)
    requires Whole(x)
    ensures Truncated(x) as real == x
  {
    assert (-x).Floor == -(x.Floor);
  }

  const FRACTIONS := ThresholdSet(AI_SET, Some(80.2), Some(80.9), Some("c"), None, false)

  const FRACTIONAL_PACKS := Packs(
    FormDefinition("c"), SubjectRules(["c"]), TierThresholds(Some(true), None, [FRACTIONS], None),
    ProcessTemplates([Template("T1_7steps", [["card"]]), Template("T2_5steps", [["card"]]), Template("T3_4steps", [["card"]])]),
    FormTemplates([CardDef("card", "script", true, "c")], ["title"]), LegalClauses(["c"]))

  lemma FractionsValidate(version: nat)
    ensures Valid(FRACTIONAL_PACKS, version)
  {
    var p := FRACTIONAL_PACKS;
    var card, templates := p.p5.cards[0], p.p4.templates;
    assert (80.2).Floor == 80 && (80.9).Floor == 80;
    assert SetOk(FRACTIONS, true);
    assert card in p.p5.cards && card.required && "c" in p.p6.clauses;
    assert HasCard("card", p.p5.cards);
    forall t | t in templates ensures TemplateOk(t, p.p5.cards) {
      forall refs | refs in t.steps ensures StepOk(refs, p.p5.cards) { assert refs == ["card"]; }
    }
    assert templates[0] in templates && templates[1] in templates && templates[2] in templates;
    assert HasRoadmap(ROADMAPS[0], p.p4) && HasRoadmap(ROADMAPS[1], p.p4) && HasRoadmap(ROADMAPS[2], p.p4);
  }

  /**
   For fractions validation is not enough: here are whole packs that a publisher
   accepts at every version, and an amount they answer in two ways.
   */
  lemma FractionsSlipThrough(version: nat, effectiveFrom: int, snapshot: Option<bool>)
    ensures Publication.Acceptable(Publication.Snapshot(version, FRACTIONAL_PACKS, effectiveFrom))
    ensures Usable(FRACTIONAL_PACKS.p3, snapshot) && !BracketsAgree(FRACTIONAL_PACKS.p3, snapshot)
    ensures FallsIn(80.5, BelowLower, FRACTIONS)
    ensures JudgeTier(BelowLower, FRACTIONAL_PACKS.p3, snapshot, Some(80.5), false).tier == T1
    ensures JudgeTier(BelowLower, FRACTIONAL_PACKS.p3, snapshot, None, false).tier == T3
  {
    FractionsValidate(version);
    assert AiThresholds(FRACTIONAL_PACKS.p3) == Some(FRACTIONS);
    BracketsAgreeExactly(FRACTIONAL_PACKS.p3, snapshot);
  }

  /** A tier is settled exactly by a promotion, by an amount off every disputed line, or by a bracket of a usable pack. */
  lemma SettledExactly(b: AmountBracket, p3: TierThresholds, snapshot: Option<bool>, amount: Option<real>, promoted: bool)
    ensures var s := AiThresholds(p3);
            !JudgeTier(b, p3, snapshot, amount, promoted).provisional <==>
              || promoted
              || (ThresholdsPublished(p3, snapshot) && s.Some? &&
                  if amount.Some? then (s.value.t1.Some? || s.value.t2.Some?) && !OnBoundary(amount.value, s.value)
                  else !b.BracketUnknown?)
  {
  }

  // ------------------------------------------------------- who decides, case by case

  /** The flag of the pack, under its new or its old key, or the snapshot's. */
  predicate FlaggedPublished(p3: TierThresholds, snapshot: Option<bool>) {
    || p3.published == Some(true)
    || (p3.published == None && p3.official == Some(true))
    || (p3.published == None && p3.official == None && snapshot == Some(true))
  }

  /** The set the product judges by: the first AI set of the pack, or the flat one of a pack without sets. */
  ghost predicate JudgedBy(p3: TierThresholds, s: ThresholdSet) {
    && (s.t1 != None || s.t2 != None || s.clause != None || s.disputed != None || s.others)
    && if |p3.sets| > 0
       then exists i :: 0 <= i < |p3.sets| && p3.sets[i] == s && s.name == "ai_generated"
                        && forall j | 0 <= j < i :: p3.sets[j].name != "ai_generated"
       else p3.flat == Some(s)
  }

  lemma {:induction false} FirstFound(sets: seq<ThresholdSet>, name: string, s: ThresholdSet)
    ensures FindSet(sets, name) == Some(s) <==>
            exists i :: 0 <= i < |sets| && sets[i] == s && s.name == name && forall j | 0 <= j < i :: sets[j].name != name
    decreases |sets|
  {
    if sets != [] && sets[0].name != name {
      FirstFound(sets[1..], name, s);
      if i :| 0 <= i < |sets[1..]| && sets[1..][i] == s && s.name == name && forall j | 0 <= j < i :: sets[1..][j].name != name {
        forall j | 0 <= j < i + 1 ensures sets[j].name != name { if j > 0 { assert sets[j] == sets[1..][j - 1]; } }
        assert sets[i + 1] == s;
      }
      if i :| 0 <= i < |sets| && sets[i] == s && s.name == name && forall j | 0 <= j < i :: sets[j].name != name {
        assert sets[1..][i - 1] == s;
        forall j | 0 <= j < i - 1 ensures sets[1..][j].name != name { assert sets[1..][j] == sets[j + 1]; }
      }
    }
  }

  lemma JudgedByExactly(p3: TierThresholds, s: ThresholdSet)
    ensures AiThresholds(p3) == Some(s) <==> JudgedBy(p3, s)
  {
    FirstFound(p3.sets, AI_SET, s);
  }

  /** Promotion or a declaration alone makes a final T1, under the AI set's clause. */
  lemma PromotionDecides(b: AmountBracket, p3: TierThresholds, snapshot: Option<bool>, amount: Option<real>, s: ThresholdSet)
    ensures var d := JudgeTier(b, p3, snapshot, amount, true);
            d.tier == T1 && !d.provisional && (JudgedBy(p3, s) ==> d.clause == s.clause)
  {
    JudgedByExactly(p3, s);
  }

  /**
   A published figure decides by itself: T1 from the upper line on, T2 from the lower one,
   T3 below both; it is provisional exactly on a line the pack calls disputed.
   */
  lemma AmountDecides(b: AmountBracket, p3: TierThresholds, snapshot: Option<bool>, x: real, s: ThresholdSet)
    requires FlaggedPublished(p3, snapshot) && JudgedBy(p3, s) && (s.t1.Some? || s.t2.Some?)
    ensures var d := JudgeTier(b, p3, snapshot, Some(x), false);
            var upper, lower := s.t1.Some? && s.t1.value <= x, s.t2.Some? && s.t2.value <= x;
            && (d.tier == T1 <==> upper) && (d.tier == T2 <==> lower && !upper) && (d.tier == T3 <==> !lower && !upper)
            && d.clause == s.clause
            && (d.provisional <==>
                  s.disputed.Some? && (("T1_min_rmb" in s.disputed.value && s.t1 == Some(x))
                                       || ("T2_min_rmb" in s.disputed.value && s.t2 == Some(x))))
  {
    JudgedByExactly(p3, s);
  }

  /**
   Without such a figure the bracket decides, and an unknown one counts as T2; it is final
   exactly when the pack is published, the figure is missing, the pack has an AI set and the
   bracket is known, and cites that set's clause exactly then.
   */
  lemma BracketDecides(b: AmountBracket, p3: TierThresholds, snapshot: Option<bool>, amount: Option<real>, s: ThresholdSet)
    requires JudgedBy(p3, s)
    requires FlaggedPublished(p3, snapshot) && amount.Some? ==> s.t1.None? && s.t2.None?
    ensures var d := JudgeTier(b, p3, snapshot, amount, false);
            && (d.tier == T1 <==> b == AtOrAboveUpper) && (d.tier == T3 <==> b == BelowLower)
            && (d.tier == T2 <==> b == Between || b == BracketUnknown)
            && (!d.provisional <==> FlaggedPublished(p3, snapshot) && amount.None? && b != BracketUnknown)
            && d.clause == if d.provisional then None else s.clause
  {
    JudgedByExactly(p3, s);
  }

  /** A pack without an AI set never makes a tier final. */
  lemma NothingToJudgeBy(b: AmountBracket, p3: TierThresholds, snapshot: Option<bool>, amount: Option<real>)
    requires forall s :: !JudgedBy(p3, s)
    ensures var d := JudgeTier(b, p3, snapshot, amount, false);
            && d.provisional && d.clause == None
            && (d.tier == T1 <==> b == AtOrAboveUpper) && (d.tier == T3 <==> b == BelowLower)
            && (d.tier == T2 <==> b == Between || b == BracketUnknown)
  {
    if AiThresholds(p3).Some? { JudgedByExactly(p3, AiThresholds(p3).value); }
  }

  // -------------------------------------------------------------- recalculation

  function Decide(p: Project, p3: TierThresholds, snapshot: Option<bool>): W.TierDecision {
    JudgeTier(p.bracket, p3, snapshot, p.amount, false)
  }

  /** A recalculation asks for the amount, or the bracket when there is none, and knows of no promotion. */
  lemma RecalculationJudges(p: Project, p3: TierThresholds, snapshot: Option<bool>, s: ThresholdSet)
    requires FlaggedPublished(p3, snapshot) && JudgedBy(p3, s) && s.t1.Some? && s.t2.Some?
    ensures var d := Decide(p, p3, snapshot);
            && (p.amount.Some? ==> (d.tier == T1 <==> s.t1.value <= p.amount.value))
            && (p.amount.None? ==> (d.tier == T1 <==> p.bracket == AtOrAboveUpper) && (d.provisional <==> p.bracket == BracketUnknown))
  {
    if p.amount.Some? { AmountDecides(p.bracket, p3, snapshot, p.amount.value, s); }
    else { BracketDecides(p.bracket, p3, snapshot, None, s); }
  }

  /** Recalculating twice against one snapshot reports no second change. */
  lemma SecondRecalculationIsNoNews(p: Project, p3: TierThresholds, snapshot: Option<bool>, version: string, now: int, later: int)
    requires W.Recalculates(p)
    ensures var once := W.Recalculated(p, version, Decide(p, p3, snapshot), now);
            && (W.Recalculates(once) ==> !W.TierChanged(once, Decide(once, p3, snapshot)))
            && (W.Recalculates(once) ==> W.Recalculated(once, version, Decide(once, p3, snapshot), later).(updatedAt := now) == once)
  {
  }
}
