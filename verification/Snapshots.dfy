/** Policy packs and the cross-pack rules a snapshot must meet before it is published. */
module Snapshots {
  import opened Entities

  /** A threshold set; None is an absent key, and `others` tells of keys no rule reads. */
  datatype ThresholdSet = ThresholdSet(
    name: string, t1: Option<real>, t2: Option<real>, clause: Option<string>, disputed: Option<set<string>>, others: bool)

  datatype CardDef = CardDef(materialId: string, assetKind: string, required: bool, whyClause: string)

  datatype Template = Template(name: string, steps: seq<seq<string>>)

  datatype FormDefinition = FormDefinition(clause: string)
  datatype SubjectRules = SubjectRules(clauses: seq<string>)
  datatype TierThresholds = TierThresholds(
    published: Option<bool>, official: Option<bool>, sets: seq<ThresholdSet>, flat: Option<ThresholdSet>)
  datatype ProcessTemplates = ProcessTemplates(templates: seq<Template>)
  datatype FormTemplates = FormTemplates(cards: seq<CardDef>, requiredFacts: seq<string>)
  datatype LegalClauses = LegalClauses(clauses: seq<string>)

  datatype Packs = Packs(
    p1: FormDefinition, p2: SubjectRules, p3: TierThresholds,
    p4: ProcessTemplates, p5: FormTemplates, p6: LegalClauses)

  /** A proposal's replacement of one pack. */
  datatype Update =
    | SetP1(p1: FormDefinition) | SetP2(p2: SubjectRules) | SetP3(p3: TierThresholds)
    | SetP4(p4: ProcessTemplates) | SetP5(p5: FormTemplates) | SetP6(p6: LegalClauses)

  function Override(p: Packs, u: Update): Packs {
    match u
    case SetP1(x) => p.(p1 := x)
    case SetP2(x) => p.(p2 := x)
    case SetP3(x) => p.(p3 := x)
    case SetP4(x) => p.(p4 := x)
    case SetP5(x) => p.(p5 := x)
    case SetP6(x) => p.(p6 := x)
  }

  function OverrideAll(p: Packs, us: seq<Update>): Packs {
    if us == [] then p else Override(OverrideAll(p, us[..|us| - 1]), us[|us| - 1])
  }

  // ------------------------------------------------------- what updates come to, pack by pack

  function P1Of(u: Update): Option<FormDefinition> { if u.SetP1? then Some(u.p1) else None }
  function P2Of(u: Update): Option<SubjectRules> { if u.SetP2? then Some(u.p2) else None }
  function P3Of(u: Update): Option<TierThresholds> { if u.SetP3? then Some(u.p3) else None }
  function P4Of(u: Update): Option<ProcessTemplates> { if u.SetP4? then Some(u.p4) else None }
  function P5Of(u: Update): Option<FormTemplates> { if u.SetP5? then Some(u.p5) else None }
  function P6Of(u: Update): Option<LegalClauses> { if u.SetP6? then Some(u.p6) else None }

  /** The content the last update naming the pack gives it, or what it was when none does. */
  ghost predicate Newest<T>(us: seq<Update>, of: Update -> Option<T>, before: T, after: T) {
    || (after == before && forall j | 0 <= j < |us| :: of(us[j]) == None)
    || exists j | 0 <= j < |us| :: of(us[j]) == Some(after) && forall k | j < k < |us| :: of(us[k]) == None
  }

  ghost predicate PackByPack(us: seq<Update>, before: Packs, after: Packs) {
    && Newest(us, P1Of, before.p1, after.p1) && Newest(us, P2Of, before.p2, after.p2)
    && Newest(us, P3Of, before.p3, after.p3) && Newest(us, P4Of, before.p4, after.p4)
    && Newest(us, P5Of, before.p5, after.p5) && Newest(us, P6Of, before.p6, after.p6)
  }

  lemma NewestNext<T>(us: seq<Update>, of: Update -> Option<T>, before: T, after: T, next: T)
    requires us != [] && Newest(us[..|us| - 1], of, before, after)
    requires next == match of(us[|us| - 1]) case Some(x) => x case None => after
    ensures Newest(us, of, before, next)
  {
    var n := |us| - 1;
    assert forall j | 0 <= j < n :: us[..n][j] == us[j];
    if of(us[n]).None? && !(forall j | 0 <= j < n :: of(us[j]) == None) {
      var j :| 0 <= j < n && of(us[..n][j]) == Some(after) && forall k | j < k < n :: of(us[..n][k]) == None;
      assert of(us[j]) == Some(next);
    }
  }

  /** Each of the six packs ends at the last update naming it. */
  lemma {:induction false} OverrideAllIs(p: Packs, us: seq<Update>)
    ensures PackByPack(us, p, OverrideAll(p, us))
  {
    if us != [] {
      var m := OverrideAll(p, us[..|us| - 1]);
      var q := OverrideAll(p, us);
      OverrideAllIs(p, us[..|us| - 1]);
      NewestNext(us, P1Of, p.p1, m.p1, q.p1);
      NewestNext(us, P2Of, p.p2, m.p2, q.p2);
      NewestNext(us, P3Of, p.p3, m.p3, q.p3);
      NewestNext(us, P4Of, p.p4, m.p4, q.p4);
      NewestNext(us, P5Of, p.p5, m.p5, q.p5);
      NewestNext(us, P6Of, p.p6, m.p6, q.p6);
    }
  }

  lemma NewestSame<T>(us: seq<Update>, of: Update -> Option<T>, before: T, a: T, b: T)
    requires Newest(us, of, before, a) && Newest(us, of, before, b)
    ensures a == b
  {
  }

  /** Pack by pack leaves one result. */
  lemma PackByPackIs(p: Packs, us: seq<Update>, q: Packs)
    requires PackByPack(us, p, q)
    ensures q == OverrideAll(p, us)
  {
    var r := OverrideAll(p, us);
    OverrideAllIs(p, us);
    NewestSame(us, P1Of, p.p1, q.p1, r.p1);
    NewestSame(us, P2Of, p.p2, q.p2, r.p2);
    NewestSame(us, P3Of, p.p3, q.p3, r.p3);
    NewestSame(us, P4Of, p.p4, q.p4, r.p4);
    NewestSame(us, P5Of, p.p5, q.p5, r.p5);
    NewestSame(us, P6Of, p.p6, q.p6, r.p6);
  }

  const SUPPORTED_KINDS: set<string> := {
    "synopsis", "script", "supporting_document", "prompts", "final_film", "subtitle_sheet" }

  const ROADMAPS: seq<string> := ["T1_7steps", "T2_5steps", "T3_4steps"]

  /** int() of a figure: towards zero. */
  function Truncated(x: real): int { if x >= 0.0 then x.Floor else -((-x).Floor) }

  /** Within one of the figure, and never past it. */
  lemma TruncatedExactly(x: real)
    ensures x >= 0.0 ==> 0.0 <= x - Truncated(x) as real < 1.0
    ensures x <= 0.0 ==> 0.0 <= Truncated(x) as real - x < 1.0
  {
  }

  function WholeOr(x: Option<real>, default: int): int { if x.Some? then Truncated(x.value) else default }

  // ------------------------------------------------------------ the rules, one by one

  predicate Published(p3: TierThresholds) { p3.published == Some(true) }

  predicate CardIdsDistinct(cards: seq<CardDef>) {
    forall i, j | 0 <= i < j < |cards| :: cards[i].materialId != cards[j].materialId
  }

  predicate KindOk(c: CardDef) { c.assetKind in SUPPORTED_KINDS }

  predicate SetOk(s: ThresholdSet, published: bool) {
    && (published ==> s.t1.Some? && s.t2.Some? && s.clause.Some?)
    && WholeOr(s.t1, -1) >= WholeOr(s.t2, -1)
  }

  predicate Cited(clause: string, p6: LegalClauses) { clause == "" || clause in p6.clauses }

  function SetClause(s: ThresholdSet): string { if s.clause.Some? then s.clause.value else "" }

  predicate AllCited(p: Packs) {
    && Cited(p.p1.clause, p.p6)
    && (forall c | c in p.p2.clauses :: Cited(c, p.p6))
    && (forall s | s in p.p3.sets :: Cited(SetClause(s), p.p6))
    && (forall c | c in p.p5.cards :: Cited(c.whyClause, p.p6))
  }

  predicate HasCard(id: string, cards: seq<CardDef>) { exists c | c in cards :: c.materialId == id }

  predicate StepOk(refs: seq<string>, cards: seq<CardDef>) { forall r | r in refs :: HasCard(r, cards) }

  predicate TemplateOk(t: Template, cards: seq<CardDef>) { forall refs | refs in t.steps :: StepOk(refs, cards) }

  predicate HasRoadmap(name: string, p4: ProcessTemplates) {
    exists t | t in p4.templates :: t.name == name && t.steps != []
  }

  predicate CompleteFrom2(p: Packs) {
    && (forall name | name in ROADMAPS :: HasRoadmap(name, p.p4))
    && p.p5.requiredFacts != []
    && (exists c | c in p.p5.cards :: c.required)
    && (Published(p.p3) ==> p.p3.sets != [])
  }

  predicate Valid(p: Packs, version: nat) {
    && CardIdsDistinct(p.p5.cards)
    && (forall c | c in p.p5.cards :: KindOk(c))
    && (forall s | s in p.p3.sets :: SetOk(s, Published(p.p3)))
    && AllCited(p)
    && (forall t | t in p.p4.templates :: TemplateOk(t, p.p5.cards))
    && (version >= 2 ==> CompleteFrom2(p))
  }

  // -------------------------------------------------------------- the rules, put together

  /** Every clause the packs name: the form definition's, the subject rules', the threshold sets' and the cards'. */
  function ClausesNamed(p: Packs): set<string> {
    ({p.p1.clause} + (set c | c in p.p2.clauses)
     + (set s | s in p.p3.sets && s.clause.Some? :: s.clause.value)
     + (set c | c in p.p5.cards :: c.whyClause)) - {""}
  }

  ghost predicate NamesOneCard(id: string, cards: seq<CardDef>) {
    exists i :: 0 <= i < |cards| && cards[i].materialId == id && forall j | 0 <= j < |cards| && j != i :: cards[j].materialId != id
  }

  ghost predicate StepsResolve(t: Template, cards: seq<CardDef>) {
    forall i, j | 0 <= i < |t.steps| && 0 <= j < |t.steps[i]| :: NamesOneCard(t.steps[i][j], cards)
  }

  /** A figure a set leaves out counts as -1; both count by their whole part. */
  predicate FiguresOrdered(s: ThresholdSet) {
    match (s.t1, s.t2)
    case (Some(upper), Some(lower)) => Truncated(lower) <= Truncated(upper)
    case (Some(upper), None) => -1 <= Truncated(upper)
    case (None, Some(lower)) => Truncated(lower) <= -1
    case (None, None) => true
  }

  predicate HasSteps(p4: ProcessTemplates, name: string) {
    exists i :: 0 <= i < |p4.templates| && p4.templates[i].name == name && |p4.templates[i].steps| > 0
  }

  /** What a snapshot that may be published is, read off its packs. */
  ghost predicate Coherent(p: Packs, version: nat) {
    && (forall i, j | 0 <= i < |p.p5.cards| && 0 <= j < |p.p5.cards| && p.p5.cards[i].materialId == p.p5.cards[j].materialId :: i == j)
    && (forall i | 0 <= i < |p.p5.cards| ::
          p.p5.cards[i].assetKind in ["synopsis", "script", "supporting_document", "prompts", "final_film", "subtitle_sheet"])
    && (forall i | 0 <= i < |p.p3.sets| :: FiguresOrdered(p.p3.sets[i]))
    && (p.p3.published == Some(true) ==>
          forall i | 0 <= i < |p.p3.sets| :: p.p3.sets[i].t1 != None && p.p3.sets[i].t2 != None && p.p3.sets[i].clause != None)
    && (forall c | c in ClausesNamed(p) :: c in p.p6.clauses)
    && (forall t | t in p.p4.templates :: StepsResolve(t, p.p5.cards))
    && (version > 1 ==>
          && HasSteps(p.p4, "T1_7steps") && HasSteps(p.p4, "T2_5steps") && HasSteps(p.p4, "T3_4steps")
          && |p.p5.requiredFacts| > 0 && (exists i :: 0 <= i < |p.p5.cards| && p.p5.cards[i].required)
          && (p.p3.published == Some(true) ==> |p.p3.sets| > 0))
  }

  lemma CitedExactly(p: Packs)
    ensures AllCited(p) <==> forall c | c in ClausesNamed(p) :: c in p.p6.clauses
  {
    if forall c | c in ClausesNamed(p) :: c in p.p6.clauses {
      forall s | s in p.p3.sets ensures Cited(SetClause(s), p.p6) {
        if SetClause(s) != "" { assert SetClause(s) in ClausesNamed(p); }
      }
      forall c | c in p.p5.cards ensures Cited(c.whyClause, p.p6) {
        if c.whyClause != "" { assert c.whyClause in ClausesNamed(p); }
      }
      forall c | c in p.p2.clauses ensures Cited(c, p.p6) {
        if c != "" { assert c in ClausesNamed(p); }
      }
      if p.p1.clause != "" { assert p.p1.clause in ClausesNamed(p); }
    }
  }

  lemma StepsExactly(t: Template, cards: seq<CardDef>)
    requires CardIdsDistinct(cards)
    ensures TemplateOk(t, cards) <==> StepsResolve(t, cards)
  {
    forall id ensures HasCard(id, cards) <==> NamesOneCard(id, cards) {
      if HasCard(id, cards) {
        var c :| c in cards && c.materialId == id;
        var i :| 0 <= i < |cards| && cards[i] == c;
        assert NamesOneCard(id, cards);
      }
    }
    if StepsResolve(t, cards) {
      forall refs | refs in t.steps ensures StepOk(refs, cards) {
        var i :| 0 <= i < |t.steps| && t.steps[i] == refs;
        forall r | r in refs ensures HasCard(r, cards) {
          var j :| 0 <= j < |refs| && refs[j] == r;
          assert NamesOneCard(t.steps[i][j], cards);
        }
      }
    }
    if TemplateOk(t, cards) {
      forall i, j | 0 <= i < |t.steps| && 0 <= j < |t.steps[i]| ensures NamesOneCard(t.steps[i][j], cards) {
        assert t.steps[i] in t.steps && StepOk(t.steps[i], cards);
        assert t.steps[i][j] in t.steps[i];
      }
    }
  }

  lemma CardsExactly(cards: seq<CardDef>)
    ensures CardIdsDistinct(cards) && (forall c | c in cards :: KindOk(c)) <==>
            && (forall i, j | 0 <= i < |cards| && 0 <= j < |cards| && cards[i].materialId == cards[j].materialId :: i == j)
            && (forall i | 0 <= i < |cards| ::
                  cards[i].assetKind in ["synopsis", "script", "supporting_document", "prompts", "final_film", "subtitle_sheet"])
  {
    forall c: CardDef
      ensures KindOk(c) <==>
              c.assetKind in ["synopsis", "script", "supporting_document", "prompts", "final_film", "subtitle_sheet"]
    {
    }
  }

  lemma SetExactly(s: ThresholdSet, published: bool)
    ensures SetOk(s, published) <==> FiguresOrdered(s) && (published ==> s.t1 != None && s.t2 != None && s.clause != None)
  {
  }

  lemma SetsExactly(p3: TierThresholds)
    ensures (forall s | s in p3.sets :: SetOk(s, Published(p3))) <==>
            && (forall i | 0 <= i < |p3.sets| :: FiguresOrdered(p3.sets[i]))
            && (p3.published == Some(true) ==>
                  forall i | 0 <= i < |p3.sets| :: p3.sets[i].t1 != None && p3.sets[i].t2 != None && p3.sets[i].clause != None)
  {
    forall s | s in p3.sets
      ensures SetOk(s, Published(p3)) <==> FiguresOrdered(s) && (Published(p3) ==> s.t1 != None && s.t2 != None && s.clause != None)
    {
      SetExactly(s, Published(p3));
    }
  }

  lemma RoadmapExactly(p4: ProcessTemplates, name: string)
    ensures HasRoadmap(name, p4) <==> HasSteps(p4, name)
  {
    if t :| t in p4.templates && t.name == name && t.steps != [] {
      var i :| 0 <= i < |p4.templates| && p4.templates[i] == t;
      assert p4.templates[i].name == name;
    }
  }

  lemma CompleteExactly(p: Packs)
    ensures CompleteFrom2(p) <==>
            && HasSteps(p.p4, "T1_7steps") && HasSteps(p.p4, "T2_5steps") && HasSteps(p.p4, "T3_4steps")
            && |p.p5.requiredFacts| > 0 && (exists i :: 0 <= i < |p.p5.cards| && p.p5.cards[i].required)
            && (p.p3.published == Some(true) ==> |p.p3.sets| > 0)
  {
    assert ROADMAPS[0] in ROADMAPS && ROADMAPS[1] in ROADMAPS && ROADMAPS[2] in ROADMAPS;
    forall name ensures HasRoadmap(name, p.p4) <==> HasSteps(p.p4, name) { RoadmapExactly(p.p4, name); }
  }

  /** The rules hold exactly of a coherent snapshot: one reading of it against another. */
  lemma ValidExactly(p: Packs, version: nat)
    ensures Valid(p, version) <==> Coherent(p, version)
  {
    CardsExactly(p.p5.cards);
    SetsExactly(p.p3);
    CitedExactly(p);
    CompleteExactly(p);
    if CardIdsDistinct(p.p5.cards) {
      forall t | t in p.p4.templates ensures TemplateOk(t, p.p5.cards) <==> StepsResolve(t, p.p5.cards) {
        StepsExactly(t, p.p5.cards);
      }
    }
  }

  // --------------------------------------------------------------------- the check

  method CheckCards(cards: seq<CardDef>) returns (ok: bool)
    ensures ok <==> CardIdsDistinct(cards) && forall c | c in cards :: KindOk(c)
  {
    var ids: set<string> := {};
    for i := 0 to |cards|
      invariant ids == set k | 0 <= k < i :: cards[k].materialId
      invariant CardIdsDistinct(cards[..i])
    {
      if cards[i].materialId in ids {
        var k :| 0 <= k < i && cards[k].materialId == cards[i].materialId;
        return false;
      }
      ids := ids + {cards[i].materialId};
    }
    assert cards[..|cards|] == cards;
    for i := 0 to |cards|
      invariant forall k | 0 <= k < i :: KindOk(cards[k])
    {
      if !KindOk(cards[i]) { assert cards[i] in cards; return false; }
    }
    return true;
  }

  /** The clauses the packs refer to, gathered while the threshold sets are checked; None when a set is wrong. */
  method CollectReferences(p: Packs) returns (referenced: Option<seq<string>>)
    ensures referenced.Some? <==> forall s | s in p.p3.sets :: SetOk(s, Published(p.p3))
    ensures referenced.Some? ==> ((forall r | r in referenced.value :: r in p.p6.clauses) <==> AllCited(p))
  {
    var clauses := p.p6;
    var refs := SubjectReferences(p.p1.clause, p.p2.clauses, clauses);
    ghost var subjects := refs;
    for i := 0 to |p.p3.sets|
      invariant forall k | 0 <= k < i :: SetOk(p.p3.sets[k], Published(p.p3))
      invariant AllIn(refs, clauses) <==> AllIn(subjects, clauses) && forall k | 0 <= k < i :: Cited(SetClause(p.p3.sets[k]), clauses)
    {
      if !SetOk(p.p3.sets[i], Published(p.p3)) { assert p.p3.sets[i] in p.p3.sets; return None; }
      refs := AddReference(refs, SetClause(p.p3.sets[i]), clauses);
    }
    ghost var sets := refs;
    for i := 0 to |p.p5.cards|
      invariant AllIn(refs, clauses) <==> AllIn(sets, clauses) && forall k | 0 <= k < i :: Cited(p.p5.cards[k].whyClause, clauses)
    {
      refs := AddReference(refs, p.p5.cards[i].whyClause, clauses);
    }
    return Some(refs);
  }

  /** The form definition's clause, then the subject rules'. */
  method SubjectReferences(definition: string, rules: seq<string>, ghost p6: LegalClauses) returns (refs: seq<string>)
    ensures AllIn(refs, p6) <==> Cited(definition, p6) && forall c | c in rules :: Cited(c, p6)
  {
    refs := if definition != "" then [definition] else [];
    for i := 0 to |rules|
      invariant AllIn(refs, p6) <==> Cited(definition, p6) && forall k | 0 <= k < i :: Cited(rules[k], p6)
    {
      refs := AddReference(refs, rules[i], p6);
    }
  }

  predicate AllIn(refs: seq<string>, p6: LegalClauses) { forall r | r in refs :: r in p6.clauses }

  method AddReference(refs: seq<string>, clause: string, ghost p6: LegalClauses) returns (more: seq<string>)
    ensures more == if clause != "" then refs + [clause] else refs
    ensures AllIn(more, p6) <==> AllIn(refs, p6) && Cited(clause, p6)
  {
    more := if clause != "" then refs + [clause] else refs;
    assert forall r | r in refs :: r in more;
    assert clause != "" ==> clause in more;
  }

  method CheckTemplates(p: Packs) returns (ok: bool)
    ensures ok <==> forall t | t in p.p4.templates :: TemplateOk(t, p.p5.cards)
  {
    for i := 0 to |p.p4.templates|
      invariant forall k | 0 <= k < i :: TemplateOk(p.p4.templates[k], p.p5.cards)
    {
      var t := p.p4.templates[i];
      for j := 0 to |t.steps|
        invariant forall k | 0 <= k < j :: StepOk(t.steps[k], p.p5.cards)
      {
        if !StepOk(t.steps[j], p.p5.cards) {
          assert t.steps[j] in t.steps && t in p.p4.templates;
          return false;
        }
      }
    }
    return true;
  }

  /** Accepts a snapshot's packs exactly when every rule holds. */
  method ValidateSnapshot(p: Packs, version: nat) returns (ok: bool)
    ensures ok <==> Valid(p, version)
    ensures ok <==> Coherent(p, version)
  {
    ValidExactly(p, version);
    var cardsOk := CheckCards(p.p5.cards);
    if !cardsOk { return false; }
    var referenced := CollectReferences(p);
    if referenced.None? { return false; }
    if !AllIn(referenced.value, p.p6) { return false; }
    var templatesOk := CheckTemplates(p);
    if !templatesOk { return false; }
    if version >= 2 {
      for i := 0 to |ROADMAPS|
        invariant forall k | 0 <= k < i :: HasRoadmap(ROADMAPS[k], p.p4)
      {
        if !HasRoadmap(ROADMAPS[i], p.p4) { assert ROADMAPS[i] in ROADMAPS; return false; }
      }
      if p.p5.requiredFacts == [] { return false; }
      if !exists c | c in p.p5.cards :: c.required { return false; }
      if Published(p.p3) && p.p3.sets == [] { return false; }
    }
    return true;
  }
}
