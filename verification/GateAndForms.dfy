/** The D3 gate, the fact log's conflict rule, and the form drafts built from the log. */
module GateAndForms {
  import opened Entities
  import opened Keyed

  datatype MaterialStatus = CardPending | CardUploaded | CardValid | CardInvalid | CardWaived

  datatype Card = Card(materialId: string, required: bool, status: MaterialStatus)

  function CardId(c: Card): string { c.materialId }

  // ------------------------------------------------------------------ the gate

  datatype Gap =
    | OpenBlocks(ids: seq<string>)
    | AlertsUndispatched(ids: seq<string>)
    | FindingsNeedHuman(ids: seq<string>)
    | FactsMissing(keys: seq<string>)
    | FactsConflicting(conflicting: set<string>)
    | MaterialsUnvalidated(ids: seq<string>)

  predicate Undispatched(f: Finding) { f.alert.Some? && f.alert.value.chosen.None? }

  predicate BlocksGate(f: Finding) {
    && f.active
    && !f.status.Resolved? && !f.status.Waived? && !f.status.Rejected?
    && (f.severity.Block? || f.severity.NeedsHuman? || Undispatched(f))
  }

  predicate OpenBlock(f: Finding) { f.severity.Block? && BlocksGate(f) }
  predicate OpenAlert(f: Finding) { Undispatched(f) && BlocksGate(f) }
  predicate OpenHuman(f: Finding) { f.severity.NeedsHuman? && BlocksGate(f) }
  predicate Unvalidated(c: Card) { c.required && !c.status.CardValid? && !c.status.CardWaived? }

  function IdOfFinding(f: Finding): string { f.findingId }

  function Usable(facts: seq<Fact>): set<string> {
    set f | f in facts && (f.status.FactConfirmed? || f.status.FactDeferred?) :: f.key
  }

  function Missing(required: seq<string>, facts: seq<Fact>): seq<string> {
    var usable := Usable(facts);
    Filter(required, k => k !in usable)
  }

  function Conflicted(facts: seq<Fact>): set<string> { set f | f in facts && f.status.FactConflict? :: f.key }

  /** The gap report: an empty one opens the gate. */
  function EvaluateGate(findings: seq<Finding>, facts: seq<Fact>, cards: seq<Card>, required: seq<string>): seq<Gap> {
    var blocks, alerts := Filter(findings, OpenBlock), Filter(findings, OpenAlert);
    var humans, missing := Filter(findings, OpenHuman), Missing(required, facts);
    var conflicted, unvalidated := Conflicted(facts), Filter(cards, Unvalidated);
    (if blocks == [] then [] else [OpenBlocks(Map(blocks, IdOfFinding))]) +
    (if alerts == [] then [] else [AlertsUndispatched(Map(alerts, IdOfFinding))]) +
    (if humans == [] then [] else [FindingsNeedHuman(Map(humans, IdOfFinding))]) +
    (if missing == [] then [] else [FactsMissing(missing)]) +
    (if conflicted == {} then [] else [FactsConflicting(conflicted)]) +
    (if unvalidated == [] then [] else [MaterialsUnvalidated(Map(unvalidated, CardId))])
  }

  /** Serious enough to hold the gate: by severity, or as an alert nobody has chosen an option for. */
  predicate Weighs(f: Finding) {
    f.severity == Block || f.severity == NeedsHuman || (f.alert.Some? && f.alert.value.chosen == None)
  }

  /** The creator's decisions that let the gate go; accepting is not one of them. */
  predicate Released(f: Finding) { f.status == Resolved || f.status == Waived || f.status == Rejected }

  /** What an empty report means, finding by finding, key by key and card by card. */
  ghost predicate GateOpen(findings: seq<Finding>, facts: seq<Fact>, cards: seq<Card>, required: seq<string>) {
    && (forall f | f in findings && f.active && Weighs(f) :: Released(f))
    && (forall k | k in required ::
          exists f | f in facts :: f.key == k && (f.status.FactConfirmed? || f.status.FactDeferred?))
    && (forall f | f in facts :: !f.status.FactConflict?)
    && (forall c | c in cards :: !c.required || c.status.CardValid? || c.status.CardWaived?)
  }

  lemma EmptyFilter<T>(s: seq<T>, keep: T -> bool)
    ensures Filter(s, keep) == [] <==> forall x | x in s :: !keep(x)
  {
    if forall x | x in s :: !keep(x) {
      if Filter(s, keep) != [] { assert Filter(s, keep)[0] in s; }
    }
  }

  lemma HeldExactly(f: Finding)
    ensures OpenBlock(f) || OpenAlert(f) || OpenHuman(f) <==> f.active && Weighs(f) && !Released(f)
  {
  }

  lemma NoneHeld(findings: seq<Finding>)
    ensures Filter(findings, OpenBlock) == [] && Filter(findings, OpenAlert) == [] && Filter(findings, OpenHuman) == [] <==>
            forall f | f in findings && f.active && Weighs(f) :: Released(f)
  {
    EmptyFilter(findings, OpenBlock);
    EmptyFilter(findings, OpenAlert);
    EmptyFilter(findings, OpenHuman);
    forall f | f in findings
      ensures OpenBlock(f) || OpenAlert(f) || OpenHuman(f) <==> f.active && Weighs(f) && !Released(f)
    {
      HeldExactly(f);
    }
  }

  lemma GateOpensExactly(findings: seq<Finding>, facts: seq<Fact>, cards: seq<Card>, required: seq<string>)
    ensures EvaluateGate(findings, facts, cards, required) == [] <==> GateOpen(findings, facts, cards, required)
  {
    NoneHeld(findings);
    EmptyFilter(cards, Unvalidated);
    var usable := Usable(facts);
    var absent := k => k !in usable;
    assert Missing(required, facts) == [] <==> forall k | k in required :: k in usable by {
      if Missing(required, facts) != [] { assert Missing(required, facts)[0] in Missing(required, facts); }
    }
    assert Conflicted(facts) == {} <==> forall f | f in facts :: !f.status.FactConflict? by {
      forall f | f in facts && f.status.FactConflict? ensures f.key in Conflicted(facts) {}
    }
    NoGaps(findings, facts, cards, required);
  }

  /** The report names this finding under a heading that holds the gate. */
  predicate NamesFinding(report: seq<Gap>, id: string) {
    exists g | g in report :: (g.OpenBlocks? || g.AlertsUndispatched? || g.FindingsNeedHuman?) && id in g.ids
  }

  predicate NamesCard(report: seq<Gap>, id: string) { exists g | g in report :: g.MaterialsUnvalidated? && id in g.ids }

  lemma {:induction false} MapHas<T, U>(s: seq<T>, f: T -> U, y: U)
    ensures y in Map(s, f) <==> exists x :: x in s && f(x) == y
  {
    if y in Map(s, f) {
      var i :| 0 <= i < |Map(s, f)| && Map(s, f)[i] == y;
      assert s[i] in s && f(s[i]) == y;
    }
    if x :| x in s && f(x) == y {
      var i :| 0 <= i < |s| && s[i] == x;
      assert Map(s, f)[i] == y;
    }
  }

  lemma GapOf(findings: seq<Finding>, facts: seq<Fact>, cards: seq<Card>, required: seq<string>, g: Gap)
    ensures g in EvaluateGate(findings, facts, cards, required) <==>
            match g
            case OpenBlocks(ids) => ids != [] && ids == Map(Filter(findings, OpenBlock), IdOfFinding)
            case AlertsUndispatched(ids) => ids != [] && ids == Map(Filter(findings, OpenAlert), IdOfFinding)
            case FindingsNeedHuman(ids) => ids != [] && ids == Map(Filter(findings, OpenHuman), IdOfFinding)
            case FactsMissing(keys) => keys != [] && keys == Missing(required, facts)
            case FactsConflicting(conflicting) => conflicting != {} && conflicting == Conflicted(facts)
            case MaterialsUnvalidated(ids) => ids != [] && ids == Map(Filter(cards, Unvalidated), CardId)
  {
  }

  /** A finding is named exactly when it is active, weighs on the gate, and was not released. */
  lemma ReportNamesFinding(findings: seq<Finding>, facts: seq<Fact>, cards: seq<Card>, required: seq<string>, id: string)
    ensures NamesFinding(EvaluateGate(findings, facts, cards, required), id) <==>
            exists f :: f in findings && f.findingId == id && f.active && Weighs(f) && !Released(f)
  {
    var report := EvaluateGate(findings, facts, cards, required);
    MapHas(Filter(findings, OpenBlock), IdOfFinding, id);
    MapHas(Filter(findings, OpenAlert), IdOfFinding, id);
    MapHas(Filter(findings, OpenHuman), IdOfFinding, id);
    if NamesFinding(report, id) {
      var g :| g in report && (g.OpenBlocks? || g.AlertsUndispatched? || g.FindingsNeedHuman?) && id in g.ids;
      GapOf(findings, facts, cards, required, g);
      var f :| f in findings && f.findingId == id && (OpenBlock(f) || OpenAlert(f) || OpenHuman(f));
      HeldExactly(f);
    }
    if f :| f in findings && f.findingId == id && f.active && Weighs(f) && !Released(f) {
      HeldExactly(f);
      var g := if OpenBlock(f) then OpenBlocks(Map(Filter(findings, OpenBlock), IdOfFinding))
               else if OpenAlert(f) then AlertsUndispatched(Map(Filter(findings, OpenAlert), IdOfFinding))
               else FindingsNeedHuman(Map(Filter(findings, OpenHuman), IdOfFinding));
      assert IdOfFinding(f) == id;
      GapOf(findings, facts, cards, required, g);
      assert g in report && id in g.ids;
    }
  }

  /** Still holding the gate. */
  predicate Holds(f: Finding) { f.active && !Released(f) }

  predicate UnderBlocks(report: seq<Gap>, id: string) { exists g | g in report :: g.OpenBlocks? && id in g.ids }

  predicate UnderAlerts(report: seq<Gap>, id: string) { exists g | g in report :: g.AlertsUndispatched? && id in g.ids }

  predicate UnderHuman(report: seq<Gap>, id: string) { exists g | g in report :: g.FindingsNeedHuman? && id in g.ids }

  lemma NamedUnder(findings: seq<Finding>, keep: Finding -> bool, id: string)
    ensures id in Map(Filter(findings, keep), IdOfFinding) <==> exists f :: f in findings && f.findingId == id && keep(f)
  {
    MapHas(Filter(findings, keep), IdOfFinding, id);
    if f :| f in findings && f.findingId == id && keep(f) { assert f in Filter(findings, keep) && IdOfFinding(f) == id; }
  }

  lemma BlocksListed(findings: seq<Finding>, facts: seq<Fact>, cards: seq<Card>, required: seq<string>, id: string)
    ensures UnderBlocks(EvaluateGate(findings, facts, cards, required), id) <==> id in Map(Filter(findings, OpenBlock), IdOfFinding)
  {
    var report := EvaluateGate(findings, facts, cards, required);
    var g := OpenBlocks(Map(Filter(findings, OpenBlock), IdOfFinding));
    if id in g.ids {
      GapOf(findings, facts, cards, required, g);
      assert g in report;
    }
    if h :| h in report && h.OpenBlocks? && id in h.ids { GapOf(findings, facts, cards, required, h); }
  }

  lemma BlocksHeading(findings: seq<Finding>, facts: seq<Fact>, cards: seq<Card>, required: seq<string>, id: string)
    ensures UnderBlocks(EvaluateGate(findings, facts, cards, required), id) <==>
            exists f :: f in findings && f.findingId == id && Holds(f) && f.severity == Block
  {
    BlocksListed(findings, facts, cards, required, id);
    NamedUnder(findings, OpenBlock, id);
    forall f | f in findings ensures OpenBlock(f) <==> Holds(f) && f.severity == Block {}
  }

  lemma AlertsListed(findings: seq<Finding>, facts: seq<Fact>, cards: seq<Card>, required: seq<string>, id: string)
    ensures UnderAlerts(EvaluateGate(findings, facts, cards, required), id) <==> id in Map(Filter(findings, OpenAlert), IdOfFinding)
  {
    var report := EvaluateGate(findings, facts, cards, required);
    var g := AlertsUndispatched(Map(Filter(findings, OpenAlert), IdOfFinding));
    if id in g.ids {
      GapOf(findings, facts, cards, required, g);
      assert g in report;
    }
    if h :| h in report && h.AlertsUndispatched? && id in h.ids { GapOf(findings, facts, cards, required, h); }
  }

  lemma AlertsHeading(findings: seq<Finding>, facts: seq<Fact>, cards: seq<Card>, required: seq<string>, id: string)
    ensures UnderAlerts(EvaluateGate(findings, facts, cards, required), id) <==>
            exists f :: f in findings && f.findingId == id && Holds(f) && f.alert.Some? && f.alert.value.chosen == None
  {
    AlertsListed(findings, facts, cards, required, id);
    NamedUnder(findings, OpenAlert, id);
    forall f | f in findings ensures OpenAlert(f) <==> Holds(f) && f.alert.Some? && f.alert.value.chosen == None {}
  }

  lemma HumanListed(findings: seq<Finding>, facts: seq<Fact>, cards: seq<Card>, required: seq<string>, id: string)
    ensures UnderHuman(EvaluateGate(findings, facts, cards, required), id) <==> id in Map(Filter(findings, OpenHuman), IdOfFinding)
  {
    var report := EvaluateGate(findings, facts, cards, required);
    var g := FindingsNeedHuman(Map(Filter(findings, OpenHuman), IdOfFinding));
    if id in g.ids {
      GapOf(findings, facts, cards, required, g);
      assert g in report;
    }
    if h :| h in report && h.FindingsNeedHuman? && id in h.ids { GapOf(findings, facts, cards, required, h); }
  }

  lemma HumanHeading(findings: seq<Finding>, facts: seq<Fact>, cards: seq<Card>, required: seq<string>, id: string)
    ensures UnderHuman(EvaluateGate(findings, facts, cards, required), id) <==>
            exists f :: f in findings && f.findingId == id && Holds(f) && f.severity == NeedsHuman
  {
    HumanListed(findings, facts, cards, required, id);
    NamedUnder(findings, OpenHuman, id);
    forall f | f in findings ensures OpenHuman(f) <==> Holds(f) && f.severity == NeedsHuman {}
  }

  /** Under which heading: blocks, alerts without a choice, findings that need a human; one finding may stand under two. */
  lemma ReportHeadings(findings: seq<Finding>, facts: seq<Fact>, cards: seq<Card>, required: seq<string>, id: string)
    ensures var report := EvaluateGate(findings, facts, cards, required);
            && (UnderBlocks(report, id) <==> exists f :: f in findings && f.findingId == id && Holds(f) && f.severity == Block)
            && (UnderHuman(report, id) <==> exists f :: f in findings && f.findingId == id && Holds(f) && f.severity == NeedsHuman)
            && (UnderAlerts(report, id) <==>
                  exists f :: f in findings && f.findingId == id && Holds(f) && f.alert.Some? && f.alert.value.chosen == None)
  {
    BlocksHeading(findings, facts, cards, required, id);
    AlertsHeading(findings, facts, cards, required, id);
    HumanHeading(findings, facts, cards, required, id);
  }

  /** A card is named exactly when it is required and neither validated nor waived. */
  lemma ReportNamesCard(findings: seq<Finding>, facts: seq<Fact>, cards: seq<Card>, required: seq<string>, id: string)
    ensures NamesCard(EvaluateGate(findings, facts, cards, required), id) <==>
            exists c :: c in cards && c.materialId == id && c.required && c.status != CardValid && c.status != CardWaived
  {
    var report := EvaluateGate(findings, facts, cards, required);
    var held := MaterialsUnvalidated(Map(Filter(cards, Unvalidated), CardId));
    MapHas(Filter(cards, Unvalidated), CardId, id);
    GapOf(findings, facts, cards, required, held);
    if NamesCard(report, id) {
      var g :| g in report && g.MaterialsUnvalidated? && id in g.ids;
      GapOf(findings, facts, cards, required, g);
    }
    if c :| c in cards && c.materialId == id && c.required && c.status != CardValid && c.status != CardWaived {
      assert Unvalidated(c) && CardId(c) == id;
      assert held in report && id in held.ids;
    }
  }

  predicate NamesMissing(report: seq<Gap>, key: string) { exists g | g in report :: g.FactsMissing? && key in g.keys }

  predicate NamesConflict(report: seq<Gap>, key: string) {
    exists g | g in report :: g.FactsConflicting? && key in g.conflicting
  }

  /** The facts headings: a required key nobody confirmed or deferred, and every key with a conflict. */
  lemma ReportNamesKeys(findings: seq<Finding>, facts: seq<Fact>, cards: seq<Card>, required: seq<string>, key: string)
    ensures NamesMissing(EvaluateGate(findings, facts, cards, required), key) <==>
            key in required && forall f | f in facts && f.key == key :: f.status == FactConflict
    ensures NamesConflict(EvaluateGate(findings, facts, cards, required), key) <==>
            exists f :: f in facts && f.key == key && f.status == FactConflict
  {
    var report := EvaluateGate(findings, facts, cards, required);
    var missing, conflicting := FactsMissing(Missing(required, facts)), FactsConflicting(Conflicted(facts));
    GapOf(findings, facts, cards, required, missing);
    GapOf(findings, facts, cards, required, conflicting);
    MissingKeys(required, facts, key);
    ConflictedKeys(facts, key);
    if g :| g in report && g.FactsMissing? && key in g.keys { GapOf(findings, facts, cards, required, g); }
    if g :| g in report && g.FactsConflicting? && key in g.conflicting { GapOf(findings, facts, cards, required, g); }
    if key in missing.keys { assert missing in report; }
    if key in conflicting.conflicting { assert conflicting in report; }
  }

  lemma ConflictedKeys(facts: seq<Fact>, key: string)
    ensures key in Conflicted(facts) <==> exists f :: f in facts && f.key == key && f.status == FactConflict
  {
  }

  lemma MissingKeys(required: seq<string>, facts: seq<Fact>, key: string)
    ensures key in Missing(required, facts) <==> key in required && forall f | f in facts && f.key == key :: f.status == FactConflict
  {
    assert key in Usable(facts) <==> exists f :: f in facts && f.key == key && (f.status.FactConfirmed? || f.status.FactDeferred?);
  }

  lemma NoGaps(findings: seq<Finding>, facts: seq<Fact>, cards: seq<Card>, required: seq<string>)
    ensures EvaluateGate(findings, facts, cards, required) == [] <==>
            && Filter(findings, OpenBlock) == [] && Filter(findings, OpenAlert) == []
            && Filter(findings, OpenHuman) == [] && Missing(required, facts) == []
            && Conflicted(facts) == {} && Filter(cards, Unvalidated) == []
  {
  }

  // ------------------------------------------------------------------ the form

  function Pick(key: string, status: FactStatus): Fact -> bool { (f: Fact) => f.key == key && f.status == status }

  function Chosen(facts: seq<Fact>, key: string, status: FactStatus): seq<Fact> { Filter(facts, Pick(key, status)) }

  /** One field: a conflict hides every value, else the latest confirmed fact, else a declared gap. */
  function FieldFor(key: string, facts: seq<Fact>): FormField {
    var confirmed, deferred := Chosen(facts, key, FactConfirmed), Chosen(facts, key, FactDeferred);
    if Chosen(facts, key, FactConflict) != [] then FormField(None, None, Conflicting)
    else if confirmed != [] then
      FormField(confirmed[|confirmed| - 1].value, Some(confirmed[|confirmed| - 1].source), Filled)
    else if deferred != [] then FormField(None, Some(deferred[|deferred| - 1].source), PendingInstitution)
    else FormField(None, None, Pending)
  }

  predicate Blank(v: Option<Value>) { v.None? || v.value == Text("") }

  /** The model layer refuses a filled field without a value. */
  predicate FieldValid(f: FormField) { f.status.Filled? ==> !Blank(f.value) && f.source.Some? }

  function Fields(keys: seq<string>, facts: seq<Fact>): map<string, FormField> {
    map k | k in keys :: FieldFor(k, facts)
  }

  predicate Buildable(keys: seq<string>, facts: seq<Fact>) { forall k | k in keys :: FieldValid(FieldFor(k, facts)) }

  /** The keys whose field is in conflict, in form order. */
  function ConflictKeys(keys: seq<string>, facts: seq<Fact>): seq<string> {
    if keys == [] then []
    else
      var n := |keys| - 1;
      ConflictKeys(keys[..n], facts) + (if FieldFor(keys[n], facts).status.Conflicting? then [keys[n]] else [])
  }

  predicate Outstanding(f: FormField) { !f.status.Filled? && !f.status.PendingInstitution? }

  function PendingKeys(fields: map<string, FormField>): set<string> {
    set k | k in fields && Outstanding(fields[k])
  }

  function ByKey(key: string): Fact -> bool { (f: Fact) => f.key == key }

  function HasStatus(status: FactStatus): Fact -> bool { (f: Fact) => f.status == status }

  lemma {:induction false} PickTwice(facts: seq<Fact>, key: string, status: FactStatus)
    ensures Filter(Filter(facts, ByKey(key)), HasStatus(status)) == Chosen(facts, key, status)
  {
    if facts != [] {
      var n := |facts| - 1;
      var r, x := facts[..n], facts[n];
      PickTwice(r, key, status);
      assert facts == r + [x];
      FilterSnoc(r, x, ByKey(key));
      FilterSnoc(r, x, Pick(key, status));
      var kept := Filter(r, ByKey(key));
      if x.key == key {
        assert Filter(facts, ByKey(key)) == kept + [x];
        FilterSnoc(kept, x, HasStatus(status));
      } else {
        assert Filter(facts, ByKey(key)) == kept;
      }
    }
  }

  function Candidates(byKey: map<string, seq<Fact>>, k: string): seq<Fact> {
    if k in byKey then byKey[k] else []
  }

  method GroupByKey(facts: seq<Fact>) returns (byKey: map<string, seq<Fact>>)
    ensures forall k :: Candidates(byKey, k) == Filter(facts, ByKey(k))
  {
    byKey := map[];
    for i := 0 to |facts|
      invariant forall k :: Candidates(byKey, k) == Filter(facts[..i], ByKey(k))
    {
      var k := facts[i].key;
      assert facts[..i + 1] == facts[..i] + [facts[i]];
      forall q ensures Filter(facts[..i + 1], ByKey(q)) ==
                       Filter(facts[..i], ByKey(q)) + (if q == k then [facts[i]] else [])
      {
        FilterSnoc(facts[..i], facts[i], ByKey(q));
      }
      byKey := byKey[k := Candidates(byKey, k) + [facts[i]]];
    }
    assert facts[..|facts|] == facts;
  }

  /** The field for one key from that key's facts; None when the model refuses it. */
  method FieldFrom(key: string, candidates: seq<Fact>, ghost facts: seq<Fact>) returns (field: Option<FormField>)
    requires candidates == Filter(facts, ByKey(key))
    ensures field == if FieldValid(FieldFor(key, facts)) then Some(FieldFor(key, facts)) else None
  {
    PickTwice(facts, key, FactConflict);
    PickTwice(facts, key, FactConfirmed);
    PickTwice(facts, key, FactDeferred);
    var conflicting := Filter(candidates, HasStatus(FactConflict));
    var confirmed := Filter(candidates, HasStatus(FactConfirmed));
    if conflicting != [] { return Some(FormField(None, None, Conflicting)); }
    if confirmed != [] {
      var latest := confirmed[|confirmed| - 1];
      if Blank(latest.value) { return None; }
      return Some(FormField(latest.value, Some(latest.source), Filled));
    }
    var deferred := Filter(candidates, HasStatus(FactDeferred));
    if deferred != [] { return Some(FormField(None, Some(deferred[|deferred| - 1].source), PendingInstitution)); }
    return Some(FormField(None, None, Pending));
  }

  lemma FieldsSnoc(keys: seq<string>, key: string, facts: seq<Fact>)
    ensures Fields(keys + [key], facts) == Fields(keys, facts)[key := FieldFor(key, facts)]
    ensures ConflictKeys(keys + [key], facts) ==
            ConflictKeys(keys, facts) + (if FieldFor(key, facts).status.Conflicting? then [key] else [])
  {
    assert (keys + [key])[..|keys|] == keys;
  }

  /** Group the facts by key, then make one field per key, or raise on the first the model refuses. */
  method MakeFields(keys: seq<string>, facts: seq<Fact>) returns (made: Option<seq<FormField>>)
    ensures made.Some? <==> Buildable(keys, facts)
    ensures made.Some? ==> |made.value| == |keys| && forall i | 0 <= i < |keys| :: made.value[i] == FieldFor(keys[i], facts)
  {
    var byKey := GroupByKey(facts);
    var fields := [];
    for i := 0 to |keys|
      invariant |fields| == i
      invariant forall j | 0 <= j < i :: fields[j] == FieldFor(keys[j], facts) && FieldValid(fields[j])
    {
      var field := FieldFrom(keys[i], Candidates(byKey, keys[i]), facts);
      if field.None? { assert keys[i] in keys; return None; }
      fields := fields + [field.value];
    }
    return Some(fields);
  }

  method BuildFields(keys: seq<string>, facts: seq<Fact>)
    returns (built: Option<(map<string, FormField>, seq<string>)>)
    ensures built.Some? <==> Buildable(keys, facts)
    ensures built.Some? ==> built.value.0 == Fields(keys, facts)
    ensures built.Some? ==> built.value.1 == ConflictKeys(keys, facts)
  {
    var made := MakeFields(keys, facts);
    if made.None? { return None; }
    var fields: map<string, FormField>, conflicts := map[], [];
    for i := 0 to |keys|
      invariant fields == Fields(keys[..i], facts)
      invariant conflicts == ConflictKeys(keys[..i], facts)
    {
      assert keys[..i + 1] == keys[..i] + [keys[i]];
      FieldsSnoc(keys[..i], keys[i], facts);
      if made.value[i].status.Conflicting? { conflicts := conflicts + [keys[i]]; }
      fields := fields[keys[i] := made.value[i]];
    }
    assert keys[..|keys|] == keys;
    return Some((fields, conflicts));
  }

  // --------------------------------------------------- the gate and the form agree

  lemma ChosenExists(facts: seq<Fact>, key: string, status: FactStatus)
    ensures Chosen(facts, key, status) != [] <==> exists f | f in facts :: f.key == key && f.status == status
  {
    EmptyFilter(facts, Pick(key, status));
  }

  /**
   The built draft has nothing outstanding exactly when no required fact is
   missing and no required key is in conflict, so a passed gate never meets an
   outstanding draft.
   */
  lemma GateAndFormAgree(required: seq<string>, facts: seq<Fact>)
    ensures PendingKeys(Fields(required, facts)) == {} <==>
            && Missing(required, facts) == []
            && forall k | k in required :: k !in Conflicted(facts)
  {
    var usable := Usable(facts);
    forall k | k in required
      ensures Outstanding(FieldFor(k, facts)) <==> k !in usable || k in Conflicted(facts)
    {
      ChosenExists(facts, k, FactConflict);
      ChosenExists(facts, k, FactConfirmed);
      ChosenExists(facts, k, FactDeferred);
    }
    if PendingKeys(Fields(required, facts)) == {} {
      forall k | k in required ensures !Outstanding(FieldFor(k, facts)) {
        assert k in Fields(required, facts);
        assert k !in PendingKeys(Fields(required, facts));
      }
    }
    if Missing(required, facts) != [] { assert Missing(required, facts)[0] in required; }
  }

  /** A draft can be built at all exactly when no unconflicted key's latest confirmed value is blank. */
  lemma BuildableExactly(required: seq<string>, facts: seq<Fact>)
    requires forall f | f in facts && f.status.FactConfirmed? :: f.value.Some?
    ensures Buildable(required, facts) <==>
            forall k | k in required && Chosen(facts, k, FactConflict) == [] && Chosen(facts, k, FactConfirmed) != [] ::
              var c := Chosen(facts, k, FactConfirmed); c[|c| - 1].value != Some(Text(""))
  {
    forall k | k in required && Chosen(facts, k, FactConfirmed) != []
      ensures var c := Chosen(facts, k, FactConfirmed); c[|c| - 1] in facts && c[|c| - 1].status.FactConfirmed?
    {
      var c := Chosen(facts, k, FactConfirmed);
      assert c[|c| - 1] in c && Pick(k, FactConfirmed)(c[|c| - 1]);
    }
  }

  /** A log the gate accepts and the form builder refuses: one confirmed empty text. */
  lemma GatePassesButFormRaises()
    ensures var facts := [Fact("f", "title", Some(Text("")), SourceRef(FromAnswer, "a", None), FactConfirmed, None)];
            EvaluateGate([], facts, [], ["title"]) == [] && !Buildable(["title"], facts)
  {
    var f := Fact("f", "title", Some(Text("")), SourceRef(FromAnswer, "a", None), FactConfirmed, None);
    OneFactOpens(f);
    BlankIsRefused(f);
  }

  lemma OneFactOpens(f: Fact)
    requires f.status.FactConfirmed?
    ensures EvaluateGate([], [f], [], [f.key]) == []
  {
    assert f in [f];
    GateOpensExactly([], [f], [], [f.key]);
  }

  lemma BlankIsRefused(f: Fact)
    requires f.status.FactConfirmed? && f.value == Some(Text(""))
    ensures !Buildable([f.key], [f])
  {
    assert [f] == [] + [f];
    FilterSnoc([], f, Pick(f.key, FactConfirmed));
    FilterSnoc([], f, Pick(f.key, FactConflict));
    assert Chosen([f], f.key, FactConfirmed) == [f] && Chosen([f], f.key, FactConflict) == [];
    assert f.key in [f.key];
  }

  // ------------------------------------------------------------- the fact log

  function LatestByKey(facts: seq<Fact>, key: string): Option<Fact> {
    if facts == [] then None
    else if facts[|facts| - 1].key == key then Some(facts[|facts| - 1])
    else LatestByKey(facts[..|facts| - 1], key)
  }

  /** Same value: nothing stored. After an asset's fact: stored as a conflict with it. */
  function UpsertFact(facts: seq<Fact>, id: string, key: string, value: Value, source: SourceRef): seq<Fact> {
    match LatestByKey(facts, key)
    case None => facts + [Fact(id, key, Some(value), source, FactConfirmed, None)]
    case Some(e) =>
      if e.value == Some(value) then facts
      else if e.source.kind.FromAsset? then facts + [Fact(id, key, Some(value), source, FactConflict, Some(e.factId))]
      else facts + [Fact(id, key, Some(value), source, FactConfirmed, None)]
  }

  predicate CanDefer(facts: seq<Fact>, key: string) {
    var e := LatestByKey(facts, key); e.None? || !e.value.status.FactConfirmed?
  }

  function DeferFact(facts: seq<Fact>, id: string, key: string, source: SourceRef): seq<Fact> {
    facts + [Fact(id, key, None, source, FactDeferred, None)]
  }

  ghost predicate HasConflict(facts: seq<Fact>, key: string) {
    exists f | f in facts :: f.key == key && f.status.FactConflict?
  }

  /** Anything stored after an asset's fact on the same key leaves a conflict on record. */
  ghost predicate AssetRule(facts: seq<Fact>) {
    && (forall i, j | 0 <= i < j < |facts| && facts[i].key == facts[j].key && facts[i].source.kind.FromAsset? ::
          HasConflict(facts, facts[i].key))
    && (forall f | f in facts && f.source.kind.FromAsset? :: !f.status.FactDeferred?)
    && (forall f | f in facts && f.status.FactConfirmed? :: !Blank(f.value))
  }

  lemma {:induction false} LatestIs(facts: seq<Fact>, key: string) returns (at: nat)
    ensures LatestByKey(facts, key).Some? ==>
              at < |facts| && facts[at] == LatestByKey(facts, key).value && facts[at].key == key
              && forall j | at < j < |facts| :: facts[j].key != key
    ensures LatestByKey(facts, key).None? ==> forall j | 0 <= j < |facts| :: facts[j].key != key
  {
    if facts == [] { return 0; }
    var n := |facts| - 1;
    if facts[n].key == key { return n; }
    at := LatestIs(facts[..n], key);
    assert forall j | 0 <= j < n :: facts[..n][j] == facts[j];
  }

  lemma AppendKeepsRule(facts: seq<Fact>, f: Fact)
    requires AssetRule(facts)
    requires f.source.kind.FromAsset? ==> !f.status.FactDeferred?
    requires f.status.FactConfirmed? ==> !Blank(f.value)
    requires forall i | 0 <= i < |facts| && facts[i].key == f.key && facts[i].source.kind.FromAsset? ::
               HasConflict(facts + [f], f.key)
    ensures AssetRule(facts + [f])
  {
    var after := facts + [f];
    forall k | HasConflict(facts, k) ensures HasConflict(after, k) {
      var g :| g in facts && g.key == k && g.status.FactConflict?;
      assert g in after;
    }
  }

  lemma UpsertKeepsRule(facts: seq<Fact>, id: string, key: string, value: Value, source: SourceRef)
    requires AssetRule(facts) && value != Text("")
    ensures AssetRule(UpsertFact(facts, id, key, value, source))
  {
    var at := LatestIs(facts, key);
    var after := UpsertFact(facts, id, key, value, source);
    if after != facts {
      var f := after[|facts|];
      forall i | 0 <= i < |facts| && facts[i].key == key && facts[i].source.kind.FromAsset?
        ensures HasConflict(after, key)
      {
        if i < at {
          var g :| g in facts && g.key == key && g.status.FactConflict?;
          assert g in after;
        } else {
          assert f in after && f.status.FactConflict?;
        }
      }
      AppendKeepsRule(facts, f);
    }
  }

  lemma DeferKeepsRule(facts: seq<Fact>, id: string, key: string, source: SourceRef)
    requires AssetRule(facts) && CanDefer(facts, key) && !source.kind.FromAsset?
    ensures AssetRule(DeferFact(facts, id, key, source))
  {
    var at := LatestIs(facts, key);
    var after := DeferFact(facts, id, key, source);
    forall i | 0 <= i < |facts| && facts[i].key == key && facts[i].source.kind.FromAsset?
      ensures HasConflict(after, key)
    {
      if i < at {
        var g :| g in facts && g.key == key && g.status.FactConflict?;
        assert g in after;
      } else {
        assert facts[at] in after && facts[at].status.FactConflict?;
      }
    }
    AppendKeepsRule(facts, after[|facts|]);
  }

  lemma {:induction false} LastChosen(facts: seq<Fact>, key: string, status: FactStatus, at: nat)
    requires at < |facts| && facts[at].key == key && facts[at].status == status
    requires forall j | at < j < |facts| :: facts[j].key != key
    ensures var c := Chosen(facts, key, status); c != [] && c[|c| - 1] == facts[at]
  {
    if at < |facts| - 1 { LastChosen(facts[..|facts| - 1], key, status, at); }
  }

  /**
   Asset precedence. Whenever the gate is open, every required key an asset backs
   is rendered with that asset's own value and source.
   */
  lemma AssetValueIsRendered(findings: seq<Finding>, facts: seq<Fact>, cards: seq<Card>, required: seq<string>, at: nat)
    requires AssetRule(facts)
    requires EvaluateGate(findings, facts, cards, required) == []
    requires at < |facts| && facts[at].source.kind.FromAsset? && facts[at].key in required
    ensures FieldFor(facts[at].key, facts) == FormField(facts[at].value, Some(facts[at].source), Filled)
    ensures Buildable(required, facts)
  {
    NoConflicts(findings, facts, cards, required);
    AssetRendered(facts, at);
    BuildableUnderRule(required, facts);
  }

  lemma AssetRendered(facts: seq<Fact>, at: nat)
    requires AssetRule(facts) && forall f | f in facts :: !f.status.FactConflict?
    requires at < |facts| && facts[at].source.kind.FromAsset?
    ensures FieldFor(facts[at].key, facts) == FormField(facts[at].value, Some(facts[at].source), Filled)
  {
    AssetIsLast(facts, at);
    ChosenExists(facts, facts[at].key, FactConflict);
    LastChosen(facts, facts[at].key, FactConfirmed, at);
  }

  lemma NoConflicts(findings: seq<Finding>, facts: seq<Fact>, cards: seq<Card>, required: seq<string>)
    requires EvaluateGate(findings, facts, cards, required) == []
    ensures forall f | f in facts :: !f.status.FactConflict?
  {
    GateOpensExactly(findings, facts, cards, required);
  }

  lemma AssetIsLast(facts: seq<Fact>, at: nat)
    requires AssetRule(facts) && forall f | f in facts :: !f.status.FactConflict?
    requires at < |facts| && facts[at].source.kind.FromAsset?
    ensures facts[at].status.FactConfirmed?
    ensures forall j | at < j < |facts| :: facts[j].key != facts[at].key
  {
    assert facts[at] in facts;
    assert !HasConflict(facts, facts[at].key);
  }

  lemma BuildableUnderRule(required: seq<string>, facts: seq<Fact>)
    requires AssetRule(facts)
    ensures Buildable(required, facts)
  {
    forall k | k in required ensures FieldValid(FieldFor(k, facts)) {
      var c := Chosen(facts, k, FactConfirmed);
      if c != [] { assert c[|c| - 1] in c && Pick(k, FactConfirmed)(c[|c| - 1]); }
    }
  }
}
