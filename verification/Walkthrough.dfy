/**
 A run that gets a project filed under any policy: what is asked is answered, the
 cards are waived, and the histories proved of filed projects are not empty talk.
 */
module Walkthrough {
  import opened Entities
  import opened Keyed
  import opened GateAndForms
  import opened Workflow
  import opened WorkflowRuns
  import opened WorkflowHistory
  import Filing
  import Findings
  import GatePassing

  // ------------------------------------------------------------- one call at a time

  /** The policy as it is read while `version` is the latest. */
  function Here(env: Env, version: string): Env { env.(latest := version, now := 0) }

  /** One more legal call. */
  lemma Next(w: Workspace, cs: seq<Call>, s: Step, env: Env, version: string) returns (more: seq<Call>)
    requires LegalRun(w, cs, env) && Legal(Run(w, cs, env), s)
    ensures LegalRun(w, more, env)
    ensures Run(w, more, env) == Do(Run(w, cs, env), s, Here(env, version)).after
  {
    more := cs + [Call(s, version, 0)];
    assert more[..|cs|] == cs;
  }

  // --------------------------------------------------------------------- the facts

  const SUPPLIED := Text("supplied")

  function FactFor(key: string): FactProposal { FactProposal(key, key, SUPPLIED, SourceRef(FromAsset, "asset", None)) }

  function FactsFor(keys: seq<string>): seq<FactProposal> { Map(keys, FactFor) }

  ghost predicate AllSupplied(facts: seq<Fact>) {
    forall f | f in facts :: f.status.FactConfirmed? && f.value == Some(SUPPLIED)
  }

  ghost predicate HasKey(facts: seq<Fact>, key: string) { exists f :: f in facts && f.key == key }

  lemma SupplyOne(facts: seq<Fact>, key: string)
    requires AllSupplied(facts)
    ensures AllSupplied(Upsert(facts, FactFor(key))) && HasKey(Upsert(facts, FactFor(key)), key)
    ensures facts <= Upsert(facts, FactFor(key))
  {
    var after := Upsert(facts, FactFor(key));
    var at := LatestIs(facts, key);
    if after == facts {
      assert facts[at] in facts;
    } else {
      assert after[|facts|] in after;
    }
  }

  lemma {:induction false} SupplyAll(keys: seq<string>)
    ensures AllSupplied(UpsertAll([], FactsFor(keys)))
    ensures forall k | k in keys :: HasKey(UpsertAll([], FactsFor(keys)), k)
  {
    if keys != [] {
      var n := |keys| - 1;
      var before := UpsertAll([], FactsFor(keys[..n]));
      SupplyAll(keys[..n]);
      assert FactsFor(keys)[..n] == FactsFor(keys[..n]);
      SupplyOne(before, keys[n]);
      forall k | k in keys ensures HasKey(Upsert(before, FactFor(keys[n])), k) {
        if k != keys[n] {
          assert k in keys[..n];
          var f :| f in before && f.key == k;
          assert f in Upsert(before, FactFor(keys[n]));
        }
      }
    }
  }

  // --------------------------------------------------------------------- the cards

  predicate SameOrder(stored: seq<Card>, defined: seq<Card>) {
    |stored| == |defined| && forall i | 0 <= i < |stored| :: CardId(stored[i]) == CardId(defined[i])
  }

  lemma TakeNext(stored: seq<Card>, card: Card, n: nat)
    requires n < |stored| && CardId(stored[n]) == CardId(card)
    ensures TakeCard(Materialised(stored, stored[n..], stored[..n]), card) == Materialised(stored, stored[n + 1..], stored[..n + 1])
  {
    assert CardId(stored[n..][0]) == CardId(card);
    assert Find(stored[n..], CardId, CardId(card)) == 0;
    assert Remove(stored[n..], 0) == stored[n + 1..];
    assert stored[..n] + [stored[n]] == stored[..n + 1];
  }

  /** A store that has the pack's cards in the pack's order is read as it is. */
  lemma {:induction false} TakeInOrder(stored: seq<Card>, defined: seq<Card>, n: nat)
    requires SameOrder(stored, defined) && n <= |defined|
    ensures TakeCards(Materialised(stored, stored, []), defined[..n]) == Materialised(stored, stored[n..], stored[..n])
  {
    if n > 0 {
      TakeInOrder(stored, defined, n - 1);
      assert defined[..n][..n - 1] == defined[..n - 1];
      TakeNext(stored, defined[n - 1], n - 1);
    }
  }

  /** An empty store is filled with the pack's cards. */
  lemma {:induction false} TakeFirst(defined: seq<Card>, n: nat)
    requires Distinct(defined, CardId) && n <= |defined|
    ensures TakeCards(Materialised([], [], []), defined[..n]) == Materialised(defined[..n], [], defined[..n])
  {
    if n > 0 {
      TakeFirst(defined, n - 1);
      assert defined[..n][..n - 1] == defined[..n - 1];
      forall j | 0 <= j < n - 1 ensures CardId(defined[j]) != CardId(defined[n - 1]) {}
      FindUnique(defined[..n - 1], CardId, defined[n - 1].materialId, n - 1);
      assert defined[..n - 1] + [defined[n - 1]] == defined[..n];
    }
  }

  /** The first k of the pack's cards are waived; before the first call nothing is stored. */
  ghost predicate WaivedTo(stored: seq<Card>, defined: seq<Card>, k: nat) {
    || (k == 0 && stored == [])
    || (SameOrder(stored, defined) && forall i | 0 <= i < |stored| && i < k :: stored[i].status.CardWaived?)
  }

  lemma CardsRead(stored: seq<Card>, defined: seq<Card>, k: nat)
    requires Distinct(defined, CardId) && WaivedTo(stored, defined, k)
    ensures var m := MaterialCards(stored, defined);
            && m.stored == m.cards && SameOrder(m.cards, defined)
            && (forall i | 0 <= i < |m.cards| && i < k :: m.cards[i].status.CardWaived?)
  {
    var n := |defined|;
    assert defined[..n] == defined;
    if SameOrder(stored, defined) { TakeInOrder(stored, defined, n); } else { TakeFirst(defined, n); }
  }

  const WAIVER := Waive("not needed")

  lemma WaiveOne(w: Workspace, defined: seq<Card>, k: nat, env: Env)
    requires env.cards(Pinned(w.project, env)) == defined && Distinct(defined, CardId)
    requires WaivedTo(w.cards, defined, k) && k < |defined|
    ensures var v := TouchMaterial(w, CardId(defined[k]), WAIVER, env).after;
            WaivedTo(v.cards, defined, k + 1) && v == w.(cards := v.cards)
  {
    CardsRead(w.cards, defined, k);
    var m := ReadCards(w, env);
    forall j | 0 <= j < k ensures CardId(m.cards[j]) != CardId(defined[k]) { assert CardId(defined[j]) != CardId(defined[k]); }
    FindUnique(m.cards, CardId, CardId(defined[k]), k);
    assert Strip("not needed") != "";
  }

  // ------------------------------------------------------------------ up to the gate

  /** Nothing stored but the project, its log, and what the two parts above put there. */
  ghost predicate Plain(w: Workspace, state: ProjectState) {
    w.project.state == state && w.findings == [] && w.reviews == []
  }

  ghost predicate Classed(w: Workspace, version: string) {
    w.project.classification.Some? && w.project.classification.value.snapshotVersion == version
  }

  function Answer(version: string): Classified {
    Classified(false, Some(Classification(T3, false, version, [])), [], None, Some(CLASSIFIED))
  }

  lemma Intake(w: Workspace, env: Env)
    requires Plain(w, DRAFT)
    ensures var v := SubmitIntent(w, BelowLower, None, env).after;
            Plain(v, INTAKE_DONE) && v.facts == w.facts && v.cards == w.cards
            && v.project.roadmapConfirmed == w.project.roadmapConfirmed
  {
  }

  lemma Classify(w: Workspace, version: string, env: Env)
    requires Plain(w, INTAKE_DONE)
    ensures var v := RunClassification(w, Answer(version), None, env).after;
            Plain(v, CLASSIFIED) && Classed(v, version) && v.facts == w.facts && v.cards == w.cards
            && v.project.roadmapConfirmed == w.project.roadmapConfirmed
  {
    ClassifySettles(Recorded(w, Answer(version), None, env.now), env);
  }

  lemma ClassifySettles(w: Workspace, env: Env)
    requires w.project.state == INTAKE_DONE
    ensures var v := Settle(w, CLASSIFIED, env).after;
            && v.project.state == CLASSIFIED && v.project.classification == w.project.classification
            && v.project.roadmapConfirmed == w.project.roadmapConfirmed
            && v == w.(project := v.project, audit := v.audit)
  {
  }

  lemma Roadmap(w: Workspace, version: string, env: Env)
    requires Plain(w, CLASSIFIED) && Classed(w, version) && w.project.roadmapConfirmed.None?
    ensures var v := ConfirmRoadmap(w, env).after;
            Plain(v, COLLECTING_MATERIALS) && Classed(v, version) && v.facts == w.facts && v.cards == w.cards
  {
    Filing.RoadmapExactly(w, env);
  }

  lemma Review(w: Workspace, version: string, env: Env)
    requires Plain(w, COLLECTING_MATERIALS) && Classed(w, version)
    ensures var v := ReviewScript(w, "asset", "", [], None, NoIds, env).after;
            Plain(v, REVIEW_RUNNING) && Classed(v, version) && v.facts == w.facts && v.cards == w.cards
  {
    assert Findings.Review([], "asset", "", [], None, NoIds) == [];
  }

  function NoIds(n: nat): string { "" }

  /** What the gate asks for is there. */
  ghost predicate Supplied(w: Workspace, version: string, env: Env) {
    && AllSupplied(w.facts) && (forall k | k in env.required(version) :: HasKey(w.facts, k))
    && WaivedTo(w.cards, env.cards(version), |env.cards(version)|)
  }

  lemma Gate(w: Workspace, version: string, env: Env)
    requires Plain(w, REVIEW_RUNNING) && Classed(w, version) && Supplied(w, version, env)
    requires Distinct(env.cards(version), CardId)
    ensures PassGate(w, env).error.None?
    ensures PassGate(w, env).after.project.state == GATE_D3_PASSED && PassGate(w, env).after.reviews == []
  {
    var m := ReadCards(w, env);
    CardsRead(w.cards, env.cards(version), |env.cards(version)|);
    assert GateOpen(w.findings, w.facts, m.cards, env.required(version)) by {
      forall k | k in env.required(version)
        ensures exists f | f in w.facts :: f.key == k && (f.status.FactConfirmed? || f.status.FactDeferred?)
      {
        assert HasKey(w.facts, k);
      }
    }
    GateOpensExactly(w.findings, w.facts, m.cards, env.required(version));
    GatePassing.PassGateExactly(w, env);
    PassShape(w, env);
  }

  lemma PassShape(w: Workspace, env: Env)
    ensures PassGate(w, env).after.reviews == w.reviews
  {
  }

  /** A legal run so far, to a plain state of a project classed under `version`. */
  ghost predicate Collected(w: Workspace, cs: seq<Call>, env: Env, version: string, state: ProjectState) {
    LegalRun(w, cs, env) && Plain(Run(w, cs, env), state) && Classed(Run(w, cs, env), version)
  }

  lemma ToCollecting(w: Workspace, version: string, env: Env) returns (cs: seq<Call>)
    requires Created(w) && w.project.roadmapConfirmed.None?
    ensures Collected(w, cs, env, version, COLLECTING_MATERIALS)
    ensures Run(w, cs, env).facts == [] && Run(w, cs, env).cards == []
  {
    var here := Here(env, version);
    Intake(w, here);
    cs := Next(w, [], SubmitIntentStep(BelowLower, None), env, version);
    Classify(Run(w, cs, env), version, here);
    cs := Next(w, cs, ClassifyStep(Answer(version), None), env, version);
    Roadmap(Run(w, cs, env), version, here);
    cs := Next(w, cs, ConfirmRoadmapStep, env, version);
  }

  lemma ToSupplied(w: Workspace, before: seq<Call>, version: string, env: Env) returns (cs: seq<Call>)
    requires Collected(w, before, env, version, COLLECTING_MATERIALS) && Run(w, before, env).facts == []
    ensures Collected(w, cs, env, version, COLLECTING_MATERIALS) && Run(w, cs, env).cards == Run(w, before, env).cards
    ensures Run(w, cs, env).facts == UpsertAll([], FactsFor(env.required(version)))
  {
    cs := Next(w, before, ExtractStep(FactsFor(env.required(version))), env, version);
  }

  lemma WaiveNext(w: Workspace, before: seq<Call>, version: string, env: Env, k: nat) returns (cs: seq<Call>)
    requires Collected(w, before, env, version, COLLECTING_MATERIALS)
    requires Distinct(env.cards(version), CardId) && k < |env.cards(version)|
    requires WaivedTo(Run(w, before, env).cards, env.cards(version), k)
    ensures Collected(w, cs, env, version, COLLECTING_MATERIALS) && Run(w, cs, env).facts == Run(w, before, env).facts
    ensures WaivedTo(Run(w, cs, env).cards, env.cards(version), k + 1)
  {
    WaiveOne(Run(w, before, env), env.cards(version), k, Here(env, version));
    cs := Next(w, before, MaterialStep(CardId(env.cards(version)[k]), WAIVER), env, version);
  }

  lemma {:induction false} ToWaived(w: Workspace, before: seq<Call>, version: string, env: Env, k: nat) returns (cs: seq<Call>)
    requires Collected(w, before, env, version, COLLECTING_MATERIALS) && Run(w, before, env).cards == []
    requires Distinct(env.cards(version), CardId) && k <= |env.cards(version)|
    ensures Collected(w, cs, env, version, COLLECTING_MATERIALS) && Run(w, cs, env).facts == Run(w, before, env).facts
    ensures WaivedTo(Run(w, cs, env).cards, env.cards(version), k)
  {
    cs := before;
    if k > 0 {
      cs := ToWaived(w, before, version, env, k - 1);
      cs := WaiveNext(w, cs, version, env, k - 1);
    }
  }

  lemma ToReviewed(w: Workspace, before: seq<Call>, version: string, env: Env) returns (cs: seq<Call>)
    requires Collected(w, before, env, version, COLLECTING_MATERIALS) && Supplied(Run(w, before, env), version, env)
    ensures Collected(w, cs, env, version, REVIEW_RUNNING) && Supplied(Run(w, cs, env), version, env)
  {
    Review(Run(w, before, env), version, Here(env, version));
    cs := Next(w, before, ReviewStep("asset", "", [], None, NoIds), env, version);
  }

  // ---------------------------------------------------------------- past the gate

  ghost predicate Stands(w: Workspace, cs: seq<Call>, env: Env, state: ProjectState) {
    LegalRun(w, cs, env) && Run(w, cs, env).project.state == state
  }

  lemma ToFrozen(w: Workspace, before: seq<Call>, version: string, env: Env) returns (cs: seq<Call>)
    requires Collected(w, before, env, version, REVIEW_RUNNING) && Supplied(Run(w, before, env), version, env)
    requires Distinct(env.cards(version), CardId) && Inv(Run(w, before, env), env.digest)
    ensures Stands(w, cs, env, FORM_FROZEN) && Run(w, cs, env).reviews == []
  {
    var v, here := Run(w, before, env), Here(env, version);
    Gate(v, version, here);
    GatePassing.GateThenFreeze(v, "draft", here);
    FreezeLeavesReviews(PassGate(v, here).after, "draft", here);
    cs := Next(w, before, PassGateStep, env, version);
    cs := Next(w, cs, FreezeStep("draft"), env, version);
  }

  lemma FreezeLeavesReviews(w: Workspace, freshId: string, env: Env)
    ensures FreezeForm(w, freshId, env).after.reviews == w.reviews
  {
  }

  predicate UnderReview(w: Workspace) { w.reviews != [] && w.reviews[|w.reviews| - 1].licenseValid }

  lemma ToInstitution(w: Workspace, before: seq<Call>, version: string, env: Env) returns (cs: seq<Call>)
    requires Stands(w, before, env, FORM_FROZEN) && Run(w, before, env).reviews == []
    ensures Stands(w, cs, env, INSTITUTION_REVIEW) && UnderReview(Run(w, cs, env))
  {
    Submitted(Run(w, before, env), Here(env, version));
    cs := Next(w, before, SubmitStep("review", true), env, version);
  }

  lemma Submitted(w: Workspace, env: Env)
    requires w.project.state == FORM_FROZEN && w.reviews == []
    ensures var v := SubmitToInstitution(w, "review", true, env).after; v.project.state == INSTITUTION_REVIEW && UnderReview(v)
  {
  }

  lemma ToAccepted(w: Workspace, before: seq<Call>, version: string, env: Env) returns (cs: seq<Call>)
    requires Stands(w, before, env, INSTITUTION_REVIEW) && UnderReview(Run(w, before, env))
    ensures Stands(w, cs, env, READY_FOR_EXTERNAL_FILING)
  {
    Accepted(Run(w, before, env), Here(env, version));
    cs := Next(w, before, DecideStep(AcceptVerdict, "", "signed"), env, version);
  }

  lemma Accepted(w: Workspace, env: Env)
    requires w.project.state == INSTITUTION_REVIEW && UnderReview(w)
    ensures Decide(w, AcceptVerdict, "", "signed", env).after.project.state == READY_FOR_EXTERNAL_FILING
  {
    assert Strip("signed") != "";
    Filing.AcceptedExactly(w, AcceptVerdict, "", "signed", env);
  }

  lemma ToFiled(w: Workspace, before: seq<Call>, version: string, env: Env) returns (cs: seq<Call>)
    requires Stands(w, before, env, READY_FOR_EXTERNAL_FILING)
    ensures Stands(w, cs, env, FILED)
  {
    Numbered(Run(w, before, env), Here(env, version));
    cs := Next(w, before, FileStep("number"), env, version);
  }

  lemma Numbered(w: Workspace, env: Env)
    requires w.project.state == READY_FOR_EXTERNAL_FILING
    ensures RecordFiling(w, "number", env).after.project.state == FILED
  {
    assert Strip("number") != "";
    Filing.FiledExactly(w, "number", env);
  }

  /**
   Every new project can be filed, whatever keys and cards the policy asks for, as
   long as no two cards of the version share an id.
   */
  lemma AProjectCanBeFiled(w: Workspace, version: string, env: Env) returns (cs: seq<Call>)
    requires Created(w) && w.project.roadmapConfirmed.None? && Distinct(env.cards(version), CardId)
    ensures LegalRun(w, cs, env) && Run(w, cs, env).project.state == FILED
  {
    cs := ToCollecting(w, version, env);
    cs := ToSupplied(w, cs, version, env);
    SupplyAll(env.required(version));
    cs := ToWaived(w, cs, version, env, |env.cards(version)|);
    cs := ToReviewed(w, cs, version, env);
    RunKeeps(w, cs, env);
    cs := ToFrozen(w, cs, version, env);
    cs := ToInstitution(w, cs, version, env);
    cs := ToAccepted(w, cs, version, env);
    cs := ToFiled(w, cs, version, env);
  }
}
