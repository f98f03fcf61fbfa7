/** What every call of the workflow service keeps, and what that means for whole runs. */
module WorkflowRuns {
  import opened Entities
  import opened Keyed
  import opened MemoryStore
  import opened StateMachine
  import opened GateAndForms
  import opened Workflow
  import Findings

  type Digest = (string, string, map<string, FormField>) -> string

  const IN_FILING: set<ProjectState> := {
    FORM_FROZEN, INSTITUTION_REVIEW, INSTITUTION_RETURNED, READY_FOR_EXTERNAL_FILING, FILED }

  // ---------------------------------------------------------------- the invariant

  ghost predicate Tracked(w: Workspace) { Path(w.audit) && StateAfter(w.audit) == w.project.state }

  /** Every draft but the first names its predecessor; all but possibly the last are frozen. */
  ghost predicate Chain(forms: seq<FormDraft>) {
    && Distinct(forms, DraftId)
    && (forall i: nat | i < |forms| :: Linked(forms, i))
  }

  predicate Linked(forms: seq<FormDraft>, i: nat)
    requires i < |forms|
  {
    forms[i].parentDraft == ParentAt(forms, i) && (i + 1 < |forms| ==> forms[i].frozen)
  }

  function ParentAt(forms: seq<FormDraft>, i: nat): Option<string>
    requires i <= |forms|
  {
    if i == 0 then None else Some(forms[i - 1].draftId)
  }

  /** A field's value and source are those of a confirmed fact in the log. */
  ghost predicate Backed(key: string, field: FormField, facts: seq<Fact>) {
    exists f :: f in facts && f.key == key && f.status.FactConfirmed? && f.value == field.value && Some(f.source) == field.source
  }

  ghost predicate AllBacked(fields: map<string, FormField>, facts: seq<Fact>) {
    forall k | k in fields && fields[k].status.Filled? :: Backed(k, fields[k], facts)
  }

  /** A frozen draft is hashed over its own content, complete, and backed by the log. */
  ghost predicate Sealed(d: FormDraft, facts: seq<Fact>, digest: Digest) {
    d.frozen ==>
      && d.hash == Some(digest(d.formType, d.snapshotVersion, d.fields))
      && PendingKeys(d.fields) == {}
      && AllBacked(d.fields, facts)
  }

  ghost predicate AllSealed(forms: seq<FormDraft>, facts: seq<Fact>, digest: Digest) {
    forall d | d in forms :: Sealed(d, facts, digest)
  }

  ghost predicate FormsOk(w: Workspace, digest: Digest) {
    Chain(w.forms) && AllSealed(w.forms, w.facts, digest)
  }

  ghost predicate FrozenMatches(w: Workspace) { LatestFrozen(w.forms) <==> w.project.state in IN_FILING }

  ghost predicate FiledOk(p: Project) { p.state == FILED ==> NonEmpty(p.registrationNumber) }

  ghost predicate Inv(w: Workspace, digest: Digest) {
    && Tracked(w) && FormsOk(w, digest) && FrozenMatches(w)
    && FiledOk(w.project) && w.project.state != PRODUCTION
    && AssetRule(w.facts)
  }

  /** What no call undoes: a frozen draft, a stored fact, an audit entry. */
  ghost predicate FrozenKept(before: seq<FormDraft>, after: seq<FormDraft>) {
    |before| <= |after| && forall i | 0 <= i < |before| && before[i].frozen :: after[i] == before[i]
  }

  ghost predicate Grows(w: Workspace, v: Workspace) {
    && w.facts <= v.facts && w.audit <= v.audit && FrozenKept(w.forms, v.forms)
    && v.project.projectId == w.project.projectId
  }

  lemma GrowsTransitive(u: Workspace, v: Workspace, w: Workspace)
    requires Grows(u, v) && Grows(v, w)
    ensures Grows(u, w)
  {
  }

  // ------------------------------------------------------------------ transitions

  lemma TransitionShape(w: Workspace, p: Project, to: ProjectState, reason: string, env: Env)
    ensures var o := Transition(w, p, to, reason, env);
            && (o.error.Some? ==> o.after == w)
            && (o.error.None? ==> to in Allowed(p.state) && o.after == Moved(w, p, to, reason, env.now))
            && (o.error.None? && to == FILED ==> NonEmpty(p.registrationNumber))
  {
  }

  lemma MovedTracked(w: Workspace, p: Project, to: ProjectState, reason: string, now: int)
    requires Tracked(w) && p.state == w.project.state && Edge(AuditEntry(p.state, to, reason))
    ensures Tracked(Moved(w, p, to, reason, now))
  {
    PathExtends(w.audit, AuditEntry(p.state, to, reason));
  }

  /** A transition that does not cross into or out of filing keeps the invariant. */
  lemma TransitionKeeps(w: Workspace, p: Project, to: ProjectState, reason: string, env: Env)
    requires Inv(w, env.digest) && p.state == w.project.state && p.projectId == w.project.projectId
    requires to in Allowed(p.state) ==> (to in IN_FILING <==> p.state in IN_FILING)
    requires to != PRODUCTION
    ensures Inv(Transition(w, p, to, reason, env).after, env.digest)
    ensures Grows(w, Transition(w, p, to, reason, env).after)
  {
    TransitionShape(w, p, to, reason, env);
    if Transition(w, p, to, reason, env).error.None? {
      MovedTracked(w, p, to, reason, env.now);
    }
  }

  /** Saving a project whose state and number are as before. */
  lemma SaveKeeps(w: Workspace, v: Workspace, digest: Digest)
    requires Inv(w, digest)
    requires v == w.(project := v.project, findings := v.findings, cards := v.cards, reviews := v.reviews)
    requires v.project.state == w.project.state && v.project.projectId == w.project.projectId
    requires FiledOk(v.project)
    ensures Inv(v, digest) && Grows(w, v)
  {
  }

  // --------------------------------------------------------------------- the log

  ghost predicate AllNonBlank(ps: seq<FactProposal>) { forall p | p in ps :: p.value != Text("") }

  lemma {:induction false} UpsertAllKeeps(facts: seq<Fact>, ps: seq<FactProposal>)
    requires AssetRule(facts) && AllNonBlank(ps)
    ensures AssetRule(UpsertAll(facts, ps)) && facts <= UpsertAll(facts, ps)
  {
    if ps != [] {
      var n := |ps| - 1;
      assert forall p | p in ps[..n] :: p in ps;
      UpsertAllKeeps(facts, ps[..n]);
      UpsertKeepsRule(UpsertAll(facts, ps[..n]), ps[n].factId, ps[n].key, ps[n].value, ps[n].source);
    }
  }

  lemma BackedStays(key: string, field: FormField, facts: seq<Fact>, more: seq<Fact>)
    requires Backed(key, field, facts) && facts <= more
    ensures Backed(key, field, more)
  {
    var f :| f in facts && f.key == key && f.status.FactConfirmed? && f.value == field.value && Some(f.source) == field.source;
    assert f in more;
  }

  lemma SealedStays(d: FormDraft, facts: seq<Fact>, more: seq<Fact>, digest: Digest)
    requires Sealed(d, facts, digest) && facts <= more
    ensures Sealed(d, more, digest)
  {
    if d.frozen {
      forall k | k in d.fields && d.fields[k].status.Filled? ensures Backed(k, d.fields[k], more) {
        BackedStays(k, d.fields[k], facts, more);
      }
    }
  }

  lemma LogGrows(w: Workspace, facts: seq<Fact>, digest: Digest)
    requires Inv(w, digest) && w.facts <= facts && AssetRule(facts)
    ensures Inv(w.(facts := facts), digest) && Grows(w, w.(facts := facts))
  {
    forall d | d in w.forms ensures Sealed(d, facts, digest) { SealedStays(d, w.facts, facts, digest); }
  }

  // -------------------------------------------------------------------- the forms

  lemma PutLast(forms: seq<FormDraft>, d: FormDraft)
    requires Distinct(forms, DraftId) && forms != [] && forms[|forms| - 1].draftId == d.draftId
    ensures PutById(forms, DraftId, d) == forms[|forms| - 1 := d]
  {
    var n := |forms| - 1;
    forall j | 0 <= j < n ensures DraftId(forms[j]) != d.draftId { assert DraftId(forms[j]) != DraftId(forms[n]); }
    FindUnique(forms, DraftId, d.draftId, n);
  }

  ghost predicate FreshDraft(forms: seq<FormDraft>, id: string) { forall d | d in forms :: d.draftId != id }

  lemma PutNew(forms: seq<FormDraft>, d: FormDraft)
    requires FreshDraft(forms, d.draftId)
    ensures PutById(forms, DraftId, d) == forms + [d]
  {
    FindUnique(forms, DraftId, d.draftId, |forms|);
  }

  lemma ReplacedChain(forms: seq<FormDraft>, d: FormDraft)
    requires Chain(forms) && forms != []
    requires d.draftId == forms[|forms| - 1].draftId && d.parentDraft == forms[|forms| - 1].parentDraft
    ensures Chain(forms[|forms| - 1 := d])
  {
    var after := forms[|forms| - 1 := d];
    forall i: nat | i < |after| ensures Linked(after, i) { assert Linked(forms, i); }
    assert Distinct(after, DraftId) by {
      forall i, j | 0 <= i < j < |after| ensures DraftId(after[i]) != DraftId(after[j]) {
        assert DraftId(forms[i]) != DraftId(forms[j]);
      }
    }
  }

  lemma ReplacedSealed(forms: seq<FormDraft>, n: nat, d: FormDraft, facts: seq<Fact>, digest: Digest)
    requires AllSealed(forms, facts, digest) && Sealed(d, facts, digest) && n < |forms|
    ensures AllSealed(forms[n := d], facts, digest)
  {
    forall e | e in forms[n := d] ensures Sealed(e, facts, digest) {
      assert e == d || e in forms;
    }
  }

  lemma AppendedChain(forms: seq<FormDraft>, d: FormDraft)
    requires Chain(forms) && (forms != [] ==> LatestFrozen(forms))
    requires FreshDraft(forms, d.draftId) && d.parentDraft == ParentAt(forms, |forms|)
    ensures Chain(forms + [d])
  {
    var after := forms + [d];
    forall i: nat | i < |after| ensures Linked(after, i) { if i < |forms| { assert Linked(forms, i); } }
    assert Distinct(after, DraftId) by {
      forall i, j | 0 <= i < j < |after| ensures DraftId(after[i]) != DraftId(after[j]) {
        if j < |forms| { assert DraftId(forms[i]) != DraftId(forms[j]); } else { assert forms[i] in forms; }
      }
    }
  }

  lemma AppendedSealed(forms: seq<FormDraft>, d: FormDraft, facts: seq<Fact>, digest: Digest)
    requires AllSealed(forms, facts, digest) && Sealed(d, facts, digest)
    ensures AllSealed(forms + [d], facts, digest)
  {
    forall e | e in forms + [d] ensures Sealed(e, facts, digest) {
      assert e == d || e in forms;
    }
  }

  /** Putting a draft under the id `Rebuilt` chose puts it last. */
  lemma DraftGoesLast(w: Workspace, d: FormDraft, freshId: string, env: Env)
    requires FormsOk(w, env.digest) && !LatestFrozen(w.forms)
    requires d.draftId == Rebuilt(w, freshId, env).draftId && d.parentDraft == Rebuilt(w, freshId, env).parentDraft
    requires Sealed(d, w.facts, env.digest)
    ensures var v := w.(forms := PutById(w.forms, DraftId, d));
            && FormsOk(v, env.digest) && FrozenKept(w.forms, v.forms)
            && v.forms != [] && v.forms[|v.forms| - 1] == d
  {
    if w.forms == [] {
      PutNew(w.forms, d);
      AppendedChain(w.forms, d);
      AppendedSealed(w.forms, d, w.facts, env.digest);
    } else {
      PutLast(w.forms, d);
      ReplacedChain(w.forms, d);
      ReplacedSealed(w.forms, |w.forms| - 1, d, w.facts, env.digest);
    }
  }

  lemma FormDraftKeeps(w: Workspace, freshId: string, env: Env)
    requires Inv(w, env.digest)
    ensures var v := FormDraftOf(w, freshId, env).after;
            Inv(v, env.digest) && Grows(w, v) && v == w.(forms := v.forms)
  {
    if !LatestFrozen(w.forms) && Buildable(env.required(Pinned(w.project, env)), w.facts) {
      DraftGoesLast(w, Rebuilt(w, freshId, env), freshId, env);
    }
  }

  lemma FieldIsBacked(key: string, facts: seq<Fact>)
    requires FieldFor(key, facts).status.Filled?
    ensures Backed(key, FieldFor(key, facts), facts)
  {
    var c := Chosen(facts, key, FactConfirmed);
    var f := c[|c| - 1];
    assert f in c && Pick(key, FactConfirmed)(f);
  }

  lemma RebuiltIsBacked(w: Workspace, freshId: string, env: Env)
    ensures AllBacked(Rebuilt(w, freshId, env).fields, w.facts)
  {
    var fields := Rebuilt(w, freshId, env).fields;
    forall k | k in fields && fields[k].status.Filled? ensures Backed(k, fields[k], w.facts) {
      FieldIsBacked(k, w.facts);
    }
  }

  // ------------------------------------------------------------------ the operations

  const ORDINARY: set<ProjectState> := {
    INTAKE_DONE, FORM_JUDGED, CLASSIFIED, ROADMAP_CONFIRMED, REVIEW_RUNNING, GATE_D3_PASSED,
    NEEDS_HUMAN_FORMTYPE, NEEDS_HUMAN_SUBJECT, EXIT_NON_DRAMA, EXIT_SISTER_PATH }

  lemma OrdinaryStaysOut(from: ProjectState, to: ProjectState)
    requires to in ORDINARY && to in Allowed(from)
    ensures from !in IN_FILING && to !in IN_FILING
  {
    match from case DRAFT => case INTAKE_DONE => case FORM_JUDGED => case CLASSIFIED => case _ =>
  }

  lemma OrdinaryKeeps(w: Workspace, p: Project, to: ProjectState, reason: string, env: Env)
    requires Inv(w, env.digest) && p.state == w.project.state && p.projectId == w.project.projectId
    requires to in ORDINARY
    ensures Inv(Transition(w, p, to, reason, env).after, env.digest)
    ensures Grows(w, Transition(w, p, to, reason, env).after)
  {
    if to in Allowed(p.state) { OrdinaryStaysOut(p.state, to); }
    TransitionKeeps(w, p, to, reason, env);
  }

  lemma SaveIntentKeeps(w: Workspace, p: Project, env: Env)
    requires Inv(w, env.digest) && p.state == w.project.state && p.projectId == w.project.projectId
    requires p.registrationNumber == w.project.registrationNumber
    ensures Inv(SaveIntent(w, p, env).after, env.digest) && Grows(w, SaveIntent(w, p, env).after)
  {
    if p.state == DRAFT { OrdinaryKeeps(w, p, INTAKE_DONE, "intent.submitted", env); } else { SaveKeeps(w, w.(project := p), env.digest); }
  }

  lemma DetailsHaveValues(pid: string, d: ConfirmedDetails, ids: nat -> string)
    requires d.title != ""
    ensures AllNonBlank(DetailFacts(pid, d, ids))
  {
    assert BracketText(d.bracket) != "";
  }

  lemma ApplyConfirmationKeeps(w: Workspace, details: ConfirmedDetails, ids: nat -> string, env: Env)
    requires Inv(w, env.digest) && details.title != ""
    ensures var v := ApplyConfirmation(w, details, ids, env).after; Inv(v, env.digest) && Grows(w, v)
  {
    var p := w.project.(title := Some(details.title), bracket := details.bracket, amount := None, updatedAt := env.now);
    SaveIntentKeeps(w, p, env);
    var saved := SaveIntent(w, p, env).after;
    var facts := DetailFacts(p.projectId, details, ids);
    DetailsHaveValues(p.projectId, details, ids);
    UpsertAllKeeps(saved.facts, facts);
    LogGrows(saved, UpsertAll(saved.facts, facts), env.digest);
  }

  lemma BeginReanalysisKeeps(w: Workspace, env: Env)
    requires Inv(w, env.digest)
    ensures var v := BeginReanalysis(w, env).after; Inv(v, env.digest) && Grows(w, v)
  {
    if w.project.state in REANALYZABLE {
      var reset := w.project.(classification := None, roadmapConfirmed := None, policyStale := false,
                              registrationNumber := None);
      MovedTracked(w, reset, DRAFT, RESET, env.now);
      ReanalyzableIsNotFiling(w.project.state);
    }
  }

  lemma ReanalyzableIsNotFiling(s: ProjectState)
    requires s in REANALYZABLE
    ensures s !in IN_FILING
  {
  }

  /** Not judged yet, read off the state. */
  predicate NotJudged(s: ProjectState) { s == DRAFT || s == INTAKE_DONE || s == FORM_JUDGED }

  /** From the frozen form on. */
  predicate UnderFiling(s: ProjectState) {
    || s == FORM_FROZEN || s == INSTITUTION_REVIEW || s == INSTITUTION_RETURNED
    || s == READY_FOR_EXTERNAL_FILING || s == FILED || s == PRODUCTION
  }

  /** In any state, a project is reset exactly when it was judged and is not under filing; the reset forgets the judgment. */
  lemma ResetByState(w: Workspace, env: Env)
    ensures var o := BeginReanalysis(w, env);
            && (o.error.None? <==> !NotJudged(w.project.state) && !UnderFiling(w.project.state))
            && (o.error.Some? ==> o == Outcome(w, Some(StateInvalid)))
            && (o.error.None? ==>
                  && o.after == w.(project := o.after.project, audit := w.audit + [AuditEntry(w.project.state, DRAFT, RESET)])
                  && o.after.project.state == DRAFT && o.after.project.classification == None
                  && o.after.project.roadmapConfirmed == None && !o.after.project.policyStale
                  && o.after.project.registrationNumber == None && o.after.project.updatedAt == env.now)
  {
  }

  /** On a project of the invariant: exactly when it was judged and no form is frozen. */
  lemma ResetExactly(w: Workspace, env: Env)
    requires Inv(w, env.digest)
    ensures BeginReanalysis(w, env).error.None? <==> !NotJudged(w.project.state) && !LatestFrozen(w.forms)
  {
    FilingIsFrozen(w, env.digest);
    ResetByState(w, env);
  }

  lemma FilingIsFrozen(w: Workspace, digest: Digest)
    requires Inv(w, digest)
    ensures UnderFiling(w.project.state) <==> LatestFrozen(w.forms)
  {
  }

  const CHAIN_TARGETS: set<ProjectState> := {
    CLASSIFIED, NEEDS_HUMAN_SUBJECT, NEEDS_HUMAN_FORMTYPE, EXIT_NON_DRAMA, EXIT_SISTER_PATH }

  lemma SettleKeeps(w: Workspace, target: ProjectState, env: Env)
    requires Inv(w, env.digest) && target in CHAIN_TARGETS
    ensures var v := Settle(w, target, env).after; Inv(v, env.digest) && Grows(w, v)
  {
    assert target in ORDINARY && FORM_JUDGED in ORDINARY;
    OrdinaryKeeps(w, w.project, FORM_JUDGED, "d1a.form_type_decided", env);
    OrdinaryKeeps(w, w.project, target, "classification.decided", env);
    var judged := Transition(w, w.project, FORM_JUDGED, "d1a.form_type_decided", env).after;
    OrdinaryKeeps(judged, judged.project, target, "classification.decided", env);
  }

  lemma RecordedKeeps(w: Workspace, c: Classified, generation: Option<nat>, now: int, digest: Digest)
    requires Inv(w, digest) && AllNonBlank(c.facts)
    ensures Inv(Recorded(w, c, generation, now), digest) && Grows(w, Recorded(w, c, generation, now))
  {
    var v := Recorded(w, c, generation, now);
    UpsertAllKeeps(w.facts, c.facts);
    LogGrows(w, v.facts, digest);
    SaveKeeps(w.(facts := v.facts), v, digest);
  }

  ghost predicate ChainAnswer(c: Classified) {
    AllNonBlank(c.facts) && (c.next.Some? ==> c.next.value in CHAIN_TARGETS)
  }

  lemma RunClassificationKeeps(w: Workspace, c: Classified, generation: Option<nat>, env: Env)
    requires Inv(w, env.digest) && ChainAnswer(c)
    ensures var v := RunClassification(w, c, generation, env).after; Inv(v, env.digest) && Grows(w, v)
  {
    PersistKeeps(w, c, generation, env);
  }

  lemma PersistKeeps(w: Workspace, c: Classified, generation: Option<nat>, env: Env)
    requires Inv(w, env.digest) && ChainAnswer(c)
    ensures var v := Persist(w, c, generation, env).after; Inv(v, env.digest) && Grows(w, v)
  {
    RecordedKeeps(w, c, generation, env.now, env.digest);
    if c.next.Some? { SettleKeeps(Recorded(w, c, generation, env.now), c.next.value, env); }
  }

  lemma ReclassifyKeeps(w: Workspace, c: Classified, env: Env)
    requires Inv(w, env.digest) && ChainAnswer(c)
    ensures var v := Reclassify(w, c, env).after; Inv(v, env.digest) && Grows(w, v)
  {
    var v := Reclassify(w, c, env).after;
    UpsertAllKeeps(w.facts, c.facts);
    LogGrows(w, UpsertAll(w.facts, c.facts), env.digest);
    if v != w { SaveKeeps(w.(facts := v.facts), v, env.digest); }
  }

  lemma CollectKeeps(w: Workspace, env: Env)
    requires Inv(w, env.digest) && w.project.state == ROADMAP_CONFIRMED
    ensures var v := Transition(w, w.project, COLLECTING_MATERIALS, "materials.collection_started", env).after;
            Inv(v, env.digest) && Grows(w, v)
  {
    TransitionKeeps(w, w.project, COLLECTING_MATERIALS, "materials.collection_started", env);
  }

  lemma RoadmapShape(w: Workspace, env: Env)
    ensures var saved := w.(project := w.project.(roadmapConfirmed := Some(true), updatedAt := env.now));
            var confirmed := Transition(saved, saved.project, ROADMAP_CONFIRMED, "roadmap.confirmed", env);
            var v := ConfirmRoadmap(w, env).after;
            || v == w || v == confirmed.after
            || (confirmed.error.None? &&
                v == Transition(confirmed.after, confirmed.after.project, COLLECTING_MATERIALS, "materials.collection_started", env).after)
  {
  }

  lemma ConfirmRoadmapKeeps(w: Workspace, env: Env)
    requires Inv(w, env.digest)
    ensures var v := ConfirmRoadmap(w, env).after; Inv(v, env.digest) && Grows(w, v)
  {
    var saved := w.(project := w.project.(roadmapConfirmed := Some(true), updatedAt := env.now));
    SaveKeeps(w, saved, env.digest);
    OrdinaryKeeps(saved, saved.project, ROADMAP_CONFIRMED, "roadmap.confirmed", env);
    var confirmed := Transition(saved, saved.project, ROADMAP_CONFIRMED, "roadmap.confirmed", env);
    GrowsTransitive(w, saved, confirmed.after);
    RoadmapShape(w, env);
    if confirmed.error.None? {
      TransitionShape(saved, saved.project, ROADMAP_CONFIRMED, "roadmap.confirmed", env);
      CollectKeeps(confirmed.after, env);
    }
  }

  lemma LoopKeeps(w: Workspace, env: Env)
    requires Inv(w, env.digest) && w.project.state == REVIEW_RUNNING
    ensures var v := Transition(w, w.project, REVISION_LOOP, "review.findings_open", env).after;
            Inv(v, env.digest) && Grows(w, v)
  {
    TransitionKeeps(w, w.project, REVISION_LOOP, "review.findings_open", env);
  }

  lemma AdvanceKeeps(w: Workspace, env: Env)
    requires Inv(w, env.digest)
    ensures var v := Advance(w, env).after; Inv(v, env.digest) && Grows(w, v)
  {
    var started := if w.project.state == COLLECTING_MATERIALS
                   then Transition(w, w.project, REVIEW_RUNNING, "review.started", env).after else w;
    if w.project.state == COLLECTING_MATERIALS { OrdinaryKeeps(w, w.project, REVIEW_RUNNING, "review.started", env); }
    if started.project.state == REVIEW_RUNNING {
      LoopKeeps(started, env);
      GrowsTransitive(w, started, Transition(started, started.project, REVISION_LOOP, "review.findings_open", env).after);
    }
    AdvanceShape(w, started, env);
  }

  lemma AdvanceShape(w: Workspace, started: Workspace, env: Env)
    requires started == if w.project.state == COLLECTING_MATERIALS
                        then Transition(w, w.project, REVIEW_RUNNING, "review.started", env).after else w
    ensures var v := Advance(w, env).after;
            || v == started
            || (started.project.state == REVIEW_RUNNING
                && v == Transition(started, started.project, REVISION_LOOP, "review.findings_open", env).after)
  {
  }

  lemma ReviewScriptKeeps(w: Workspace, version: string, document: string, ps: seq<Findings.Proposal>,
                          generation: Option<nat>, ids: nat -> string, env: Env)
    requires Inv(w, env.digest)
    ensures var v := ReviewScript(w, version, document, ps, generation, ids, env).after; Inv(v, env.digest) && Grows(w, v)
  {
    var reviewed := w.(findings := Findings.Review(w.findings, version, document, ps, generation, ids));
    SaveKeeps(w, reviewed, env.digest);
    AdvanceKeeps(reviewed, env);
  }

  lemma PassGateShape(w: Workspace, env: Env)
    ensures var seen := w.(cards := ReadCards(w, env).stored);
            PassGate(w, env).after == seen
            || PassGate(w, env).after == Transition(seen, w.project, GATE_D3_PASSED, "gate.d3_passed", env).after
  {
  }

  lemma PassGateKeeps(w: Workspace, env: Env)
    requires Inv(w, env.digest)
    ensures var v := PassGate(w, env).after; Inv(v, env.digest) && Grows(w, v)
  {
    var seen := w.(cards := ReadCards(w, env).stored);
    PassGateShape(w, env);
    SeenKeeps(w, seen, env);
  }

  lemma SeenKeeps(w: Workspace, seen: Workspace, env: Env)
    requires Inv(w, env.digest) && seen == w.(cards := seen.cards)
    ensures Inv(seen, env.digest) && Grows(w, seen)
    ensures var v := Transition(seen, w.project, GATE_D3_PASSED, "gate.d3_passed", env).after;
            Inv(v, env.digest) && Grows(w, v)
  {
    SaveKeeps(w, seen, env.digest);
    OrdinaryKeeps(seen, w.project, GATE_D3_PASSED, "gate.d3_passed", env);
  }

  lemma TouchMaterialKeeps(w: Workspace, id: string, r: CardRequest, env: Env)
    requires Inv(w, env.digest)
    ensures var v := TouchMaterial(w, id, r, env).after; Inv(v, env.digest) && Grows(w, v)
  {
    SaveKeeps(w, TouchMaterial(w, id, r, env).after, env.digest);
  }

  lemma OpenFieldKeeps(w: Workspace, key: string, freshId: string, env: Env)
    requires Inv(w, env.digest)
    ensures var v := OpenField(w, key, freshId, env).after; Inv(v, env.digest) && Grows(w, v)
  {
    FormDraftKeeps(w, freshId, env);
  }

  lemma ConfirmFieldKeeps(w: Workspace, key: string, value: Option<Value>, factId: string, answerId: string,
                          freshId: string, env: Env)
    requires Inv(w, env.digest)
    ensures var v := ConfirmField(w, key, value, factId, answerId, freshId, env).after; Inv(v, env.digest) && Grows(w, v)
  {
    OpenFieldKeeps(w, key, freshId, env);
    var open := OpenField(w, key, freshId, env);
    if open.error.None? && !Blank(value) {
      var source := SourceRef(FromAnswer, answerId, None);
      UpsertKeepsRule(open.after.facts, factId, key, value.value, source);
      var facts := UpsertFact(open.after.facts, factId, key, value.value, source);
      LogGrows(open.after, facts, env.digest);
      FormDraftKeeps(open.after.(facts := facts), freshId, env);
    }
  }

  lemma DeferFieldKeeps(w: Workspace, key: string, factId: string, answerId: string, freshId: string, env: Env)
    requires Inv(w, env.digest)
    ensures var v := DeferField(w, key, factId, answerId, freshId, env).after; Inv(v, env.digest) && Grows(w, v)
  {
    OpenFieldKeeps(w, key, freshId, env);
    var open := OpenField(w, key, freshId, env);
    if open.error.None? && CanDefer(open.after.facts, key) {
      var source := SourceRef(FromAnswer, answerId, None);
      DeferKeepsRule(open.after.facts, factId, key, source);
      var facts := DeferFact(open.after.facts, factId, key, source);
      LogGrows(open.after, facts, env.digest);
      FormDraftKeeps(open.after.(facts := facts), freshId, env);
    }
  }

  /** The stored form is frozen before the state moves; the move is always allowed, so they stay in step. */
  lemma FreezeFormKeeps(w: Workspace, freshId: string, env: Env)
    requires Inv(w, env.digest)
    ensures var v := FreezeForm(w, freshId, env).after; Inv(v, env.digest) && Grows(w, v)
  {
    FormDraftKeeps(w, freshId, env);
    var drawn := FormDraftOf(w, freshId, env);
    var draft := Rebuilt(w, freshId, env);
    if !LatestFrozen(w.forms) && w.project.state == GATE_D3_PASSED && drawn.error.None? && PendingKeys(draft.fields) == {} {
      DraftGoesLast(w, draft, freshId, env);
      RebuiltIsBacked(w, freshId, env);
      DraftGoesLast(drawn.after, Frozen(draft, env), freshId, env);
      var saved := drawn.after.(forms := PutById(drawn.after.forms, DraftId, Frozen(draft, env)));
      FreezeMoves(w, saved, env);
    }
  }

  lemma FreezeMoves(w: Workspace, saved: Workspace, env: Env)
    requires Inv(w, env.digest) && w.project.state == GATE_D3_PASSED && saved == w.(forms := saved.forms)
    requires FormsOk(saved, env.digest) && LatestFrozen(saved.forms) && FrozenKept(w.forms, saved.forms)
    ensures var o := Transition(saved, w.project, FORM_FROZEN, "form.frozen", env);
            o.error.None? && Inv(o.after, env.digest) && Grows(w, o.after)
  {
    TransitionShape(saved, w.project, FORM_FROZEN, "form.frozen", env);
    MovedTracked(saved, w.project, FORM_FROZEN, "form.frozen", env.now);
  }

  lemma SubmitKeeps(w: Workspace, reviewId: string, licenseValid: bool, env: Env)
    requires Inv(w, env.digest)
    ensures var v := SubmitToInstitution(w, reviewId, licenseValid, env).after; Inv(v, env.digest) && Grows(w, v)
  {
    if w.project.state == FORM_FROZEN || w.project.state == INSTITUTION_REVIEW {
      var saved := w.(reviews := PutById(w.reviews, ReviewId, InstitutionReview(reviewId, licenseValid, None, "", "")));
      SaveKeeps(w, saved, env.digest);
      TransitionKeeps(saved, w.project, INSTITUTION_REVIEW, "institution.submitted", env);
    }
  }

  lemma VerdictStaysIn(from: ProjectState, to: ProjectState)
    requires to in Allowed(from) && (to == READY_FOR_EXTERNAL_FILING || to == INSTITUTION_RETURNED || to == FILED)
    ensures from in IN_FILING && to in IN_FILING
  {
    match from case INSTITUTION_REVIEW => case READY_FOR_EXTERNAL_FILING => case _ =>
  }

  lemma DecideShape(w: Workspace, verdict: Verdict, comments: string, agreement: string, env: Env)
    requires w.reviews != []
    ensures var saved, v := w.(reviews := Judge(w.reviews, verdict, comments, agreement)), Decide(w, verdict, comments, agreement, env).after;
            || v == w || v == saved
            || (Target(verdict).Some? && v == Transition(saved, w.project, Target(verdict).value, "institution.decided", env).after)
  {
  }

  lemma JudgedKeeps(w: Workspace, saved: Workspace, to: ProjectState, env: Env)
    requires Inv(w, env.digest) && saved == w.(reviews := saved.reviews)
    requires to == READY_FOR_EXTERNAL_FILING || to == INSTITUTION_RETURNED
    ensures var v := Transition(saved, w.project, to, "institution.decided", env).after; Inv(v, env.digest) && Grows(w, v)
  {
    SaveKeeps(w, saved, env.digest);
    if to in Allowed(w.project.state) { VerdictStaysIn(w.project.state, to); }
    TransitionKeeps(saved, w.project, to, "institution.decided", env);
  }

  lemma DecideKeeps(w: Workspace, verdict: Verdict, comments: string, agreement: string, env: Env)
    requires Inv(w, env.digest)
    ensures var v := Decide(w, verdict, comments, agreement, env).after; Inv(v, env.digest) && Grows(w, v)
  {
    if w.reviews != [] {
      var saved := w.(reviews := Judge(w.reviews, verdict, comments, agreement));
      SaveKeeps(w, saved, env.digest);
      DecideShape(w, verdict, comments, agreement, env);
      if Target(verdict).Some? { JudgedKeeps(w, saved, Target(verdict).value, env); }
    }
  }

  lemma RecordFilingKeeps(w: Workspace, number: string, env: Env)
    requires Inv(w, env.digest)
    ensures var v := RecordFiling(w, number, env).after; Inv(v, env.digest) && Grows(w, v)
  {
    if Strip(number) != "" {
      var saved := w.(project := w.project.(registrationNumber := Some(Strip(number)), updatedAt := env.now));
      SaveKeeps(w, saved, env.digest);
      if FILED in Allowed(w.project.state) { VerdictStaysIn(w.project.state, FILED); }
      TransitionKeeps(saved, saved.project, FILED, "filing.recorded", env);
    }
  }

  lemma ResumeMoves(w: Workspace, saved: Workspace, env: Env)
    requires Inv(w, env.digest) && w.project.state == INSTITUTION_RETURNED && saved == w.(forms := saved.forms)
    requires FormsOk(saved, env.digest) && !LatestFrozen(saved.forms) && FrozenKept(w.forms, saved.forms)
    ensures var o := Transition(saved, w.project, REVISION_LOOP, "institution.returned_for_revision", env);
            && o.after.project.state == REVISION_LOOP && o.after.forms == saved.forms
            && Inv(o.after, env.digest) && Grows(w, o.after)
  {
    TransitionShape(saved, w.project, REVISION_LOOP, "institution.returned_for_revision", env);
    MovedTracked(saved, w.project, REVISION_LOOP, "institution.returned_for_revision", env.now);
  }

  lemma ResumeShape(w: Workspace, freshId: string, env: Env)
    requires w.project.state == INSTITUTION_RETURNED && LatestFrozen(w.forms) && FreshDraft(w.forms, freshId)
    ensures var saved := w.(forms := w.forms + [Successor(w.forms[|w.forms| - 1], freshId)]);
            ResumeAfterReturn(w, freshId, env)
            == Transition(saved, w.project, REVISION_LOOP, "institution.returned_for_revision", env)
  {
    PutNew(w.forms, Successor(w.forms[|w.forms| - 1], freshId));
  }

  /** A returned project gets a successor draft in the same call that leaves filing. */
  lemma ResumeKeeps(w: Workspace, freshId: string, env: Env)
    requires Inv(w, env.digest) && FreshDraft(w.forms, freshId)
    ensures var v := ResumeAfterReturn(w, freshId, env).after; Inv(v, env.digest) && Grows(w, v)
    ensures w.project.state == INSTITUTION_RETURNED ==>
              var v := ResumeAfterReturn(w, freshId, env).after;
              && v.project.state == REVISION_LOOP && w.forms != []
              && v.forms == w.forms + [Successor(w.forms[|w.forms| - 1], freshId)]
  {
    if w.project.state == INSTITUTION_RETURNED {
      var d := Successor(w.forms[|w.forms| - 1], freshId);
      AppendedChain(w.forms, d);
      AppendedSealed(w.forms, d, w.facts, env.digest);
      ResumeShape(w, freshId, env);
      ResumeMoves(w, w.(forms := w.forms + [d]), env);
    }
  }

  // ------------------------------------------------------------------------- runs

  datatype Step =
    | SubmitIntentStep(bracket: AmountBracket, amount: Option<real>)
    | ConfirmDetailsStep(details: ConfirmedDetails, factIds: nat -> string)
    | BeginReanalysisStep
    | ClassifyStep(answer: Classified, generation: Option<nat>)
    | ReclassifyStep(answer: Classified)
    | ConfirmRoadmapStep
    | ReviewStep(version: string, document: string, ps: seq<Findings.Proposal>, generation: Option<nat>, ids: nat -> string)
    | ActStep(id: string, action: Findings.Action)
    | ExtractStep(facts: seq<FactProposal>)
    | MaterialStep(id: string, request: CardRequest)
    | PassGateStep
    | DraftStep(freshId: string)
    | ConfirmFieldStep(key: string, value: Option<Value>, factId: string, answerId: string, freshId: string)
    | DeferFieldStep(key: string, factId: string, answerId: string, freshId: string)
    | FreezeStep(freshId: string)
    | SubmitStep(reviewId: string, licenseValid: bool)
    | DecideStep(verdict: Verdict, comments: string, agreement: string)
    | ResumeStep(freshId: string)
    | FileStep(number: string)
    | RecalcStep(version: string, decision: TierDecision)
    | StaleStep

  function Do(w: Workspace, s: Step, env: Env): Outcome {
    match s
    case SubmitIntentStep(bracket, amount) => SubmitIntent(w, bracket, amount, env)
    case ConfirmDetailsStep(details, ids) => ApplyConfirmation(w, details, ids, env)
    case BeginReanalysisStep => BeginReanalysis(w, env)
    case ClassifyStep(answer, generation) => RunClassification(w, answer, generation, env)
    case ReclassifyStep(answer) => Reclassify(w, answer, env)
    case ConfirmRoadmapStep => ConfirmRoadmap(w, env)
    case ReviewStep(version, document, ps, generation, ids) => ReviewScript(w, version, document, ps, generation, ids, env)
    case ActStep(id, action) => ActOnFinding(w, id, action)
    case ExtractStep(facts) => Fine(w.(facts := UpsertAll(w.facts, facts)))
    case MaterialStep(id, request) => TouchMaterial(w, id, request, env)
    case PassGateStep => PassGate(w, env)
    case DraftStep(freshId) => FormDraftOf(w, freshId, env)
    case ConfirmFieldStep(key, value, factId, answerId, freshId) => ConfirmField(w, key, value, factId, answerId, freshId, env)
    case DeferFieldStep(key, factId, answerId, freshId) => DeferField(w, key, factId, answerId, freshId, env)
    case FreezeStep(freshId) => FreezeForm(w, freshId, env)
    case SubmitStep(reviewId, licenseValid) => SubmitToInstitution(w, reviewId, licenseValid, env)
    case DecideStep(verdict, comments, agreement) => Decide(w, verdict, comments, agreement, env)
    case ResumeStep(freshId) => ResumeAfterReturn(w, freshId, env)
    case FileStep(number) => RecordFiling(w, number, env)
    case RecalcStep(version, decision) => RecalcTier(w, version, decision, env)
    case StaleStep => MarkStale(w, env)
  }

  /** Ids are fresh, titles and proposed facts have values, and the chain answers with one of its own states. */
  ghost predicate Legal(w: Workspace, s: Step) {
    match s
    case ConfirmDetailsStep(details, _) => details.title != ""
    case ExtractStep(facts) => AllNonBlank(facts)
    case ClassifyStep(answer, _) => ChainAnswer(answer)
    case ReclassifyStep(answer) => ChainAnswer(answer)
    case ResumeStep(freshId) => FreshDraft(w.forms, freshId)
    case _ => true
  }

  lemma PolicyStepKeeps(w: Workspace, s: Step, env: Env)
    requires Inv(w, env.digest) && (s.RecalcStep? || s.StaleStep? || s.ActStep?)
    ensures Inv(Do(w, s, env).after, env.digest) && Grows(w, Do(w, s, env).after)
  {
    SaveKeeps(w, Do(w, s, env).after, env.digest);
  }

  lemma IntakeStepKeeps(w: Workspace, s: Step, env: Env)
    requires Inv(w, env.digest) && Legal(w, s)
    requires s.SubmitIntentStep? || s.ConfirmDetailsStep? || s.BeginReanalysisStep? || s.ClassifyStep?
             || s.ReclassifyStep? || s.ConfirmRoadmapStep? || s.ExtractStep?
    ensures Inv(Do(w, s, env).after, env.digest) && Grows(w, Do(w, s, env).after)
  {
    match s {
      case SubmitIntentStep(bracket, amount) =>
        SaveIntentKeeps(w, w.project.(bracket := bracket, amount := amount, updatedAt := env.now), env);
      case ConfirmDetailsStep(details, ids) => ApplyConfirmationKeeps(w, details, ids, env);
      case BeginReanalysisStep => BeginReanalysisKeeps(w, env);
      case ClassifyStep(answer, generation) => RunClassificationKeeps(w, answer, generation, env);
      case ReclassifyStep(answer) => ReclassifyKeeps(w, answer, env);
      case ConfirmRoadmapStep => ConfirmRoadmapKeeps(w, env);
      case ExtractStep(facts) =>
        UpsertAllKeeps(w.facts, facts);
        LogGrows(w, UpsertAll(w.facts, facts), env.digest);
    }
  }

  lemma FilingStepKeeps(w: Workspace, s: Step, env: Env)
    requires Inv(w, env.digest) && Legal(w, s) && (s.SubmitStep? || s.DecideStep? || s.ResumeStep? || s.FileStep?)
    ensures Inv(Do(w, s, env).after, env.digest) && Grows(w, Do(w, s, env).after)
  {
    match s {
      case SubmitStep(reviewId, licenseValid) => SubmitKeeps(w, reviewId, licenseValid, env);
      case DecideStep(verdict, comments, agreement) => DecideKeeps(w, verdict, comments, agreement, env);
      case ResumeStep(freshId) => ResumeKeeps(w, freshId, env);
      case FileStep(number) => RecordFilingKeeps(w, number, env);
    }
  }

  lemma FormStepKeeps(w: Workspace, s: Step, env: Env)
    requires Inv(w, env.digest) && (s.DraftStep? || s.ConfirmFieldStep? || s.DeferFieldStep? || s.FreezeStep?)
    ensures Inv(Do(w, s, env).after, env.digest) && Grows(w, Do(w, s, env).after)
  {
    match s {
      case DraftStep(freshId) => FormDraftKeeps(w, freshId, env);
      case ConfirmFieldStep(key, value, factId, answerId, freshId) =>
        ConfirmFieldKeeps(w, key, value, factId, answerId, freshId, env);
      case DeferFieldStep(key, factId, answerId, freshId) => DeferFieldKeeps(w, key, factId, answerId, freshId, env);
      case FreezeStep(freshId) => FreezeFormKeeps(w, freshId, env);
    }
  }

  lemma StepKeeps(w: Workspace, s: Step, env: Env)
    requires Inv(w, env.digest) && Legal(w, s)
    ensures Inv(Do(w, s, env).after, env.digest) && Grows(w, Do(w, s, env).after)
  {
    match s {
      case ReviewStep(version, document, ps, generation, ids) =>
        ReviewScriptKeeps(w, version, document, ps, generation, ids, env);
      case MaterialStep(id, request) => TouchMaterialKeeps(w, id, request, env);
      case PassGateStep => PassGateKeeps(w, env);
      case DraftStep(_) => FormStepKeeps(w, s, env);
      case ConfirmFieldStep(_, _, _, _, _) => FormStepKeeps(w, s, env);
      case DeferFieldStep(_, _, _, _) => FormStepKeeps(w, s, env);
      case FreezeStep(_) => FormStepKeeps(w, s, env);
      case SubmitStep(_, _) => FilingStepKeeps(w, s, env);
      case DecideStep(_, _, _) => FilingStepKeeps(w, s, env);
      case ResumeStep(_) => FilingStepKeeps(w, s, env);
      case FileStep(_) => FilingStepKeeps(w, s, env);
      case RecalcStep(_, _) => PolicyStepKeeps(w, s, env);
      case StaleStep => PolicyStepKeeps(w, s, env);
      case ActStep(_, _) => PolicyStepKeeps(w, s, env);
      case _ => IntakeStepKeeps(w, s, env);
    }
  }

  // ------------------------------------------------------- findings keep their ids

  /** A review writes under new ids. */
  ghost predicate NewIds(w: Workspace, s: Step) { s.ReviewStep? ==> Findings.FreshIds(w.findings, s.ids) }

  lemma AdvanceLeavesFindings(w: Workspace, env: Env)
    ensures Advance(w, env).after.findings == w.findings
  {
  }

  lemma SettleLeavesFindings(w: Workspace, target: ProjectState, env: Env)
    ensures Settle(w, target, env).after.findings == w.findings && Settle(w, target, env).after.facts == w.facts
    ensures Settle(w, target, env).after.project.projectId == w.project.projectId
  {
    JudgeLeavesFindings(w, target, env);
  }

  lemma JudgeLeavesFindings(w: Workspace, target: ProjectState, env: Env)
    ensures var v := JudgeForm(w, target, env).after;
            v.findings == w.findings && v.facts == w.facts && v.project.projectId == w.project.projectId
  {
  }

  /** What classification leaves in the findings: the alert the chain raised, synced, and nothing else new. */
  lemma PersistedFindings(w: Workspace, c: Classified, generation: Option<nat>, env: Env)
    ensures Persist(w, c, generation, env).after.findings
            == Findings.SyncAlert(w.findings, AlertId(w.project), c.alert, generation)
    ensures Persist(w, c, generation, env).after.project.projectId == w.project.projectId
  {
    if c.next.Some? { SettleLeavesFindings(Recorded(w, c, generation, env.now), c.next.value, env); }
  }

  lemma ClassifiedFindings(w: Workspace, c: Classified, generation: Option<nat>, env: Env)
    ensures var v := RunClassification(w, c, generation, env).after;
            v.findings == w.findings || v.findings == Findings.SyncAlert(w.findings, AlertId(w.project), c.alert, generation)
    ensures RunClassification(w, c, generation, env).error.None? ==>
              RunClassification(w, c, generation, env).after.findings
              == Findings.SyncAlert(w.findings, AlertId(w.project), c.alert, generation)
  {
    PersistedFindings(w, c, generation, env);
  }

  /** No call gives two findings one id. */
  lemma FindingIdsKeep(w: Workspace, s: Step, env: Env)
    requires Distinct(w.findings, FindingId) && NewIds(w, s)
    ensures Distinct(Do(w, s, env).after.findings, FindingId)
  {
    match s {
      case ReviewStep(version, document, ps, generation, ids) =>
        AdvanceLeavesFindings(w.(findings := Findings.Review(w.findings, version, document, ps, generation, ids)), env);
        Findings.ReviewKeepsIds(w.findings, version, document, ps, generation, ids);
      case ClassifyStep(answer, generation) =>
        ClassifiedFindings(w, answer, generation, env);
        Findings.SyncKeepsIds(w.findings, AlertId(w.project), answer.alert, generation);
      case ActStep(id, action) =>
        Findings.ActKeepsIds(w.findings, id, action);
      case _ => OthersLeaveFindings(w, s, env);
    }
  }

  lemma OthersLeaveFindings(w: Workspace, s: Step, env: Env)
    requires !s.ReviewStep? && !s.ClassifyStep? && !s.ActStep?
    ensures Do(w, s, env).after.findings == w.findings
  {
    if IntakeKind(s) { IntakeLeavesFindings(w, s, env); }
    else if FormKind(s) { FormLeavesFindings(w, s, env); }
    else { FilingLeavesFindings(w, s, env); }
  }

  predicate IntakeKind(s: Step) {
    s.SubmitIntentStep? || s.ConfirmDetailsStep? || s.BeginReanalysisStep? || s.ReclassifyStep? || s.ConfirmRoadmapStep? || s.ExtractStep?
  }

  predicate FormKind(s: Step) { s.DraftStep? || s.ConfirmFieldStep? || s.DeferFieldStep? || s.FreezeStep? }

  lemma IntakeLeavesFindings(w: Workspace, s: Step, env: Env)
    requires IntakeKind(s)
    ensures Do(w, s, env).after.findings == w.findings
  {
  }

  lemma FormLeavesFindings(w: Workspace, s: Step, env: Env)
    requires FormKind(s)
    ensures Do(w, s, env).after.findings == w.findings
  {
    if s.FreezeStep? { FreezeLeavesFindings(w, s.freshId, env); }
    if s.ConfirmFieldStep? || s.DeferFieldStep? { FieldLeavesFindings(w, s, env); }
  }

  lemma FreezeLeavesFindings(w: Workspace, freshId: string, env: Env)
    ensures FreezeForm(w, freshId, env).after.findings == w.findings
  {
  }

  lemma FieldLeavesFindings(w: Workspace, s: Step, env: Env)
    requires s.ConfirmFieldStep? || s.DeferFieldStep?
    ensures Do(w, s, env).after.findings == w.findings
  {
  }

  lemma FilingLeavesFindings(w: Workspace, s: Step, env: Env)
    requires !s.ReviewStep? && !s.ClassifyStep? && !s.ActStep? && !IntakeKind(s) && !FormKind(s)
    ensures Do(w, s, env).after.findings == w.findings
  {
    if s.PassGateStep? { PassGateShape(w, env); }
    if s.MaterialStep? || s.PassGateStep? { CardsLeaveFindings(w, s, env); }
  }

  lemma CardsLeaveFindings(w: Workspace, s: Step, env: Env)
    requires s.MaterialStep? || s.PassGateStep?
    ensures Do(w, s, env).after.findings == w.findings
  {
  }
}
