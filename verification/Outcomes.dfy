/** What each call of the service answers and leaves: every error with its condition, and every field it writes. */
module Outcomes {
  import opened Entities
  import opened Keyed
  import opened MemoryStore
  import opened StateMachine
  import opened GateAndForms
  import opened FormFields
  import opened Workflow
  import F = Findings
  import R = WorkflowRuns
  import Filing

  // ------------------------------------------------------------------- one step

  /** What the step's own entry asks for, besides an edge of the table. */
  ghost predicate Guarded(w: Workspace, p: Project, to: ProjectState, env: Env) {
    && (to == FILED ==> p.registrationNumber.Some? && p.registrationNumber.value != "")
    && (to == ROADMAP_CONFIRMED || to == COLLECTING_MATERIALS ==> p.roadmapConfirmed != None)
  }

  ghost predicate GateMet(w: Workspace, p: Project, env: Env) {
    GateOpen(w.findings, w.facts, w.cards, env.required(Pinned(p, env)))
  }

  /** A step is taken, blocked by the gate, or invalid; a step not taken leaves everything. */
  lemma StepExactly(w: Workspace, p: Project, to: ProjectState, reason: string, env: Env)
    ensures var o := Transition(w, p, to, reason, env);
            var edge := p.state in EnteredFrom(to);
            && (o.error.None? <==> edge && Guarded(w, p, to, env) && (to == GATE_D3_PASSED ==> GateMet(w, p, env)))
            && (o.error == Some(GateBlocked) <==> edge && to == GATE_D3_PASSED && !GateMet(w, p, env))
            && (o.error == Some(StateInvalid) <==> !edge || !Guarded(w, p, to, env))
            && o.after == if o.error.Some? then w
                          else w.(project := p.(state := to, updatedAt := env.now),
                                  audit := w.audit + [AuditEntry(p.state, to, reason)])
  {
    TableBothWays(p.state, to);
    GateOpensExactly(w.findings, w.facts, w.cards, env.required(Pinned(p, env)));
    FreezesFromGate(p.state, to);
  }

  lemma FreezesFromGate(from: ProjectState, to: ProjectState)
    ensures to == FORM_FROZEN && to in Allowed(from) ==> from == GATE_D3_PASSED
  {
  }

  /** Steps to the chain's states, the intake's and the loop's ask for an edge and nothing else. */
  lemma PlainStepExactly(w: Workspace, p: Project, to: ProjectState, reason: string, env: Env)
    requires to != GATE_D3_PASSED && to != FILED && to != ROADMAP_CONFIRMED && to != COLLECTING_MATERIALS
    ensures Transition(w, p, to, reason, env) ==
            if p.state in EnteredFrom(to)
            then Outcome(w.(project := p.(state := to, updatedAt := env.now),
                            audit := w.audit + [AuditEntry(p.state, to, reason)]), None)
            else Outcome(w, Some(StateInvalid))
  {
    StepExactly(w, p, to, reason, env);
  }

  // --------------------------------------------------------------------- intake

  /** The budget answers are stored, and a project in DRAFT has its intake done. */
  lemma IntentExactly(w: Workspace, bracket: AmountBracket, amount: Option<real>, env: Env)
    ensures var o := SubmitIntent(w, bracket, amount, env);
            var first := w.project.state == DRAFT;
            && o.error.None?
            && o.after.project == w.project.(bracket := bracket, amount := amount, updatedAt := env.now,
                                             state := if first then INTAKE_DONE else w.project.state)
            && o.after == w.(project := o.after.project, audit := o.after.audit)
            && o.after.audit == w.audit + (if first then [AuditEntry(DRAFT, INTAKE_DONE, "intent.submitted")] else [])
  {
    var p := w.project.(bracket := bracket, amount := amount, updatedAt := env.now);
    PlainStepExactly(w, p, INTAKE_DONE, "intent.submitted", env);
  }

  // ------------------------------------------------------------- classification

  /** The states a settled answer passes through: a decided form type is logged on the way to a subject's answer. */
  function Passing(from: ProjectState, target: ProjectState): seq<ProjectState> {
    if from == target then []
    else if from == INTAKE_DONE && (target == CLASSIFIED || target == NEEDS_HUMAN_SUBJECT) then [FORM_JUDGED, target]
    else [target]
  }

  predicate Walks(from: ProjectState, through: seq<ProjectState>)
    decreases |through|
  {
    through == [] || (from in EnteredFrom(through[0]) && Walks(through[0], through[1..]))
  }

  lemma TwoStepsExactly(w: Workspace, target: ProjectState, env: Env)
    requires w.project.state == INTAKE_DONE && (target == CLASSIFIED || target == NEEDS_HUMAN_SUBJECT)
    ensures var later := w.(project := w.project.(state := target, updatedAt := env.now),
                            audit := w.audit + [AuditEntry(INTAKE_DONE, FORM_JUDGED, "d1a.form_type_decided"),
                                                AuditEntry(FORM_JUDGED, target, "classification.decided")]);
            Settle(w, target, env) == Outcome(later, None) && Walks(INTAKE_DONE, [FORM_JUDGED, target])
  {
    PlainStepExactly(w, w.project, FORM_JUDGED, "d1a.form_type_decided", env);
    var judged := Transition(w, w.project, FORM_JUDGED, "d1a.form_type_decided", env).after;
    PlainStepExactly(judged, judged.project, target, "classification.decided", env);
    assert [target][1..] == [] && [FORM_JUDGED, target][1..] == [target];
    assert Walks(FORM_JUDGED, [target]);
  }

  lemma OneStepExactly(w: Workspace, target: ProjectState, env: Env)
    requires target in R.CHAIN_TARGETS && w.project.state != target
    requires !(w.project.state == INTAKE_DONE && (target == CLASSIFIED || target == NEEDS_HUMAN_SUBJECT))
    ensures Walks(w.project.state, [target]) <==> w.project.state in EnteredFrom(target)
    ensures Settle(w, target, env) ==
            if w.project.state in EnteredFrom(target)
            then Outcome(w.(project := w.project.(state := target, updatedAt := env.now),
                            audit := w.audit + [AuditEntry(w.project.state, target, "classification.decided")]), None)
            else Outcome(w, Some(StateInvalid))
  {
    PlainStepExactly(w, w.project, target, "classification.decided", env);
    assert [target][1..] == [];
  }

  lemma SettleExactly(w: Workspace, target: ProjectState, env: Env)
    requires target in R.CHAIN_TARGETS
    ensures var o := Settle(w, target, env);
            var through := Passing(w.project.state, target);
            && (o.error.None? <==> Walks(w.project.state, through))
            && (o.error.Some? ==> o == Outcome(w, Some(StateInvalid)))
            && (o.error.None? ==>
                  && o.after.project.state == target && |o.after.audit| == |w.audit| + |through|
                  && o.after == w.(project := o.after.project, audit := o.after.audit)
                  && o.after.project == w.project.(state := target, updatedAt := if through == [] then w.project.updatedAt else env.now)
                  && forall i | 0 <= i < |through| :: o.after.audit[|w.audit| + i].toState == through[i])
  {
    var s := w.project.state;
    if s == INTAKE_DONE && (target == CLASSIFIED || target == NEEDS_HUMAN_SUBJECT) {
      TwoStepsExactly(w, target, env);
    } else if s != target {
      OneStepExactly(w, target, env);
    }
  }

  /** All a classification writes besides the state: the class if it gave one, its facts, and the alert. */
  ghost predicate Stored(w: Workspace, v: Workspace, c: Classified, generation: Option<nat>, now: int) {
    && v.project.classification == (if c.classification.Some? then c.classification else w.project.classification)
    && v.facts == UpsertAll(w.facts, c.facts)
    && v.findings == F.SyncAlert(w.findings, AlertId(w.project), c.alert, generation)
    && v == w.(project := v.project, facts := v.facts, findings := v.findings, audit := v.audit)
    && v.project == w.project.(classification := v.project.classification, state := v.project.state, updatedAt := v.project.updatedAt)
    && v.project.updatedAt == (if c.classification.Some? || v.audit != w.audit then now else w.project.updatedAt)
  }

  /**
   A classification is refused of a project in DRAFT and when the chain asks back, with nothing
   written; else what it found is stored, even when the table then refuses the state it gave.
   */
  lemma ClassifyExactly(w: Workspace, c: Classified, generation: Option<nat>, env: Env)
    requires R.ChainAnswer(c)
    ensures var o := RunClassification(w, c, generation, env);
            var refused := w.project.state == DRAFT || c.askBack;
            var through := if c.next.Some? then Passing(w.project.state, c.next.value) else [];
            && (refused ==> o == Outcome(w, Some(StateInvalid)))
            && (!refused ==>
                  && Stored(w, o.after, c, generation, env.now)
                  && (o.error.None? <==> Walks(w.project.state, through))
                  && (o.error.Some? ==> o.error == Some(StateInvalid) && o.after.audit == w.audit && o.after.project.state == w.project.state)
                  && (o.error.None? ==>
                        && o.after.project.state == (if c.next.Some? then c.next.value else w.project.state)
                        && |o.after.audit| == |w.audit| + |through|))
  {
    if c.next.Some? { SettleExactly(Recorded(w, c, generation, env.now), c.next.value, env); }
  }

  /** Upserts only add to the log, and what they add is of their own source. */
  lemma {:induction false} UpsertsFrom(facts: seq<Fact>, ps: seq<FactProposal>, source: SourceRef)
    requires forall p | p in ps :: p.source == source
    ensures facts <= UpsertAll(facts, ps)
    ensures forall i | |facts| <= i < |UpsertAll(facts, ps)| :: UpsertAll(facts, ps)[i].source == source
  {
    if ps != [] {
      assert forall p | p in ps[..|ps| - 1] :: p in ps;
      UpsertsFrom(facts, ps[..|ps| - 1], source);
      assert ps[|ps| - 1] in ps;
    }
  }

  /** A confirmation never raises: title and bracket become the intake, an earlier amount is dropped, and four answers are logged. */
  lemma ConfirmationExactly(w: Workspace, d: ConfirmedDetails, ids: nat -> string, env: Env)
    ensures var o := ApplyConfirmation(w, d, ids, env);
            var first := w.project.state == DRAFT;
            && o.error.None?
            && o.after.project == w.project.(title := Some(d.title), bracket := d.bracket, amount := None, updatedAt := env.now,
                                             state := if first then INTAKE_DONE else w.project.state)
            && o.after.audit == w.audit + (if first then [AuditEntry(DRAFT, INTAKE_DONE, "intent.submitted")] else [])
            && o.after == w.(project := o.after.project, audit := o.after.audit, facts := o.after.facts)
            && Filing.SaysDetails(o.after.facts, d)
            && w.facts <= o.after.facts
            && forall i | |w.facts| <= i < |o.after.facts| ::
                 o.after.facts[i].source == SourceRef(FromAnswer, "review_confirmation:" + w.project.projectId, None)
  {
    UpsertsFrom(w.facts, DetailFacts(w.project.projectId, d, ids),
                SourceRef(FromAnswer, "review_confirmation:" + w.project.projectId, None));
    var p := w.project.(title := Some(d.title), bracket := d.bracket, amount := None, updatedAt := env.now);
    PlainStepExactly(w, p, INTAKE_DONE, "intent.submitted", env);
    Filing.ConfirmedValuesAreLatest(w, d, ids, env);
  }

  /** A confirmed roadmap is stored before the table is asked; from CLASSIFIED the project goes on to collecting materials. */
  lemma RoadmapExactly(w: Workspace, env: Env)
    requires w.project.roadmapConfirmed != Some(true)
    ensures var o := ConfirmRoadmap(w, env);
            var s := w.project.state;
            && (o.error.None? <==> w.project.classification.Some? && s == CLASSIFIED)
            && (o.error.Some? ==> o.error == Some(StateInvalid))
            && (w.project.classification.None? ==> o.after == w)
            && (w.project.classification.Some? ==>
                  && o.after.project == w.project.(roadmapConfirmed := Some(true), updatedAt := env.now,
                                                   state := if s == CLASSIFIED then COLLECTING_MATERIALS else s)
                  && o.after == w.(project := o.after.project, audit := o.after.audit)
                  && o.after.audit == w.audit +
                     (if s == CLASSIFIED
                      then [AuditEntry(CLASSIFIED, ROADMAP_CONFIRMED, "roadmap.confirmed"),
                            AuditEntry(ROADMAP_CONFIRMED, COLLECTING_MATERIALS, "materials.collection_started")]
                      else []))
  {
    var saved := w.(project := w.project.(roadmapConfirmed := Some(true), updatedAt := env.now));
    StepExactly(saved, saved.project, ROADMAP_CONFIRMED, "roadmap.confirmed", env);
    var confirmed := Transition(saved, saved.project, ROADMAP_CONFIRMED, "roadmap.confirmed", env).after;
    StepExactly(confirmed, confirmed.project, COLLECTING_MATERIALS, "materials.collection_started", env);
  }

  // ----------------------------------------------------------- reclassification

  /** A class is replaced exactly on a stale project that was judged, is open and not under filing; nothing else moves. */
  lemma ReclassifyExactly(w: Workspace, c: Classified, env: Env)
    ensures var o := Reclassify(w, c, env);
            var s := w.project.state;
            && (o.error.None? <==>
                  && w.project.policyStale && !c.askBack && c.classification.Some?
                  && !R.NotJudged(s) && !R.UnderFiling(s) && s !in {EXIT_NON_DRAMA, EXIT_SISTER_PATH, EXIT_T2, EXIT_T3})
            && (o.error.Some? ==> o == Outcome(w, Some(StateInvalid)))
            && (o.error.None? ==>
                  o.after == w.(project := w.project.(classification := c.classification, policyStale := false, updatedAt := env.now),
                                facts := UpsertAll(w.facts, c.facts)))
  {
  }

  /** Only a provisional tier not under filing and without a filing number is judged again, and pinned to the new version. */
  lemma RecalcExactly(w: Workspace, version: string, d: TierDecision, env: Env)
    ensures var o := RecalcTier(w, version, d, env);
            var p := w.project;
            var again := p.classification.Some? && p.classification.value.provisional && !R.UnderFiling(p.state)
                         && (p.registrationNumber.None? || p.registrationNumber.value == "");
            && o.error.None?
            && (!again ==> o.after == w)
            && (again ==>
                  && o.after == w.(project := o.after.project)
                  && o.after.project == p.(classification := o.after.project.classification, policyStale := false, updatedAt := env.now)
                  && o.after.project.classification.Some?
                  && var k := o.after.project.classification.value;
                     && k.tier == d.tier && k.provisional == d.provisional && k.snapshotVersion == version
                     && (d.clause.Some? ==> k.evidence == [d.clause.value])
                     && (d.clause.None? ==> k.evidence == p.classification.value.evidence))
  {
  }

  // ------------------------------------------------------------------- the gate

  /** A new script review moves the project on: to the loop when a finding holds the gate, else into review. */
  lemma AdvanceExactly(w: Workspace, env: Env)
    requires w.project.roadmapConfirmed.Some?
    ensures var o := Advance(w, env);
            var held := exists f :: f in w.findings && f.active && Weighs(f) && !Released(f);
            && o.error.None? && o.after == w.(project := o.after.project, audit := o.after.audit)
            && o.after.project.state ==
               (if w.project.state == COLLECTING_MATERIALS || w.project.state == REVIEW_RUNNING
                then if held then REVISION_LOOP else REVIEW_RUNNING else w.project.state)
  {
    forall f | f in w.findings ensures BlocksGate(f) <==> f.active && Weighs(f) && !Released(f) {}
    PlainStepExactly(w, w.project, REVIEW_RUNNING, "review.started", env);
    var started := if w.project.state == COLLECTING_MATERIALS
                   then Transition(w, w.project, REVIEW_RUNNING, "review.started", env).after else w;
    PlainStepExactly(started, started.project, REVISION_LOOP, "review.findings_open", env);
  }

  lemma StepByItsOwnVersion(w: Workspace, p: Project, to: ProjectState, reason: string, env: Env, newer: string)
    requires p.classification.Some?
    ensures Transition(w, p, to, reason, env.(latest := newer)) == Transition(w, p, to, reason, env)
  {
  }

  lemma DraftByItsOwnVersion(w: Workspace, freshId: string, env: Env, newer: string)
    requires w.project.classification.Some?
    ensures FormDraftOf(w, freshId, env.(latest := newer)) == FormDraftOf(w, freshId, env)
    ensures DraftRead(w, freshId, env.(latest := newer)) == DraftRead(w, freshId, env)
  {
  }

  lemma PassByItsOwnVersion(w: Workspace, env: Env, newer: string)
    requires w.project.classification.Some?
    ensures PassGate(w, env.(latest := newer)) == PassGate(w, env)
  {
    StepByItsOwnVersion(w.(cards := ReadCards(w, env).stored), w.project, GATE_D3_PASSED, "gate.d3_passed", env, newer);
  }

  lemma FreezeByItsOwnVersion(w: Workspace, freshId: string, env: Env, newer: string)
    requires w.project.classification.Some?
    ensures FreezeForm(w, freshId, env.(latest := newer)) == FreezeForm(w, freshId, env)
  {
    DraftByItsOwnVersion(w, freshId, env, newer);
    var drawn := FormDraftOf(w, freshId, env).after;
    var frozen := Frozen(DraftRead(w, freshId, env), env);
    StepByItsOwnVersion(drawn.(forms := PutById(drawn.forms, DraftId, frozen)), w.project, FORM_FROZEN, "form.frozen", env, newer);
  }

  /**
   A classified project is judged by the snapshot its class pinned: whatever is published
   since changes neither its gate, nor its draft, nor its freezing; an unclassified one is
   judged by the latest.
   */
  lemma JudgedByItsOwnVersion(w: Workspace, freshId: string, env: Env, newer: string)
    ensures w.project.classification.Some? ==>
              && PassGate(w, env.(latest := newer)) == PassGate(w, env)
              && FormDraftOf(w, freshId, env.(latest := newer)) == FormDraftOf(w, freshId, env)
              && FreezeForm(w, freshId, env.(latest := newer)) == FreezeForm(w, freshId, env)
    ensures !LatestFrozen(w.forms) ==>
              DraftRead(w, freshId, env).snapshotVersion ==
              (if w.project.classification.Some? then w.project.classification.value.snapshotVersion else env.latest)
  {
    if w.project.classification.Some? {
      PassByItsOwnVersion(w, env, newer);
      DraftByItsOwnVersion(w, freshId, env, newer);
      FreezeByItsOwnVersion(w, freshId, env, newer);
    }
  }

  // ------------------------------------------------------------------ the drafts

  /** Reading the form: a frozen draft stays; else the last draft is rebuilt in its place, or a first one is started. */
  lemma DraftExactly(w: Workspace, freshId: string, env: Env)
    requires R.Inv(w, env.digest) && !LatestFrozen(w.forms)
    ensures var o := FormDraftOf(w, freshId, env);
            var n := if w.forms == [] then 0 else |w.forms| - 1;
            && o.error.None? && o.after == w.(forms := o.after.forms)
            && |o.after.forms| == n + 1 && o.after.forms[..n] == w.forms[..n]
            && var d := o.after.forms[n];
               && d == DraftRead(w, freshId, env)
               && d.draftId == (if w.forms == [] then freshId else w.forms[n].draftId)
               && d.parentDraft == (if w.forms == [] then None else w.forms[n].parentDraft)
               && !d.frozen && d.hash.None? && d.formType == "registration_publicity"
               && d.snapshotVersion == Pinned(w.project, env)
               && d.fields == Fields(env.required(Pinned(w.project, env)), w.facts)
               && d.conflicts == ConflictKeys(env.required(Pinned(w.project, env)), w.facts)
  {
    BuildableUnderRule(env.required(Pinned(w.project, env)), w.facts);
    var d := Rebuilt(w, freshId, env);
    if w.forms == [] {
      R.PutNew(w.forms, d);
    } else {
      R.PutLast(w.forms, d);
    }
  }

  /** A log no draft can be built from is refused wherever the draft is read, and nothing is written. */
  lemma UnbuildableIsRefused(w: Workspace, key: string, value: Option<Value>, factId: string, answerId: string,
                             freshId: string, env: Env)
    requires !LatestFrozen(w.forms) && !Buildable(env.required(Pinned(w.project, env)), w.facts)
    ensures FormDraftOf(w, freshId, env) == Outcome(w, Some(ValidationFailed))
    ensures ConfirmField(w, key, value, factId, answerId, freshId, env) == Outcome(w, Some(ValidationFailed))
    ensures DeferField(w, key, factId, answerId, freshId, env) == Outcome(w, Some(ValidationFailed))
    ensures w.project.state == GATE_D3_PASSED ==> FreezeForm(w, freshId, env) == Outcome(w, Some(ValidationFailed))
  {
  }

  /** Which field edits are taken up: none of a frozen form, and only of keys the form has. */
  lemma OpenFieldExactly(w: Workspace, key: string, freshId: string, env: Env)
    requires R.Inv(w, env.digest)
    ensures var o := OpenField(w, key, freshId, env);
            && (o.error == Some(Conflict) <==> LatestFrozen(w.forms))
            && (o.error == Some(NotFound) <==> !LatestFrozen(w.forms) && key !in env.required(Pinned(w.project, env)))
            && (o.error.None? <==> !LatestFrozen(w.forms) && key in env.required(Pinned(w.project, env)))
            && o.after == FormDraftOf(w, freshId, env).after
  {
    if !LatestFrozen(w.forms) { DraftExactly(w, freshId, env); }
  }

  /**
   Confirming a field: refused of a frozen form, of a key the form does not have, and of an
   empty value; else the value goes to the log as an answer and the draft is rebuilt.
   */
  lemma ConfirmFieldExactly(w: Workspace, key: string, value: Option<Value>, factId: string, answerId: string,
                            freshId: string, env: Env)
    requires R.Inv(w, env.digest)
    ensures var o := ConfirmField(w, key, value, factId, answerId, freshId, env);
            var known := key in env.required(Pinned(w.project, env));
            var empty := value.None? || value == Some(Text(""));
            && (o.error == Some(Conflict) <==> LatestFrozen(w.forms))
            && (o.error == Some(NotFound) <==> !LatestFrozen(w.forms) && !known)
            && (o.error == Some(ValidationFailed) <==> !LatestFrozen(w.forms) && known && empty)
            && (o.error.None? <==> !LatestFrozen(w.forms) && known && !empty)
            && (o.error.Some? ==> o.after.facts == w.facts)
            && (o.error.None? ==>
                  Upserted(w.facts, o.after.facts, factId, key, value.value, SourceRef(FromAnswer, answerId, None)))
            && o.after == w.(facts := o.after.facts, forms := o.after.forms)
  {
    OpenFieldExactly(w, key, freshId, env);
    R.OpenFieldKeeps(w, key, freshId, env);
    R.FormDraftKeeps(w, freshId, env);
    if !LatestFrozen(w.forms) && key in env.required(Pinned(w.project, env)) && !Blank(value) {
      var source := SourceRef(FromAnswer, answerId, None);
      UpsertExactly(w.facts, factId, key, value.value, source);
      UpsertKeepsRule(w.facts, factId, key, value.value, source);
      BuildableUnderRule(env.required(Pinned(w.project, env)), UpsertFact(w.facts, factId, key, value.value, source));
    }
  }

  /** Declaring a gap: refused of a frozen form, of an unknown key, and of a key whose latest fact is confirmed. */
  lemma DeferFieldExactly(w: Workspace, key: string, factId: string, answerId: string, freshId: string, env: Env)
    requires R.Inv(w, env.digest)
    ensures var o := DeferField(w, key, factId, answerId, freshId, env);
            var known := key in env.required(Pinned(w.project, env));
            var answered := exists at: nat :: LatestAt(w.facts, key, at) && w.facts[at].status == FactConfirmed;
            && (o.error == Some(Conflict) <==> LatestFrozen(w.forms))
            && (o.error == Some(NotFound) <==> !LatestFrozen(w.forms) && !known)
            && (o.error == Some(ValidationFailed) <==> !LatestFrozen(w.forms) && known && answered)
            && (o.error.None? <==> !LatestFrozen(w.forms) && known && !answered)
            && o.after.facts == (if o.error.Some? then w.facts
                                 else w.facts + [Fact(factId, key, None, SourceRef(FromAnswer, answerId, None), FactDeferred, None)])
            && o.after == w.(facts := o.after.facts, forms := o.after.forms)
  {
    OpenFieldExactly(w, key, freshId, env);
    R.OpenFieldKeeps(w, key, freshId, env);
    R.FormDraftKeeps(w, freshId, env);
    DeferrableExactly(w.facts, key);
    if !LatestFrozen(w.forms) && key in env.required(Pinned(w.project, env)) && CanDefer(w.facts, key) {
      var source := SourceRef(FromAnswer, answerId, None);
      DeferKeepsRule(w.facts, factId, key, source);
      BuildableUnderRule(env.required(Pinned(w.project, env)), DeferFact(w.facts, factId, key, source));
    }
  }

  /**
   Freezing: a frozen form is left alone; away from the gate it is refused; with a field
   outstanding it is blocked; else the draft just built is stored frozen, hashed over its
   own type, version and fields, and the project moves.
   */
  lemma FreezeExactly(w: Workspace, freshId: string, env: Env)
    requires R.Inv(w, env.digest)
    ensures var o := FreezeForm(w, freshId, env);
            var d := DraftRead(w, freshId, env);
            var gate := w.project.state == GATE_D3_PASSED;
            var whole := forall k | k in d.fields :: d.fields[k].status == Filled || d.fields[k].status == PendingInstitution;
            && (LatestFrozen(w.forms) ==> o == Outcome(w, None))
            && (!LatestFrozen(w.forms) ==>
                  && (o.error == Some(StateInvalid) <==> !gate)
                  && (o.error == Some(GateBlocked) <==> gate && !whole)
                  && (o.error.None? <==> gate && whole)
                  && (!gate ==> o.after == w)
                  && (o.error.None? ==>
                        && o.after.project == w.project.(state := FORM_FROZEN, updatedAt := env.now)
                        && o.after.audit == w.audit + [AuditEntry(GATE_D3_PASSED, FORM_FROZEN, "form.frozen")]
                        && o.after.forms != []
                        && o.after.forms[|o.after.forms| - 1] ==
                           d.(frozen := true, hash := Some(env.digest(d.formType, d.snapshotVersion, d.fields)))))
  {
    if !LatestFrozen(w.forms) {
      var d := DraftRead(w, freshId, env);
      DraftExactly(w, freshId, env);
      forall k | k in d.fields ensures Outstanding(d.fields[k]) <==> !(d.fields[k].status == Filled || d.fields[k].status == PendingInstitution) {}
      WholeExactly(d.fields);
      FrozenGoesLast(w, freshId, env);
      var drawn := FormDraftOf(w, freshId, env).after;
      PlainStepExactly(drawn.(forms := PutById(drawn.forms, DraftId, Frozen(d, env))), w.project, FORM_FROZEN, "form.frozen", env);
    }
  }

  lemma WholeExactly(fields: map<string, FormField>)
    ensures PendingKeys(fields) == {} <==>
            forall k | k in fields :: fields[k].status == Filled || fields[k].status == PendingInstitution
  {
    if PendingKeys(fields) == {} {
      forall k | k in fields ensures !Outstanding(fields[k]) { assert k !in PendingKeys(fields); }
    }
  }

  lemma FrozenGoesLast(w: Workspace, freshId: string, env: Env)
    requires R.Inv(w, env.digest) && !LatestFrozen(w.forms)
    ensures var d := DraftRead(w, freshId, env);
            var forms := PutById(FormDraftOf(w, freshId, env).after.forms, DraftId, Frozen(d, env));
            forms != [] && forms[|forms| - 1] == Frozen(d, env)
  {
    R.FormDraftKeeps(w, freshId, env);
    DraftExactly(w, freshId, env);
    R.PutLast(FormDraftOf(w, freshId, env).after.forms, Frozen(DraftRead(w, freshId, env), env));
  }

  // ------------------------------------------------------- institution and filing

  /** A frozen form is submitted, again or for the first time; the new review has no verdict. */
  lemma SubmitExactly(w: Workspace, reviewId: string, licenseValid: bool, env: Env)
    requires forall r | r in w.reviews :: r.reviewId != reviewId
    ensures var o := SubmitToInstitution(w, reviewId, licenseValid, env);
            var s := w.project.state;
            && (o.error.None? <==> s == FORM_FROZEN || s == INSTITUTION_REVIEW)
            && (o.error.Some? ==> o == Outcome(w, Some(StateInvalid)))
            && (o.error.None? ==>
                  o.after == w.(project := w.project.(state := INSTITUTION_REVIEW, updatedAt := env.now),
                                audit := w.audit + [AuditEntry(s, INSTITUTION_REVIEW, "institution.submitted")],
                                reviews := w.reviews + [InstitutionReview(reviewId, licenseValid, None, "", "")]))
  {
    var review := InstitutionReview(reviewId, licenseValid, None, "", "");
    FindUnique(w.reviews, ReviewId, reviewId, |w.reviews|);
    PlainStepExactly(w.(reviews := PutById(w.reviews, ReviewId, review)), w.project, INSTITUTION_REVIEW,
                     "institution.submitted", env);
  }

  /** The last review with the verdict on it; the others as they were. */
  ghost predicate VerdictStored(before: seq<InstitutionReview>, after: seq<InstitutionReview>, verdict: Verdict,
                                comments: string, agreement: string)
    requires before != []
  {
    && |after| == |before| && after[..|before| - 1] == before[..|before| - 1]
    && var was, now := before[|before| - 1], after[|before| - 1];
       now.decision == Some(verdict) && now.comments == comments && now.agreement == agreement
       && now.reviewId == was.reviewId && now.licenseValid == was.licenseValid
  }

  lemma JudgedLast(reviews: seq<InstitutionReview>, verdict: Verdict, comments: string, agreement: string)
    requires reviews != [] && Distinct(reviews, ReviewId)
    ensures VerdictStored(reviews, Judge(reviews, verdict, comments, agreement), verdict, comments, agreement)
  {
    var n := |reviews| - 1;
    forall j | 0 <= j < n ensures ReviewId(reviews[j]) != reviews[n].reviewId { assert ReviewId(reviews[j]) != ReviewId(reviews[n]); }
    FindUnique(reviews, ReviewId, reviews[n].reviewId, n);
  }

  lemma VerdictMoves(w: Workspace, verdict: Verdict, env: Env)
    ensures var o := ActOnVerdict(w, verdict, env);
            var moves := verdict == AcceptVerdict || verdict == ReturnVerdict;
            && (o.error.None? <==> (moves ==> w.project.state == INSTITUTION_REVIEW))
            && (o.error.Some? ==> o.error == Some(StateInvalid))
            && o.after == w.(project := o.after.project, audit := o.after.audit)
            && o.after.project == (if o.error.None? && moves
                                   then w.project.(state := if verdict == AcceptVerdict then READY_FOR_EXTERNAL_FILING
                                                            else INSTITUTION_RETURNED, updatedAt := env.now)
                                   else w.project)
  {
    PlainStepExactly(w, w.project, READY_FOR_EXTERNAL_FILING, "institution.decided", env);
    PlainStepExactly(w, w.project, INSTITUTION_RETURNED, "institution.decided", env);
  }

  /**
   A verdict: there must be a review; accepting takes a signed agreement and a valid licence,
   returning takes comments. Then it is stored, and an acceptance or a return moves the project
   from review on; out of review it is stored and refused. Escalating and waiting move nothing.
   */
  lemma VerdictExactly(w: Workspace, verdict: Verdict, comments: string, agreement: string, env: Env)
    requires Distinct(w.reviews, ReviewId)
    ensures var o := Decide(w, verdict, comments, agreement, env);
            var moves := verdict == AcceptVerdict || verdict == ReturnVerdict;
            var lacking := w.reviews != [] &&
                           ((verdict == AcceptVerdict && (Strip(agreement) == "" || !w.reviews[|w.reviews| - 1].licenseValid))
                            || (verdict == ReturnVerdict && Strip(comments) == ""));
            && (o.error == Some(NotFound) <==> w.reviews == [])
            && (o.error == Some(ValidationFailed) <==> lacking)
            && (o.error == Some(StateInvalid) <==> w.reviews != [] && !lacking && moves && w.project.state != INSTITUTION_REVIEW)
            && (o.error.None? <==> w.reviews != [] && !lacking && (moves ==> w.project.state == INSTITUTION_REVIEW))
            && (w.reviews == [] || lacking ==> o.after == w)
            && (w.reviews != [] && !lacking ==> VerdictStored(w.reviews, o.after.reviews, verdict, comments, agreement))
            && o.after.project == (if o.error.None? && moves
                                   then w.project.(state := if verdict == AcceptVerdict then READY_FOR_EXTERNAL_FILING
                                                            else INSTITUTION_RETURNED, updatedAt := env.now)
                                   else w.project)
  {
    if w.reviews != [] {
      JudgedLast(w.reviews, verdict, comments, agreement);
      VerdictMoves(w.(reviews := Judge(w.reviews, verdict, comments, agreement)), verdict, env);
    }
  }

  /** A return is resumed on a new, empty, unfrozen draft that names the frozen one, of its type and version. */
  lemma ResumeExactly(w: Workspace, freshId: string, env: Env)
    requires R.Inv(w, env.digest) && R.FreshDraft(w.forms, freshId)
    ensures var o := ResumeAfterReturn(w, freshId, env);
            && (o.error.None? <==> w.project.state == INSTITUTION_RETURNED)
            && (o.error.Some? ==> o == Outcome(w, Some(StateInvalid)))
            && (o.error.None? ==>
                  && w.forms != [] && |o.after.forms| == |w.forms| + 1 && o.after.forms[..|w.forms|] == w.forms
                  && o.after.project == w.project.(state := REVISION_LOOP, updatedAt := env.now)
                  && var last, d := w.forms[|w.forms| - 1], o.after.forms[|w.forms|];
                     d == FormDraft(freshId, last.formType, false, map[], [], None, last.snapshotVersion, Some(last.draftId)))
  {
    R.FilingIsFrozen(w, env.digest);
    if LatestFrozen(w.forms) {
      var next := Successor(w.forms[|w.forms| - 1], freshId);
      R.PutNew(w.forms, next);
      PlainStepExactly(w.(forms := w.forms + [next]), w.project, REVISION_LOOP, "institution.returned_for_revision", env);
    }
  }

  /** A filing number is stored stripped, whatever the state; it files a project that is ready for it, and is refused elsewhere. */
  lemma FilingExactly(w: Workspace, number: string, env: Env)
    ensures var o := RecordFiling(w, number, env);
            var given := Strip(number) != "";
            var ready := w.project.state == READY_FOR_EXTERNAL_FILING;
            && (o.error == Some(ValidationFailed) <==> !given)
            && (o.error == Some(StateInvalid) <==> given && !ready)
            && (o.error.None? <==> given && ready)
            && (!given ==> o.after == w)
            && (given ==>
                  && o.after.project == w.project.(registrationNumber := Some(Strip(number)), updatedAt := env.now,
                                                   state := if ready then FILED else w.project.state)
                  && o.after == w.(project := o.after.project, audit := o.after.audit)
                  && o.after.audit == w.audit + (if ready then [AuditEntry(READY_FOR_EXTERNAL_FILING, FILED, "filing.recorded")] else []))
  {
    var saved := w.(project := w.project.(registrationNumber := Some(Strip(number)), updatedAt := env.now));
    StepExactly(saved, saved.project, FILED, "filing.recorded", env);
  }
}
