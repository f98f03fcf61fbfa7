/** The workflow service as it runs: one project's stored documents, written one at a time. */
module Service {
  import opened Entities
  import opened Keyed
  import opened MemoryStore
  import opened StateMachine
  import opened GateAndForms
  import W = Workflow
  import F = Findings
  import R = WorkflowRuns
  import Filing
  import GatePassing
  import Decisions
  import Outcomes

  lemma PutAt(s: seq<Finding>, i: nat, f: Finding)
    requires Distinct(s, FindingId) && i < |s| && FindingId(s[i]) == FindingId(f)
    ensures PutById(s, FindingId, f) == s[i := f]
  {
    forall j | 0 <= j < i ensures FindingId(s[j]) != FindingId(f) { assert FindingId(s[j]) != FindingId(s[i]); }
    FindUnique(s, FindingId, FindingId(f), i);
  }

  class WorkflowService {
    var project: Project
    var facts: seq<Fact>
    var findings: seq<Finding>
    var forms: seq<FormDraft>
    var audit: seq<AuditEntry>
    var cards: seq<Card>
    var reviews: seq<W.InstitutionReview>

    /** A project as it is created. */
    constructor (p: Project, ghost env: W.Env)
      requires p.state == DRAFT
      ensures State() == W.Workspace(p, [], [], [], [], [], []) && Valid(env)
    {
      project := p;
      facts, findings, forms, audit, cards, reviews := [], [], [], [], [], [];
    }

    function State(): W.Workspace
      reads this
    {
      W.Workspace(project, facts, findings, forms, audit, cards, reviews)
    }

    /** What every call finds and leaves: the invariant of the runs, and one id per finding. */
    ghost predicate Valid(env: W.Env)
      reads this
    {
      R.Inv(State(), env.digest) && Distinct(findings, FindingId)
    }

    /** The table, then the entry guards. */
    method Refusal(p: Project, to: ProjectState, env: W.Env) returns (error: Option<Error>)
      ensures error == W.Refusal(State(), p, to, env)
      ensures error == Some(GateBlocked) <==>
                to in Allowed(p.state) && to == GATE_D3_PASSED && !GateOpen(findings, facts, cards, env.required(W.Pinned(p, env)))
      ensures error.None? <==>
                && to in Allowed(p.state)
                && (to == GATE_D3_PASSED ==> GateOpen(findings, facts, cards, env.required(W.Pinned(p, env))))
                && (to == FILED ==> W.NonEmpty(p.registrationNumber))
                && (to == ROADMAP_CONFIRMED || to == COLLECTING_MATERIALS ==> p.roadmapConfirmed.Some?)
    {
      GateOpensExactly(findings, facts, cards, env.required(W.Pinned(p, env)));
      FreezeFromGate(p.state);
      if Terminal(p.state) { return Some(StateInvalid); }
      if to !in Allowed(p.state) { return Some(StateInvalid); }
      if to == GATE_D3_PASSED {
        var gaps := EvaluateGate(findings, facts, cards, env.required(W.Pinned(p, env)));
        return if gaps != [] then Some(GateBlocked) else None;
      }
      if to == FORM_FROZEN && p.state != GATE_D3_PASSED { return Some(StateInvalid); }
      if to == FILED && !W.NonEmpty(p.registrationNumber) { return Some(StateInvalid); }
      if (to == ROADMAP_CONFIRMED || to == COLLECTING_MATERIALS) && p.roadmapConfirmed.None? {
        return Some(StateInvalid);
      }
      return None;
    }

    method Transition(p: Project, to: ProjectState, reason: string, env: W.Env) returns (error: Option<Error>)
      modifies this`project, this`audit
      ensures var o := W.Transition(old(State()), p, to, reason, env); State() == o.after && error == o.error
      ensures error.None? ==>
                && to in Allowed(p.state) && project == p.(state := to, updatedAt := env.now)
                && audit == old(audit) + [AuditEntry(p.state, to, reason)]
                && (to == GATE_D3_PASSED ==> GateOpen(findings, facts, cards, env.required(W.Pinned(p, env))))
      ensures error.Some? ==> project == old(project) && audit == old(audit)
    {
      error := Refusal(p, to, env);
      if error.Some? { return; }
      project := p.(state := to, updatedAt := env.now);
      audit := audit + [AuditEntry(p.state, to, reason)];
    }

    method BeginReviewReanalysis(env: W.Env) returns (error: Option<Error>)
      requires Valid(env)
      modifies this`project, this`audit
      ensures var o := W.BeginReanalysis(old(State()), env); State() == o.after && error == o.error
      ensures Valid(env) && R.Grows(old(State()), State())
      ensures error.None? <==> !R.NotJudged(old(project.state)) && !LatestFrozen(old(forms))
      ensures error.None? ==> project.state == DRAFT && project.classification.None? && project.registrationNumber.None?
    {
      R.BeginReanalysisKeeps(State(), env);
      R.ResetExactly(State(), env);
      if project.state !in REANALYZABLE { return Some(StateInvalid); }
      var from := project.state;
      project := project.(state := DRAFT, classification := None, roadmapConfirmed := None, policyStale := false,
                          registrationNumber := None, updatedAt := env.now);
      audit := audit + [AuditEntry(from, DRAFT, RESET)];
      return None;
    }

    // ------------------------------------------------------------------- facts

    method GetByKey(key: string) returns (fact: Option<Fact>)
      ensures fact == LatestByKey(facts, key)
    {
      var i: nat := |facts|;
      assert facts[..i] == facts;
      while i > 0
        invariant i <= |facts|
        invariant LatestByKey(facts, key) == LatestByKey(facts[..i], key)
      {
        assert facts[..i][..i - 1] == facts[..i - 1];
        i := i - 1;
        if facts[i].key == key { return Some(facts[i]); }
      }
      return None;
    }

    method UpsertFact(p: W.FactProposal)
      modifies this`facts
      ensures facts == W.Upsert(old(facts), p)
    {
      var existing := GetByKey(p.key);
      if existing.Some? && existing.value.value == Some(p.value) { return; }
      var status, conflictsWith := FactConfirmed, None;
      if existing.Some? && existing.value.source.kind.FromAsset? {
        status, conflictsWith := FactConflict, Some(existing.value.factId);
      }
      facts := facts + [Fact(p.factId, p.key, Some(p.value), p.source, status, conflictsWith)];
    }

    method UpsertFacts(ps: seq<W.FactProposal>)
      modifies this`facts
      ensures facts == W.UpsertAll(old(facts), ps)
    {
      for i := 0 to |ps|
        invariant facts == W.UpsertAll(old(facts), ps[..i])
      {
        assert ps[..i + 1][..i] == ps[..i];
        UpsertFact(ps[i]);
      }
      assert ps[..|ps|] == ps;
    }

    // ---------------------------------------------------------- intake and class

    method SaveIntent(p: Project, env: W.Env) returns (error: Option<Error>)
      requires Valid(env) && p.state == project.state && p.projectId == project.projectId
      requires p.registrationNumber == project.registrationNumber
      modifies this`project, this`audit
      ensures var o := W.SaveIntent(old(State()), p, env); State() == o.after && error == o.error
      ensures Valid(env) && R.Grows(old(State()), State())
      ensures error.None? && project.state == (if p.state == DRAFT then INTAKE_DONE else p.state)
      ensures project == p.(state := project.state, updatedAt := project.updatedAt)
    {
      R.SaveIntentKeeps(State(), p, env);
      if p.state == DRAFT {
        error := Transition(p, INTAKE_DONE, "intent.submitted", env);
      } else {
        project := p;
        error := None;
      }
    }

    method ApplyReviewConfirmation(details: ConfirmedDetails, ids: nat -> string, env: W.Env) returns (error: Option<Error>)
      requires Valid(env) && details.title != ""
      modifies this`project, this`audit, this`facts
      ensures var o := W.ApplyConfirmation(old(State()), details, ids, env); State() == o.after && error == o.error
      ensures Valid(env) && R.Grows(old(State()), State())
      ensures Filing.SaysDetails(facts, details)
    {
      R.ApplyConfirmationKeeps(State(), details, ids, env);
      Filing.ConfirmedValuesAreLatest(State(), details, ids, env);
      error := SaveIntent(project.(title := Some(details.title), bracket := details.bracket, amount := None,
                                   updatedAt := env.now), env);
      if error.None? { UpsertFacts(W.DetailFacts(project.projectId, details, ids)); }
    }

    method ConfirmRoadmap(env: W.Env) returns (error: Option<Error>)
      requires Valid(env)
      modifies this`project, this`audit
      ensures var o := W.ConfirmRoadmap(old(State()), env); State() == o.after && error == o.error
      ensures Valid(env) && R.Grows(old(State()), State())
      ensures error.None? <==> old(project).classification.Some?
                                && (old(project).roadmapConfirmed == Some(true) || old(project.state) == CLASSIFIED)
      ensures old(project).classification.Some? ==> project.roadmapConfirmed == Some(true)
    {
      R.ConfirmRoadmapKeeps(State(), env);
      Filing.RoadmapExactly(State(), env);
      if project.classification.None? { return Some(StateInvalid); }
      if project.roadmapConfirmed == Some(true) { return None; }
      project := project.(roadmapConfirmed := Some(true), updatedAt := env.now);
      error := Transition(project, ROADMAP_CONFIRMED, "roadmap.confirmed", env);
      if error.Some? { return; }
      error := Transition(project, COLLECTING_MATERIALS, "materials.collection_started", env);
    }

    // ----------------------------------------------------------------- findings

    /** Carries prior findings onto this version. */
    method CarryFindingsForward(version: string, document: string) returns (seen: set<F.Key>)
      requires Distinct(findings, FindingId)
      modifies this`findings
      ensures findings == F.Carry(old(findings), version, document)
      ensures seen == F.SeenKeys(old(findings), version, document)
      ensures F.AllCarried(old(findings), findings, version, document)
    {
      F.CarriedExactly(findings, version, document);
      seen := CarryEach(version, document);
    }

    /** One finding after another, each with one save at most. */
    method CarryEach(version: string, document: string) returns (seen: set<F.Key>)
      requires Distinct(findings, FindingId)
      modifies this`findings
      ensures findings == F.Carry(old(findings), version, document)
      ensures seen == F.SeenKeys(old(findings), version, document)
    {
      var listed := findings;
      seen := {};
      for i := 0 to |listed|
        invariant findings == F.Carry(listed[..i], version, document) + listed[i..]
        invariant seen == F.SeenKeys(listed[..i], version, document)
      {
        var f := listed[i];
        CarryStep(listed, i, version, document);
        F.SeenSnoc(listed[..i], f, version, document);
        assert listed[..i + 1] == listed[..i] + [f];
        ghost var before := findings;
        if f.active {
          if f.assetVersion == version {
            seen := seen + {F.KeyOf(f)};
          } else if f.alert.None? {
            if f.quote != "" && F.Occurs(f.quote, document) {
              findings := PutById(findings, FindingId, f.(assetVersion := version));
              seen := seen + {F.KeyOf(f)};
            } else if f.status.Open? {
              findings := PutById(findings, FindingId, f.(status := SelfFixed));
            }
          }
        }
        assert findings == before[i := F.CarryOne(f, version, document)] by {
          PutAt(before, i, F.CarryOne(f, version, document));
        }
      }
      assert listed[..|listed|] == listed;
    }

    /** A new generation's review retires the asset's current script conclusions. */
    method RetireConclusions(version: string)
      requires Distinct(findings, FindingId)
      modifies this`findings
      ensures findings == F.Retire(old(findings), version)
    {
      var listed := findings;
      for i := 0 to |listed|
        invariant findings == F.Retire(listed[..i], version) + listed[i..]
      {
        var f := listed[i];
        RetireStep(listed, i, version);
        ghost var before := findings;
        if f.alert.None? && f.assetVersion == version && f.active {
          findings := PutById(findings, FindingId, f.(active := false));
        }
        assert findings == before[i := F.RetireOne(f, version)] by {
          PutAt(before, i, F.RetireOne(f, version));
        }
      }
      assert listed[..|listed|] == listed;
    }

    /** Stores a new finding for every proposal whose key is neither known nor proposed before. */
    method WriteProposals(known: set<F.Key>, ps: seq<F.Proposal>, version: string, generation: Option<nat>,
                          ids: nat -> string)
      requires F.FreshIds(findings, ids)
      modifies this`findings
      ensures findings == old(findings) + F.WriteAll(F.Kept(known, ps), ids, version, generation)
    {
      var existing := known;
      ghost var base := findings;
      ghost var kept := [];
      var written: nat := 0;
      for i := 0 to |ps|
        invariant written == |kept|
        invariant F.Kept(known, ps) == kept + F.Kept(existing, ps[i..])
        invariant findings == base + F.WriteAll(kept, ids, version, generation)
      {
        var key := F.ProposalKey(ps[i]);
        KeptNext(existing, ps, i, kept);
        if key !in existing {
          existing := existing + {key};
          var f := F.Written(ps[i], ids(written), version, generation);
          WriteStep(base, kept, ps[i], ids, version, generation);
          findings := PutById(findings, FindingId, f);
          kept := kept + [ps[i]];
          written := written + 1;
        }
      }
    }

    method AdvanceAfterReview(env: W.Env) returns (error: Option<Error>)
      modifies this`project, this`audit
      ensures var o := W.Advance(old(State()), env); State() == o.after && error == o.error
      ensures old(Valid(env)) ==> Valid(env) && R.Grows(old(State()), State())
      ensures error.None? && old(project.state) in {COLLECTING_MATERIALS, REVIEW_RUNNING} ==>
                project.state == if W.AnyBlocking(findings) then REVISION_LOOP else REVIEW_RUNNING
      ensures old(project.state) !in {COLLECTING_MATERIALS, REVIEW_RUNNING} ==> project == old(project)
    {
      if Valid(env) { R.AdvanceKeeps(State(), env); }
      error := None;
      if project.state == COLLECTING_MATERIALS {
        error := Transition(project, REVIEW_RUNNING, "review.started", env);
        if error.Some? { return; }
      }
      if project.state != REVIEW_RUNNING { return; }
      if exists f | f in findings :: BlocksGate(f) {
        error := Transition(project, REVISION_LOOP, "review.findings_open", env);
      }
    }

    method ReviewNow(version: string, document: string, ps: seq<F.Proposal>, generation: Option<nat>,
                     ids: nat -> string, env: W.Env) returns (error: Option<Error>)
      requires Valid(env) && F.FreshIds(findings, ids)
      modifies this`project, this`audit, this`findings
      ensures var o := W.ReviewScript(old(State()), version, document, ps, generation, ids, env);
              State() == o.after && error == o.error
      ensures Valid(env) && R.Grows(old(State()), State())
      ensures generation.Some? ==> CurrentAreOf(findings, version, generation)
      ensures generation.None? ==> F.AllCarried(old(findings), findings, version, document)
    {
      ReviewMeans(State(), version, document, ps, generation, ids, env);
      StoreReview(version, document, ps, generation, ids);
      error := AdvanceAfterReview(env);
    }

    /** Carry forward or retire, then write what is new. */
    method StoreReview(version: string, document: string, ps: seq<F.Proposal>, generation: Option<nat>, ids: nat -> string)
      requires Distinct(findings, FindingId) && F.FreshIds(findings, ids)
      modifies this`findings
      ensures findings == F.Review(old(findings), version, document, ps, generation, ids)
    {
      var existing: set<F.Key> := {};
      ghost var before := findings;
      if generation.None? {
        existing := CarryFindingsForward(version, document);
      } else {
        RetireConclusions(version);
      }
      F.StillFresh(before, findings, ids);
      WriteProposals(existing, ps, version, generation, ids);
    }

    method DeactivateOtherAlerts(id: string)
      requires Distinct(findings, FindingId)
      modifies this`findings
      ensures findings == F.QuietOthers(old(findings), id)
    {
      var listed := findings;
      for i := 0 to |listed|
        invariant findings == F.QuietOthers(listed[..i], id) + listed[i..]
      {
        var f := listed[i];
        QuietStep(listed, i, id);
        ghost var before := findings;
        if f.assetVersion == F.INTENT && f.alert.Some? && f.findingId != id && f.active {
          findings := PutById(findings, FindingId, f.(active := false));
        }
        assert findings == before[i := F.Quiet(f, id)] by { PutAt(before, i, F.Quiet(f, id)); }
      }
      assert listed[..|listed|] == listed;
    }

    /** One active classification alert at most, under the project's fixed alert id. */
    method SyncClassificationAlert(id: string, alert: Option<Finding>, generation: Option<nat>)
      requires Distinct(findings, FindingId)
      modifies this`findings
      ensures findings == F.SyncAlert(old(findings), id, alert, generation)
    {
      F.QuietedIds(findings, id);
      DeactivateOtherAlerts(id);
      if alert.Some? {
        findings := PutById(findings, FindingId, alert.value.(findingId := id, generation := generation, active := true));
        return;
      }
      var i := Find(findings, FindingId, id);
      if i < |findings| && findings[i].active {
        var closed := findings[i].(active := false, generation := generation);
        PutAt(findings, i, closed);
        findings := PutById(findings, FindingId, closed);
      }
    }

    method ActOnFinding(id: string, action: F.Action, ghost env: W.Env) returns (error: Option<Error>)
      requires Valid(env)
      modifies this`findings
      ensures var o := W.ActOnFinding(old(State()), id, action); State() == o.after && error == o.error
      ensures Valid(env) && R.Grows(old(State()), State())
      ensures error.None? ==> forall i | 0 <= i < |findings| && findings[i].findingId != id :: findings[i] == old(findings)[i]
      ensures forall i | 0 <= i < |old(findings)| && old(findings)[i].findingId == id ::
                && (error.None? <==> Decisions.Permitted(old(findings)[i], action))
                && (error.None? ==> i < |findings| && Decisions.DecidedAs(old(findings)[i], findings[i], action))
    {
      forall i | 0 <= i < |findings| && findings[i].findingId == id { Decisions.DecidedExactly(State(), i, action); }
      R.PolicyStepKeeps(State(), R.ActStep(id, action), env);
      F.ActKeepsIds(findings, id, action);
      F.ActTouchesOne(findings, id, action);
      error := StoreDecision(id, action);
    }

    /** The decision checked against the finding it names, then saved there. */
    method StoreDecision(id: string, action: F.Action) returns (error: Option<Error>)
      requires Distinct(findings, FindingId)
      modifies this`findings
      ensures var o := W.ActOnFinding(old(State()), id, action); State() == o.after && error == o.error
    {
      var i := Find(findings, FindingId, id);
      if i == |findings| { return Some(NotFound); }
      var updated := F.Acted(findings[i], action);
      if updated.None? { return Some(ValidationFailed); }
      PutIsAct(findings, id, action);
      findings := PutById(findings, FindingId, updated.value);
      return None;
    }

    // ----------------------------------------------------------- classification

    method PersistClassification(c: W.Classified, generation: Option<nat>, env: W.Env) returns (error: Option<Error>)
      requires Valid(env) && R.ChainAnswer(c)
      modifies this`project, this`audit, this`facts, this`findings
      ensures var o := W.Persist(old(State()), c, generation, env); State() == o.after && error == o.error
      ensures Valid(env) && R.Grows(old(State()), State())
      ensures OnlyAlert(findings, W.AlertId(project), c.alert)
    {
      PersistMeans(State(), c, generation, env);
      error := StoreClassification(c, generation, env);
    }

    /** Class, facts and alert are saved before the state is settled. */
    method StoreClassification(c: W.Classified, generation: Option<nat>, env: W.Env) returns (error: Option<Error>)
      requires Distinct(findings, FindingId)
      modifies this`project, this`audit, this`facts, this`findings
      ensures var o := W.Persist(old(State()), c, generation, env); State() == o.after && error == o.error
    {
      error := None;
      if c.classification.Some? {
        project := project.(classification := c.classification, updatedAt := env.now);
      }
      UpsertFacts(c.facts);
      SyncClassificationAlert(W.AlertId(project), c.alert, generation);
      if c.next.Some? { error := Settle(c.next.value, env); }
    }

    method Settle(target: ProjectState, env: W.Env) returns (error: Option<Error>)
      modifies this`project, this`audit
      ensures var o := W.Settle(old(State()), target, env); State() == o.after && error == o.error
    {
      error := JudgeForm(target, env);
      if error.Some? { return; }
      if project.state != target {
        error := Transition(project, target, "classification.decided", env);
      }
    }

    /** A decided form type passes through FORM_JUDGED on its way to a class. */
    method JudgeForm(target: ProjectState, env: W.Env) returns (error: Option<Error>)
      modifies this`project, this`audit
      ensures var o := W.JudgeForm(old(State()), target, env); State() == o.after && error == o.error
    {
      error := None;
      if project.state == INTAKE_DONE && (target == CLASSIFIED || target == NEEDS_HUMAN_SUBJECT) {
        error := Transition(project, FORM_JUDGED, "d1a.form_type_decided", env);
      }
    }

    method RunClassification(c: W.Classified, generation: Option<nat>, env: W.Env) returns (error: Option<Error>)
      requires Valid(env) && R.ChainAnswer(c)
      modifies this`project, this`audit, this`facts, this`findings
      ensures var o := W.RunClassification(old(State()), c, generation, env); State() == o.after && error == o.error
      ensures Valid(env) && R.Grows(old(State()), State())
      ensures old(project.state) == DRAFT || c.askBack ==> error == Some(StateInvalid) && State() == old(State())
      ensures error.None? ==> OnlyAlert(findings, W.AlertId(project), c.alert)
    {
      if project.state == DRAFT { return Some(StateInvalid); }
      if c.askBack { return Some(StateInvalid); }
      error := PersistClassification(c, generation, env);
    }

    method Reclassify(c: W.Classified, env: W.Env) returns (error: Option<Error>)
      requires Valid(env) && R.ChainAnswer(c)
      modifies this`project, this`facts
      ensures var o := W.Reclassify(old(State()), c, env); State() == o.after && error == o.error
      ensures Valid(env) && R.Grows(old(State()), State())
      ensures project.state == old(project.state)
      ensures error.None? ==> project.classification == c.classification && !project.policyStale
      ensures error.Some? ==> State() == old(State())
      ensures error.None? <==>
                && old(project).policyStale && !c.askBack && c.classification.Some?
                && !R.NotJudged(old(project.state)) && !R.UnderFiling(old(project.state))
                && old(project.state) !in {EXIT_NON_DRAMA, EXIT_SISTER_PATH, EXIT_T2, EXIT_T3}
    {
      R.ReclassifyKeeps(State(), c, env);
      Outcomes.ReclassifyExactly(State(), c, env);
      if !project.policyStale { return Some(StateInvalid); }
      if project.state !in W.RECLASSIFIABLE { return Some(StateInvalid); }
      if c.askBack || c.classification.None? { return Some(StateInvalid); }
      project := project.(classification := c.classification, policyStale := false, updatedAt := env.now);
      UpsertFacts(c.facts);
      return None;
    }

    /** Recalculates a provisional tier only, and never one that is frozen or registered. */
    method RecalcTier(version: string, decision: W.TierDecision, env: W.Env) returns (changed: bool)
      requires Valid(env)
      modifies this`project
      ensures State() == W.RecalcTier(old(State()), version, decision, env).after
      ensures project == old(project)
              || project == old(project).(classification := project.classification, policyStale := false, updatedAt := env.now)
      ensures changed ==> old(project).classification.Some? && old(project).classification.value.provisional
                          && !R.UnderFiling(old(project.state)) && project.classification.Some?
      ensures changed <==> old(project).classification.Some? && project.classification.Some?
                           && (project.classification.value.tier != old(project).classification.value.tier
                               || project.classification.value.provisional != old(project).classification.value.provisional)
      ensures Valid(env) && R.Grows(old(State()), State())
      ensures changed ==> !old(project.state in R.IN_FILING)
    {
      R.PolicyStepKeeps(State(), R.RecalcStep(version, decision), env);
      if project.classification.None? { return false; }
      var c := project.classification.value;
      if project.state in W.RECALC_FROZEN || W.NonEmpty(project.registrationNumber) { return false; }
      if !c.provisional { return false; }
      changed := decision.tier != c.tier || decision.provisional != c.provisional;
      var evidence := if decision.clause.Some? then [decision.clause.value] else c.evidence;
      project := project.(classification := Some(Classification(decision.tier, decision.provisional, version, evidence)),
                          policyStale := false, updatedAt := env.now);
    }

    /** Flags the project; the answer says whether the creator is told. */
    method MarkPolicyStale(env: W.Env) returns (notify: bool)
      requires Valid(env)
      modifies this`project
      ensures State() == W.MarkStale(old(State()), env).after
      ensures notify <==> !old(project).policyStale
      ensures Valid(env) && R.Grows(old(State()), State())
      ensures project == old(project).(policyStale := true, updatedAt := env.now)
    {
      R.PolicyStepKeeps(State(), R.StaleStep, env);
      notify := !project.policyStale;
      project := project.(policyStale := true, updatedAt := env.now);
    }

    // ------------------------------------------------------- materials and the gate

    /** The pack says which cards exist, the store where each one is; a card is stored when first met. */
    method MaterialCards(defined: seq<Card>) returns (listed: seq<Card>)
      modifies this`cards
      ensures var m := W.MaterialCards(old(cards), defined); cards == m.stored && listed == m.cards
    {
      var unclaimed := cards;
      listed := [];
      ghost var start := W.Materialised(cards, cards, []);
      for i := 0 to |defined|
        invariant W.TakeCards(start, defined[..i]) == W.Materialised(cards, unclaimed, listed)
      {
        assert defined[..i + 1][..i] == defined[..i];
        var at := Find(unclaimed, CardId, defined[i].materialId);
        if at < |unclaimed| {
          listed := listed + [unclaimed[at]];
          unclaimed := W.Remove(unclaimed, at);
        } else {
          cards := PutById(cards, CardId, defined[i]);
          listed := listed + [defined[i]];
        }
      }
      assert defined[..|defined|] == defined;
      listed := listed + unclaimed;
    }

    method TouchMaterial(id: string, request: W.CardRequest, env: W.Env) returns (error: Option<Error>)
      requires Valid(env)
      modifies this`cards
      ensures var o := W.TouchMaterial(old(State()), id, request, env); State() == o.after && error == o.error
      ensures Valid(env) && R.Grows(old(State()), State())
      ensures error.None? ==> exists c | c in cards :: c.materialId == id && Decisions.Asked(request, c.status)
    {
      R.TouchMaterialKeeps(State(), id, request, env);
      if request.Waive? && Strip(request.reason) == "" { return Some(ValidationFailed); }
      var listed := MaterialCards(env.cards(W.Pinned(project, env)));
      var i := Find(listed, CardId, id);
      if i == |listed| { return Some(NotFound); }
      var verdict := W.CardVerdict(request);
      if verdict.Err? { return Some(verdict.error); }
      var updated := listed[i].(status := verdict.value);
      PutIsThere(cards, updated);
      cards := PutById(cards, CardId, updated);
      return None;
    }

    method PassGate(env: W.Env) returns (error: Option<Error>)
      requires Valid(env)
      modifies this`project, this`audit, this`cards
      ensures var o := W.PassGate(old(State()), env); State() == o.after && error == o.error
      ensures Valid(env) && R.Grows(old(State()), State())
      ensures error.None? ==> project.state == GATE_D3_PASSED && GatePassing.GateHolds(State(), env)
      ensures error.Some? ==> project == old(project) && audit == old(audit)
      ensures error.None? || error == Some(GateBlocked)
              || (error == Some(StateInvalid) && old(project.state) !in {REVIEW_RUNNING, REVISION_LOOP, GATE_D3_PASSED})
    {
      R.PassGateKeeps(State(), env);
      GatePassing.PassGateMeans(State(), env);
      var listed := MaterialCards(env.cards(W.Pinned(project, env)));
      var gaps := EvaluateGate(findings, facts, listed, env.required(W.Pinned(project, env)));
      if gaps != [] { return Some(GateBlocked); }
      error := EnterGate(env);
    }

    /** An open report moves a project that is ready, and leaves one that has passed. */
    method EnterGate(env: W.Env) returns (error: Option<Error>)
      modifies this`project, this`audit
      ensures var o := W.EnterGate(old(State()), env); State() == o.after && error == o.error
    {
      if project.state == GATE_D3_PASSED { return None; }
      if project.state !in W.GATE_READY { return Some(StateInvalid); }
      error := Transition(project, GATE_D3_PASSED, "gate.d3_passed", env);
    }

    // -------------------------------------------------------------------- forms

    method FormDraft(freshId: string, env: W.Env) returns (error: Option<Error>, draft: Option<Entities.FormDraft>)
      modifies this`forms
      ensures var o := W.FormDraftOf(old(State()), freshId, env); State() == o.after && error == o.error
      ensures error.None? ==> draft == Some(W.DraftRead(old(State()), freshId, env))
      ensures old(Valid(env)) ==> Valid(env) && R.Grows(old(State()), State())
      ensures LatestFrozen(old(forms)) ==> forms == old(forms)
    {
      if Valid(env) { R.FormDraftKeeps(State(), freshId, env); }
      if LatestFrozen(forms) { return None, Some(forms[|forms| - 1]); }
      var version := W.Pinned(project, env);
      var built := BuildFields(env.required(version), facts);
      if built.None? { return Some(ValidationFailed), None; }
      var prior := W.Latest(forms);
      var rebuilt := Entities.FormDraft(
        if prior.Some? then prior.value.draftId else freshId, W.FORM_TYPE, false, built.value.0, built.value.1, None,
        version, if prior.Some? then prior.value.parentDraft else None);
      forms := PutById(forms, DraftId, rebuilt);
      return None, Some(rebuilt);
    }

    method OpenField(key: string, freshId: string, env: W.Env) returns (error: Option<Error>)
      requires Valid(env)
      modifies this`forms
      ensures var o := W.OpenField(old(State()), key, freshId, env); State() == o.after && error == o.error
      ensures Valid(env) && R.Grows(old(State()), State())
      ensures error.None? ==> !LatestFrozen(forms) && key in env.required(W.Pinned(project, env))
    {
      R.OpenFieldKeeps(State(), key, freshId, env);
      GatePassing.OpenFieldMeans(State(), key, freshId, env);
      var draft;
      error, draft := FormDraft(freshId, env);
      if error.Some? { return; }
      if draft.value.frozen { return Some(Conflict); }
      if key !in draft.value.fields { return Some(NotFound); }
    }

    method ConfirmFormField(key: string, value: Option<Value>, factId: string, answerId: string, freshId: string,
                            env: W.Env) returns (error: Option<Error>)
      requires Valid(env)
      modifies this`forms, this`facts
      ensures var o := W.ConfirmField(old(State()), key, value, factId, answerId, freshId, env);
              State() == o.after && error == o.error
      ensures Valid(env) && R.Grows(old(State()), State())
      ensures error.None? ==> value.Some? && Filing.Says(facts, key, value.value)
    {
      ghost var o := W.ConfirmField(State(), key, value, factId, answerId, freshId, env);
      R.ConfirmFieldKeeps(State(), key, value, factId, answerId, freshId, env);
      Filing.ConfirmedFieldIsLatest(State(), key, value, factId, answerId, freshId, env);
      error := OpenField(key, freshId, env);
      if error.Some? { assert State() == o.after; return; }
      if Blank(value) { assert State() == o.after; return Some(ValidationFailed); }
      UpsertFact(W.FactProposal(factId, key, value.value, SourceRef(FromAnswer, answerId, None)));
      var draft;
      error, draft := FormDraft(freshId, env);
      assert State() == o.after;
    }

    /** A gap is declared unless the key's latest fact is confirmed. */
    method StoreDeferral(key: string, factId: string, source: SourceRef) returns (stored: bool)
      modifies this`facts
      ensures stored <==> CanDefer(old(facts), key)
      ensures facts == if stored then DeferFact(old(facts), factId, key, source) else old(facts)
    {
      var existing := GetByKey(key);
      if existing.Some? && existing.value.status.FactConfirmed? { return false; }
      facts := facts + [Fact(factId, key, None, source, FactDeferred, None)];
      return true;
    }

    method DeferFormField(key: string, factId: string, answerId: string, freshId: string, env: W.Env)
      returns (error: Option<Error>)
      requires Valid(env)
      modifies this`forms, this`facts
      ensures var o := W.DeferField(old(State()), key, factId, answerId, freshId, env);
              State() == o.after && error == o.error
      ensures Valid(env) && R.Grows(old(State()), State())
      ensures error.None? ==> Filing.GapAdded(old(facts), facts, key)
    {
      R.DeferFieldKeeps(State(), key, factId, answerId, freshId, env);
      Filing.DeferralAdds(State(), key, factId, answerId, freshId, env);
      error := OpenField(key, freshId, env);
      if error.Some? { return; }
      error := DeferOpened(key, factId, answerId, freshId, env);
    }

    /** Once the field is open: the declared gap, then the draft again. */
    method DeferOpened(key: string, factId: string, answerId: string, freshId: string, env: W.Env) returns (error: Option<Error>)
      modifies this`forms, this`facts
      ensures var o := W.DeferOpened(old(State()), key, factId, answerId, freshId, env);
              State() == o.after && error == o.error
    {
      var stored := StoreDeferral(key, factId, SourceRef(FromAnswer, answerId, None));
      if !stored { return Some(ValidationFailed); }
      var draft;
      error, draft := FormDraft(freshId, env);
    }

    method FreezeForm(freshId: string, env: W.Env) returns (error: Option<Error>)
      requires Valid(env)
      modifies this`project, this`audit, this`forms
      ensures var o := W.FreezeForm(old(State()), freshId, env); State() == o.after && error == o.error
      ensures Valid(env) && R.Grows(old(State()), State())
      ensures error.None? ==> LatestFrozen(forms) && (old(LatestFrozen(forms)) || project.state == FORM_FROZEN)
      ensures !old(LatestFrozen(forms)) ==>
                (error.None? <==> && old(project.state) == GATE_D3_PASSED
                                  && Buildable(env.required(W.Pinned(old(project), env)), facts)
                                  && PendingKeys(Fields(env.required(W.Pinned(old(project), env)), facts)) == {})
    {
      R.FreezeFormKeeps(State(), freshId, env);
      if !LatestFrozen(forms) { Filing.FrozenExactly(State(), freshId, env); }
      if LatestFrozen(forms) { return None; }
      if project.state != GATE_D3_PASSED { return Some(StateInvalid); }
      var draft;
      error, draft := FormDraft(freshId, env);
      if error.Some? { return; }
      var drawn := draft.value;
      if PendingKeys(drawn.fields) != {} { return Some(GateBlocked); }
      error := LockDraft(drawn, env);
    }

    /** The frozen copy is stored, then the state moves. */
    method LockDraft(drawn: Entities.FormDraft, env: W.Env) returns (error: Option<Error>)
      modifies this`project, this`audit, this`forms
      ensures var saved := old(State()).(forms := PutById(old(forms), DraftId, W.Frozen(drawn, env)));
              var o := W.Transition(saved, old(project), FORM_FROZEN, "form.frozen", env);
              State() == o.after && error == o.error
    {
      forms := PutById(forms, DraftId, drawn.(frozen := true, hash := Some(env.digest(drawn.formType, drawn.snapshotVersion, drawn.fields))));
      error := Transition(project, FORM_FROZEN, "form.frozen", env);
    }

    // --------------------------------------------------------- institution and filing

    method SubmitToInstitution(reviewId: string, licenseValid: bool, env: W.Env) returns (error: Option<Error>)
      requires Valid(env)
      modifies this`project, this`audit, this`reviews
      ensures var o := W.SubmitToInstitution(old(State()), reviewId, licenseValid, env);
              State() == o.after && error == o.error
      ensures Valid(env) && R.Grows(old(State()), State())
      ensures error.None? <==> old(project.state) in {FORM_FROZEN, INSTITUTION_REVIEW}
      ensures error.None? ==> project.state == INSTITUTION_REVIEW && forms == old(forms)
    {
      R.SubmitKeeps(State(), reviewId, licenseValid, env);
      if project.state !in {FORM_FROZEN, INSTITUTION_REVIEW} { return Some(StateInvalid); }
      reviews := PutById(reviews, W.ReviewId, W.InstitutionReview(reviewId, licenseValid, None, "", ""));
      error := Transition(project, INSTITUTION_REVIEW, "institution.submitted", env);
    }

    /** Checks a verdict on the latest review and stores it there. */
    method StoreVerdict(verdict: W.Verdict, comments: string, agreement: string) returns (error: Option<Error>)
      modifies this`reviews
      ensures error == W.VerdictError(old(reviews), verdict, comments, agreement)
      ensures error.None? ==> old(reviews) != [] && reviews == W.Judge(old(reviews), verdict, comments, agreement)
      ensures error.Some? ==> reviews == old(reviews)
    {
      if reviews == [] { return Some(NotFound); }
      var review := reviews[|reviews| - 1];
      if verdict.AcceptVerdict? {
        if Strip(agreement) == "" { return Some(ValidationFailed); }
        if !review.licenseValid { return Some(ValidationFailed); }
      }
      if verdict.ReturnVerdict? && Strip(comments) == "" { return Some(ValidationFailed); }
      reviews := PutById(reviews, W.ReviewId,
                         review.(decision := Some(verdict), comments := comments, agreement := agreement));
      return None;
    }

    method FollowVerdict(verdict: W.Verdict, env: W.Env) returns (error: Option<Error>)
      modifies this`project, this`audit
      ensures var o := W.ActOnVerdict(old(State()), verdict, env); State() == o.after && error == o.error
    {
      var target := W.Target(verdict);
      if target.None? { return None; }
      error := Transition(project, target.value, "institution.decided", env);
    }

    method DecideInstitutionReview(verdict: W.Verdict, comments: string, agreement: string, env: W.Env)
      returns (error: Option<Error>)
      requires Valid(env)
      modifies this`project, this`audit, this`reviews
      ensures var o := W.Decide(old(State()), verdict, comments, agreement, env); State() == o.after && error == o.error
      ensures Valid(env) && R.Grows(old(State()), State())
      ensures project.state == Filing.Judged(old(State()), verdict, comments, agreement)
    {
      R.DecideKeeps(State(), verdict, comments, agreement, env);
      Filing.DecideMeans(State(), verdict, comments, agreement, env);
      error := StoreVerdict(verdict, comments, agreement);
      if error.Some? { return; }
      error := FollowVerdict(verdict, env);
    }

    method ResumeAfterReturn(freshId: string, env: W.Env) returns (error: Option<Error>)
      requires Valid(env) && R.FreshDraft(forms, freshId)
      modifies this`project, this`audit, this`forms
      ensures var o := W.ResumeAfterReturn(old(State()), freshId, env); State() == o.after && error == o.error
      ensures Valid(env) && R.Grows(old(State()), State())
      ensures old(project.state) == INSTITUTION_RETURNED ==>
                project.state == REVISION_LOOP && old(forms) != []
                && forms == old(forms) + [W.Successor(old(forms)[|old(forms)| - 1], freshId)]
      ensures old(project.state) != INSTITUTION_RETURNED ==> error == Some(StateInvalid) && State() == old(State())
    {
      R.ResumeKeeps(State(), freshId, env);
      if project.state != INSTITUTION_RETURNED { return Some(StateInvalid); }
      error := Reopen(freshId, env);
    }

    /** The frozen form gets its successor, then the state moves. */
    method Reopen(freshId: string, env: W.Env) returns (error: Option<Error>)
      modifies this`project, this`audit, this`forms
      ensures old(project.state) == INSTITUTION_RETURNED ==>
                var o := W.ResumeAfterReturn(old(State()), freshId, env); State() == o.after && error == o.error
    {
      AddSuccessor(freshId);
      error := Transition(project, REVISION_LOOP, "institution.returned_for_revision", env);
    }

    method AddSuccessor(freshId: string)
      modifies this`forms
      ensures forms == if LatestFrozen(old(forms))
                       then PutById(old(forms), DraftId, W.Successor(old(forms)[|old(forms)| - 1], freshId)) else old(forms)
    {
      if LatestFrozen(forms) {
        forms := PutById(forms, DraftId, W.Successor(forms[|forms| - 1], freshId));
      }
    }

    method RecordFiling(number: string, env: W.Env) returns (error: Option<Error>)
      requires Valid(env)
      modifies this`project, this`audit
      ensures var o := W.RecordFiling(old(State()), number, env); State() == o.after && error == o.error
      ensures Valid(env) && R.Grows(old(State()), State())
      ensures old(project.state) != FILED ==>
                (project.state == FILED <==> Strip(number) != "" && old(project.state) == READY_FOR_EXTERNAL_FILING)
      ensures Strip(number) != "" ==> project.registrationNumber == Some(Strip(number))
    {
      R.RecordFilingKeeps(State(), number, env);
      if project.state != FILED { Filing.FiledExactly(State(), number, env); }
      if Strip(number) == "" { return Some(ValidationFailed); }
      project := project.(registrationNumber := Some(Strip(number)), updatedAt := env.now);
      error := Transition(project, FILED, "filing.recorded", env);
    }
  }

  lemma FreezeFromGate(from: ProjectState)
    ensures FORM_FROZEN in Allowed(from) <==> from == GATE_D3_PASSED
    ensures Terminal(from) ==> Allowed(from) == {}
  {
  }

  lemma PutIsAct(findings: seq<Finding>, id: string, action: F.Action)
    requires Distinct(findings, FindingId) && Find(findings, FindingId, id) < |findings|
    requires F.Acted(findings[Find(findings, FindingId, id)], action).Some?
    ensures var f := F.Acted(findings[Find(findings, FindingId, id)], action).value;
            PutById(findings, FindingId, f) == F.Act(findings, id, action)
  {
    var i := Find(findings, FindingId, id);
    PutAt(findings, i, F.Acted(findings[i], action).value);
  }

  lemma PutIsThere(cards: seq<Card>, c: Card)
    ensures c in PutById(cards, CardId, c)
  {
    var i := Find(cards, CardId, c.materialId);
    assert PutById(cards, CardId, c)[i] == c;
  }

  ghost predicate CurrentAreOf(findings: seq<Finding>, version: string, generation: Option<nat>) {
    forall f | f in findings && F.Current(f) && f.assetVersion == version :: f.generation == generation
  }

  lemma ReviewMeans(w: W.Workspace, version: string, document: string, ps: seq<F.Proposal>, generation: Option<nat>,
                    ids: nat -> string, env: W.Env)
    requires R.Inv(w, env.digest) && Distinct(w.findings, FindingId) && F.FreshIds(w.findings, ids)
    ensures var v := W.ReviewScript(w, version, document, ps, generation, ids, env).after;
            && R.Inv(v, env.digest) && R.Grows(w, v) && Distinct(v.findings, FindingId)
            && (generation.Some? ==> CurrentAreOf(v.findings, version, generation))
            && (generation.None? ==> F.AllCarried(w.findings, v.findings, version, document))
  {
    var reviewed := F.Review(w.findings, version, document, ps, generation, ids);
    R.ReviewScriptKeeps(w, version, document, ps, generation, ids, env);
    R.AdvanceLeavesFindings(w.(findings := reviewed), env);
    F.ReviewKeepsIds(w.findings, version, document, ps, generation, ids);
    if generation.None? { F.ReviewCarries(w.findings, version, document, ps, ids); }
    if generation.Some? {
      forall f | f in reviewed && F.Current(f) && f.assetVersion == version ensures f.generation == generation {
        var i :| 0 <= i < |reviewed| && reviewed[i] == f;
        F.GenerationIsFresh(w.findings, version, document, ps, generation.value, ids, i);
      }
    }
  }

  /** An active classification alert is there only if the chain raised one, under the project's one alert id. */
  ghost predicate OnlyAlert(findings: seq<Finding>, id: string, alert: Option<Finding>) {
    forall i | 0 <= i < |findings| && F.ActiveAlert(findings[i]) :: alert.Some? && findings[i].findingId == id
  }

  lemma AlertsAfter(findings: seq<Finding>, id: string, alert: Option<Finding>, generation: Option<nat>)
    requires Distinct(findings, FindingId)
    ensures OnlyAlert(F.SyncAlert(findings, id, alert, generation), id, alert)
  {
    var after := F.SyncAlert(findings, id, alert, generation);
    forall i | 0 <= i < |after| && F.ActiveAlert(after[i]) ensures alert.Some? && after[i].findingId == id {
      F.OneActiveAlert(findings, id, alert, generation, i);
    }
  }

  lemma PersistMeans(w: W.Workspace, c: W.Classified, generation: Option<nat>, env: W.Env)
    requires R.Inv(w, env.digest) && Distinct(w.findings, FindingId) && R.ChainAnswer(c)
    ensures var v := W.Persist(w, c, generation, env).after;
            && R.Inv(v, env.digest) && R.Grows(w, v) && Distinct(v.findings, FindingId)
            && OnlyAlert(v.findings, W.AlertId(v.project), c.alert)
  {
    R.PersistKeeps(w, c, generation, env);
    R.PersistedFindings(w, c, generation, env);
    AlertsAfter(w.findings, W.AlertId(w.project), c.alert, generation);
    F.SyncKeepsIds(w.findings, W.AlertId(w.project), c.alert, generation);
  }

  /** One turn of the write loop over what is still to be kept. */
  lemma KeptNext(existing: set<F.Key>, ps: seq<F.Proposal>, i: nat, kept: seq<F.Proposal>)
    requires i < |ps|
    ensures var key := F.ProposalKey(ps[i]);
            kept + F.Kept(existing, ps[i..]) ==
            if key in existing then kept + F.Kept(existing, ps[i + 1..])
            else kept + [ps[i]] + F.Kept(existing + {key}, ps[i + 1..])
  {
    assert ps[i..][1..] == ps[i + 1..];
  }

  lemma WriteStep(base: seq<Finding>, kept: seq<F.Proposal>, p: F.Proposal, ids: nat -> string, version: string,
                  generation: Option<nat>)
    requires F.FreshIds(base, ids)
    ensures var at := base + F.WriteAll(kept, ids, version, generation);
            PutById(at, FindingId, F.Written(p, ids(|kept|), version, generation))
            == base + F.WriteAll(kept + [p], ids, version, generation)
  {
    var written := F.WriteAll(kept, ids, version, generation);
    var at := base + written;
    var f := F.Written(p, ids(|kept|), version, generation);
    forall j | 0 <= j < |at| ensures FindingId(at[j]) != FindingId(f) {
      if j < |base| {
        assert at[j] in base;
      } else {
        assert written[j - |base|] == F.Written(kept[j - |base|], ids(j - |base|), version, generation);
      }
    }
    FindUnique(at, FindingId, FindingId(f), |at|);
    assert F.WriteAll(kept + [p], ids, version, generation) == written + [f];
  }

  lemma QuietStep(listed: seq<Finding>, i: nat, id: string)
    requires Distinct(listed, FindingId) && i < |listed|
    ensures var at := F.QuietOthers(listed[..i], id) + listed[i..];
            && Distinct(at, FindingId) && at[i] == listed[i]
            && at[i := F.Quiet(listed[i], id)] == F.QuietOthers(listed[..i + 1], id) + listed[i + 1..]
  {
    var at := F.QuietOthers(listed[..i], id) + listed[i..];
    F.SameIdsDistinct(listed, at);
  }

  /** Part way through the loop: the processed prefix, then the findings as listed. */
  lemma CarryStep(listed: seq<Finding>, i: nat, version: string, document: string)
    requires Distinct(listed, FindingId) && i < |listed|
    ensures var at := F.Carry(listed[..i], version, document) + listed[i..];
            && Distinct(at, FindingId) && at[i] == listed[i]
            && at[i := F.CarryOne(listed[i], version, document)] == F.Carry(listed[..i + 1], version, document) + listed[i + 1..]
  {
    var at := F.Carry(listed[..i], version, document) + listed[i..];
    F.SameIdsDistinct(listed, at);
  }

  lemma RetireStep(listed: seq<Finding>, i: nat, version: string)
    requires Distinct(listed, FindingId) && i < |listed|
    ensures var at := F.Retire(listed[..i], version) + listed[i..];
            && Distinct(at, FindingId) && at[i] == listed[i]
            && at[i := F.RetireOne(listed[i], version)] == F.Retire(listed[..i + 1], version) + listed[i + 1..]
  {
    var at := F.Retire(listed[..i], version) + listed[i..];
    F.SameIdsDistinct(listed, at);
  }
}
