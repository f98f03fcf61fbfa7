/** What the invariant of one call says about whole runs from a newly created project. */
module WorkflowHistory {
  import opened Entities
  import opened Keyed
  import opened MemoryStore
  import opened StateMachine
  import opened GateAndForms
  import opened Workflow
  import opened WorkflowRuns
  import Findings

  /** One call, with the snapshot version that is latest and the time when it is made. */
  datatype Call = Call(step: Step, latest: string, now: int)

  function At(env: Env, c: Call): Env { env.(latest := c.latest, now := c.now) }

  function Run(w: Workspace, cs: seq<Call>, env: Env): Workspace
    decreases |cs|
  {
    if cs == [] then w else Do(Run(w, cs[..|cs| - 1], env), cs[|cs| - 1].step, At(env, cs[|cs| - 1])).after
  }

  ghost predicate LegalRun(w: Workspace, cs: seq<Call>, env: Env)
    decreases |cs|
  {
    cs == [] || (LegalRun(w, cs[..|cs| - 1], env) && Legal(Run(w, cs[..|cs| - 1], env), cs[|cs| - 1].step))
  }

  ghost predicate Created(w: Workspace) {
    && w.project.state == DRAFT && w.facts == [] && w.findings == [] && w.forms == []
    && w.audit == [] && w.cards == [] && w.reviews == []
  }

  lemma {:induction false} RunKeeps(w: Workspace, cs: seq<Call>, env: Env)
    requires Created(w) && LegalRun(w, cs, env)
    ensures Inv(Run(w, cs, env), env.digest)
    decreases |cs|
  {
    if cs != [] {
      var n := |cs| - 1;
      RunKeeps(w, cs[..n], env);
      StepKeeps(Run(w, cs[..n], env), cs[n].step, At(env, cs[n]));
    }
  }

  lemma {:induction false} PrefixLegal(w: Workspace, cs: seq<Call>, env: Env, n: nat)
    requires LegalRun(w, cs, env) && n <= |cs|
    ensures LegalRun(w, cs[..n], env)
    decreases |cs|
  {
    if n < |cs| {
      PrefixLegal(w, cs[..|cs| - 1], env, n);
      assert cs[..|cs| - 1][..n] == cs[..n];
    } else {
      assert cs[..n] == cs;
    }
  }

  /** Facts, audit entries and frozen drafts of any earlier moment are still there, unchanged. */
  lemma {:induction false} NothingIsUndone(w: Workspace, cs: seq<Call>, env: Env, n: nat)
    requires Created(w) && LegalRun(w, cs, env) && n <= |cs|
    ensures Grows(Run(w, cs[..n], env), Run(w, cs, env))
    decreases |cs|
  {
    if n < |cs| {
      var m := |cs| - 1;
      var before := Run(w, cs[..m], env);
      NothingIsUndone(w, cs[..m], env, n);
      assert cs[..m][..n] == cs[..n];
      RunKeeps(w, cs[..m], env);
      StepKeeps(before, cs[m].step, At(env, cs[m]));
      GrowsTransitive(Run(w, cs[..n], env), before, Run(w, cs, env));
    } else {
      assert cs[..n] == cs;
    }
  }

  /** One draft of a chain, as its neighbours and the log see it. */
  ghost predicate DraftInPlace(v: Workspace, i: nat, digest: Digest)
    requires i < |v.forms|
  {
    var d := v.forms[i];
    && d.parentDraft == (if i == 0 then None else Some(v.forms[i - 1].draftId))
    && (i + 1 < |v.forms| ==> d.frozen)
    && (d.frozen ==> d.hash == Some(digest(d.formType, d.snapshotVersion, d.fields)) && Complete(d.fields, v.facts))
  }

  /** Every field is filled from the log or declared to come from the institution. */
  ghost predicate Complete(fields: map<string, FormField>, facts: seq<Fact>) {
    forall k | k in fields ::
      fields[k].status.PendingInstitution? || (fields[k].status.Filled? && Backed(k, fields[k], facts))
  }

  lemma InPlace(v: Workspace, i: nat, digest: Digest)
    requires Inv(v, digest) && i < |v.forms|
    ensures DraftInPlace(v, i, digest)
  {
    assert Linked(v.forms, i) && v.forms[i] in v.forms;
    if v.forms[i].frozen {
      NoneOutstanding(v.forms[i].fields);
    }
  }

  /** The chain of a whole workspace; with no draft at all, the project is not in filing. */
  ghost predicate ChainInPlace(v: Workspace, digest: Digest) {
    && (LatestFrozen(v.forms) <==> v.project.state in IN_FILING)
    && forall i: nat | i < |v.forms| :: DraftInPlace(v, i, digest)
  }

  /**
   The draft chain, at the end of any run: every draft names the one before it, all
   but possibly the last are frozen, a frozen draft's hash is that of its own content
   and its content is complete and backed by the log, and there is a latest draft that
   is frozen exactly while the project is in filing.
   */
  lemma DraftChain(w: Workspace, cs: seq<Call>, env: Env)
    requires Created(w) && LegalRun(w, cs, env)
    ensures ChainInPlace(Run(w, cs, env), env.digest)
  {
    var v := Run(w, cs, env);
    RunKeeps(w, cs, env);
    forall i: nat | i < |v.forms| ensures DraftInPlace(v, i, env.digest) { InPlace(v, i, env.digest); }
  }

  lemma NoneOutstanding(fields: map<string, FormField>)
    requires PendingKeys(fields) == {}
    ensures forall k | k in fields :: fields[k].status.Filled? || fields[k].status.PendingInstitution?
  {
    forall k | k in fields ensures !Outstanding(fields[k]) { assert k !in PendingKeys(fields); }
  }

  // ------------------------------------------------------------------ how a gate opens

  ghost predicate NoGateEntry(w: Workspace, v: Workspace) {
    forall k | |w.audit| <= k < |v.audit| :: v.audit[k].toState != GATE_D3_PASSED
  }

  lemma OtherTransition(w: Workspace, p: Project, to: ProjectState, reason: string, env: Env)
    requires to != GATE_D3_PASSED
    ensures NoGateEntry(w, Transition(w, p, to, reason, env).after)
    ensures |w.audit| <= |Transition(w, p, to, reason, env).after.audit|
    ensures w.audit <= Transition(w, p, to, reason, env).after.audit
  {
    TransitionShape(w, p, to, reason, env);
  }

  lemma NoGateTransitive(u: Workspace, v: Workspace, w: Workspace)
    requires NoGateEntry(u, v) && NoGateEntry(v, w) && v.audit <= w.audit
    ensures NoGateEntry(u, w)
  {
  }

  lemma SettleNoGate(w: Workspace, to: ProjectState, env: Env)
    requires to != GATE_D3_PASSED
    ensures NoGateEntry(w, Settle(w, to, env).after)
  {
    OtherTransition(w, w.project, FORM_JUDGED, "d1a.form_type_decided", env);
    OtherTransition(w, w.project, to, "classification.decided", env);
    var judged := Transition(w, w.project, FORM_JUDGED, "d1a.form_type_decided", env).after;
    OtherTransition(judged, judged.project, to, "classification.decided", env);
    NoGateTransitive(w, judged, Transition(judged, judged.project, to, "classification.decided", env).after);
  }

  lemma ClassifyNoGate(w: Workspace, c: Classified, generation: Option<nat>, env: Env)
    requires ChainAnswer(c)
    ensures NoGateEntry(w, RunClassification(w, c, generation, env).after)
  {
    if c.next.Some? { SettleNoGate(Recorded(w, c, generation, env.now), c.next.value, env); }
  }

  lemma RoadmapNoGate(w: Workspace, env: Env)
    ensures NoGateEntry(w, ConfirmRoadmap(w, env).after)
  {
    var saved := w.(project := w.project.(roadmapConfirmed := Some(true), updatedAt := env.now));
    OtherTransition(saved, saved.project, ROADMAP_CONFIRMED, "roadmap.confirmed", env);
    var v := Transition(saved, saved.project, ROADMAP_CONFIRMED, "roadmap.confirmed", env).after;
    OtherTransition(v, v.project, COLLECTING_MATERIALS, "materials.collection_started", env);
    NoGateTransitive(saved, v, Transition(v, v.project, COLLECTING_MATERIALS, "materials.collection_started", env).after);
  }

  lemma AdvanceNoGate(w: Workspace, env: Env)
    ensures NoGateEntry(w, Advance(w, env).after)
  {
    OtherTransition(w, w.project, REVIEW_RUNNING, "review.started", env);
    var v := if w.project.state == COLLECTING_MATERIALS
             then Transition(w, w.project, REVIEW_RUNNING, "review.started", env).after else w;
    OtherTransition(v, v.project, REVISION_LOOP, "review.findings_open", env);
    NoGateTransitive(w, v, Transition(v, v.project, REVISION_LOOP, "review.findings_open", env).after);
  }

  lemma FreezeNoGate(w: Workspace, freshId: string, env: Env)
    ensures NoGateEntry(w, FreezeForm(w, freshId, env).after)
  {
    var draft := Rebuilt(w, freshId, env);
    var drawn := FormDraftOf(w, freshId, env).after;
    FreezeShape(w, freshId, env);
    OtherTransition(drawn.(forms := PutById(drawn.forms, DraftId, Frozen(draft, env))), w.project, FORM_FROZEN, "form.frozen", env);
  }

  lemma FreezeShape(w: Workspace, freshId: string, env: Env)
    ensures var drawn := FormDraftOf(w, freshId, env).after;
            var saved := drawn.(forms := PutById(drawn.forms, DraftId, Frozen(Rebuilt(w, freshId, env), env)));
            var v := FreezeForm(w, freshId, env).after;
            drawn.audit == w.audit &&
            (v.audit == w.audit || v == Transition(saved, w.project, FORM_FROZEN, "form.frozen", env).after)
  {
  }

  lemma SubmitNoGate(w: Workspace, reviewId: string, valid: bool, env: Env)
    ensures NoGateEntry(w, SubmitToInstitution(w, reviewId, valid, env).after)
  {
    OtherTransition(w.(reviews := PutById(w.reviews, ReviewId, InstitutionReview(reviewId, valid, None, "", ""))),
                    w.project, INSTITUTION_REVIEW, "institution.submitted", env);
  }

  lemma DecideNoGate(w: Workspace, verdict: Verdict, comments: string, agreement: string, env: Env)
    ensures NoGateEntry(w, Decide(w, verdict, comments, agreement, env).after)
  {
    if w.reviews != [] && Target(verdict).Some? {
      var decided := w.reviews[|w.reviews| - 1].(decision := Some(verdict), comments := comments, agreement := agreement);
      OtherTransition(w.(reviews := PutById(w.reviews, ReviewId, decided)), w.project, Target(verdict).value,
                      "institution.decided", env);
    }
  }

  lemma ResumeNoGate(w: Workspace, freshId: string, env: Env)
    ensures NoGateEntry(w, ResumeAfterReturn(w, freshId, env).after)
  {
    var saved := if LatestFrozen(w.forms)
                 then w.(forms := PutById(w.forms, DraftId, Successor(w.forms[|w.forms| - 1], freshId))) else w;
    OtherTransition(saved, w.project, REVISION_LOOP, "institution.returned_for_revision", env);
  }

  lemma FilingNoGate(w: Workspace, number: string, env: Env)
    ensures NoGateEntry(w, RecordFiling(w, number, env).after)
  {
    var saved := w.(project := w.project.(registrationNumber := Some(Strip(number)), updatedAt := env.now));
    OtherTransition(saved, saved.project, FILED, "filing.recorded", env);
  }

  lemma IntakeNoGate(w: Workspace, p: Project, env: Env)
    ensures NoGateEntry(w, SaveIntent(w, p, env).after)
  {
    OtherTransition(w, p, INTAKE_DONE, "intent.submitted", env);
  }

  /** Only `pass_gate` ever records a passed gate. */
  lemma OnlyPassGate(w: Workspace, s: Step, env: Env)
    requires Legal(w, s) && !s.PassGateStep?
    ensures NoGateEntry(w, Do(w, s, env).after)
  {
    match s {
      case SubmitIntentStep(bracket, amount) =>
        IntakeNoGate(w, w.project.(bracket := bracket, amount := amount, updatedAt := env.now), env);
      case ConfirmDetailsStep(details, _) =>
        IntakeNoGate(w, w.project.(title := Some(details.title), bracket := details.bracket, amount := None, updatedAt := env.now), env);
      case ClassifyStep(answer, generation) => ClassifyNoGate(w, answer, generation, env);
      case ConfirmRoadmapStep => RoadmapNoGate(w, env);
      case ReviewStep(version, document, ps, generation, ids) =>
        AdvanceNoGate(w.(findings := Findings.Review(w.findings, version, document, ps, generation, ids)), env);
      case FreezeStep(freshId) => FreezeNoGate(w, freshId, env);
      case SubmitStep(reviewId, valid) => SubmitNoGate(w, reviewId, valid, env);
      case DecideStep(verdict, comments, agreement) => DecideNoGate(w, verdict, comments, agreement, env);
      case ResumeStep(freshId) => ResumeNoGate(w, freshId, env);
      case FileStep(number) => FilingNoGate(w, number, env);
      case ConfirmFieldStep(key, value, factId, answerId, freshId) => FieldNoGate(w, s, env);
      case DeferFieldStep(key, factId, answerId, freshId) => FieldNoGate(w, s, env);
      case _ =>
    }
  }

  lemma FieldNoGate(w: Workspace, s: Step, env: Env)
    requires s.ConfirmFieldStep? || s.DeferFieldStep?
    ensures Do(w, s, env).after.audit == w.audit
  {
  }

  ghost predicate GateStandsOpen(w: Workspace, env: Env) {
    GateOpen(w.findings, w.facts, w.cards, env.required(Pinned(w.project, env)))
  }

  lemma GateMoveIsOpen(w: Workspace, env: Env)
    requires !NoGateEntry(w, PassGate(w, env).after)
    ensures var seen := w.(cards := ReadCards(w, env).stored);
            && Gaps(seen, w.project, seen.cards, env) == []
            && PassGate(w, env).after == Moved(seen, w.project, GATE_D3_PASSED, "gate.d3_passed", env.now)
  {
    var seen := w.(cards := ReadCards(w, env).stored);
    PassGateShape(w, env);
    TransitionShape(seen, w.project, GATE_D3_PASSED, "gate.d3_passed", env);
  }

  /** Whoever enters GATE_D3_PASSED does so with an empty gap report over what is stored. */
  lemma GateEntryIsOpen(w: Workspace, s: Step, env: Env)
    requires Legal(w, s) && !NoGateEntry(w, Do(w, s, env).after)
    ensures GateStandsOpen(Do(w, s, env).after, env)
  {
    if !s.PassGateStep? { OnlyPassGate(w, s, env); }
    GateMoveIsOpen(w, env);
    var seen := w.(cards := ReadCards(w, env).stored);
    GateOpensExactly(seen.findings, seen.facts, seen.cards, env.required(Pinned(w.project, env)));
  }

  /** Where a sequence that starts at or below k and ends above it goes past k. */
  lemma {:induction false} Passes(lengths: seq<nat>, k: nat) returns (i: nat)
    requires |lengths| > 1 && lengths[0] <= k < lengths[|lengths| - 1]
    ensures i + 1 < |lengths| && lengths[i] <= k < lengths[i + 1]
    decreases |lengths|
  {
    var n := |lengths| - 1;
    if k < lengths[n - 1] { i := Passes(lengths[..n], k); } else { i := n - 1; }
  }

  /** Which call of a run wrote a given audit entry. */
  lemma WrittenBy(w: Workspace, cs: seq<Call>, env: Env, k: nat) returns (i: nat)
    requires Created(w) && LegalRun(w, cs, env) && k < |Run(w, cs, env).audit|
    ensures i < |cs| && |Run(w, cs[..i], env).audit| <= k < |Run(w, cs[..i + 1], env).audit|
  {
    var lengths: seq<nat> := seq(|cs| + 1, j requires 0 <= j <= |cs| => |Run(w, cs[..j], env).audit|);
    assert cs[..0] == [] && cs[..|cs|] == cs;
    assert lengths[0] == 0;
    i := Passes(lengths, k);
  }

  /**
   A filed project. Since its last reset it passed the gate, with nothing open,
   missing, conflicting or unvalidated in what was stored then; froze the form; was
   submitted; was accepted; and carries a registration number.
   */
  lemma FiledProject(w: Workspace, cs: seq<Call>, env: Env) returns (gate: nat, i: nat)
    requires Created(w) && LegalRun(w, cs, env) && Run(w, cs, env).project.state == FILED
    ensures FiledAfter(Run(w, cs, env).audit, gate)
    ensures i < |cs| && |Run(w, cs[..i], env).audit| <= gate < |Run(w, cs[..i + 1], env).audit|
    ensures GateStandsOpen(Run(w, cs[..i + 1], env), At(env, cs[i]))
    ensures NonEmpty(Run(w, cs, env).project.registrationNumber)
  {
    RunIsTracked(w, cs, env);
    gate := FiledHistory(Run(w, cs, env).audit);
    i := WrittenBy(w, cs, env, gate);
    EntryOpensGate(w, cs, env, gate, i);
  }

  lemma RunIsTracked(w: Workspace, cs: seq<Call>, env: Env)
    requires Created(w) && LegalRun(w, cs, env)
    ensures Tracked(Run(w, cs, env)) && FiledOk(Run(w, cs, env).project)
  {
    RunKeeps(w, cs, env);
  }

  /** The call that wrote a gate entry left the gate open. */
  lemma EntryOpensGate(w: Workspace, cs: seq<Call>, env: Env, gate: nat, i: nat)
    requires Created(w) && LegalRun(w, cs, env) && gate < |Run(w, cs, env).audit|
    requires Run(w, cs, env).audit[gate].toState == GATE_D3_PASSED
    requires i < |cs| && |Run(w, cs[..i], env).audit| <= gate < |Run(w, cs[..i + 1], env).audit|
    ensures GateStandsOpen(Run(w, cs[..i + 1], env), At(env, cs[i]))
  {
    NothingIsUndone(w, cs, env, i + 1);
    assert Run(w, cs[..i + 1], env).audit[gate] == Run(w, cs, env).audit[gate];
    GateCall(w, cs, env, i);
    GateEntryIsOpen(Run(w, cs[..i], env), cs[i].step, At(env, cs[i]));
  }

  lemma GateCall(w: Workspace, cs: seq<Call>, env: Env, i: nat)
    requires LegalRun(w, cs, env) && i < |cs|
    ensures Legal(Run(w, cs[..i], env), cs[i].step)
    ensures Run(w, cs[..i + 1], env) == Do(Run(w, cs[..i], env), cs[i].step, At(env, cs[i])).after
  {
    PrefixLegal(w, cs, env, i + 1);
    assert cs[..i + 1][..i] == cs[..i];
  }

  /** Asset precedence over any run: an open gate renders every required asset-backed key as the asset says. */
  lemma AssetPrecedence(w: Workspace, cs: seq<Call>, env: Env, at: nat)
    requires Created(w) && LegalRun(w, cs, env)
    requires var v := Run(w, cs, env); Gaps(v, v.project, v.cards, env) == []
    requires at < |Run(w, cs, env).facts| && Run(w, cs, env).facts[at].source.kind.FromAsset?
    requires Run(w, cs, env).facts[at].key in env.required(Pinned(Run(w, cs, env).project, env))
    ensures var v := Run(w, cs, env); var f := v.facts[at];
            FieldFor(f.key, v.facts) == FormField(f.value, Some(f.source), Filled)
  {
    RunKeeps(w, cs, env);
    var v := Run(w, cs, env);
    AssetValueIsRendered(v.findings, v.facts, v.cards, env.required(Pinned(v.project, env)), at);
  }
}
