/** What an analysis leaves besides its conclusions: the review's task, and a form whose applicant is answered for. */
module StagedResults {
  import opened Entities
  import opened Keyed
  import opened MemoryStore
  import opened GateAndForms
  import opened FormFields
  import opened Workflow
  import opened Worker
  import opened StagedAnalysis
  import opened Conclusions
  import Outcomes
  import SecondReview
  import R = WorkflowRuns
  import Table = SqliteTable

  // ------------------------------------------------------------------ the review task

  /** An earlier review of another script makes this one incremental. */
  ghost predicate ReviewedBefore(tasks: seq<WorkflowTask>, asset: string) {
    exists t :: t in tasks && (t.kind == ReviewFull || t.kind == ReviewIncremental) && t.assetVersion != asset
  }

  /** The key names project, kind and script, and a forced review's generation. */
  ghost predicate KeyedAs(t: WorkflowTask, pid: string, asset: string, force: bool, g: nat) {
    t.idempotencyKey == pid + ":" + (if t.kind == ReviewFull then "review_full" else "review_incremental") + ":" + asset
                        + (if force then ":analysis-generation:" + Table.Decimal(g) else "")
  }

  lemma CandidateExactly(a: Aggregate, g: nat, force: bool, s: Script)
    ensures var c := Candidate(a, g, force, s);
            && (c.kind == ReviewIncremental <==> ReviewedBefore(a.tasks, s.asset))
            && (c.kind == ReviewFull <==> !ReviewedBefore(a.tasks, s.asset))
            && KeyedAs(c, a.project.projectId, s.asset, force, g)
            && c.taskId == s.taskId && c.projectId == a.project.projectId && c.assetVersion == s.asset
            && c.status == Queued && c.error == None
  {
    var c := Candidate(a, g, force, s);
    var pid := a.project.projectId;
    assert ReviewedBefore(a.tasks, s.asset) <==> exists t | t in a.tasks :: ReviewOfAnother(t, s.asset);
    var kind := if c.kind == ReviewFull then "review_full" else "review_incremental";
    assert c.idempotencyKey == pid + ":" + kind + ":" + JobVersion(s.asset, if force then Some(g) else None);
    if force {
      var tail := ":analysis-generation:" + Table.Decimal(g);
      assert JobVersion(s.asset, Some(g)) == s.asset + tail;
      assert pid + ":" + kind + ":" + (s.asset + tail) == pid + ":" + kind + ":" + s.asset + tail;
    } else {
      assert pid + ":" + kind + ":" + s.asset == pid + ":" + kind + ":" + s.asset + "";
    }
  }

  /** A review that ran is recorded by one new task, under its key, with the verdict it ended in. */
  lemma ReviewIsRecorded(a: Aggregate, d: ConfirmedDetails, g: nat, force: bool, o: Outside)
    requires o.script.Some? && Conclusions.Ran(a, g, force, o.script.value) && GetTask(a.tasks, o.script.value.taskId).None?
    requires Staged(a, d, g, force, o).Some?
    ensures var s, r := o.script.value, Staged(a, d, g, force, o).value;
            && |r.tasks| == |a.tasks| + 1 && r.tasks[..|a.tasks|] == a.tasks
            && var t := r.tasks[|a.tasks|];
               && t.taskId == s.taskId && t.projectId == a.project.projectId && t.assetVersion == s.asset
               && (t.kind == if ReviewedBefore(a.tasks, s.asset) then ReviewIncremental else ReviewFull)
               && KeyedAs(t, a.project.projectId, s.asset, force, g)
               && s.verdict.Produced? && t.status == s.verdict.status && t.error == s.verdict.error
  {
    var s := o.script.value;
    var w, v, u, tasks := Stages(a, d, g, force, o);
    CandidateExactly(a, g, force, s);
    StagedFindings(a, d, g, force, o);
    RunAddsOne(a.tasks, Candidate(a, g, force, s), s.verdict);
    Verdict(w, a, g, force, o);
  }

  lemma Verdict(w: Workspace, a: Aggregate, g: nat, force: bool, o: Outside)
    requires o.script.Some? && Conclusions.Ran(a, g, force, o.script.value) && ReviewPart(w, a, g, force, o).Some?
    ensures o.script.value.verdict.Produced?
  {
  }

  /** A review whose key is held is not run again: the analysis goes on without it, or stops if the one recorded had failed. */
  lemma ReplayedReview(w: Workspace, a: Aggregate, g: nat, force: bool, o: Outside, held: WorkflowTask)
    requires o.script.Some? && !Conclusions.Ran(a, g, force, o.script.value)
    requires held == RunJob(Board(a.tasks), Candidate(a, g, force, o.script.value), o.script.value.verdict, true).1
    ensures ReviewPart(w, a, g, force, o) == if held.status == Failed then None else Some((w, a.tasks))
  {
    ReplayAddsNone(a.tasks, Candidate(a, g, force, o.script.value), o.script.value.verdict);
  }

  // -------------------------------------------------------------------- the applicant

  /** A declared gap is the only thing known of the key. */
  lemma DeferredShows(facts: seq<Fact>, key: string, id: string, source: SourceRef)
    requires FieldFor(key, facts).status.Pending?
    ensures FieldFor(key, DeferFact(facts, id, key, source)).status == PendingInstitution
  {
    var after := DeferFact(facts, id, key, source);
    var f := after[|facts|];
    FilterSnoc(facts, f, Pick(key, FactConflict));
    FilterSnoc(facts, f, Pick(key, FactConfirmed));
    FilterSnoc(facts, f, Pick(key, FactDeferred));
  }

  lemma DraftedForm(w: Workspace, o: Outside)
    requires R.Inv(w, o.env.digest) && !LatestFrozen(w.forms) && Drafted(w, o).Some?
    ensures var u := Drafted(w, o).value;
            var keys := o.env.required(Pinned(w.project, o.env));
            && u.forms != [] && u.forms[|u.forms| - 1].fields == Fields(keys, u.facts)
            && ("applicant_entity" in keys ==> FieldFor("applicant_entity", u.facts).status != Pending)
            && (u.facts == w.facts
                || ("applicant_entity" in keys
                    && u.facts == w.facts + [Fact(o.deferFactId, "applicant_entity", None,
                                                  SourceRef(FromAnswer, o.deferAnswerId, None), FactDeferred, None)]))
  {
    DrawnForm(w, o);
    var v := FormDraftOf(w, o.draftId, o.env).after;
    if LacksApplicant(DraftRead(w, o.draftId, o.env)) {
      var u := DeferField(v, APPLICANT, o.deferFactId, o.deferAnswerId, o.draftId, o.env).after;
      DeferredApplicant(v, u, o);
      DeferredForm(v, APPLICANT, o);
      DeferredFacts(v, APPLICANT, o);
    }
  }

  /** The draft read first shows the log as it stands. */
  lemma DrawnForm(w: Workspace, o: Outside)
    requires R.Inv(w, o.env.digest) && !LatestFrozen(w.forms)
    ensures var v := FormDraftOf(w, o.draftId, o.env).after;
            var keys := o.env.required(Pinned(w.project, o.env));
            && FormDraftOf(w, o.draftId, o.env).error.None? && R.Inv(v, o.env.digest)
            && v.project == w.project && v.facts == w.facts && !LatestFrozen(v.forms)
            && v.forms != [] && v.forms[|v.forms| - 1].fields == Fields(keys, w.facts)
            && (LacksApplicant(DraftRead(w, o.draftId, o.env))
                <==> APPLICANT in keys && FieldFor(APPLICANT, w.facts).status.Pending?)
  {
    Outcomes.DraftExactly(w, o.draftId, o.env);
    R.FormDraftKeeps(w, o.draftId, o.env);
  }

  lemma DeferredApplicant(v: Workspace, u: Workspace, o: Outside)
    requires R.Inv(v, o.env.digest) && !LatestFrozen(v.forms) && FieldFor(APPLICANT, v.facts).status.Pending?
    requires DeferField(v, APPLICANT, o.deferFactId, o.deferAnswerId, o.draftId, o.env) == Outcome(u, None)
    ensures FieldFor(APPLICANT, u.facts).status == PendingInstitution
  {
    DeferredFacts(v, APPLICANT, o);
    DeferredShows(v.facts, APPLICANT, o.deferFactId, SourceRef(FromAnswer, o.deferAnswerId, None));
  }

  lemma DeferredFacts(v: Workspace, key: string, o: Outside)
    requires R.Inv(v, o.env.digest) && !LatestFrozen(v.forms)
    requires DeferField(v, key, o.deferFactId, o.deferAnswerId, o.draftId, o.env).error.None?
    ensures var u := DeferField(v, key, o.deferFactId, o.deferAnswerId, o.draftId, o.env).after;
            && u.project == v.project
            && u.facts == DeferFact(v.facts, o.deferFactId, key, SourceRef(FromAnswer, o.deferAnswerId, None))
  {
    Outcomes.DeferFieldExactly(v, key, o.deferFactId, o.deferAnswerId, o.draftId, o.env);
  }

  lemma DeferredForm(v: Workspace, key: string, o: Outside)
    requires R.Inv(v, o.env.digest) && !LatestFrozen(v.forms)
    requires DeferField(v, key, o.deferFactId, o.deferAnswerId, o.draftId, o.env).error.None?
    ensures var u := DeferField(v, key, o.deferFactId, o.deferAnswerId, o.draftId, o.env).after;
            u.forms != [] && u.forms[|u.forms| - 1].fields == Fields(o.env.required(Pinned(v.project, o.env)), u.facts)
  {
    var source := SourceRef(FromAnswer, o.deferAnswerId, None);
    var open := OpenField(v, key, o.draftId, o.env).after;
    Outcomes.DeferFieldExactly(v, key, o.deferFactId, o.deferAnswerId, o.draftId, o.env);
    R.FormDraftKeeps(v, o.draftId, o.env);
    Outcomes.DraftExactly(v, o.draftId, o.env);
    DeferKeepsRule(open.facts, o.deferFactId, key, source);
    R.LogGrows(open, DeferFact(open.facts, o.deferFactId, key, source), o.env.digest);
    Outcomes.DraftExactly(open.(facts := DeferFact(open.facts, o.deferFactId, key, source)), o.draftId, o.env);
  }

  /**
   An analysis that was answered with a state leaves a draft of the pinned pack's required
   fields over its own facts, and in it the applicant is answered, disputed, or left to the
   filing institution, never merely missing.
   */
  lemma AnalysisDraftsForm(a: Aggregate, d: ConfirmedDetails, g: nat, force: bool, o: Outside)
    requires R.Inv(WorkspaceOf(a), o.env.digest) && d.title != "" && R.ChainAnswer(o.answer) && o.answer.next.Some?
    requires Staged(a, d, g, force, o).Some?
    ensures var r := Staged(a, d, g, force, o).value;
            var keys := o.env.required(Pinned(r.project, o.env));
            && r.forms != [] && r.forms[|r.forms| - 1].fields == Fields(keys, r.facts)
            && ("applicant_entity" in keys ==> r.forms[|r.forms| - 1].fields["applicant_entity"].status != Pending)
  {
    var w, v, u, tasks := Stages(a, d, g, force, o);
    ClassedKeeps(a, d, g, force, o);
    ReviewPartKeeps(w, WorkspaceOf(a), a, g, force, o);
    SecondReview.ClassedEnds(a, d, g, force, o);
    AnswersAreEarly(o.answer.next.value);
    SecondReview.ReviewLeavesProject(w, a, g, force, o);
    SecondReview.AnswersAreJudged(o.answer.next.value);
    R.FilingIsFrozen(v, o.env.digest);
    DraftedForm(v, o);
    SecondReview.DraftedLeavesProject(v, o);
  }
}
