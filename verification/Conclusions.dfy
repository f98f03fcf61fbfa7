/**
 What an analysis generation concludes: which script findings it makes current,
 which alert it leaves, and under which key its review is recorded.
 */
module Conclusions {
  import opened Entities
  import opened Keyed
  import opened MemoryStore
  import opened StateMachine
  import opened GateAndForms
  import opened Workflow
  import opened Worker
  import opened StagedAnalysis
  import R = WorkflowRuns
  import F = Findings

  // ------------------------------------------- numbered by the generations so far

  ghost predicate FindingOk(f: Finding, alertId: string, n: nat) {
    && (f.generation.Some? ==> f.generation.value < n)
    && (f.findingId == alertId ==> F.ClassificationAlert(f))
  }

  ghost predicate FindingsOk(findings: seq<Finding>, alertId: string, n: nat) {
    Distinct(findings, FindingId) && forall f | f in findings :: FindingOk(f, alertId, n)
  }

  ghost predicate TaskOk(t: WorkflowTask, pid: string, n: nat) { t.projectId == pid && KeyedBefore(t, n) }

  ghost predicate TasksOk(tasks: seq<WorkflowTask>, pid: string, n: nat) {
    Distinct(tasks, TaskId) && forall t | t in tasks :: TaskOk(t, pid, n)
  }

  /** One finding per id, one task per id, no generation number from n on, and the alert's id for alerts only. */
  ghost predicate Numbered(a: Aggregate, n: nat) {
    && ':' !in a.project.projectId
    && FindingsOk(a.findings, AlertId(a.project), n) && TasksOk(a.tasks, a.project.projectId, n)
  }

  lemma KeyedLater(t: WorkflowTask, n: nat, m: nat)
    requires KeyedBefore(t, n) && n <= m
    ensures KeyedBefore(t, m)
  {
    var kind: TaskType, asset: string, g: Option<nat> :| MadeFrom(t, kind, asset, g) && (g.Some? ==> g.value < n);
    assert MadeFrom(t, kind, asset, g);
  }

  /** What is minted for an analysis is new to the copy; the chain's alert is an alert; asset ids have no colon. */
  ghost predicate FreshFor(a: Aggregate, o: Outside) {
    && (o.answer.alert.Some? ==> F.ClassificationAlert(o.answer.alert.value))
    && (o.script.Some? ==>
          && ':' !in o.script.value.asset && GetTask(a.tasks, o.script.value.taskId).None?
          && F.FreshIds(a.findings, o.script.value.ids)
          && forall i: nat :: o.script.value.ids(i) != AlertId(a.project))
  }

  // ------------------------------------------------------------ the closed form

  function Synced(a: Aggregate, g: nat, o: Outside): seq<Finding> {
    F.SyncAlert(a.findings, AlertId(a.project), o.answer.alert, Some(g))
  }

  function Concluded(a: Aggregate, g: nat, s: Script, o: Outside): seq<Finding> {
    F.Review(Synced(a, g, o), s.asset, s.document, s.proposals, Some(g), s.ids)
  }

  predicate Ran(a: Aggregate, g: nat, force: bool, s: Script) {
    RunJob(Board(a.tasks), Candidate(a, g, force, s), s.verdict, true).2.RanHere?
  }

  lemma StepLeaves(w: Workspace, s: R.Step, env: Env)
    requires s.BeginReanalysisStep? || s.ConfirmDetailsStep?
    ensures R.Do(w, s, env).after.findings == w.findings
    ensures R.Do(w, s, env).after.project.projectId == w.project.projectId
  {
    R.OthersLeaveFindings(w, s, env);
  }

  lemma ClassedFindings(a: Aggregate, d: ConfirmedDetails, g: nat, force: bool, o: Outside)
    requires Classed(a, d, g, force, o).Some?
    ensures var w := Classed(a, d, g, force, o).value;
            w.findings == Synced(a, g, o) && w.project.projectId == a.project.projectId
  {
    StepLeaves(WorkspaceOf(a), R.BeginReanalysisStep, o.env);
    var started := Started(a, force, o).value;
    StepLeaves(started, R.ConfirmDetailsStep(d, o.factIds), o.env);
    var confirmed := Then(Some(started), R.ConfirmDetailsStep(d, o.factIds), o.env).value;
    R.ClassifiedFindings(confirmed, o.answer, Some(g), o.env);
    R.PersistedFindings(confirmed, o.answer, Some(g), o.env);
  }

  lemma ReviewScriptFindings(w: Workspace, s: Script, g: nat, env: Env)
    ensures var v := ReviewScript(w, s.asset, s.document, s.proposals, Some(g), s.ids, env).after;
            && v.project.projectId == w.project.projectId
            && v.findings == F.Review(w.findings, s.asset, s.document, s.proposals, Some(g), s.ids)
  {
    R.AdvanceLeavesFindings(w.(findings := F.Review(w.findings, s.asset, s.document, s.proposals, Some(g), s.ids)), env);
    AdvanceKeepsPid(w.(findings := F.Review(w.findings, s.asset, s.document, s.proposals, Some(g), s.ids)), env);
  }

  lemma AdvanceKeepsPid(w: Workspace, env: Env)
    ensures Advance(w, env).after.project.projectId == w.project.projectId
  {
  }

  lemma ReviewStepFindings(w: Workspace, s: Script, g: nat, env: Env)
    ensures var v := R.Do(w, ReviewOf(s, g), env).after;
            && v.project.projectId == w.project.projectId
            && v.findings == F.Review(w.findings, s.asset, s.document, s.proposals, Some(g), s.ids)
  {
    ReviewScriptFindings(w, s, g, env);
  }

  lemma ReviewedFindings(w: Workspace, a: Aggregate, g: nat, force: bool, o: Outside)
    requires o.script.Some? && ReviewPart(w, a, g, force, o).Some?
    ensures var s := o.script.value;
            var v := ReviewPart(w, a, g, force, o).value.0;
            && v.project.projectId == w.project.projectId
            && v.findings == if Ran(a, g, force, s) then F.Review(w.findings, s.asset, s.document, s.proposals, Some(g), s.ids)
                             else w.findings
  {
    ReviewStepFindings(w, o.script.value, g, o.env);
  }

  lemma DraftedFindings(w: Workspace, o: Outside)
    requires Drafted(w, o).Some?
    ensures Drafted(w, o).value.findings == w.findings && Drafted(w, o).value.project.projectId == w.project.projectId
  {
  }

  /** The findings and tasks of an analysed copy, in closed form. */
  lemma StagedFindings(a: Aggregate, d: ConfirmedDetails, g: nat, force: bool, o: Outside)
    requires Staged(a, d, g, force, o).Some?
    ensures var r := Staged(a, d, g, force, o).value;
            && r.project.projectId == a.project.projectId
            && r.findings == (if o.script.Some? && Ran(a, g, force, o.script.value)
                              then Concluded(a, g, o.script.value, o) else Synced(a, g, o))
            && r.tasks == (if o.script.Some?
                           then RunJob(Board(a.tasks), Candidate(a, g, force, o.script.value), o.script.value.verdict, true).0.tasks
                           else a.tasks)
  {
    var w, v, u, tasks := Stages(a, d, g, force, o);
    ClassedFindings(a, d, g, force, o);
    if o.script.Some? { ReviewedFindings(w, a, g, force, o); }
    DraftedFindings(v, o);
  }

  // ------------------------------------------------------------------- the tasks

  lemma BoardInOrder(tasks: seq<WorkflowTask>, pid: string, n: nat)
    requires TasksOk(tasks, pid, n)
    ensures IndexValid(Board(tasks).tasks, Board(tasks).byKey)
  {
    assert IndexOk([], map[]) by { forall k ensures IndexAt([], map[], k) {} }
    IndexAddAll([], map[], tasks);
    assert [] + tasks == tasks;
    forall t | t in tasks ensures t.projectId == pid { assert TaskOk(t, pid, n); }
  }

  lemma CandidateIsKeyed(a: Aggregate, g: nat, force: bool, s: Script)
    requires ':' !in a.project.projectId && ':' !in s.asset
    ensures var c := Candidate(a, g, force, s);
            MadeFrom(c, c.kind, s.asset, if force then Some(g) else None) && TaskOk(c, a.project.projectId, g + 1)
  {
    var c := Candidate(a, g, force, s);
    assert MadeFrom(c, c.kind, s.asset, if force then Some(g) else None);
  }

  /** A job that runs adds one task, settled under the candidate's key. */
  lemma RunAddsOne(tasks: seq<WorkflowTask>, c: WorkflowTask, work: Work)
    requires GetTask(tasks, c.taskId).None? && RunJob(Board(tasks), c, work, true).2.RanHere?
    ensures RunJob(Board(tasks), c, work, true).0.tasks == tasks + [Settled(c.(status := Running), work)]
  {
    var t := Settled(c.(status := Running), work);
    FindUnique(tasks, TaskId, c.taskId, |tasks|);
    FindUnique(tasks + [c], TaskId, c.taskId, |tasks|);
    assert (tasks + [c])[|tasks| := t] == tasks + [t];
  }

  lemma ReplayAddsNone(tasks: seq<WorkflowTask>, c: WorkflowTask, work: Work)
    requires !RunJob(Board(tasks), c, work, true).2.RanHere?
    ensures RunJob(Board(tasks), c, work, true).0.tasks == tasks
  {
  }

  lemma OneMoreTask(tasks: seq<WorkflowTask>, t: WorkflowTask, pid: string, n: nat)
    requires TasksOk(tasks, pid, n) && TaskOk(t, pid, n) && GetTask(tasks, t.taskId).None?
    ensures TasksOk(tasks + [t], pid, n)
  {
    forall j | 0 <= j < |tasks| ensures TaskId(tasks[j]) != TaskId(t) {}
  }

  lemma SettledKeyed(c: WorkflowTask, work: Work, pid: string, n: nat)
    requires TaskOk(c, pid, n)
    ensures TaskOk(Settled(c.(status := Running), work), pid, n)
  {
    var kind: TaskType, asset: string, g: Option<nat> :| MadeFrom(c, kind, asset, g) && (g.Some? ==> g.value < n);
    assert MadeFrom(Settled(c.(status := Running), work), kind, asset, g);
  }

  /** The job's task store stays numbered, and a forced generation's review runs: its key is nobody's. */
  lemma JobKeepsTasks(a: Aggregate, g: nat, force: bool, s: Script)
    requires ':' !in a.project.projectId && TasksOk(a.tasks, a.project.projectId, g)
    requires ':' !in s.asset && GetTask(a.tasks, s.taskId).None?
    ensures TasksOk(RunJob(Board(a.tasks), Candidate(a, g, force, s), s.verdict, true).0.tasks, a.project.projectId, g + 1)
    ensures force ==> Ran(a, g, force, s)
  {
    var pid, c := a.project.projectId, Candidate(a, g, force, s);
    CandidateIsKeyed(a, g, force, s);
    TasksLater(a.tasks, pid, g, g + 1);
    if Ran(a, g, force, s) {
      RunAddsOne(a.tasks, c, s.verdict);
      SettledKeyed(c, s.verdict, pid, g + 1);
      OneMoreTask(a.tasks, Settled(c.(status := Running), s.verdict), pid, g + 1);
    } else {
      ReplayAddsNone(a.tasks, c, s.verdict);
    }
    if force { ForcedRuns(a, g, s); }
  }

  lemma TasksLater(tasks: seq<WorkflowTask>, pid: string, n: nat, m: nat)
    requires TasksOk(tasks, pid, n) && n <= m
    ensures TasksOk(tasks, pid, m)
  {
    forall t | t in tasks ensures TaskOk(t, pid, m) {
      assert TaskOk(t, pid, n);
      KeyedLater(t, n, m);
    }
  }

  lemma NumberedLater(a: Aggregate, n: nat, m: nat)
    requires Numbered(a, n) && n <= m
    ensures Numbered(a, m)
  {
    FindingsLater(a.findings, AlertId(a.project), n, m);
    TasksLater(a.tasks, a.project.projectId, n, m);
  }

  lemma ForcedRuns(a: Aggregate, g: nat, s: Script)
    requires ':' !in a.project.projectId && TasksOk(a.tasks, a.project.projectId, g) && ':' !in s.asset
    ensures Ran(a, g, true, s)
  {
    var c := Candidate(a, g, true, s);
    BoardInOrder(a.tasks, a.project.projectId, g);
    CandidateIsKeyed(a, g, true, s);
    forall t | t in a.tasks ensures KeyedBefore(t, g) { assert TaskOk(t, a.project.projectId, g); }
    ForcedReviewIsNew(Board(a.tasks), c, c.kind, s.asset, g);
  }

  // ---------------------------------------------------------------- the findings

  /** Every finding after a sync is a quieted one, the alert just raised, or the alert just closed. */
  lemma SyncedAt(findings: seq<Finding>, id: string, alert: Option<Finding>, generation: Option<nat>, i: nat)
    requires i < |F.SyncAlert(findings, id, alert, generation)|
    ensures var f := F.SyncAlert(findings, id, alert, generation)[i];
            || (i < |findings| && f == F.Quiet(findings[i], id))
            || (alert.Some? && f == alert.value.(findingId := id, generation := generation, active := true))
            || (i < |findings| && findings[i].findingId == id && f == findings[i].(active := false, generation := generation))
  {
    var quieted := F.QuietOthers(findings, id);
    var k := Find(quieted, FindingId, id);
    if i < |findings| { assert quieted[i] == F.Quiet(findings[i], id); }
  }

  lemma SyncKeepsOk(findings: seq<Finding>, id: string, alert: Option<Finding>, generation: Option<nat>, n: nat)
    requires FindingsOk(findings, id, n) && (alert.Some? ==> F.ClassificationAlert(alert.value))
    requires generation.Some? ==> generation.value < n
    ensures FindingsOk(F.SyncAlert(findings, id, alert, generation), id, n)
  {
    var after := F.SyncAlert(findings, id, alert, generation);
    F.SyncKeepsIds(findings, id, alert, generation);
    forall f | f in after ensures FindingOk(f, id, n) {
      var i :| 0 <= i < |after| && after[i] == f;
      SyncedAt(findings, id, alert, generation, i);
      if i < |findings| { assert FindingOk(findings[i], id, n); }
    }
  }

  lemma FindingsLater(findings: seq<Finding>, id: string, n: nat, m: nat)
    requires FindingsOk(findings, id, n) && n <= m
    ensures FindingsOk(findings, id, m)
  {
    forall f | f in findings ensures FindingOk(f, id, m) { assert FindingOk(f, id, n); }
  }

  /** A sync moves no script finding and makes none. */
  lemma SyncKeepsScript(findings: seq<Finding>, id: string, alert: Option<Finding>, g: nat, i: nat)
    requires FindingsOk(findings, id, g) && (alert.Some? ==> F.ClassificationAlert(alert.value))
    requires i < |F.SyncAlert(findings, id, alert, Some(g))|
    ensures |findings| <= |F.SyncAlert(findings, id, alert, Some(g))|
    ensures i < |findings| && F.Script(findings[i]) ==> F.SyncAlert(findings, id, alert, Some(g))[i] == findings[i]
    ensures F.Script(F.SyncAlert(findings, id, alert, Some(g))[i]) ==> i < |findings| && F.Script(findings[i])
  {
    SyncedAt(findings, id, alert, Some(g), i);
    if i < |findings| {
      assert FindingOk(findings[i], id, g);
      if F.Script(findings[i]) { F.SyncTouchesOnlyAlerts(findings, id, alert, Some(g), i); }
    }
  }

  lemma RetireKeepsOk(findings: seq<Finding>, id: string, asset: string, n: nat)
    requires FindingsOk(findings, id, n)
    ensures FindingsOk(F.Retire(findings, asset), id, n)
  {
    var after := F.Retire(findings, asset);
    F.SameIdsDistinct(findings, after);
    forall f | f in after ensures FindingOk(f, id, n) {
      var i :| 0 <= i < |after| && after[i] == f;
      assert FindingOk(findings[i], id, n);
    }
  }

  lemma WrittenKeepsOk(base: seq<Finding>, id: string, ps: seq<F.Proposal>, ids: nat -> string, asset: string,
                       generation: Option<nat>, n: nat)
    requires FindingsOk(base, id, n) && F.FreshIds(base, ids) && (forall i: nat :: ids(i) != id)
    requires generation.Some? ==> generation.value < n
    ensures FindingsOk(base + F.WriteAll(ps, ids, asset, generation), id, n)
  {
    var written := F.WriteAll(ps, ids, asset, generation);
    F.WrittenIds(base, ps, ids, asset, generation);
    forall f | f in base + written ensures FindingOk(f, id, n) {
      if f !in base {
        var i :| 0 <= i < |written| && written[i] == f;
        assert f == F.Written(ps[i], ids(i), asset, generation);
      }
    }
  }

  /** Ids new to the findings, and never the alert's, are new to them after a sync. */
  lemma SyncStaysFresh(findings: seq<Finding>, id: string, alert: Option<Finding>, g: nat, ids: nat -> string)
    requires F.FreshIds(findings, ids) && forall i: nat :: ids(i) != id
    ensures F.FreshIds(F.SyncAlert(findings, id, alert, Some(g)), ids)
  {
    var after := F.SyncAlert(findings, id, alert, Some(g));
    forall n: nat, f | f in after ensures ids(n) != f.findingId {
      var i :| 0 <= i < |after| && after[i] == f;
      SyncedAt(findings, id, alert, Some(g), i);
      if i < |findings| { assert findings[i] in findings; }
    }
  }

  lemma ConcludedOk(a: Aggregate, g: nat, s: Script, o: Outside)
    requires FindingsOk(a.findings, AlertId(a.project), g) && FreshFor(a, o) && o.script == Some(s)
    ensures FindingsOk(Concluded(a, g, s, o), AlertId(a.project), g + 1)
    ensures FindingsOk(Synced(a, g, o), AlertId(a.project), g + 1)
  {
    var id, synced := AlertId(a.project), Synced(a, g, o);
    FindingsLater(a.findings, id, g, g + 1);
    SyncKeepsOk(a.findings, id, o.answer.alert, Some(g), g + 1);
    RetireKeepsOk(synced, id, s.asset, g + 1);
    SyncStaysFresh(a.findings, id, o.answer.alert, g, s.ids);
    F.StillFresh(synced, F.Retire(synced, s.asset), s.ids);
    WrittenKeepsOk(F.Retire(synced, s.asset), id, F.Kept({}, s.proposals), s.ids, s.asset, Some(g), g + 1);
  }

  /** An analysis under generation g keeps a numbered copy numbered, with g used up. */
  lemma StagedKeepsNumbers(a: Aggregate, d: ConfirmedDetails, g: nat, force: bool, o: Outside)
    requires Numbered(a, g) && FreshFor(a, o) && Staged(a, d, g, force, o).Some?
    ensures Numbered(Staged(a, d, g, force, o).value, g + 1)
  {
    StagedFindings(a, d, g, force, o);
    if o.script.Some? {
      ConcludedOk(a, g, o.script.value, o);
      JobKeepsTasks(a, g, force, o.script.value);
    } else {
      FindingsLater(a.findings, AlertId(a.project), g, g + 1);
      SyncKeepsOk(a.findings, AlertId(a.project), o.answer.alert, Some(g), g + 1);
      TasksLater(a.tasks, a.project.projectId, g, g + 1);
    }
  }

  // --------------------------------------------------------- the fresh conclusion

  predicate CurrentOn(f: Finding, asset: string) { F.Current(f) && f.assetVersion == asset }

  /** The current script findings on an asset are exactly those of one generation. */
  ghost predicate CurrentAre(findings: seq<Finding>, asset: string, g: nat) {
    forall f | f in findings && F.Script(f) && f.assetVersion == asset :: f.active <==> f.generation == Some(g)
  }

  /** Every earlier script finding is where it was; only those on the asset were made inactive. */
  ghost predicate EarlierKept(before: seq<Finding>, after: seq<Finding>, asset: string) {
    && |before| <= |after|
    && forall i | 0 <= i < |before| && F.Script(before[i]) :: after[i] == F.RetireOne(before[i], asset)
  }

  ghost predicate HasCurrent(findings: seq<Finding>, asset: string, k: F.Key) {
    exists f :: f in findings && CurrentOn(f, asset) && F.KeyOf(f) == k
  }

  /** The current findings on the asset are the proposals, one for each category and quote. */
  ghost predicate SaysExactly(findings: seq<Finding>, asset: string, ps: seq<F.Proposal>) {
    && (forall p | p in ps :: HasCurrent(findings, asset, F.ProposalKey(p)))
    && (forall f | f in findings && CurrentOn(f, asset) :: F.HasKey(ps, F.KeyOf(f)))
    && (forall i, j | 0 <= i < j < |findings| && CurrentOn(findings[i], asset) && CurrentOn(findings[j], asset) ::
          F.KeyOf(findings[i]) != F.KeyOf(findings[j]))
  }

  /** At most one active alert, and it is this generation's. */
  ghost predicate OneAlert(findings: seq<Finding>, g: nat) {
    && (forall f | f in findings && F.ActiveAlert(f) :: f.generation == Some(g))
    && (forall i, j | 0 <= i < j < |findings| :: !(F.ActiveAlert(findings[i]) && F.ActiveAlert(findings[j])))
  }

  /** One more task, under the key no other generation has. */
  ghost predicate RanAs(before: seq<WorkflowTask>, after: seq<WorkflowTask>, asset: string, g: nat) {
    && |after| == |before| + 1 && after[..|before|] == before
    && MadeFrom(after[|before|], after[|before|].kind, asset, Some(g))
  }

  ghost predicate FreshConclusion(a: Aggregate, r: Aggregate, s: Script, g: nat) {
    && CurrentAre(r.findings, s.asset, g) && EarlierKept(a.findings, r.findings, s.asset)
    && SaysExactly(r.findings, s.asset, s.proposals) && OneAlert(r.findings, g)
    && RanAs(a.tasks, r.tasks, s.asset, g)
  }

  lemma ConcludedAt(a: Aggregate, g: nat, s: Script, o: Outside, i: nat)
    requires i < |Concluded(a, g, s, o)|
    ensures var synced, kept := Synced(a, g, o), F.Kept({}, s.proposals);
            && |Concluded(a, g, s, o)| == |synced| + |kept|
            && Concluded(a, g, s, o)[i] == if i < |synced| then F.RetireOne(synced[i], s.asset)
                                           else F.Written(kept[i - |synced|], s.ids(i - |synced|), s.asset, Some(g))
  {
  }

  /** A script finding of the concluded copy was there before, under an earlier generation, or was just written. */
  lemma ScriptAt(a: Aggregate, g: nat, s: Script, o: Outside, i: nat)
    requires FindingsOk(a.findings, AlertId(a.project), g) && FreshFor(a, o)
    requires i < |Concluded(a, g, s, o)| && F.Script(Concluded(a, g, s, o)[i])
    ensures |a.findings| <= |Synced(a, g, o)|
    ensures i < |Synced(a, g, o)| ==>
              && i < |a.findings| && Concluded(a, g, s, o)[i] == F.RetireOne(a.findings[i], s.asset)
              && Concluded(a, g, s, o)[i].generation != Some(g)
  {
    var id := AlertId(a.project);
    ConcludedAt(a, g, s, o, i);
    SyncGrows(a.findings, id, o.answer.alert, g);
    if i < |Synced(a, g, o)| {
      SyncKeepsScript(a.findings, id, o.answer.alert, g, i);
      assert FindingOk(a.findings[i], id, g);
    }
  }

  lemma SyncGrows(findings: seq<Finding>, id: string, alert: Option<Finding>, g: nat)
    ensures |findings| <= |F.SyncAlert(findings, id, alert, Some(g))|
  {
  }

  lemma CurrentAreNew(a: Aggregate, g: nat, s: Script, o: Outside)
    requires FindingsOk(a.findings, AlertId(a.project), g) && FreshFor(a, o)
    ensures CurrentAre(Concluded(a, g, s, o), s.asset, g)
  {
    var c := Concluded(a, g, s, o);
    forall f | f in c && F.Script(f) && f.assetVersion == s.asset ensures f.active <==> f.generation == Some(g) {
      var i :| 0 <= i < |c| && c[i] == f;
      F.GenerationIsFresh(Synced(a, g, o), s.asset, s.document, s.proposals, g, s.ids, i);
      ScriptAt(a, g, s, o, i);
    }
  }

  lemma EarlierStay(a: Aggregate, g: nat, s: Script, o: Outside)
    requires FindingsOk(a.findings, AlertId(a.project), g) && FreshFor(a, o)
    ensures EarlierKept(a.findings, Concluded(a, g, s, o), s.asset)
  {
    var c := Concluded(a, g, s, o);
    SyncGrows(a.findings, AlertId(a.project), o.answer.alert, g);
    assert |a.findings| <= |c|;
    forall i | 0 <= i < |a.findings| && F.Script(a.findings[i]) ensures c[i] == F.RetireOne(a.findings[i], s.asset) {
      SyncKeepsScript(a.findings, AlertId(a.project), o.answer.alert, g, i);
      ConcludedAt(a, g, s, o, i);
    }
  }

  /** A current finding on the asset stands for the proposal it was written from. */
  lemma CurrentAt(a: Aggregate, g: nat, s: Script, o: Outside, i: nat)
    requires FindingsOk(a.findings, AlertId(a.project), g) && FreshFor(a, o)
    requires i < |Concluded(a, g, s, o)| && CurrentOn(Concluded(a, g, s, o)[i], s.asset)
    ensures var n := i - |Synced(a, g, o)|;
            && 0 <= n < |F.Kept({}, s.proposals)|
            && F.KeyOf(Concluded(a, g, s, o)[i]) == F.ProposalKey(F.Kept({}, s.proposals)[n])
  {
    ConcludedAt(a, g, s, o, i);
    ScriptAt(a, g, s, o, i);
  }

  lemma ProposedIsCurrent(a: Aggregate, g: nat, s: Script, o: Outside, p: F.Proposal)
    requires p in s.proposals
    ensures HasCurrent(Concluded(a, g, s, o), s.asset, F.ProposalKey(p))
  {
    var c, kept, base := Concluded(a, g, s, o), F.Kept({}, s.proposals), |Synced(a, g, o)|;
    F.KeptCovers({}, s.proposals, p);
    var q :| q in kept && F.ProposalKey(q) == F.ProposalKey(p);
    var n :| 0 <= n < |kept| && kept[n] == q;
    assert base + n < |c|;
    ConcludedAt(a, g, s, o, base + n);
    assert c[base + n] in c && CurrentOn(c[base + n], s.asset);
  }

  lemma CurrentIsProposed(a: Aggregate, g: nat, s: Script, o: Outside, i: nat)
    requires FindingsOk(a.findings, AlertId(a.project), g) && FreshFor(a, o)
    requires i < |Concluded(a, g, s, o)| && CurrentOn(Concluded(a, g, s, o)[i], s.asset)
    ensures F.HasKey(s.proposals, F.KeyOf(Concluded(a, g, s, o)[i]))
  {
    CurrentAt(a, g, s, o, i);
    F.KeptIsNew({}, s.proposals);
    var kept := F.Kept({}, s.proposals);
    assert kept[i - |Synced(a, g, o)|] in kept;
  }

  lemma CurrentDiffer(a: Aggregate, g: nat, s: Script, o: Outside, i: nat, j: nat)
    requires FindingsOk(a.findings, AlertId(a.project), g) && FreshFor(a, o)
    requires i < j < |Concluded(a, g, s, o)|
    requires CurrentOn(Concluded(a, g, s, o)[i], s.asset) && CurrentOn(Concluded(a, g, s, o)[j], s.asset)
    ensures F.KeyOf(Concluded(a, g, s, o)[i]) != F.KeyOf(Concluded(a, g, s, o)[j])
  {
    CurrentAt(a, g, s, o, i);
    CurrentAt(a, g, s, o, j);
    F.KeptIsNew({}, s.proposals);
  }

  lemma SaysProposals(a: Aggregate, g: nat, s: Script, o: Outside)
    requires FindingsOk(a.findings, AlertId(a.project), g) && FreshFor(a, o)
    ensures SaysExactly(Concluded(a, g, s, o), s.asset, s.proposals)
  {
    var c := Concluded(a, g, s, o);
    forall p | p in s.proposals ensures HasCurrent(c, s.asset, F.ProposalKey(p)) { ProposedIsCurrent(a, g, s, o, p); }
    forall f | f in c && CurrentOn(f, s.asset) ensures F.HasKey(s.proposals, F.KeyOf(f)) {
      var i :| 0 <= i < |c| && c[i] == f;
      CurrentIsProposed(a, g, s, o, i);
    }
    forall i, j | 0 <= i < j < |c| && CurrentOn(c[i], s.asset) && CurrentOn(c[j], s.asset)
      ensures F.KeyOf(c[i]) != F.KeyOf(c[j])
    {
      CurrentDiffer(a, g, s, o, i, j);
    }
  }

  /** The active alert after a sync is the one just raised. */
  lemma SyncedAlert(findings: seq<Finding>, id: string, alert: Option<Finding>, g: nat, i: nat)
    requires Distinct(findings, FindingId)
    requires i < |F.SyncAlert(findings, id, alert, Some(g))| && F.ActiveAlert(F.SyncAlert(findings, id, alert, Some(g))[i])
    ensures i == Find(findings, FindingId, id) && F.SyncAlert(findings, id, alert, Some(g))[i].generation == Some(g)
  {
    F.OneActiveAlert(findings, id, alert, Some(g), i);
    F.QuietedFind(findings, id);
  }

  lemma AlertAt(a: Aggregate, g: nat, s: Script, o: Outside, i: nat)
    requires Distinct(a.findings, FindingId)
    requires i < |Concluded(a, g, s, o)| && F.ActiveAlert(Concluded(a, g, s, o)[i])
    ensures i == Find(a.findings, FindingId, AlertId(a.project)) && Concluded(a, g, s, o)[i].generation == Some(g)
  {
    ConcludedAt(a, g, s, o, i);
    SyncedAlert(a.findings, AlertId(a.project), o.answer.alert, g, i);
  }

  lemma OneAlertLeft(a: Aggregate, g: nat, s: Script, o: Outside)
    requires Distinct(a.findings, FindingId)
    ensures OneAlert(Concluded(a, g, s, o), g)
  {
    var c := Concluded(a, g, s, o);
    forall f | f in c && F.ActiveAlert(f) ensures f.generation == Some(g) {
      var i :| 0 <= i < |c| && c[i] == f;
      AlertAt(a, g, s, o, i);
    }
    forall i, j | 0 <= i < j < |c| ensures !(F.ActiveAlert(c[i]) && F.ActiveAlert(c[j])) {
      if F.ActiveAlert(c[i]) && F.ActiveAlert(c[j]) {
        AlertAt(a, g, s, o, i);
        AlertAt(a, g, s, o, j);
      }
    }
  }

  lemma RanUnderItsKey(a: Aggregate, g: nat, s: Script)
    requires Numbered(a, g) && ':' !in s.asset && GetTask(a.tasks, s.taskId).None?
    ensures RanAs(a.tasks, RunJob(Board(a.tasks), Candidate(a, g, true, s), s.verdict, true).0.tasks, s.asset, g)
  {
    ForcedRuns(a, g, s);
    CandidateIsKeyed(a, g, true, s);
    RunAddsOne(a.tasks, Candidate(a, g, true, s), s.verdict);
  }

  /**
   A reanalysis concludes afresh: the current script findings on its script are
   those of its generation and say what the review proposed; earlier ones stay,
   inactive; one alert at most is active; and its review ran and was not replayed.
   */
  lemma ReanalysisIsFresh(a: Aggregate, d: ConfirmedDetails, g: nat, o: Outside)
    requires Numbered(a, g) && FreshFor(a, o) && o.script.Some? && Staged(a, d, g, true, o).Some?
    ensures FreshConclusion(a, Staged(a, d, g, true, o).value, o.script.value, g)
  {
    var s := o.script.value;
    StagedFindings(a, d, g, true, o);
    JobKeepsTasks(a, g, true, s);
    CurrentAreNew(a, g, s, o);
    EarlierStay(a, g, s, o);
    SaysProposals(a, g, s, o);
    OneAlertLeft(a, g, s, o);
    RanUnderItsKey(a, g, s);
  }

  // ------------------------------------------------------ when an analysis goes through

  lemma ResetGoes(a: Aggregate, o: Outside)
    ensures Started(a, true, o).Some? <==> a.project.state in REANALYZABLE
    ensures Started(a, true, o).Some? ==> Started(a, true, o).value.project.state == DRAFT
  {
  }

  lemma IntakeGoes(w: Workspace, d: ConfirmedDetails, ids: nat -> string, env: Env)
    requires w.project.state == DRAFT
    ensures var o := R.Do(w, R.ConfirmDetailsStep(d, ids), env); o.error.None? && o.after.project.state == INTAKE_DONE
  {
  }

  /** A step to a state without an entry guard goes through if the table has it. */
  lemma PlainStepGoes(w: Workspace, to: ProjectState, reason: string, env: Env)
    requires to in Allowed(w.project.state) && (to in R.CHAIN_TARGETS || to == FORM_JUDGED)
    ensures Transition(w, w.project, to, reason, env).error.None?
    ensures Transition(w, w.project, to, reason, env).after.project.state == to
  {
  }

  lemma ChainEdges(target: ProjectState)
    requires target in R.CHAIN_TARGETS
    ensures if target == CLASSIFIED || target == NEEDS_HUMAN_SUBJECT
            then FORM_JUDGED in Allowed(INTAKE_DONE) && target in Allowed(FORM_JUDGED) else target in Allowed(INTAKE_DONE)
    ensures target != INTAKE_DONE && target != FORM_JUDGED
  {
  }

  /** From intake every answer of the chain is one or two edges of the table away. */
  lemma SettleGoes(w: Workspace, target: ProjectState, env: Env)
    requires w.project.state == INTAKE_DONE && target in R.CHAIN_TARGETS
    ensures Settle(w, target, env).error.None? && Settle(w, target, env).after.project.state == target
  {
    ChainEdges(target);
    if target == CLASSIFIED || target == NEEDS_HUMAN_SUBJECT {
      PlainStepGoes(w, FORM_JUDGED, "d1a.form_type_decided", env);
      PlainStepGoes(Transition(w, w.project, FORM_JUDGED, "d1a.form_type_decided", env).after, target, "classification.decided", env);
    } else {
      PlainStepGoes(w, target, "classification.decided", env);
    }
  }

  predicate Past(s: ProjectState) { s.COLLECTING_MATERIALS? || s.REVIEW_RUNNING? || s in R.IN_FILING }

  lemma AnswersAreEarly(s: ProjectState)
    requires s in R.CHAIN_TARGETS || s == INTAKE_DONE
    ensures !Past(s)
  {
  }

  lemma PersistGoes(w: Workspace, c: Workflow.Classified, g: nat, env: Env)
    requires w.project.state == INTAKE_DONE && R.ChainAnswer(c)
    ensures var o := Persist(w, c, Some(g), env); o.error.None? && !Past(o.after.project.state)
  {
    var saved := Recorded(w, c, Some(g), env.now);
    assert saved.project.state == INTAKE_DONE;
    AnswersAreEarly(if c.next.Some? then c.next.value else INTAKE_DONE);
    if c.next.Some? { SettleGoes(saved, c.next.value, env); }
  }

  lemma ChainGoes(w: Workspace, c: Workflow.Classified, g: nat, env: Env)
    requires w.project.state == INTAKE_DONE && R.ChainAnswer(c)
    ensures var o := R.Do(w, R.ClassifyStep(c, Some(g)), env);
            && (o.error.None? <==> !c.askBack)
            && (o.error.None? ==> !Past(o.after.project.state))
  {
    PersistGoes(w, c, g, env);
  }

  lemma ClassedGoes(a: Aggregate, d: ConfirmedDetails, g: nat, o: Outside)
    requires R.ChainAnswer(o.answer)
    ensures Classed(a, d, g, true, o).Some? <==> a.project.state in REANALYZABLE && !o.answer.askBack
    ensures Classed(a, d, g, true, o).Some? ==>
              !Past(Classed(a, d, g, true, o).value.project.state)
  {
    ResetGoes(a, o);
    if a.project.state in REANALYZABLE {
      var w := Started(a, true, o).value;
      IntakeGoes(w, d, o.factIds, o.env);
      ChainGoes(Then(Some(w), R.ConfirmDetailsStep(d, o.factIds), o.env).value, o.answer, g, o.env);
    }
  }

  lemma ReviewGoes(w: Workspace, s: Script, g: nat, env: Env)
    requires !Past(w.project.state)
    ensures var o := R.Do(w, ReviewOf(s, g), env); o.error.None? && o.after.project == w.project && o.after.facts == w.facts
  {
  }

  lemma DraftGoes(w: Workspace, id: string, env: Env)
    requires AssetRule(w.facts)
    ensures FormDraftOf(w, id, env).error.None?
  {
    BuildableUnderRule(env.required(Pinned(w.project, env)), w.facts);
  }

  /** A field that is pending has no confirmed fact, so it may be deferred. */
  lemma PendingCanDefer(facts: seq<Fact>, key: string)
    requires FieldFor(key, facts).status.Pending?
    ensures CanDefer(facts, key)
  {
    ChosenExists(facts, key, FactConfirmed);
    var at := LatestIs(facts, key);
  }

  lemma OpenGoes(w: Workspace, key: string, id: string, env: Env)
    requires R.Inv(w, env.digest) && !Past(w.project.state) && key in env.required(Pinned(w.project, env))
    ensures OpenField(w, key, id, env).error.None? && OpenField(w, key, id, env).after.facts == w.facts
  {
    DraftGoes(w, id, env);
  }

  lemma DeferGoes(w: Workspace, key: string, factId: string, answerId: string, id: string, env: Env)
    requires R.Inv(w, env.digest) && !Past(w.project.state)
    requires key in env.required(Pinned(w.project, env)) && FieldFor(key, w.facts).status.Pending?
    ensures DeferField(w, key, factId, answerId, id, env).error.None?
  {
    var source := SourceRef(FromAnswer, answerId, None);
    OpenGoes(w, key, id, env);
    PendingCanDefer(w.facts, key);
    DeferKeepsRule(w.facts, factId, key, source);
    DraftGoes(OpenField(w, key, id, env).after.(facts := DeferFact(w.facts, factId, key, source)), id, env);
  }

  lemma FieldsRead(w: Workspace, id: string, env: Env, key: string)
    requires R.Inv(w, env.digest) && !Past(w.project.state) && key in DraftRead(w, id, env).fields
    ensures key in env.required(Pinned(w.project, env)) && DraftRead(w, id, env).fields[key] == FieldFor(key, w.facts)
  {
  }

  lemma DraftedGoes(w: Workspace, o: Outside)
    requires R.Inv(w, o.env.digest) && !Past(w.project.state)
    ensures Drafted(w, o).Some?
  {
    DraftGoes(w, o.draftId, o.env);
    R.FormDraftKeeps(w, o.draftId, o.env);
    if LacksApplicant(DraftRead(w, o.draftId, o.env)) {
      FieldsRead(w, o.draftId, o.env, APPLICANT);
      DeferGoes(FormDraftOf(w, o.draftId, o.env).after, APPLICANT, o.deferFactId, o.deferAnswerId, o.draftId, o.env);
    }
  }

  lemma ReanalysisGoes(a: Aggregate, d: ConfirmedDetails, g: nat, o: Outside)
    requires Numbered(a, g) && FreshFor(a, o) && o.script.Some? && o.script.value.verdict.Produced?
    requires R.Inv(WorkspaceOf(a), o.env.digest) && d.title != "" && R.ChainAnswer(o.answer)
    requires Classed(a, d, g, true, o).Some? && !Past(Classed(a, d, g, true, o).value.project.state)
    ensures Staged(a, d, g, true, o).Some?
  {
    var w := Classed(a, d, g, true, o).value;
    ReviewPartGoes(w, a, g, o);
    ClassedKeeps(a, d, g, true, o);
    ReviewPartKeeps(w, WorkspaceOf(a), a, g, true, o);
    DraftedGoes(ReviewPart(w, a, g, true, o).value.0, o);
  }

  lemma ReviewPartGoes(w: Workspace, a: Aggregate, g: nat, o: Outside)
    requires Numbered(a, g) && FreshFor(a, o) && o.script.Some? && o.script.value.verdict.Produced? && !Past(w.project.state)
    ensures ReviewPart(w, a, g, true, o).Some? && ReviewPart(w, a, g, true, o).value.0.project == w.project
  {
    JobKeepsTasks(a, g, true, o.script.value);
    ReviewPartRuns(w, a, g, true, o);
  }

  lemma ReviewPartRuns(w: Workspace, a: Aggregate, g: nat, force: bool, o: Outside)
    requires o.script.Some? && Ran(a, g, force, o.script.value) && o.script.value.verdict.Produced? && !Past(w.project.state)
    ensures ReviewPart(w, a, g, force, o).Some? && ReviewPart(w, a, g, force, o).value.0.project == w.project
  {
    ReviewGoes(w, o.script.value, g, o.env);
  }

  lemma RaisedJobStops(a: Aggregate, d: ConfirmedDetails, g: nat, o: Outside)
    requires Numbered(a, g) && FreshFor(a, o) && o.script.Some? && o.script.value.verdict.Raised?
    ensures Staged(a, d, g, true, o).None?
  {
    JobKeepsTasks(a, g, true, o.script.value);
  }

  /**
   A reanalysis goes through exactly when the project was judged and has no frozen form,
   the chain asks nothing back, and the review job does not raise: no later step of it can.
   */
  lemma ReanalysisGoesThroughExactly(a: Aggregate, d: ConfirmedDetails, g: nat, o: Outside)
    requires Numbered(a, g) && FreshFor(a, o) && o.script.Some?
    requires R.Inv(WorkspaceOf(a), o.env.digest) && d.title != "" && R.ChainAnswer(o.answer)
    ensures Staged(a, d, g, true, o).Some? <==>
              && !R.NotJudged(a.project.state) && !LatestFrozen(a.forms)
              && !o.answer.askBack && o.script.value.verdict.Produced?
  {
    R.ResetExactly(WorkspaceOf(a), o.env);
    ClassedGoes(a, d, g, o);
    if o.script.value.verdict.Raised? {
      RaisedJobStops(a, d, g, o);
    } else if Classed(a, d, g, true, o).Some? {
      ReanalysisGoes(a, d, g, o);
    }
  }

  // ------------------------------------------------------------- ordinary calls

  /** A call outside reviews numbers nothing; what it mints is new and never the alert's id. */
  ghost predicate Ordinary(a: Aggregate, s: R.Step) {
    match s
    case ClassifyStep(answer, generation) =>
      generation.None? && (answer.alert.Some? ==> F.ClassificationAlert(answer.alert.value))
    case ReviewStep(_, _, _, generation, ids) =>
      generation.None? && F.FreshIds(a.findings, ids) && forall i: nat :: ids(i) != AlertId(a.project)
    case _ => true
  }

  ghost predicate Shows(w: Workspace, a: Aggregate) { w == WorkspaceOf(a).(cards := w.cards, reviews := w.reviews) }

  function AfterCall(a: Aggregate, w: Workspace): Aggregate {
    Aggregate(w.project, w.facts, w.findings, w.forms, a.tasks, a.timeline, w.audit)
  }

  lemma CarryKeepsOk(findings: seq<Finding>, id: string, version: string, document: string, n: nat)
    requires FindingsOk(findings, id, n)
    ensures FindingsOk(F.Carry(findings, version, document), id, n)
  {
    var after := F.Carry(findings, version, document);
    F.SameIdsDistinct(findings, after);
    forall f | f in after ensures FindingOk(f, id, n) {
      var i :| 0 <= i < |after| && after[i] == f;
      assert FindingOk(findings[i], id, n) && f == F.CarryOne(findings[i], version, document);
    }
  }

  lemma ActKeepsOk(findings: seq<Finding>, id: string, target: string, action: F.Action, n: nat)
    requires FindingsOk(findings, id, n)
    ensures FindingsOk(F.Act(findings, target, action), id, n)
  {
    var after := F.Act(findings, target, action);
    F.ActKeepsIds(findings, target, action);
    forall f | f in after ensures FindingOk(f, id, n) {
      var i :| 0 <= i < |after| && after[i] == f;
      assert FindingOk(findings[i], id, n);
    }
  }

  lemma OrdinaryFindings(a: Aggregate, w: Workspace, s: R.Step, env: Env, n: nat)
    requires Shows(w, a) && FindingsOk(a.findings, AlertId(a.project), n) && Ordinary(a, s)
    ensures FindingsOk(R.Do(w, s, env).after.findings, AlertId(a.project), n)
  {
    var id := AlertId(a.project);
    match s {
      case ReviewStep(version, document, ps, generation, ids) =>
        R.AdvanceLeavesFindings(w.(findings := F.Review(w.findings, version, document, ps, generation, ids)), env);
        CarryKeepsOk(w.findings, id, version, document, n);
        F.StillFresh(w.findings, F.Carry(w.findings, version, document), ids);
        WrittenKeepsOk(F.Carry(w.findings, version, document), id,
                       F.Kept(F.SeenKeys(w.findings, version, document), ps), ids, version, None, n);
      case ClassifyStep(answer, generation) =>
        R.ClassifiedFindings(w, answer, generation, env);
        SyncKeepsOk(w.findings, id, answer.alert, None, n);
      case ActStep(target, action) => ActKeepsOk(w.findings, id, target, action, n);
      case _ => R.OthersLeaveFindings(w, s, env);
    }
  }

  lemma OrdinaryCallKeepsInv(a: Aggregate, w: Workspace, s: R.Step, env: Env)
    requires Shows(w, a) && R.Inv(WorkspaceOf(a), env.digest) && R.Legal(w, s)
    ensures var b := AfterCall(a, R.Do(w, s, env).after);
            R.Inv(WorkspaceOf(b), env.digest) && b.project.projectId == a.project.projectId
  {
    var v := R.Do(w, s, env).after;
    R.SaveKeeps(WorkspaceOf(a), w, env.digest);
    R.StepKeeps(w, s, env);
    R.SaveKeeps(v, WorkspaceOf(AfterCall(a, v)), env.digest);
  }

  /** Any other call of the service keeps a project's path, its forms and its numbering. */
  lemma OrdinaryCallKeeps(a: Aggregate, w: Workspace, s: R.Step, env: Env, n: nat)
    requires Numbered(a, n) && Shows(w, a) && Ordinary(a, s)
    requires R.Inv(WorkspaceOf(a), env.digest) && R.Legal(w, s)
    ensures var b := AfterCall(a, R.Do(w, s, env).after); Numbered(b, n) && R.Inv(WorkspaceOf(b), env.digest)
  {
    OrdinaryCallKeepsInv(a, w, s, env);
    OrdinaryFindings(a, w, s, env, n);
  }

  lemma FindingWriteKeeps(a: Aggregate, f: Finding, n: nat)
    requires Numbered(a, n) && FindingOk(f, AlertId(a.project), n)
    ensures Numbered(a.(findings := PutById(a.findings, FindingId, f)), n)
  {
    PutByIdDistinct(a.findings, FindingId, f);
    forall g | g in PutById(a.findings, FindingId, f) ensures FindingOk(g, AlertId(a.project), n) { assert g == f || g in a.findings; }
  }

  lemma TaskWriteKeeps(a: Aggregate, t: WorkflowTask, n: nat)
    requires Numbered(a, n) && TaskOk(t, a.project.projectId, n)
    ensures Numbered(a.(tasks := PutById(a.tasks, TaskId, t)), n)
  {
    PutByIdDistinct(a.tasks, TaskId, t);
    forall u | u in PutById(a.tasks, TaskId, t) ensures TaskOk(u, a.project.projectId, n) { assert u == t || u in a.tasks; }
  }
}
