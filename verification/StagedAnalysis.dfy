/**
 What a claimed review does to its staged copy: the reset of a reanalysis, the
 confirmed details, the classification, the script review under its job key, and
 the form draft. An analysis that raises anywhere yields nothing.
 */
module StagedAnalysis {
  import opened Entities
  import opened MemoryStore
  import opened StateMachine
  import opened Workflow
  import opened Worker
  import R = WorkflowRuns
  import F = Findings
  import P = ReviewProtocol

  /** The selected script, what its review proposes, and how the job that runs it ends. */
  datatype Script = Script(
    asset: string, document: string, proposals: seq<F.Proposal>, ids: nat -> string, taskId: string, verdict: Work)

  /** Everything an analysis is given from outside the stores. */
  datatype Outside = Outside(
    env: Env, factIds: nat -> string, answer: Classified, script: Option<Script>,
    draftId: string, deferFactId: string, deferAnswerId: string, events: seq<TimelineEvent>)

  const APPLICANT := "applicant_entity"

  /** A staged copy holds no materials and no institution reviews. */
  function WorkspaceOf(a: Aggregate): Workspace {
    Workspace(a.project, a.facts, a.findings, a.forms, a.audit, [], [])
  }

  /** A call that raises ends the analysis. */
  function Passed(o: Outcome): Option<Workspace> { if o.error.Some? then None else Some(o.after) }

  function Then(w: Option<Workspace>, s: R.Step, env: Env): Option<Workspace> {
    if w.None? then None else Passed(R.Do(w.value, s, env))
  }

  function Started(a: Aggregate, force: bool, o: Outside): Option<Workspace> {
    if force then Then(Some(WorkspaceOf(a)), R.BeginReanalysisStep, o.env) else Some(WorkspaceOf(a))
  }

  function Classed(a: Aggregate, d: ConfirmedDetails, g: nat, force: bool, o: Outside): Option<Workspace> {
    Then(Then(Started(a, force, o), R.ConfirmDetailsStep(d, o.factIds), o.env), R.ClassifyStep(o.answer, Some(g)), o.env)
  }

  predicate ReviewOfAnother(t: WorkflowTask, asset: string) {
    (t.kind.ReviewFull? || t.kind.ReviewIncremental?) && t.assetVersion != asset
  }

  /** A first review is full, one after another script's is incremental; a forced one is keyed by its generation. */
  function Candidate(a: Aggregate, g: nat, force: bool, s: Script): WorkflowTask {
    var kind := if exists t | t in a.tasks :: ReviewOfAnother(t, s.asset) then ReviewIncremental else ReviewFull;
    WorkflowTask(s.taskId, a.project.projectId, kind, Queued,
                 JobKey(a.project.projectId, kind, JobVersion(s.asset, if force then Some(g) else None)), s.asset, None)
  }

  /** The staged task store: the copied tasks, added one by one. */
  function Board(tasks: seq<WorkflowTask>): MemoryState {
    MemoryState([], map[], tasks, IndexAll(map[], tasks), map[])
  }

  function ReviewOf(s: Script, g: nat): R.Step { R.ReviewStep(s.asset, s.document, s.proposals, Some(g), s.ids) }

  /** The review job in the request: a new key runs the review, a held one is a replay, and a failed job raises. */
  function Reviewed(w: Workspace, a: Aggregate, g: nat, force: bool, s: Script, env: Env): Option<(Workspace, seq<WorkflowTask>)> {
    var (m, task, how) := RunJob(Board(a.tasks), Candidate(a, g, force, s), s.verdict, true);
    if !how.RanHere? then if task.status.Failed? then None else Some((w, m.tasks))
    else if s.verdict.Raised? then None
    else
      var v := Then(Some(w), ReviewOf(s, g), env);
      if v.None? then None else Some((v.value, m.tasks))
  }

  predicate LacksApplicant(d: FormDraft) { APPLICANT in d.fields && d.fields[APPLICANT].status.Pending? }

  /** The form draft, and the applicant left to the filing institution unless it is answered. */
  function Drafted(w: Workspace, o: Outside): Option<Workspace> {
    var v := FormDraftOf(w, o.draftId, o.env);
    if v.error.None? && LacksApplicant(DraftRead(w, o.draftId, o.env))
    then Passed(DeferField(v.after, APPLICANT, o.deferFactId, o.deferAnswerId, o.draftId, o.env)) else Passed(v)
  }

  function ReviewPart(w: Workspace, a: Aggregate, g: nat, force: bool, o: Outside): Option<(Workspace, seq<WorkflowTask>)> {
    if o.script.None? then Some((w, a.tasks)) else Reviewed(w, a, g, force, o.script.value, o.env)
  }

  /** The whole analysis of one staged copy. */
  function Staged(a: Aggregate, d: ConfirmedDetails, g: nat, force: bool, o: Outside): Option<Aggregate> {
    var w := Classed(a, d, g, force, o);
    if w.None? then None
    else
      var v := ReviewPart(w.value, a, g, force, o);
      if v.None? then None
      else
        var u := Drafted(v.value.0, o);
        if u.None? then None else Some(Bundle(a, u.value, v.value.1, o))
  }

  function Bundle(a: Aggregate, w: Workspace, tasks: seq<WorkflowTask>, o: Outside): Aggregate {
    Aggregate(w.project, w.facts, w.findings, w.forms, tasks, a.timeline + o.events, w.audit)
  }

  /** The protocol's analysis, run by this service with one oracle for everything outside. */
  function Analysis(oracle: nat -> Outside): P.Analysis {
    (a: Aggregate, d: ConfirmedDetails, g: nat, force: bool, seed: nat) => Staged(a, d, g, force, oracle(seed))
  }

  /** The three stages of an analysis that went through. */
  lemma Stages(a: Aggregate, d: ConfirmedDetails, g: nat, force: bool, o: Outside)
    returns (w: Workspace, v: Workspace, u: Workspace, tasks: seq<WorkflowTask>)
    requires Staged(a, d, g, force, o).Some?
    ensures Classed(a, d, g, force, o) == Some(w) && ReviewPart(w, a, g, force, o) == Some((v, tasks))
    ensures Drafted(v, o) == Some(u) && Staged(a, d, g, force, o) == Some(Bundle(a, u, tasks, o))
  {
    w := Classed(a, d, g, force, o).value;
    v, tasks := ReviewPart(w, a, g, force, o).value.0, ReviewPart(w, a, g, force, o).value.1;
    u := Drafted(v, o).value;
  }

  // ---------------------------------------------------------------- the audit path

  ghost predicate Sound(w: Workspace, v: Workspace, digest: R.Digest) { R.Inv(v, digest) && R.Grows(w, v) }

  lemma ThenKeeps(w: Workspace, v: Option<Workspace>, s: R.Step, env: Env)
    requires v.Some? && Sound(w, v.value, env.digest) && R.Legal(v.value, s) && Then(v, s, env).Some?
    ensures Sound(w, Then(v, s, env).value, env.digest)
  {
    R.StepKeeps(v.value, s, env);
  }

  lemma ClassedKeeps(a: Aggregate, d: ConfirmedDetails, g: nat, force: bool, o: Outside)
    requires R.Inv(WorkspaceOf(a), o.env.digest) && d.title != "" && R.ChainAnswer(o.answer)
    requires Classed(a, d, g, force, o).Some?
    ensures Sound(WorkspaceOf(a), Classed(a, d, g, force, o).value, o.env.digest)
  {
    var w := WorkspaceOf(a);
    if force { ThenKeeps(w, Some(w), R.BeginReanalysisStep, o.env); }
    var started := Started(a, force, o);
    var confirmed := Then(started, R.ConfirmDetailsStep(d, o.factIds), o.env);
    ThenKeeps(w, started, R.ConfirmDetailsStep(d, o.factIds), o.env);
    ThenKeeps(w, confirmed, R.ClassifyStep(o.answer, Some(g)), o.env);
  }

  /** The review part leaves the workspace alone or makes one review step of it. */
  lemma ReviewPartShape(w: Workspace, a: Aggregate, g: nat, force: bool, o: Outside)
    requires ReviewPart(w, a, g, force, o).Some?
    ensures var v := ReviewPart(w, a, g, force, o).value.0;
            v == w || (o.script.Some? && Then(Some(w), ReviewOf(o.script.value, g), o.env) == Some(v))
  {
  }

  lemma ReviewPartKeeps(w: Workspace, x: Workspace, a: Aggregate, g: nat, force: bool, o: Outside)
    requires Sound(x, w, o.env.digest) && ReviewPart(w, a, g, force, o).Some?
    ensures Sound(x, ReviewPart(w, a, g, force, o).value.0, o.env.digest)
  {
    ReviewPartShape(w, a, g, force, o);
    if ReviewPart(w, a, g, force, o).value.0 != w {
      ThenKeeps(x, Some(w), ReviewOf(o.script.value, g), o.env);
    }
  }

  lemma DraftedKeeps(w: Workspace, x: Workspace, o: Outside)
    requires Sound(x, w, o.env.digest) && Drafted(w, o).Some?
    ensures Sound(x, Drafted(w, o).value, o.env.digest)
  {
    var v := FormDraftOf(w, o.draftId, o.env).after;
    R.FormDraftKeeps(w, o.draftId, o.env);
    R.GrowsTransitive(x, w, v);
    if LacksApplicant(DraftRead(w, o.draftId, o.env)) {
      R.DeferFieldKeeps(v, APPLICANT, o.deferFactId, o.deferAnswerId, o.draftId, o.env);
      R.GrowsTransitive(x, v, Drafted(w, o).value);
    }
  }

  /**
   An analysis keeps the workflow's invariant: its log is a path of the state
   table, drafts are chained and sealed; and it undoes no fact, entry or frozen draft.
   */
  lemma StagedKeepsInv(a: Aggregate, d: ConfirmedDetails, g: nat, force: bool, o: Outside)
    requires R.Inv(WorkspaceOf(a), o.env.digest) && d.title != "" && R.ChainAnswer(o.answer)
    requires Staged(a, d, g, force, o).Some?
    ensures var r := Staged(a, d, g, force, o).value;
            R.Inv(WorkspaceOf(r), o.env.digest) && R.Grows(WorkspaceOf(a), WorkspaceOf(r))
  {
    var w, v, u, tasks := Stages(a, d, g, force, o);
    ClassedKeeps(a, d, g, force, o);
    ReviewPartKeeps(w, WorkspaceOf(a), a, g, force, o);
    DraftedKeeps(v, WorkspaceOf(a), o);
    R.SaveKeeps(u, WorkspaceOf(Bundle(a, u, tasks, o)), o.env.digest);
  }

  lemma ResetIsNext(a: Aggregate, o: Outside)
    requires Started(a, true, o).Some?
    ensures a.project.state in REANALYZABLE
    ensures Started(a, true, o).value.audit == a.audit + [AuditEntry(a.project.state, DRAFT, RESET)]
  {
  }

  /** A forced analysis goes through only on a project that was judged and has no frozen form, and logs the reset first. */
  lemma ResetComesFirst(a: Aggregate, d: ConfirmedDetails, g: nat, o: Outside)
    requires R.Inv(WorkspaceOf(a), o.env.digest) && d.title != "" && R.ChainAnswer(o.answer)
    requires Staged(a, d, g, true, o).Some?
    ensures !R.NotJudged(a.project.state) && !LatestFrozen(a.forms)
    ensures a.audit + [AuditEntry(a.project.state, DRAFT, RESET)] <= Staged(a, d, g, true, o).value.audit
  {
    var w, v, u, tasks := Stages(a, d, g, true, o);
    ResetIsNext(a, o);
    R.ResetExactly(WorkspaceOf(a), o.env);
    AfterReset(a, d, g, o);
    ReviewPartKeeps(w, Started(a, true, o).value, a, g, true, o);
    DraftedKeeps(v, Started(a, true, o).value, o);
  }

  lemma AfterReset(a: Aggregate, d: ConfirmedDetails, g: nat, o: Outside)
    requires R.Inv(WorkspaceOf(a), o.env.digest) && d.title != "" && R.ChainAnswer(o.answer)
    requires Classed(a, d, g, true, o).Some?
    ensures Sound(Started(a, true, o).value, Classed(a, d, g, true, o).value, o.env.digest)
  {
    var x := Started(a, true, o).value;
    ThenKeeps(WorkspaceOf(a), Some(WorkspaceOf(a)), R.BeginReanalysisStep, o.env);
    var confirmed := Then(Some(x), R.ConfirmDetailsStep(d, o.factIds), o.env);
    ThenKeeps(x, Some(x), R.ConfirmDetailsStep(d, o.factIds), o.env);
    ThenKeeps(x, confirmed, R.ClassifyStep(o.answer, Some(g)), o.env);
  }
}
