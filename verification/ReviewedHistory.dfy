/**
 What a project's log says when reviews and other calls alternate: an analysis is a
 run of the workflow's own calls, so every project the protocol reaches is reached by
 one run of calls, and the history of a filed project holds of it.
 */
module ReviewedHistory {
  import opened Entities
  import opened MemoryStore
  import opened StateMachine
  import opened Workflow
  import opened WorkflowHistory
  import opened StagedAnalysis
  import opened Conclusions
  import Findings
  import GateAndForms
  import R = WorkflowRuns
  import P = ReviewProtocol

  // ------------------------------------------------- an analysis is a run of calls

  /** The policy is the one of the run; only the latest version and the time are the analysis' own. */
  ghost predicate SamePolicy(o: Outside, env: Env) { o.env == env.(latest := o.env.latest, now := o.env.now) }

  function Beside(w: Workspace, rest: Workspace): Workspace { w.(cards := rest.cards, reviews := rest.reviews) }

  predicate Staging(s: R.Step) {
    s.BeginReanalysisStep? || s.ConfirmDetailsStep? || s.ClassifyStep? || s.ReviewStep? || s.DraftStep? || s.DeferFieldStep?
  }

  lemma TransitionBeside(w: Workspace, rest: Workspace, p: Project, to: ProjectState, reason: string, env: Env)
    requires to != GATE_D3_PASSED
    ensures var o, q := Transition(w, p, to, reason, env), Transition(Beside(w, rest), p, to, reason, env);
            q.error == o.error && q.after == Beside(o.after, rest)
  {
  }

  lemma JudgeBeside(w: Workspace, rest: Workspace, target: ProjectState, env: Env)
    ensures var o, q := JudgeForm(w, target, env), JudgeForm(Beside(w, rest), target, env);
            q.error == o.error && q.after == Beside(o.after, rest)
  {
    TransitionBeside(w, rest, w.project, FORM_JUDGED, "d1a.form_type_decided", env);
  }

  lemma SettleBeside(w: Workspace, rest: Workspace, target: ProjectState, env: Env)
    requires target != GATE_D3_PASSED
    ensures var o, q := Settle(w, target, env), Settle(Beside(w, rest), target, env);
            q.error == o.error && q.after == Beside(o.after, rest)
  {
    JudgeBeside(w, rest, target, env);
    var judged := JudgeForm(w, target, env).after;
    TransitionBeside(judged, rest, judged.project, target, "classification.decided", env);
  }

  lemma AdvanceBeside(w: Workspace, rest: Workspace, env: Env)
    ensures var o, q := Advance(w, env), Advance(Beside(w, rest), env);
            q.error == o.error && q.after == Beside(o.after, rest)
  {
    TransitionBeside(w, rest, w.project, REVIEW_RUNNING, "review.started", env);
    var started := if w.project.state == COLLECTING_MATERIALS
                   then Transition(w, w.project, REVIEW_RUNNING, "review.started", env).after else w;
    TransitionBeside(started, rest, started.project, REVISION_LOOP, "review.findings_open", env);
  }

  lemma ClassifyBeside(w: Workspace, rest: Workspace, c: Workflow.Classified, generation: Option<nat>, env: Env)
    requires R.ChainAnswer(c)
    ensures var o, q := RunClassification(w, c, generation, env), RunClassification(Beside(w, rest), c, generation, env);
            q.error == o.error && q.after == Beside(o.after, rest)
  {
    var saved := Recorded(w, c, generation, env.now);
    assert Recorded(Beside(w, rest), c, generation, env.now) == Beside(saved, rest);
    if c.next.Some? { SettleBeside(saved, rest, c.next.value, env); }
  }

  lemma ConfirmBeside(w: Workspace, rest: Workspace, d: ConfirmedDetails, ids: nat -> string, env: Env)
    ensures var o, q := ApplyConfirmation(w, d, ids, env), ApplyConfirmation(Beside(w, rest), d, ids, env);
            q.error == o.error && q.after == Beside(o.after, rest)
  {
    var p := w.project.(title := Some(d.title), bracket := d.bracket, amount := None, updatedAt := env.now);
    TransitionBeside(w, rest, p, INTAKE_DONE, "intent.submitted", env);
  }

  lemma OpenBeside(w: Workspace, rest: Workspace, key: string, freshId: string, env: Env)
    ensures var o, q := OpenField(w, key, freshId, env), OpenField(Beside(w, rest), key, freshId, env);
            q.error == o.error && q.after == Beside(o.after, rest)
  {
    DraftBeside(w, rest, freshId, env);
  }

  lemma DeferBeside(w: Workspace, rest: Workspace, key: string, factId: string, answerId: string, freshId: string, env: Env)
    ensures var o, q := DeferField(w, key, factId, answerId, freshId, env), DeferField(Beside(w, rest), key, factId, answerId, freshId, env);
            q.error == o.error && q.after == Beside(o.after, rest)
  {
    OpenBeside(w, rest, key, freshId, env);
    DeferOpenedBeside(OpenField(w, key, freshId, env).after, rest, key, factId, answerId, freshId, env);
  }

  lemma DeferOpenedBeside(w: Workspace, rest: Workspace, key: string, factId: string, answerId: string, freshId: string, env: Env)
    ensures var o, q := DeferOpened(w, key, factId, answerId, freshId, env), DeferOpened(Beside(w, rest), key, factId, answerId, freshId, env);
            q.error == o.error && q.after == Beside(o.after, rest)
  {
    var source := SourceRef(FromAnswer, answerId, None);
    DraftBeside(w.(facts := GateAndForms.DeferFact(w.facts, factId, key, source)), rest, freshId, env);
  }

  lemma DraftBeside(w: Workspace, rest: Workspace, freshId: string, env: Env)
    ensures var o, q := FormDraftOf(w, freshId, env), FormDraftOf(Beside(w, rest), freshId, env);
            q.error == o.error && q.after == Beside(o.after, rest)
    ensures DraftRead(Beside(w, rest), freshId, env) == DraftRead(w, freshId, env)
  {
  }

  /** The calls of an analysis neither read nor write the cards and the institution's reviews. */
  lemma StepBeside(w: Workspace, rest: Workspace, s: R.Step, env: Env)
    requires Staging(s) && R.Legal(w, s)
    ensures var o, q := R.Do(w, s, env), R.Do(Beside(w, rest), s, env);
            q.error == o.error && q.after == Beside(o.after, rest)
  {
    match s
    case ConfirmDetailsStep(d, ids) => ConfirmBeside(w, rest, d, ids, env);
    case ClassifyStep(c, generation) => ClassifyBeside(w, rest, c, generation, env);
    case ReviewStep(version, document, ps, generation, ids) =>
      AdvanceBeside(w.(findings := Findings.Review(w.findings, version, document, ps, generation, ids)), rest, env);
    case DraftStep(id) => DraftBeside(w, rest, id, env);
    case DeferFieldStep(key, factId, answerId, id) => DeferBeside(w, rest, key, factId, answerId, id, env);
    case BeginReanalysisStep =>
  }

  /** A legal run from a new project that has come to this workspace. */
  ghost predicate Told(start: Workspace, cs: seq<Call>, w: Workspace, env: Env) {
    Created(start) && LegalRun(start, cs, env) && Run(start, cs, env) == w
  }

  lemma OneMore(start: Workspace, cs: seq<Call>, w: Workspace, c: Call, env: Env)
    requires Told(start, cs, w, env) && R.Legal(w, c.step)
    ensures Told(start, cs + [c], R.Do(w, c.step, At(env, c)).after, env)
  {
    assert (cs + [c])[..|cs|] == cs;
  }

  /** One step of an analysis is one more call of the run. */
  lemma ThenTold(start: Workspace, cs: seq<Call>, w: Workspace, rest: Workspace, s: R.Step, o: Outside, env: Env)
    returns (more: seq<Call>)
    requires Told(start, cs, Beside(w, rest), env) && Staging(s) && R.Legal(w, s) && SamePolicy(o, env)
    requires Then(Some(w), s, o.env).Some?
    ensures Told(start, more, Beside(Then(Some(w), s, o.env).value, rest), env)
  {
    var c := Call(s, o.env.latest, o.env.now);
    StepBeside(w, rest, s, o.env);
    OneMore(start, cs, Beside(w, rest), c, env);
    more := cs + [c];
  }

  lemma ClassedTold(start: Workspace, cs: seq<Call>, rest: Workspace, a: Aggregate, d: ConfirmedDetails, g: nat, force: bool,
                    o: Outside, env: Env)
    returns (more: seq<Call>)
    requires Told(start, cs, Beside(WorkspaceOf(a), rest), env) && SamePolicy(o, env)
    requires d.title != "" && R.ChainAnswer(o.answer) && Classed(a, d, g, force, o).Some?
    ensures Told(start, more, Beside(Classed(a, d, g, force, o).value, rest), env)
  {
    more := cs;
    if force { more := ThenTold(start, more, WorkspaceOf(a), rest, R.BeginReanalysisStep, o, env); }
    var started := Started(a, force, o).value;
    more := ThenTold(start, more, started, rest, R.ConfirmDetailsStep(d, o.factIds), o, env);
    var confirmed := Then(Some(started), R.ConfirmDetailsStep(d, o.factIds), o.env).value;
    more := ThenTold(start, more, confirmed, rest, R.ClassifyStep(o.answer, Some(g)), o, env);
  }

  lemma ReviewTold(start: Workspace, cs: seq<Call>, w: Workspace, rest: Workspace, a: Aggregate, g: nat, force: bool,
                   o: Outside, env: Env)
    returns (more: seq<Call>)
    requires Told(start, cs, Beside(w, rest), env) && SamePolicy(o, env) && ReviewPart(w, a, g, force, o).Some?
    ensures Told(start, more, Beside(ReviewPart(w, a, g, force, o).value.0, rest), env)
  {
    more := cs;
    if o.script.Some? && Ran(a, g, force, o.script.value) {
      more := ThenTold(start, cs, w, rest, ReviewOf(o.script.value, g), o, env);
    }
  }

  lemma DraftedTold(start: Workspace, cs: seq<Call>, w: Workspace, rest: Workspace, o: Outside, env: Env)
    returns (more: seq<Call>)
    requires Told(start, cs, Beside(w, rest), env) && SamePolicy(o, env) && Drafted(w, o).Some?
    ensures Told(start, more, Beside(Drafted(w, o).value, rest), env)
  {
    more := ThenTold(start, cs, w, rest, R.DraftStep(o.draftId), o, env);
    if LacksApplicant(DraftRead(w, o.draftId, o.env)) {
      var v := FormDraftOf(w, o.draftId, o.env).after;
      more := ThenTold(start, more, v, rest, R.DeferFieldStep(APPLICANT, o.deferFactId, o.deferAnswerId, o.draftId), o, env);
    }
  }

  /** A staged analysis that goes through is a run of the workflow's own calls on the project. */
  lemma AnalysisIsRun(start: Workspace, cs: seq<Call>, w: Workspace, a: Aggregate, d: ConfirmedDetails, g: nat, force: bool,
                      o: Outside, env: Env)
    returns (more: seq<Call>)
    requires Told(start, cs, w, env) && Shows(w, a) && SamePolicy(o, env)
    requires d.title != "" && R.ChainAnswer(o.answer) && Staged(a, d, g, force, o).Some?
    ensures Told(start, more, Beside(WorkspaceOf(Staged(a, d, g, force, o).value), w), env)
  {
    var x, v, u, tasks := Stages(a, d, g, force, o);
    more := ClassedTold(start, cs, w, a, d, g, force, o, env);
    more := ReviewTold(start, more, x, w, a, g, force, o, env);
    more := DraftedTold(start, more, v, w, o, env);
  }

  // ----------------------------------------------- a whole log is a run of calls

  /** The project's workspace after a log whose write number n is the call `calls[n]`. */
  ghost function Tell(log: seq<P.Event>, calls: seq<Call>, pid: string, env: Env, oracle: nat -> Outside): Option<Workspace>
    requires |calls| == |log|
  {
    if log == [] then None
    else
      var n := |log| - 1;
      var before := Tell(log[..n], calls[..n], pid, env, oracle);
      match log[n]
      case Created(a) => if a.project.projectId == pid then Some(WorkspaceOf(a)) else before
      case Wrote(p, _) =>
        if p == pid && before.Some? then Some(R.Do(before.value, calls[n].step, At(env, calls[n])).after) else before
      case Analysed(p, _, _, _, _) =>
        var after := P.Replay(log, Analysis(oracle), pid);
        if p == pid && before.Some? && after.Some? then Some(Beside(WorkspaceOf(after.value), before.value)) else before
  }

  /** An ordinary write of the project is this call on its workspace. */
  ghost predicate IsCall(w: Workspace, change: Aggregate -> Aggregate, c: Call, env: Env) {
    && R.Legal(w, c.step)
    && forall a | Shows(w, a) :: Shows(R.Do(w, c.step, At(env, c)).after, change(a))
  }

  /** The project starts new, other writes of it are calls, and its analyses read the same policy. */
  ghost predicate Calls(log: seq<P.Event>, calls: seq<Call>, pid: string, env: Env, oracle: nat -> Outside)
    requires |calls| == |log|
  {
    log == [] ||
    ( var n := |log| - 1;
      && Calls(log[..n], calls[..n], pid, env, oracle)
      && match log[n]
         case Created(a) => a.project.projectId == pid ==> Created(WorkspaceOf(a))
         case Wrote(p, change) =>
           var before := Tell(log[..n], calls[..n], pid, env, oracle);
           p == pid && before.Some? ==> IsCall(before.value, change, calls[n], env)
         case Analysed(p, d, _, _, seed) => p == pid ==> Answered(d, oracle(seed), env))
  }

  ghost predicate Answered(d: ConfirmedDetails, o: Outside, env: Env) {
    d.title != "" && R.ChainAnswer(o.answer) && SamePolicy(o, env)
  }

  lemma ReplayStep(log: seq<P.Event>, analysis: P.Analysis, pid: string)
    requires log != [] && P.Replay(log, analysis, pid).Some?
    ensures var n := |log| - 1;
            var before := P.Replay(log[..n], analysis, pid);
            match log[n]
            case Created(a) => a.project.projectId != pid ==> before == P.Replay(log, analysis, pid)
            case Wrote(p, change) =>
              before.Some? && P.Replay(log, analysis, pid) == Some(if p == pid then change(before.value) else before.value)
            case Analysed(p, d, g, force, seed) =>
              before.Some? && (p != pid ==> P.Replay(log, analysis, pid) == before)
              && (p == pid ==> P.Replay(log, analysis, pid) == analysis(before.value, d, g, force, seed))
  {
  }

  /** Whatever the log replays to was reached by one legal run of calls from a new project. */
  lemma {:induction false} LogIsRun(log: seq<P.Event>, calls: seq<Call>, pid: string, env: Env, oracle: nat -> Outside)
    returns (start: Workspace, cs: seq<Call>)
    requires |calls| == |log| && Calls(log, calls, pid, env, oracle)
    requires P.Replay(log, Analysis(oracle), pid).Some?
    ensures Tell(log, calls, pid, env, oracle).Some?
    ensures Shows(Tell(log, calls, pid, env, oracle).value, P.Replay(log, Analysis(oracle), pid).value)
    ensures Told(start, cs, Tell(log, calls, pid, env, oracle).value, env)
    decreases |log|
  {
    var n := |log| - 1;
    ReplayStep(log, Analysis(oracle), pid);
    if log[n].Created? && log[n].aggregate.project.projectId == pid {
      start, cs := WorkspaceOf(log[n].aggregate), [];
    } else {
      start, cs := LogIsRun(log[..n], calls[..n], pid, env, oracle);
      var w := Tell(log[..n], calls[..n], pid, env, oracle).value;
      match log[n] {
        case Wrote(p, change) =>
          if p == pid {
            OneMore(start, cs, w, calls[n], env);
            cs := cs + [calls[n]];
          }
        case Analysed(p, d, g, force, seed) =>
          if p == pid {
            var a := P.Replay(log[..n], Analysis(oracle), pid).value;
            cs := AnalysisIsRun(start, cs, w, a, d, g, force, oracle(seed), env);
          }
        case Created(_) =>
      }
    }
  }

  /**
   Filed, through any reviews. In any interleaving, a filed project whose other writes
   are service calls passed the gate after its last reset, with nothing open, missing,
   conflicting or unvalidated in what was stored then, and after that was frozen,
   submitted, accepted and numbered; no published analysis can have stood in for any of it.
   */
  lemma FiledThroughReviews(w: P.World, steps: seq<P.Step>, calls: seq<Call>, pid: string, env: Env, oracle: nat -> Outside)
    returns (start: Workspace, cs: seq<Call>, gate: nat, i: nat)
    requires P.Init(w) && P.Runs(w, steps, Analysis(oracle))
    requires |calls| == |P.Run(w, steps, Analysis(oracle)).log|
    requires Calls(P.Run(w, steps, Analysis(oracle)).log, calls, pid, env, oracle)
    requires var live := AggregateOf(P.Run(w, steps, Analysis(oracle)).store, pid);
             live.Some? && live.value.project.state == FILED
    ensures var live := AggregateOf(P.Run(w, steps, Analysis(oracle)).store, pid).value;
            && Created(start) && LegalRun(start, cs, env) && Shows(Run(start, cs, env), live)
            && FiledAfter(live.audit, gate) && NonEmpty(live.project.registrationNumber)
            && i < |cs| && |Run(start, cs[..i], env).audit| <= gate < |Run(start, cs[..i + 1], env).audit|
            && GateStandsOpen(Run(start, cs[..i + 1], env), At(env, cs[i]))
  {
    var v := P.Run(w, steps, Analysis(oracle));
    P.Serializable(w, steps, Analysis(oracle), pid);
    start, cs := LogIsRun(v.log, calls, pid, env, oracle);
    gate, i := FiledProject(start, cs, env);
  }
}
