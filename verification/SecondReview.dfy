/** A first review and what may follow it: the state a confirmation ends in is one a reanalysis starts from. */
module SecondReview {
  import opened Entities
  import opened MemoryStore
  import opened StateMachine
  import opened Workflow
  import opened StagedAnalysis
  import opened Conclusions
  import opened Generations
  import Facade
  import R = WorkflowRuns
  import P = ReviewProtocol

  // ------------------------------------------------------- where an analysis ends

  lemma SettleEnds(w: Workspace, target: ProjectState, env: Env)
    requires target in R.CHAIN_TARGETS && Settle(w, target, env).error.None?
    ensures Settle(w, target, env).after.project.state == target
  {
  }

  lemma ClassedEnds(a: Aggregate, d: ConfirmedDetails, g: nat, force: bool, o: Outside)
    requires R.ChainAnswer(o.answer) && o.answer.next.Some? && Classed(a, d, g, force, o).Some?
    ensures Classed(a, d, g, force, o).value.project.state == o.answer.next.value
  {
    ChainEnds(Then(Started(a, force, o), R.ConfirmDetailsStep(d, o.factIds), o.env).value, o.answer, g, o.env);
  }

  lemma ChainEnds(w: Workspace, c: Workflow.Classified, g: nat, env: Env)
    requires R.ChainAnswer(c) && c.next.Some? && R.Do(w, R.ClassifyStep(c, Some(g)), env).error.None?
    ensures R.Do(w, R.ClassifyStep(c, Some(g)), env).after.project.state == c.next.value
  {
    SettleEnds(Recorded(w, c, Some(g), env.now), c.next.value, env);
  }

  lemma DeferLeavesProject(w: Workspace, key: string, factId: string, answerId: string, id: string, env: Env)
    ensures DeferField(w, key, factId, answerId, id, env).after.project == w.project
  {
    assert OpenField(w, key, id, env).after.project == w.project;
  }

  lemma DraftedLeavesProject(w: Workspace, o: Outside)
    requires Drafted(w, o).Some?
    ensures Drafted(w, o).value.project == w.project
  {
    var v := FormDraftOf(w, o.draftId, o.env).after;
    DeferLeavesProject(v, APPLICANT, o.deferFactId, o.deferAnswerId, o.draftId, o.env);
  }

  lemma ReviewLeavesProject(w: Workspace, a: Aggregate, g: nat, force: bool, o: Outside)
    requires ReviewPart(w, a, g, force, o).Some? && !Past(w.project.state)
    ensures ReviewPart(w, a, g, force, o).value.0.project == w.project
  {
    ReviewPartShape(w, a, g, force, o);
    if o.script.Some? { ReviewGoes(w, o.script.value, g, o.env); }
  }

  /** An analysis ends in the state the chain answered with: neither the script review nor the form moves it on. */
  lemma EndsAsAnswered(a: Aggregate, d: ConfirmedDetails, g: nat, force: bool, o: Outside)
    requires R.ChainAnswer(o.answer) && o.answer.next.Some? && Staged(a, d, g, force, o).Some?
    ensures Staged(a, d, g, force, o).value.project.state == o.answer.next.value
  {
    var w, v, u, tasks := Stages(a, d, g, force, o);
    ClassedEnds(a, d, g, force, o);
    AnswersAreEarly(o.answer.next.value);
    ReviewLeavesProject(w, a, g, force, o);
    DraftedLeavesProject(v, o);
  }

  // --------------------------------------------------------- a first review goes through

  lemma FirstClassedGoes(a: Aggregate, d: ConfirmedDetails, g: nat, o: Outside)
    requires a.project.state == DRAFT && R.ChainAnswer(o.answer)
    ensures Classed(a, d, g, false, o).Some? <==> !o.answer.askBack
    ensures Classed(a, d, g, false, o).Some? ==> !Past(Classed(a, d, g, false, o).value.project.state)
  {
    IntakeGoes(WorkspaceOf(a), d, o.factIds, o.env);
    ChainGoes(Then(Some(WorkspaceOf(a)), R.ConfirmDetailsStep(d, o.factIds), o.env).value, o.answer, g, o.env);
  }

  lemma RaisedStops(w: Workspace, a: Aggregate, g: nat, force: bool, o: Outside)
    requires o.script.Some? && Ran(a, g, force, o.script.value) && o.script.value.verdict.Raised?
    ensures ReviewPart(w, a, g, force, o).None?
  {
  }

  /**
   The first review of a project in DRAFT goes through exactly when the chain asks nothing
   back and the review job, run under a key nobody holds, does not raise.
   */
  lemma FirstReviewGoesThroughExactly(a: Aggregate, d: ConfirmedDetails, g: nat, o: Outside)
    requires a.project.state == DRAFT && o.script.Some? && Ran(a, g, false, o.script.value)
    requires R.Inv(WorkspaceOf(a), o.env.digest) && d.title != "" && R.ChainAnswer(o.answer)
    ensures Staged(a, d, g, false, o).Some? <==> !o.answer.askBack && o.script.value.verdict.Produced?
  {
    FirstClassedGoes(a, d, g, o);
    if Classed(a, d, g, false, o).Some? {
      var w := Classed(a, d, g, false, o).value;
      if o.script.value.verdict.Raised? {
        RaisedStops(w, a, g, false, o);
      } else {
        ReviewPartRuns(w, a, g, false, o);
        ClassedKeeps(a, d, g, false, o);
        ReviewPartKeeps(w, WorkspaceOf(a), a, g, false, o);
        DraftedGoes(ReviewPart(w, a, g, false, o).value.0, o);
      }
    }
  }

  // ------------------------------------------------------------ and may be followed

  /** Every state the chain answers with is judged, and none is under filing. */
  lemma AnswersAreJudged(s: ProjectState)
    requires s in R.CHAIN_TARGETS
    ensures !R.NotJudged(s) && !R.UnderFiling(s)
  {
  }

  lemma JudgedAfter(a: Aggregate, d: ConfirmedDetails, g: nat, force: bool, o: Outside)
    requires R.Inv(WorkspaceOf(a), o.env.digest) && d.title != "" && R.ChainAnswer(o.answer) && o.answer.next.Some?
    requires Staged(a, d, g, force, o).Some?
    ensures var done := Staged(a, d, g, force, o).value;
            R.Inv(WorkspaceOf(done), o.env.digest) && !R.NotJudged(done.project.state) && !LatestFrozen(done.forms)
  {
    var done := Staged(a, d, g, force, o).value;
    StagedKeepsInv(a, d, g, force, o);
    EndsAsAnswered(a, d, g, force, o);
    AnswersAreJudged(done.project.state);
    R.FilingIsFrozen(WorkspaceOf(done), o.env.digest);
  }

  /** The confirmation's own premises: a waiting session, its staged project, and an analysis that goes through. */
  ghost predicate Confirms(m: MemoryState, r: Facade.Request, work: Facade.Work, oracle: nat -> Outside,
                           s: ReviewSession, stage: Baseline)
  {
    var o := oracle(work.seed);
    && !r.force && work.analysis == Analysis(oracle) && r.details.title != ""
    && Facade.Checked(m, r, true) == Ok(s) && s.reviewId == r.rid
    && Stage(m, s.reviewId, s.projectId) == Some(stage)
    && R.Inv(WorkspaceOf(stage.aggregate), o.env.digest) && Numbered(stage.aggregate, s.generation + 1)
    && FreshFor(stage.aggregate, o) && R.ChainAnswer(o.answer) && o.answer.next.Some?
    && var done := Staged(stage.aggregate, r.details, s.generation + 1, false, o);
       done.Some? && Facade.Lands(m, done.value, s.projectId)
  }

  /** The second review's: other details, and outside answers an analysis can be made of. Nothing of the project's state. */
  ghost predicate Follows(m: MemoryState, a: Aggregate, r: Facade.Request, g: nat, o: Outside, digest: R.Digest) {
    && r.force && r.details.title != "" && o.env.digest == digest
    && FreshFor(a, o) && o.script.Some? && o.script.value.verdict.Produced?
    && R.ChainAnswer(o.answer) && !o.answer.askBack
    && (Staged(a, r.details, g, true, o).Some? ==> WellFormedAggregate(m, Staged(a, r.details, g, true, o).value))
  }

  /** The session a confirmation leaves. */
  lemma ConfirmedSession(m: MemoryState, r: Facade.Request, work: Facade.Work, oracle: nat -> Outside,
                         s: ReviewSession, stage: Baseline) returns (s1: ReviewSession)
    requires Confirms(m, r, work, oracle, s, stage)
    ensures var (m1, error) := Facade.Call(m, r, true, work);
            && error.None? && r.rid in m1.sessions && m1.sessions[r.rid] == s1
            && AggregateOf(m1, s.projectId) ==
               Staged(stage.aggregate, r.details, s.generation + 1, false, oracle(work.seed))
    ensures s1.state == Complete && s1.generation == s.generation + 1 && s1.confirmed == Some(r.details)
    ensures s1.reviewId == s.reviewId && s1.projectId == s.projectId && s1.ownerUid == s.ownerUid
  {
    Facade.UndisturbedCallPublishes(m, r, true, work, s, stage);
    s1 := s.(state := Complete, confirmed := Some(r.details), generation := s.generation + 1, semantic := work.semantic);
  }

  lemma SecondIsChecked(m: MemoryState, first: Facade.Request, second: Facade.Request, s: ReviewSession, m1: MemoryState,
                        s1: ReviewSession)
    requires Facade.Checked(m, first, true) == Ok(s) && second.force && second.rid == first.rid && second.uid == first.uid
    requires second.rid in m1.sessions && m1.sessions[second.rid] == s1 && s1.state == Complete && s1.ownerUid == s.ownerUid
    ensures Facade.Checked(m1, second, true) == Ok(s1)
  {
  }

  /**
   Confirm, then reanalyse. Left alone, a confirmation that goes through publishes, and
   ends in the state the chain answered with; and from there a reanalysis with other
   details, whatever that state is, publishes too: one generation on, concluded afresh.
   */
  lemma ConfirmedMayBeReanalysed(m: MemoryState, first: Facade.Request, second: Facade.Request, work: Facade.Work,
                                 again: Facade.Work, oracle: nat -> Outside, s: ReviewSession, stage: Baseline)
    requires Confirms(m, first, work, oracle, s, stage)
    requires second.rid == first.rid && second.uid == first.uid && second.details != first.details
    requires again.analysis == Analysis(oracle)
    requires var (m1, error) := Facade.Call(m, first, true, work);
             AggregateOf(m1, s.projectId).Some? ==>
               Follows(m1, AggregateOf(m1, s.projectId).value, second, s.generation + 2, oracle(again.seed), oracle(work.seed).env.digest)
    ensures var (m1, error) := Facade.Call(m, first, true, work);
            && error.None? && AggregateOf(m1, s.projectId).Some?
            && AggregateOf(m1, s.projectId).value.project.state == oracle(work.seed).answer.next.value
    ensures var m1 := Facade.Call(m, first, true, work).0;
            var (m2, error) := Facade.Call(m1, second, true, again);
            && error.None? && second.rid in m2.sessions
            && m2.sessions[second.rid].state == Complete && m2.sessions[second.rid].generation == s.generation + 2
            && AggregateOf(m2, s.projectId).Some?
            && FreshConclusion(AggregateOf(m1, s.projectId).value, AggregateOf(m2, s.projectId).value,
                               oracle(again.seed).script.value, s.generation + 2)
  {
    var o := oracle(work.seed);
    var s1 := ConfirmedSession(m, first, work, oracle, s, stage);
    var m1 := Facade.Call(m, first, true, work).0;
    var done := Staged(stage.aggregate, first.details, s.generation + 1, false, o).value;
    EndsAsAnswered(stage.aggregate, first.details, s.generation + 1, false, o);
    JudgedAfter(stage.aggregate, first.details, s.generation + 1, false, o);
    StagedKeepsNumbers(stage.aggregate, first.details, s.generation + 1, false, o);
    SecondIsChecked(m, first, second, s, m1, s1);
    assert Stage(m1, s1.reviewId, s1.projectId) == Some(Baseline(s1, done));
    assert Reanalyses(m1, done, second.details, s1.generation + 1, oracle(again.seed));
    UndisturbedReanalysisConcludes(m1, second, again, oracle, s1, Baseline(s1, done));
  }

  // -------------------------------------------------- what is answered without an analysis

  /** The review and its project are where this request starts from. */
  predicate Ready(m: MemoryState, s: ReviewSession, force: bool, synchronous: bool) {
    && s.state == (if force then Complete else AwaitingConfirmation) && (s.scriptMode ==> synchronous)
    && AggregateOf(m, s.projectId).Some?
    && (force ==>
          var a := AggregateOf(m, s.projectId).value;
          !R.NotJudged(a.project.state) && !R.UnderFiling(a.project.state) && !LatestFrozen(a.forms))
  }

  lemma ReadyExactly(m: MemoryState, r: Facade.Request, synchronous: bool)
    requires r.rid in m.sessions && m.sessions[r.rid].ownerUid == r.uid && m.sessions[r.rid].reviewId == r.rid
    ensures var s := m.sessions[r.rid];
            Ready(m, s, r.force, synchronous) <==>
              Facade.Checked(m, r, synchronous) == Ok(s) && Facade.MayStage(s, Stage(m, s.reviewId, s.projectId), r.force)
  {
    var s := m.sessions[r.rid];
    if AggregateOf(m, s.projectId).Some? {
      var a := AggregateOf(m, s.projectId).value;
      assert Stage(m, s.reviewId, s.projectId) == Some(Baseline(s, a));
      R.ResetByState(WorkspaceOf(a), Env("", 0, v => [], v => [], (x, y, z) => ""));
    }
  }

  /**
   The owner's requests that touch nothing. Confirming again what a completed review was
   confirmed with, or asking to reanalyse with the details it already has, is answered as
   done; a request on a review or a project that is not ready for it is refused.
   */
  lemma AnsweredAsItIs(m: MemoryState, r: Facade.Request, synchronous: bool, work: Facade.Work)
    requires r.rid in m.sessions && m.sessions[r.rid].ownerUid == r.uid && m.sessions[r.rid].reviewId == r.rid
    ensures var s := m.sessions[r.rid];
            var same := s.confirmed == Some(r.details);
            && (!r.force && s.state == Complete && same ==> Facade.Call(m, r, synchronous, work) == (m, None))
            && (r.force && same && Ready(m, s, true, synchronous) ==> Facade.Call(m, r, synchronous, work) == (m, None))
            && (!Ready(m, s, r.force, synchronous) && !(!r.force && s.state == Complete && same) ==>
                  Facade.Call(m, r, synchronous, work) == (m, Some(StateInvalid)))
  {
    ReadyExactly(m, r, synchronous);
  }
}
