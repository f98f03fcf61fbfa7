/** The facade's own calls over the memory store, and the protocol steps each of them is. */
module Facade {
  import opened Entities
  import opened Keyed
  import opened MemoryStore
  import InMemory
  import StateMachine
  import P = ReviewProtocol

  /** What happens outside the store while the copy is analysed. */
  datatype Work = Work(seed: nat, semantic: Option<SemanticStatus>, error: string, analysis: P.Analysis)

  /** Who is confirming what; a forced call is a reanalysis. */
  datatype Request = Request(rid: string, uid: string, force: bool, details: ConfirmedDetails)

  function FailIn(m: MemoryState, claim: ReviewSession, error: string): MemoryState {
    CompareAndPut(m, claim.reviewId, Analyzing, claim.(state := SessionFailed, error := Some(error)), Some(claim.generation)).0
  }

  function RestoreIn(m: MemoryState, claim: ReviewSession, stage: Baseline): MemoryState {
    var restored := stage.session.(generation := claim.generation);
    CompareAndPut(m, restored.reviewId, Analyzing, restored, Some(claim.generation)).0
  }

  /** The claimed part of a call: publish, or restore and fail, or fail. */
  function Analyze(m: MemoryState, claim: ReviewSession, force: bool, stage: Baseline, work: Work): (MemoryState, bool)
    requires claim.confirmed.Some?
  {
    match work.analysis(stage.aggregate, claim.confirmed.value, claim.generation, force, work.seed)
    case None => (FailIn(m, claim, work.error), false)
    case Some(result) =>
      var (store, done) := Publish(m, Publication(stage, P.Completed(claim, work.semantic), result));
      if done == Some(true) then (store, true)
      else if done == Some(false) && force then (FailIn(RestoreIn(m, claim, stage), claim, work.error), false)
      else (FailIn(m, claim, work.error), false)
  }

  /** The session a request may work on, once every check before staging has passed. */
  function Checked(m: MemoryState, r: Request, synchronous: bool): Result<ReviewSession> {
    if r.rid !in m.sessions then Err(NotFound)
    else if m.sessions[r.rid].ownerUid != r.uid then Err(Forbidden)
    else
      var s := m.sessions[r.rid];
      if s.state != (if r.force then Complete else AwaitingConfirmation) then Err(StateInvalid)
      else if s.scriptMode && !synchronous then Err(StateInvalid)
      else Ok(s)
  }

  predicate MayStage(s: ReviewSession, stage: Option<Baseline>, force: bool) {
    && stage.Some? && stage.value.session == s
    && (force ==> stage.value.aggregate.project.state in StateMachine.REANALYZABLE && !LatestFrozen(stage.value.aggregate.forms))
  }

  /** One whole call with nobody in between. */
  function Call(m: MemoryState, r: Request, synchronous: bool, work: Work): (MemoryState, Option<Error>) {
    match Checked(m, r, synchronous)
    case Err(e) =>
      // a repeated confirmation of a completed review is answered from what is stored
      if !r.force && r.rid in m.sessions && m.sessions[r.rid].ownerUid == r.uid
         && m.sessions[r.rid].state == Complete && m.sessions[r.rid].confirmed == Some(r.details)
      then (m, None) else (m, Some(e))
    case Ok(s) =>
      var stage := Stage(m, s.reviewId, s.projectId);
      if !MayStage(s, stage, r.force) then (m, Some(StateInvalid))
      else if r.force && s.confirmed == Some(r.details) then (m, None)
      else
        var claim := P.ClaimSession(s, r.force, r.details);
        var (claimed, won) := CompareAndPut(m, s.reviewId, s.state, claim, Some(s.generation));
        if !won then (m, Some(StateInvalid))
        else
          var (after, ok) := Analyze(claimed, claim, r.force, stage.value, work);
          (after, if ok then None else Some(StateInvalid))
  }

  // ---------------------------------------------------------- calls are step sequences

  /** A store nobody else is using. */
  function Quiet(m: MemoryState, synchronous: bool): P.World {
    P.World(m, map[], {}, synchronous, map[], {}, map[], [])
  }

  function Settle(w: P.World, work: Work): P.World {
    var restored := if P.ClientOf(w, 0).Refused? then P.DoRestore(w, 0, P.ClientOf(w, 0)) else w;
    if P.ClientOf(restored, 0).Raised? then P.DoFail(restored, 0, P.ClientOf(restored, 0), work.error) else restored
  }

  lemma FailIsStep(w: P.World, claim: ReviewSession, work: Work)
    requires P.ClientOf(w, 0) == P.Raised(claim)
    ensures Settle(w, work).store == FailIn(w.store, claim, work.error)
  {
  }

  lemma RestoreIsStep(w: P.World, claim: ReviewSession, stage: Baseline, work: Work)
    requires P.ClientOf(w, 0) == P.Refused(claim, stage)
    ensures Settle(w, work).store == FailIn(RestoreIn(w.store, claim, stage), claim, work.error)
  {
    var restored := P.DoRestore(w, 0, P.ClientOf(w, 0));
    assert P.ClientOf(restored, 0) == P.Raised(claim);
  }

  lemma AnalyzeIsSteps(w: P.World, claim: ReviewSession, force: bool, stage: Baseline, work: Work)
    requires P.ClientOf(w, 0) == P.Claimed(claim, stage, force) && claim.confirmed.Some?
    ensures var finished := P.DoFinish(w, 0, P.ClientOf(w, 0), work.seed, work.semantic, work.analysis);
            Settle(finished, work).store == Analyze(w.store, claim, force, stage, work).0
  {
    var finished := P.DoFinish(w, 0, P.ClientOf(w, 0), work.seed, work.semantic, work.analysis);
    if P.ClientOf(finished, 0).Raised? {
      FailIsStep(finished, claim, work);
    } else if P.ClientOf(finished, 0).Refused? {
      RestoreIsStep(finished, claim, stage, work);
    }
  }

  /** Open, stage, claim, finish, restore, fail: as far as each answer lets the next one run. */
  function Steps(m: MemoryState, r: Request, synchronous: bool, work: Work): P.World {
    var w0 := P.DoOpen(Quiet(m, synchronous), 0, r.rid, r.uid, r.force, r.details);
    if !P.ClientOf(w0, 0).Reading? then w0
    else
      var w1 := P.DoStage(w0, 0, P.ClientOf(w0, 0));
      if !P.ClientOf(w1, 0).Staged? then w1
      else
        var w2 := P.DoClaim(w1, 0, P.ClientOf(w1, 0));
        if !P.ClientOf(w2, 0).Claimed? then w2
        else Settle(P.DoFinish(w2, 0, P.ClientOf(w2, 0), work.seed, work.semantic, work.analysis), work)
  }

  lemma ClaimIsStep(w: P.World, s: ReviewSession, stage: Baseline, r: Request)
    requires P.ClientOf(w, 0) == P.Staged(s, stage, r.force, r.details)
    requires s.state == (if r.force then Complete else AwaitingConfirmation)
    ensures var claim := P.ClaimSession(s, r.force, r.details);
            var (claimed, won) := CompareAndPut(w.store, s.reviewId, s.state, claim, Some(s.generation));
            var v := P.DoClaim(w, 0, P.ClientOf(w, 0));
            && v.store == claimed
            && P.ClientOf(v, 0) == (if won then P.Claimed(claim, stage, r.force) else P.Idle)
  {
  }

  lemma OpenAndStageAreSteps(m: MemoryState, r: Request, synchronous: bool)
    ensures var w0 := P.DoOpen(Quiet(m, synchronous), 0, r.rid, r.uid, r.force, r.details);
            && w0.store == m && (P.ClientOf(w0, 0).Reading? || P.ClientOf(w0, 0).Idle?)
            && (P.ClientOf(w0, 0).Reading? <==> Checked(m, r, synchronous).Ok?)
            && (P.ClientOf(w0, 0).Reading? ==>
                  var s := Checked(m, r, synchronous).value;
                  var w1 := P.DoStage(w0, 0, P.ClientOf(w0, 0));
                  var stage := Stage(m, s.reviewId, s.projectId);
                  && w1.store == m
                  && P.ClientOf(w1, 0) ==
                     if MayStage(s, stage, r.force) && !(r.force && s.confirmed == Some(r.details))
                     then P.Staged(s, stage.value, r.force, r.details) else P.Idle)
  {
  }

  /** A call that runs alone leaves the store its protocol steps leave. */
  lemma CallIsSteps(m: MemoryState, r: Request, synchronous: bool, work: Work)
    ensures Steps(m, r, synchronous, work).store == Call(m, r, synchronous, work).0
  {
    OpenAndStageAreSteps(m, r, synchronous);
    if Checked(m, r, synchronous).Ok? {
      var s := Checked(m, r, synchronous).value;
      var stage := Stage(m, s.reviewId, s.projectId);
      if MayStage(s, stage, r.force) && !(r.force && s.confirmed == Some(r.details)) {
        var w0 := P.DoOpen(Quiet(m, synchronous), 0, r.rid, r.uid, r.force, r.details);
        var w1 := P.DoStage(w0, 0, P.ClientOf(w0, 0));
        ClaimIsStep(w1, s, stage.value, r);
        var w2 := P.DoClaim(w1, 0, P.ClientOf(w1, 0));
        if P.ClientOf(w2, 0).Claimed? {
          AnalyzeIsSteps(w2, P.ClaimSession(s, r.force, r.details), r.force, stage.value, work);
        }
      }
    }
  }

  // ------------------------------------------------------------------ undisturbed

  /** The analysis stays within its project and mints ids of its own. */
  ghost predicate Lands(m: MemoryState, a: Aggregate, pid: string) {
    a.project.projectId == pid && (forall t | t in a.tasks :: t.projectId == pid) && WellFormedAggregate(m, a)
  }

  lemma ClaimKeepsAggregate(m: MemoryState, rid: string, s: ReviewSession, pid: string)
    ensures AggregateOf(m.(sessions := m.sessions[rid := s]), pid) == AggregateOf(m, pid)
  {
  }

  /**
   Undisturbed, a call that reaches the analysis and gets a result publishes it: the
   session is COMPLETE with the requested details one generation on, and the project
   holds the analysis of what it held when the call began.
   */
  lemma UndisturbedCallPublishes(m: MemoryState, r: Request, synchronous: bool, work: Work, s: ReviewSession, stage: Baseline)
    requires Checked(m, r, synchronous) == Ok(s) && s.reviewId == r.rid
    requires Stage(m, s.reviewId, s.projectId) == Some(stage) && MayStage(s, Some(stage), r.force)
    requires r.force ==> s.confirmed != Some(r.details)
    requires work.analysis(stage.aggregate, r.details, s.generation + 1, r.force, work.seed).Some?
    requires Lands(m, work.analysis(stage.aggregate, r.details, s.generation + 1, r.force, work.seed).value, s.projectId)
    ensures var (after, error) := Call(m, r, synchronous, work);
            && error.None? && r.rid in after.sessions
            && after.sessions[r.rid] == s.(state := Complete, confirmed := Some(r.details), generation := s.generation + 1,
                                           semantic := work.semantic)
            && AggregateOf(m, s.projectId) == Some(stage.aggregate)
            && AggregateOf(after, s.projectId) == work.analysis(stage.aggregate, r.details, s.generation + 1, r.force, work.seed)
  {
    var claim := P.ClaimSession(s, r.force, r.details);
    var claimed := m.(sessions := m.sessions[r.rid := claim]);
    var result := work.analysis(stage.aggregate, r.details, s.generation + 1, r.force, work.seed).value;
    ClaimKeepsAggregate(m, r.rid, claim, s.projectId);
    ClaimedPublishes(claimed, claim, r.force, stage, work, result);
    CallReachesAnalysis(m, r, synchronous, work, s, stage);
  }

  lemma CallReachesAnalysis(m: MemoryState, r: Request, synchronous: bool, work: Work, s: ReviewSession, stage: Baseline)
    requires Checked(m, r, synchronous) == Ok(s) && s.reviewId == r.rid
    requires Stage(m, s.reviewId, s.projectId) == Some(stage) && MayStage(s, Some(stage), r.force)
    requires r.force ==> s.confirmed != Some(r.details)
    ensures var claim := P.ClaimSession(s, r.force, r.details);
            var (after, ok) := Analyze(m.(sessions := m.sessions[r.rid := claim]), claim, r.force, stage, work);
            Call(m, r, synchronous, work) == (after, if ok then None else Some(StateInvalid))
  {
  }

  lemma ClaimedPublishes(m: MemoryState, claim: ReviewSession, force: bool, stage: Baseline, work: Work, result: Aggregate)
    requires claim.confirmed.Some? && claim.state == Analyzing && claim.generation == stage.session.generation + 1
    requires claim.reviewId in m.sessions && m.sessions[claim.reviewId] == claim
    requires stage.session.reviewId == claim.reviewId && stage.session.projectId == claim.projectId
    requires AggregateOf(m, claim.projectId) == Some(stage.aggregate)
    requires work.analysis(stage.aggregate, claim.confirmed.value, claim.generation, force, work.seed) == Some(result)
    requires Lands(m, result, claim.projectId)
    ensures var (after, ok) := Analyze(m, claim, force, stage, work);
            && ok && claim.reviewId in after.sessions && after.sessions[claim.reviewId] == P.Completed(claim, work.semantic)
            && AggregateOf(after, claim.projectId) == Some(result)
  {
    assert forall t | t in TasksOf(m.tasks, claim.projectId) :: Of(claim.projectId)(t);
    var pub := Publication(stage, P.Completed(claim, work.semantic), result);
    assert ValidPublication(pub);
    PublishEffect(m, pub, claim.projectId);
  }

  /** Undisturbed, an analysis that raises fails the session and touches nothing else. */
  lemma UndisturbedFailure(m: MemoryState, r: Request, synchronous: bool, work: Work, s: ReviewSession, stage: Baseline)
    requires Checked(m, r, synchronous) == Ok(s) && s.reviewId == r.rid
    requires Stage(m, s.reviewId, s.projectId) == Some(stage) && MayStage(s, Some(stage), r.force)
    requires r.force ==> s.confirmed != Some(r.details)
    requires work.analysis(stage.aggregate, r.details, s.generation + 1, r.force, work.seed).None?
    ensures var (after, error) := Call(m, r, synchronous, work);
            && error.Some? && r.rid in after.sessions
            && after.sessions[r.rid] == s.(state := SessionFailed, confirmed := Some(r.details), generation := s.generation + 1,
                                           semantic := if r.force then None else s.semantic, error := Some(work.error))
            && after == m.(sessions := m.sessions[r.rid := after.sessions[r.rid]])
  {
    var claim := P.ClaimSession(s, r.force, r.details);
    var claimed := m.(sessions := m.sessions[r.rid := claim]);
    var failed := claim.(state := SessionFailed, error := Some(work.error));
    assert claimed.sessions[r.rid := failed] == m.sessions[r.rid := failed];
  }

  // ----------------------------------------------------------------- the facade

  /** The result's new ids are its own, and its tasks' keys name its project. */
  ghost predicate Mints(m: MemoryState, a: Aggregate) { WellFormedAggregate(m, a) && KeysFit(m, a) }

  /** Of this one analysis: what it makes of this one staged aggregate. */
  ghost predicate MintsHere(m: MemoryState, claim: ReviewSession, force: bool, stage: Baseline, work: Work) {
    claim.confirmed.Some? ==>
      var r := work.analysis(stage.aggregate, claim.confirmed.value, claim.generation, force, work.seed);
      r.Some? ==> Mints(m, r.value)
  }

  /** The same, of the analysis a request would reach. */
  ghost predicate RequestMints(m: MemoryState, r: Request, synchronous: bool, work: Work) {
    Checked(m, r, synchronous).Ok? ==>
      var s := Checked(m, r, synchronous).value;
      var stage := Stage(m, s.reviewId, s.projectId);
      stage.Some? ==> MintsHere(m, P.ClaimSession(s, r.force, r.details), r.force, stage.value, work)
  }

  /** An analysis that changes nothing meets it, on any store in order. */
  lemma UnchangedMints(m: MemoryState, pid: string, a: Aggregate)
    requires IndexValid(m.tasks, m.byKey) && AggregateOf(m, pid) == Some(a) && a.project.projectId == pid
    requires Distinct(a.facts, FactId) && Distinct(a.findings, FindingId) && Distinct(a.forms, DraftId)
             && Distinct(a.timeline, EventId)
    ensures Mints(m, a)
  {
    FilterDistinct(m.tasks, TaskId, Of(pid));
    forall t, u | t in a.tasks && u in m.tasks && t.taskId == u.taskId ensures t == u {
      OneRecord(m.tasks, t, u);
    }
  }

  lemma OneRecord(tasks: seq<WorkflowTask>, t: WorkflowTask, u: WorkflowTask)
    requires Distinct(tasks, TaskId) && t in tasks && u in tasks && t.taskId == u.taskId
    ensures t == u
  {
    var a :| 0 <= a < |tasks| && tasks[a] == t;
    var b :| 0 <= b < |tasks| && tasks[b] == u;
    var x, y := TaskId(tasks[a]), TaskId(tasks[b]);
    assert x == y && a == b;
  }

  class ReviewFacade {
    const stores: InMemory.InMemoryStores
    const synchronous: bool

    constructor (s: InMemory.InMemoryStores, sync: bool)
      ensures stores == s && synchronous == sync
    {
      stores, synchronous := s, sync;
    }

    /** Analyses the copy under a claim already won; publishes, restores or fails. */
    method AnalyzeClaimed(session: ReviewSession, force: bool, stage: Baseline, work: Work) returns (ok: bool)
      requires stores.Valid() && session.confirmed.Some? && MintsHere(stores.State(), session, force, stage, work)
      modifies stores
      ensures stores.Valid()
      ensures (stores.State(), ok) == Analyze(old(stores.State()), session, force, stage, work)
    {
      var result := work.analysis(stage.aggregate, session.confirmed.value, session.generation, force, work.seed);
      if result.Some? {
        var complete := session.(state := Complete, semantic := work.semantic);
        var published := stores.PublishReviewAnalysis(Publication(stage, complete, result.value));
        if published == Some(true) { return true; }
        if published == Some(false) && force {
          var restored := stage.session.(generation := session.generation);
          var _ := stores.ComparePut(restored.reviewId, Analyzing, restored, Some(session.generation));
        }
      }
      var failed := session.(state := SessionFailed, error := Some(work.error));
      var _ := stores.ComparePut(failed.reviewId, Analyzing, failed, Some(session.generation));
      return false;
    }

    method Confirm(rid: string, uid: string, details: ConfirmedDetails, work: Work) returns (error: Option<Error>)
      requires stores.Valid() && RequestMints(stores.State(), Request(rid, uid, false, details), synchronous, work)
      modifies stores
      ensures stores.Valid()
      ensures (stores.State(), error) == Call(old(stores.State()), Request(rid, uid, false, details), synchronous, work)
    {
      if rid !in stores.sessions { return Some(NotFound); }
      var session := stores.sessions[rid];
      if session.ownerUid != uid { return Some(Forbidden); }
      if session.state == Complete {
        if session.confirmed == Some(details) { return None; }
        return Some(StateInvalid);
      }
      if session.state != AwaitingConfirmation { return Some(StateInvalid); }
      if session.scriptMode && !synchronous { return Some(StateInvalid); }
      var stage := stores.StageReviewAnalysis(session.reviewId, session.projectId);
      if stage.None? || stage.value.session != session { return Some(StateInvalid); }
      var claim := P.ClaimSession(session, false, details);
      var won := stores.ComparePut(session.reviewId, AwaitingConfirmation, claim, Some(session.generation));
      if !won { return Some(StateInvalid); }
      var ok := AnalyzeClaimed(claim, false, stage.value, work);
      if ok { return None; }
      return Some(StateInvalid);
    }

    method Reanalyze(rid: string, uid: string, details: ConfirmedDetails, work: Work) returns (error: Option<Error>)
      requires stores.Valid() && RequestMints(stores.State(), Request(rid, uid, true, details), synchronous, work)
      modifies stores
      ensures stores.Valid()
      ensures (stores.State(), error) == Call(old(stores.State()), Request(rid, uid, true, details), synchronous, work)
    {
      if rid !in stores.sessions { return Some(NotFound); }
      var session := stores.sessions[rid];
      if session.ownerUid != uid { return Some(Forbidden); }
      if session.state != Complete { return Some(StateInvalid); }
      if session.scriptMode && !synchronous { return Some(StateInvalid); }
      var stage := stores.StageReviewAnalysis(session.reviewId, session.projectId);
      if stage.None? || stage.value.session != session { return Some(StateInvalid); }
      var project := stage.value.aggregate.project;
      if project.state !in StateMachine.REANALYZABLE || LatestFrozen(stage.value.aggregate.forms) { return Some(StateInvalid); }
      if session.confirmed == Some(details) { return None; }
      var analyzing := P.ClaimSession(session, true, details);
      var won := stores.ComparePut(session.reviewId, Complete, analyzing, Some(session.generation));
      if !won { return Some(StateInvalid); }
      var ok := AnalyzeClaimed(analyzing, true, stage.value, work);
      if ok { return None; }
      return Some(StateInvalid);
    }
  }
}
