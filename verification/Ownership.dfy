/** Only its owner moves a review: no run of other people's requests changes a session nobody is working on. */
module Ownership {
  import opened Entities
  import opened MemoryStore
  import opened ReviewProtocol
  import Facade

  /** The client is working on this session. */
  ghost predicate About(me: Client, rid: string) {
    match me
    case Idle => false
    case Reading(s, _, _) => s.reviewId == rid
    case Staged(s, _, _, _) => s.reviewId == rid
    case Claimed(s, _, _) => s.reviewId == rid
    case Refused(s, _) => s.reviewId == rid
    case Raised(s) => s.reviewId == rid
    case RetryReading(s) => s.reviewId == rid
    case Retrying(s) => s.reviewId == rid
    case RetryRaised(s) => s.reviewId == rid
  }

  ghost predicate Unattended(w: World, rid: string) {
    rid in w.store.sessions && rid !in w.starting && forall c: nat :: !About(ClientOf(w, c), rid)
  }

  /** A request on this review made in somebody else's name. */
  predicate FromStranger(step: Step, rid: string, owner: string) {
    && (step.Open? && step.rid == rid ==> step.uid != owner)
    && (step.OpenRetry? && step.rid == rid ==> step.uid != owner)
  }

  /** One client's own move: what it becomes is not about this session, and the session stays as it was. */
  ghost predicate MovedElsewhere(w: World, v: World, c: nat, rid: string) {
    && v.clients == w.clients[c := ClientOf(v, c)] && !About(ClientOf(v, c), rid)
    && v.starting == w.starting && rid in w.store.sessions && rid in v.store.sessions
    && v.store.sessions[rid] == w.store.sessions[rid]
  }

  lemma StillUnattended(w: World, v: World, c: nat, rid: string)
    requires Unattended(w, rid) && MovedElsewhere(w, v, c, rid)
    ensures Unattended(v, rid)
  {
    forall d: nat ensures !About(ClientOf(v, d), rid) {
      assert d != c ==> ClientOf(v, d) == ClientOf(w, d);
    }
  }

  lemma OpenElsewhere(w: World, c: nat, other: string, uid: string, force: bool, details: ConfirmedDetails, rid: string)
    requires rid in w.store.sessions && (other == rid ==> uid != w.store.sessions[rid].ownerUid)
    requires other in w.store.sessions ==> w.store.sessions[other].reviewId == other
    ensures MovedElsewhere(w, DoOpen(w, c, other, uid, force, details), c, rid)
    ensures MovedElsewhere(w, DoOpenRetry(w, c, other, uid), c, rid)
  {
  }

  lemma StageElsewhere(w: World, c: nat, me: Client, rid: string)
    requires rid in w.store.sessions && me.Reading? && !About(me, rid)
    ensures MovedElsewhere(w, DoStage(w, c, me), c, rid)
  {
  }

  lemma ClaimElsewhere(w: World, c: nat, me: Client, rid: string)
    requires rid in w.store.sessions && me.Staged? && !About(me, rid)
    ensures MovedElsewhere(w, DoClaim(w, c, me), c, rid)
  {
  }

  lemma FinishElsewhere(w: World, c: nat, seed: nat, semantic: Option<SemanticStatus>, analysis: Analysis, rid: string)
    requires Inv(w, analysis) && MintsFresh(w, ClientOf(w, c), seed, analysis)
    requires rid in w.store.sessions && !About(ClientOf(w, c), rid)
    ensures MovedElsewhere(w, DoFinish(w, c, ClientOf(w, c), seed, semantic, analysis), c, rid)
  {
    FinishClient(w, c, ClientOf(w, c), seed, semantic, analysis);
    FinishSessions(w, c, seed, semantic, analysis);
  }

  lemma UndoElsewhere(w: World, c: nat, me: Client, error: string, rid: string)
    requires rid in w.store.sessions && !About(me, rid)
    ensures me.Refused? && me.baseline.session.reviewId != rid ==> MovedElsewhere(w, DoRestore(w, c, me), c, rid)
    ensures me.Raised? ==> MovedElsewhere(w, DoFail(w, c, me, error), c, rid)
    ensures me.RetryRaised? ==> MovedElsewhere(w, DoFailRetry(w, c, me, error), c, rid)
  {
  }

  lemma RetryElsewhere(w: World, c: nat, me: Client, candidates: string, intake: IntakeStatus, rid: string)
    requires rid in w.store.sessions && !About(me, rid)
    ensures me.RetryReading? ==> MovedElsewhere(w, DoClaimRetry(w, c, me), c, rid)
    ensures me.Retrying? ==> MovedElsewhere(w, DoFinishRetry(w, c, me, candidates, intake), c, rid)
  {
  }

  lemma OpenStep(w: World, step: Step, rid: string, analysis: Analysis)
    requires Inv(w, analysis) && Enabled(w, step, analysis) && Unattended(w, rid)
    requires FromStranger(step, rid, w.store.sessions[rid].ownerUid) && (step.Open? || step.OpenRetry?)
    ensures MovedElsewhere(w, Apply(w, step, analysis), step.c, rid)
  {
    assert SessionOk(w, step.rid);
    OpenElsewhere(w, step.c, step.rid, step.uid, step.Open? && step.force,
                  if step.Open? then step.details else ConfirmedDetails("", [], "", 0, 0.0, BracketUnknown), rid);
  }

  lemma RestoreStep(w: World, step: Step, rid: string, analysis: Analysis)
    requires Inv(w, analysis) && Enabled(w, step, analysis) && Unattended(w, rid) && step.Restore?
    ensures MovedElsewhere(w, Apply(w, step, analysis), step.c, rid)
  {
    assert ClientOk(w, step.c);
    UndoElsewhere(w, step.c, ClientOf(w, step.c), "", rid);
  }

  lemma WorkStep(w: World, step: Step, c: nat, rid: string, analysis: Analysis)
    requires Inv(w, analysis) && Enabled(w, step, analysis) && Unattended(w, rid) && StepClient(step) == Some(c)
    requires !step.Open? && !step.OpenRetry? && !step.Restore?
    ensures MovedElsewhere(w, Apply(w, step, analysis), c, rid)
  {
    var me := ClientOf(w, c);
    assert !About(me, rid);
    match step {
      case StageCopy(_) => StageElsewhere(w, c, me, rid);
      case Claim(_) => ClaimElsewhere(w, c, me, rid);
      case Finish(_, seed, semantic) => FinishElsewhere(w, c, seed, semantic, analysis, rid);
      case Fail(_, error) => UndoElsewhere(w, c, me, error, rid);
      case FailRetry(_, error) => UndoElsewhere(w, c, me, error, rid);
      case ClaimRetry(_) => RetryElsewhere(w, c, me, "", NotStarted, rid);
      case FinishRetry(_, candidates, intake) => RetryElsewhere(w, c, me, candidates, intake, rid);
      case _ =>
    }
  }

  lemma StoreStep(w: World, step: Step, rid: string, analysis: Analysis)
    requires Inv(w, analysis) && Enabled(w, step, analysis) && Unattended(w, rid) && StepClient(step).None?
    ensures var v := Apply(w, step, analysis);
            v.clients == w.clients && rid in v.store.sessions && rid !in v.starting
            && v.store.sessions[rid] == w.store.sessions[rid]
  {
    if step.StartFail? { assert SessionOk(w, step.rid); }
  }

  lemma StrangerStep(w: World, step: Step, rid: string, analysis: Analysis)
    requires Inv(w, analysis) && Enabled(w, step, analysis) && Unattended(w, rid)
    requires FromStranger(step, rid, w.store.sessions[rid].ownerUid)
    ensures var v := Apply(w, step, analysis);
            Unattended(v, rid) && v.store.sessions[rid] == w.store.sessions[rid]
  {
    var v := Apply(w, step, analysis);
    match StepClient(step) {
      case Some(c) =>
        if step.Open? || step.OpenRetry? { OpenStep(w, step, rid, analysis); }
        else if step.Restore? { RestoreStep(w, step, rid, analysis); }
        else { WorkStep(w, step, c, rid, analysis); }
        StillUnattended(w, v, c, rid);
      case None =>
        StoreStep(w, step, rid, analysis);
        forall d: nat ensures !About(ClientOf(v, d), rid) { assert ClientOf(v, d) == ClientOf(w, d); }
    }
  }

  /**
   Once a session has been started and nobody is working on it, no run in which every
   request on it comes from somebody else than its owner changes it: it is not claimed,
   retried, published or failed, whatever else happens meanwhile.
   */
  lemma {:induction false} StrangersMoveNothing(w: World, steps: seq<Step>, rid: string, analysis: Analysis)
    requires Inv(w, analysis) && Runs(w, steps, analysis) && Unattended(w, rid)
    requires forall step | step in steps :: FromStranger(step, rid, w.store.sessions[rid].ownerUid)
    ensures var v := Run(w, steps, analysis);
            Unattended(v, rid) && v.store.sessions[rid] == w.store.sessions[rid]
    decreases |steps|
  {
    if steps != [] {
      assert steps[0] in steps && forall step | step in steps[1..] :: step in steps;
      StepKeepsInv(w, steps[0], analysis);
      StrangerStep(w, steps[0], rid, analysis);
      StrangersMoveNothing(Apply(w, steps[0], analysis), steps[1..], rid, analysis);
    }
  }

  /** The facade's own answers: Forbidden for somebody else's review, NotFound for none, and the store is as it was. */
  lemma StrangerIsRefused(m: MemoryState, r: Facade.Request, synchronous: bool, work: Facade.Work)
    ensures (r.rid !in m.sessions ==> Facade.Call(m, r, synchronous, work) == (m, Some(NotFound)))
    ensures (r.rid in m.sessions && m.sessions[r.rid].ownerUid != r.uid ==>
               Facade.Call(m, r, synchronous, work) == (m, Some(Forbidden)))
  {
  }

  // -------------------------------------------------------------- a retried intake

  /**
   The owner may retry the reading of a script that waits for confirmation after a missing or
   partial intake, and nobody else anything else. Left alone it passes through EXTRACTING and
   waits again, with what was read; the generation does not move.
   */
  lemma UndisturbedRetry(m: MemoryState, synchronous: bool, rid: string, uid: string, candidates: string, intake: IntakeStatus)
    requires rid in m.sessions && m.sessions[rid].reviewId == rid
    ensures var s := m.sessions[rid];
            var w1 := DoOpenRetry(Facade.Quiet(m, synchronous), 0, rid, uid);
            && w1.store == m
            && (ClientOf(w1, 0) == RetryReading(s) <==>
                  s.ownerUid == uid && s.state == AwaitingConfirmation && s.intake in {Unavailable, Partial})
            && (ClientOf(w1, 0) != RetryReading(s) ==> ClientOf(w1, 0) == Idle)
            && (ClientOf(w1, 0) == RetryReading(s) ==>
                  var claimed := DoClaimRetry(w1, 0, ClientOf(w1, 0));
                  && ClientOf(claimed, 0).Retrying?
                  && claimed.store == m.(sessions := m.sessions[rid := s.(state := Extracting, intake := IntakeRunning)])
                  && var finished := DoFinishRetry(claimed, 0, ClientOf(claimed, 0), candidates, intake);
                     ClientOf(finished, 0) == Idle
                     && finished.store == m.(sessions := m.sessions[rid := s.(candidates := Some(candidates), intake := intake)]))
  {
    var s := m.sessions[rid];
    var extracting := s.(state := Extracting, intake := IntakeRunning);
    var read := s.(candidates := Some(candidates), intake := intake);
    assert m.sessions[rid := extracting][rid := read] == m.sessions[rid := read];
  }
}
