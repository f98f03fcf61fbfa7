/** Retrying an intake is single-flight: one client at a time, on a session that stays as that client claimed it. */
module IntakeRetry {
  import opened Entities
  import opened MemoryStore
  import opened ReviewProtocol

  /** What a client that is retrying has claimed: the session, EXTRACTING. */
  function Retries(me: Client): Option<ReviewSession> {
    match me case Retrying(s) => Some(s) case RetryRaised(s) => Some(s) case _ => None
  }

  ghost predicate Locked(w: World, s: ReviewSession) {
    s.state == Extracting && s.reviewId !in w.starting && s.reviewId in w.store.sessions && w.store.sessions[s.reviewId] == s
  }

  ghost predicate Alone(w: World, c: nat, d: nat) {
    c != d && Retries(ClientOf(w, c)).Some? && Retries(ClientOf(w, d)).Some? ==>
      Retries(ClientOf(w, c)).value.reviewId != Retries(ClientOf(w, d)).value.reviewId
  }

  ghost predicate LockedBy(w: World, c: nat) { Retries(ClientOf(w, c)).Some? ==> Locked(w, Retries(ClientOf(w, c)).value) }

  ghost predicate SingleFlight(w: World) { (forall c: nat :: LockedBy(w, c)) && forall c: nat, d: nat :: Alone(w, c, d) }

  // ------------------------------------------------ nobody else moves a locked session

  lemma ReadersLeave(w: World, step: Step, c: nat, rid: string, analysis: Analysis)
    requires Enabled(w, step, analysis) && StepClient(step) == Some(c)
    requires step.Open? || step.StageCopy? || step.Throw? || step.Crash? || step.OpenRetry? || step.ThrowRetry?
    ensures Apply(w, step, analysis).store == w.store
  {
  }

  lemma ClaimLeaves(w: World, c: nat, me: Client, rid: string)
    requires rid in w.store.sessions && w.store.sessions[rid].state == Extracting
    ensures me.Staged? ==>
              rid in DoClaim(w, c, me).store.sessions && DoClaim(w, c, me).store.sessions[rid] == w.store.sessions[rid]
    ensures me.RetryReading? ==>
              rid in DoClaimRetry(w, c, me).store.sessions && DoClaimRetry(w, c, me).store.sessions[rid] == w.store.sessions[rid]
  {
  }

  lemma UndoLeaves(w: World, c: nat, me: Client, error: string, rid: string)
    requires rid in w.store.sessions && w.store.sessions[rid].state == Extracting
    requires me.Refused? ==> me.baseline.session.reviewId == me.claim.reviewId
    ensures me.Refused? ==>
              rid in DoRestore(w, c, me).store.sessions && DoRestore(w, c, me).store.sessions[rid] == w.store.sessions[rid]
    ensures me.Raised? ==>
              rid in DoFail(w, c, me, error).store.sessions && DoFail(w, c, me, error).store.sessions[rid] == w.store.sessions[rid]
  {
  }

  lemma FinishLeaves(w: World, c: nat, seed: nat, semantic: Option<SemanticStatus>, rid: string, analysis: Analysis)
    requires Inv(w, analysis) && MintsFresh(w, ClientOf(w, c), seed, analysis)
    requires rid in w.store.sessions && w.store.sessions[rid].state == Extracting
    ensures var v := DoFinish(w, c, ClientOf(w, c), seed, semantic, analysis);
            rid in v.store.sessions && v.store.sessions[rid] == w.store.sessions[rid]
  {
    assert ClientOk(w, c);
    FinishSessions(w, c, seed, semantic, analysis);
  }

  lemma RetryLeaves(w: World, c: nat, me: Client, candidates: string, intake: IntakeStatus, error: string, rid: string)
    requires rid in w.store.sessions && (Retries(me).Some? ==> Retries(me).value.reviewId != rid)
    ensures me.Retrying? ==>
              var v := DoFinishRetry(w, c, me, candidates, intake);
              rid in v.store.sessions && v.store.sessions[rid] == w.store.sessions[rid]
    ensures me.RetryRaised? ==>
              var v := DoFailRetry(w, c, me, error);
              rid in v.store.sessions && v.store.sessions[rid] == w.store.sessions[rid]
  {
  }

  /** A session another client has locked stays as it is under any client's step. */
  lemma OthersLeave(w: World, step: Step, c: nat, s: ReviewSession, analysis: Analysis)
    requires Inv(w, analysis) && Enabled(w, step, analysis) && StepClient(step) == Some(c) && Locked(w, s)
    requires Retries(ClientOf(w, c)).Some? ==> Retries(ClientOf(w, c)).value.reviewId != s.reviewId
    ensures var v := Apply(w, step, analysis);
            s.reviewId in v.store.sessions && v.store.sessions[s.reviewId] == s
  {
    var me, rid := ClientOf(w, c), s.reviewId;
    match step {
      case Claim(_) => ClaimLeaves(w, c, me, rid);
      case ClaimRetry(_) => ClaimLeaves(w, c, me, rid);
      case Finish(_, seed, semantic) => FinishLeaves(w, c, seed, semantic, rid, analysis);
      case Restore(_) =>
        assert ClientOk(w, c);
        UndoLeaves(w, c, me, "", rid);
      case Fail(_, error) => UndoLeaves(w, c, me, error, rid);
      case FinishRetry(_, candidates, intake) => RetryLeaves(w, c, me, candidates, intake, "", rid);
      case FailRetry(_, error) => RetryLeaves(w, c, me, "", NotStarted, error, rid);
      case _ => ReadersLeave(w, step, c, rid, analysis);
    }
  }

  // ------------------------------------------------------------------ the step itself

  /** What the moving client becomes: retrying only by winning the claim, or by raising in a retry. */
  lemma OwnMove(w: World, step: Step, c: nat, analysis: Analysis)
    requires Inv(w, analysis) && Enabled(w, step, analysis) && StepClient(step) == Some(c) && SingleFlight(w)
    ensures var v := Apply(w, step, analysis);
            LockedBy(v, c)
            && (Retries(ClientOf(v, c)).Some? ==>
                  Retries(ClientOf(v, c)) == Retries(ClientOf(w, c))
                  || (step.ClaimRetry? && ClientOf(w, c).RetryReading?
                      && w.store.sessions[Retries(ClientOf(v, c)).value.reviewId].state == AwaitingConfirmation))
  {
    assert LockedBy(w, c) && ClientOk(w, c);
    match step {
      case ClaimRetry(_) => ClaimedLock(w, c, ClientOf(w, c));
      case Finish(_, seed, semantic) => FinishClient(w, c, ClientOf(w, c), seed, semantic, analysis);
      case ThrowRetry(_) => assert Apply(w, step, analysis).store == w.store;
      case _ => OtherMove(w, step, c, analysis);
    }
  }

  lemma OtherMove(w: World, step: Step, c: nat, analysis: Analysis)
    requires Inv(w, analysis) && Enabled(w, step, analysis) && StepClient(step) == Some(c) && LockedBy(w, c)
    requires !step.ClaimRetry? && !step.Finish? && !step.ThrowRetry?
    ensures Retries(ClientOf(Apply(w, step, analysis), c)).None? || step.FinishRetry?
    ensures step.FinishRetry? ==> ClientOf(Apply(w, step, analysis), c).Idle?
  {
  }

  lemma ClaimedLock(w: World, c: nat, me: Client)
    requires me.RetryReading? && me.session.reviewId !in w.starting && me.session.reviewId in w.store.sessions
    ensures var v := DoClaimRetry(w, c, me);
            && v.starting == w.starting
            && (ClientOf(v, c).Idle? || ClientOf(v, c).Retrying?)
            && (ClientOf(v, c).Retrying? ==>
                  Locked(v, ClientOf(v, c).extracting) && ClientOf(v, c).extracting.reviewId == me.session.reviewId
                  && w.store.sessions[me.session.reviewId].state == AwaitingConfirmation)
  {
  }

  lemma ClientStepKeeps(w: World, step: Step, c: nat, analysis: Analysis)
    requires Inv(w, analysis) && Enabled(w, step, analysis) && StepClient(step) == Some(c) && SingleFlight(w)
    requires Moves(w, Apply(w, step, analysis), c)
    ensures SingleFlight(Apply(w, step, analysis))
  {
    var v := Apply(w, step, analysis);
    OwnMove(w, step, c, analysis);
    forall d: nat | d != c ensures ClientOf(v, d) == ClientOf(w, d) {}
    forall d: nat ensures LockedBy(v, d) {
      if d != c && Retries(ClientOf(w, d)).Some? {
        assert Alone(w, c, d) && LockedBy(w, d);
        OthersLeave(w, step, c, Retries(ClientOf(w, d)).value, analysis);
      }
    }
    forall d: nat, e: nat ensures Alone(v, d, e) {
      assert Alone(w, d, e) && LockedBy(w, d) && LockedBy(w, e);
    }
  }

  lemma StoreStepKeeps(w: World, step: Step, analysis: Analysis)
    requires Inv(w, analysis) && Enabled(w, step, analysis) && StepClient(step).None? && SingleFlight(w)
    ensures SingleFlight(Apply(w, step, analysis))
  {
    var v := Apply(w, step, analysis);
    if step.StartFail? { assert SessionOk(w, step.rid); }
    forall d: nat ensures LockedBy(v, d) { assert LockedBy(w, d); }
    forall d: nat, e: nat ensures Alone(v, d, e) { assert Alone(w, d, e); }
  }

  /** One client moved, and no session started or was let go. */
  ghost predicate Moves(w: World, v: World, c: nat) {
    v.starting == w.starting && v.clients == w.clients[c := ClientOf(v, c)]
  }

  lemma OpenMoves(w: World, c: nat, rid: string, uid: string, force: bool, details: ConfirmedDetails)
    ensures Moves(w, DoOpen(w, c, rid, uid, force, details), c) && Moves(w, DoOpenRetry(w, c, rid, uid), c)
  {
  }

  lemma StageMoves(w: World, c: nat, me: Client)
    ensures me.Reading? ==> Moves(w, DoStage(w, c, me), c)
  {
  }

  lemma ClaimMoves(w: World, c: nat, me: Client)
    ensures me.Staged? ==> Moves(w, DoClaim(w, c, me), c)
    ensures me.RetryReading? ==> Moves(w, DoClaimRetry(w, c, me), c)
  {
  }

  lemma EndMoves(w: World, c: nat, me: Client, error: string)
    ensures me.Refused? ==> Moves(w, DoRestore(w, c, me), c)
    ensures me.Raised? ==> Moves(w, DoFail(w, c, me, error), c)
    ensures me.RetryRaised? ==> Moves(w, DoFailRetry(w, c, me, error), c)
  {
  }

  lemma FinishRetryMoves(w: World, c: nat, me: Client, candidates: string, intake: IntakeStatus)
    ensures me.Retrying? ==> Moves(w, DoFinishRetry(w, c, me, candidates, intake), c)
  {
  }

  lemma OnlyMover(w: World, step: Step, c: nat, analysis: Analysis)
    requires Enabled(w, step, analysis) && StepClient(step) == Some(c)
    ensures Moves(w, Apply(w, step, analysis), c)
  {
    var me := ClientOf(w, c);
    match step
    case Open(_, rid, uid, force, details) => OpenMoves(w, c, rid, uid, force, details);
    case OpenRetry(_, rid, uid) => OpenMoves(w, c, rid, uid, false, ConfirmedDetails("", [], "", 0, 0.0, BracketUnknown));
    case StageCopy(_) => StageMoves(w, c, me);
    case Claim(_) => ClaimMoves(w, c, me);
    case ClaimRetry(_) => ClaimMoves(w, c, me);
    case Finish(_, seed, semantic) => FinishClient(w, c, me, seed, semantic, analysis);
    case Restore(_) => EndMoves(w, c, me, "");
    case Fail(_, error) => EndMoves(w, c, me, error);
    case FailRetry(_, error) => EndMoves(w, c, me, error);
    case FinishRetry(_, candidates, intake) => FinishRetryMoves(w, c, me, candidates, intake);
    case _ =>
  }

  lemma StepKeepsSingleFlight(w: World, step: Step, analysis: Analysis)
    requires Inv(w, analysis) && Enabled(w, step, analysis) && SingleFlight(w)
    ensures SingleFlight(Apply(w, step, analysis))
  {
    match StepClient(step)
    case None => StoreStepKeeps(w, step, analysis);
    case Some(c) =>
      OnlyMover(w, step, c, analysis);
      ClientStepKeeps(w, step, c, analysis);
  }

  /**
   In every run at most one client is retrying a review's intake, and until it is done the
   session stays EXTRACTING as that client claimed it: what it read is never written over
   somebody else's, and its own last write always lands.
   */
  lemma {:induction false} RetriesAreSingleFlight(w: World, steps: seq<Step>, analysis: Analysis)
    requires Inv(w, analysis) && SingleFlight(w) && Runs(w, steps, analysis)
    ensures SingleFlight(Run(w, steps, analysis))
    decreases |steps|
  {
    if steps != [] {
      StepKeepsInv(w, steps[0], analysis);
      StepKeepsSingleFlight(w, steps[0], analysis);
      RetriesAreSingleFlight(Apply(w, steps[0], analysis), steps[1..], analysis);
    }
  }

  /** From the start: no two clients ever retry one review, and each one's session is as it claimed it. */
  lemma OneRetryEach(w: World, steps: seq<Step>, analysis: Analysis, c: nat, d: nat)
    requires Init(w) && Runs(w, steps, analysis)
    requires var v := Run(w, steps, analysis); Retries(ClientOf(v, c)).Some? && Retries(ClientOf(v, d)).Some?
    ensures var v := Run(w, steps, analysis);
            var s, t := Retries(ClientOf(v, c)).value, Retries(ClientOf(v, d)).value;
            && (s.reviewId == t.reviewId ==> c == d)
            && s.reviewId in v.store.sessions && v.store.sessions[s.reviewId] == s && s.state == Extracting
  {
    InitInv(w, analysis);
    forall e: nat ensures LockedBy(w, e) {}
    RetriesAreSingleFlight(w, steps, analysis);
    assert Alone(Run(w, steps, analysis), c, d) && LockedBy(Run(w, steps, analysis), c);
  }

  /** Such a client's own end: what it read is stored and the session waits again, or the session fails. */
  lemma RetryEnds(w: World, c: nat, candidates: string, intake: IntakeStatus, error: string)
    requires SingleFlight(w) && Retries(ClientOf(w, c)).Some?
    ensures var s := Retries(ClientOf(w, c)).value;
            && (ClientOf(w, c).Retrying? ==>
                  var v := DoFinishRetry(w, c, ClientOf(w, c), candidates, intake);
                  ClientOf(v, c) == Idle && s.reviewId in v.store.sessions
                  && v.store.sessions[s.reviewId] == s.(state := AwaitingConfirmation, candidates := Some(candidates), intake := intake))
            && (ClientOf(w, c).RetryRaised? ==>
                  var v := DoFailRetry(w, c, ClientOf(w, c), error);
                  ClientOf(v, c) == Idle && s.reviewId in v.store.sessions
                  && v.store.sessions[s.reviewId] == s.(state := SessionFailed, error := Some(error)))
  {
    assert LockedBy(w, c);
  }
}
