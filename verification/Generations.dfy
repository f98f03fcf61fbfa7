/**
 The review protocol run with the service's own analysis: what every project's
 aggregate keeps over any interleaving, and what a published reanalysis concludes.
 */
module Generations {
  import opened Entities
  import opened Keyed
  import opened MemoryStore
  import opened Workflow
  import opened Worker
  import opened StagedAnalysis
  import opened Conclusions
  import R = WorkflowRuns
  import F = Findings
  import P = ReviewProtocol
  import Facade

  /** Each review session has a project of its own. */
  type Home = string -> string

  /** The first generation a session has not used: of an analysis in flight, its own. */
  function Bound(m: MemoryState, rid: string): nat {
    if rid !in m.sessions then 0
    else if m.sessions[rid].state.Analyzing? then m.sessions[rid].generation else m.sessions[rid].generation + 1
  }

  /** What is carried through a run: conclusions numbered by generation, or the workflow's own invariant. */
  datatype Property = NumberedSoFar | WorkflowInvariant(digest: R.Digest)

  ghost predicate Sat(p: Property, a: Aggregate, n: nat) {
    match p
    case NumberedSoFar => Numbered(a, n)
    case WorkflowInvariant(digest) => R.Inv(WorkspaceOf(a), digest)
  }

  lemma SatLater(p: Property, a: Aggregate, n: nat, m: nat)
    requires Sat(p, a, n) && n <= m
    ensures Sat(p, a, m)
  {
    if p.NumberedSoFar? { NumberedLater(a, n, m); }
  }

  /** The chain answers with its own states and non-blank facts, and the form hash never changes. */
  ghost predicate Answers(p: Property, oracle: nat -> Outside) {
    p.WorkflowInvariant? ==> forall n: nat :: Suits(oracle(n), p.digest)
  }

  ghost predicate Suits(o: Outside, digest: R.Digest) { R.ChainAnswer(o.answer) && o.env.digest == digest }

  lemma AnalysisKeepsSat(p: Property, a: Aggregate, d: ConfirmedDetails, g: nat, force: bool, seed: nat, oracle: nat -> Outside)
    requires Sat(p, a, g) && d.title != "" && Answers(p, oracle) && FreshFor(a, oracle(seed))
    requires Staged(a, d, g, force, oracle(seed)).Some?
    ensures Sat(p, Staged(a, d, g, force, oracle(seed)).value, g + 1)
  {
    match p
    case NumberedSoFar => StagedKeepsNumbers(a, d, g, force, oracle(seed));
    case WorkflowInvariant(digest) =>
      assert Suits(oracle(seed), digest);
      StagedKeepsInv(a, d, g, force, oracle(seed));
  }

  // ------------------------------------------------------------------ orderly runs

  ghost predicate AtHome(s: ReviewSession, home: Home) { s.projectId == home(s.reviewId) }

  ghost predicate KeepsSat(p: Property, a: Aggregate, b: Aggregate) { forall n: nat | Sat(p, a, n) :: Sat(p, b, n) }

  /** A session starts on its own project and keeps it, and a title is never empty. */
  ghost predicate Seated(step: P.Step, home: Home) {
    match step
    case StartSession(s) => AtHome(s, home)
    case StartAdvance(s) => AtHome(s, home)
    case Open(_, _, _, _, details) => details.title != ""
    case _ => true
  }

  /** Other calls keep the property; what an analysis mints is new to its project. */
  ghost predicate Orderly(w: P.World, step: P.Step, p: Property, home: Home, oracle: nat -> Outside) {
    Seated(step, home) &&
    match step
    case CreateProject(a, _) => Sat(p, a, 0)
    case Write(pid, change, _) =>
      AggregateOf(w.store, pid).Some? ==>
        KeepsSat(p, AggregateOf(w.store, pid).value, change(AggregateOf(w.store, pid).value))
    case Finish(c, seed, _) =>
      P.ClientOf(w, c).Claimed? ==>
        var live := AggregateOf(w.store, P.ClientOf(w, c).claim.projectId);
        live.Some? ==> FreshFor(live.value, oracle(seed))
    case _ => true
  }

  // ------------------------------------------------------------------ the invariant

  ghost predicate ClientAtHome(me: P.Client, home: Home) {
    match me
    case Idle => true
    case Reading(s, _, d) => AtHome(s, home) && d.title != ""
    case Staged(s, b, _, d) => AtHome(s, home) && AtHome(b.session, home) && d.title != ""
    case Claimed(s, b, _) => AtHome(s, home) && AtHome(b.session, home) && s.confirmed.Some? && s.confirmed.value.title != ""
    case Refused(s, b) => AtHome(s, home) && AtHome(b.session, home)
    case Raised(s) => AtHome(s, home)
    case RetryReading(s) => AtHome(s, home)
    case Retrying(s) => AtHome(s, home)
    case RetryRaised(s) => AtHome(s, home)
  }

  ghost predicate SessionsAtHome(m: MemoryState, home: Home) { forall rid | rid in m.sessions :: AtHome(m.sessions[rid], home) }

  ghost predicate Homes(w: P.World, home: Home) {
    SessionsAtHome(w.store, home) && forall c: nat :: ClientAtHome(P.ClientOf(w, c), home)
  }

  ghost predicate SatAt(m: MemoryState, p: Property, home: Home, rid: string) {
    AggregateOf(m, home(rid)).Some? ==> Sat(p, AggregateOf(m, home(rid)).value, Bound(m, rid))
  }

  ghost predicate GenInv(w: P.World, p: Property, home: Home, oracle: nat -> Outside) {
    P.Inv(w, Analysis(oracle)) && Homes(w, home) && forall rid :: SatAt(w.store, p, home, rid)
  }

  ghost predicate OneReviewEach(home: Home) { forall r, q :: home(r) == home(q) ==> r == q }

  // ------------------------------------------------------- sessions and clients

  lemma OthersAtHome(w: P.World, v: P.World, c: nat, home: Home)
    requires Homes(w, home) && SessionsAtHome(v.store, home) && ClientAtHome(P.ClientOf(v, c), home)
    requires forall d: nat | d != c :: P.ClientOf(v, d) == P.ClientOf(w, d)
    ensures Homes(v, home)
  {
    forall d: nat ensures ClientAtHome(P.ClientOf(v, d), home) {
      assert ClientAtHome(P.ClientOf(w, d), home);
    }
  }

  predicate Retries(step: P.Step) {
    step.OpenRetry? || step.ClaimRetry? || step.FinishRetry? || step.ThrowRetry? || step.FailRetry?
  }

  lemma RetryAtHome(w: P.World, step: P.Step, home: Home, analysis: P.Analysis)
    requires Homes(w, home) && P.Enabled(w, step, analysis) && Retries(step)
    ensures SessionsAtHome(P.Apply(w, step, analysis).store, home)
    ensures ClientAtHome(P.ClientOf(P.Apply(w, step, analysis), P.StepClient(step).value), home)
  {
    assert ClientAtHome(P.ClientOf(w, P.StepClient(step).value), home);
    RetryPuts(w, step, home, analysis);
  }

  lemma RetryPuts(w: P.World, step: P.Step, home: Home, analysis: P.Analysis)
    requires P.Enabled(w, step, analysis) && Retries(step)
    requires SessionsAtHome(w.store, home) && ClientAtHome(P.ClientOf(w, P.StepClient(step).value), home)
    ensures SessionsAtHome(P.Apply(w, step, analysis).store, home)
  {
  }

  predicate Reads(step: P.Step) { step.Open? || step.StageCopy? || step.Crash? || step.Throw? }

  lemma ReadsAtHome(w: P.World, step: P.Step, home: Home, analysis: P.Analysis)
    requires Homes(w, home) && P.Enabled(w, step, analysis) && Seated(step, home) && Reads(step)
    ensures SessionsAtHome(P.Apply(w, step, analysis).store, home)
    ensures ClientAtHome(P.ClientOf(P.Apply(w, step, analysis), P.StepClient(step).value), home)
  {
    assert ClientAtHome(P.ClientOf(w, P.StepClient(step).value), home);
  }

  lemma PutsAtHome(w: P.World, step: P.Step, home: Home, analysis: P.Analysis)
    requires Homes(w, home) && P.Enabled(w, step, analysis)
    requires P.StepClient(step).Some? && !step.Finish? && !Retries(step) && !Reads(step)
    ensures SessionsAtHome(P.Apply(w, step, analysis).store, home)
    ensures ClientAtHome(P.ClientOf(P.Apply(w, step, analysis), P.StepClient(step).value), home)
  {
    assert ClientAtHome(P.ClientOf(w, P.StepClient(step).value), home);
  }

  lemma OthersStay(w: P.World, step: P.Step, analysis: P.Analysis, d: nat)
    requires P.Enabled(w, step, analysis) && P.StepClient(step).Some? && !step.Finish? && d != P.StepClient(step).value
    ensures P.ClientOf(P.Apply(w, step, analysis), d) == P.ClientOf(w, d)
  {
    if Retries(step) { RetryLeavesOthers(w, step, analysis, d); }
  }

  lemma RetryLeavesOthers(w: P.World, step: P.Step, analysis: P.Analysis, d: nat)
    requires P.Enabled(w, step, analysis) && Retries(step) && d != P.StepClient(step).value
    ensures P.ClientOf(P.Apply(w, step, analysis), d) == P.ClientOf(w, d)
  {
  }

  lemma ClientStepAtHome(w: P.World, step: P.Step, home: Home, analysis: P.Analysis)
    requires Homes(w, home) && P.Enabled(w, step, analysis) && Seated(step, home)
    requires P.StepClient(step).Some? && !step.Finish?
    ensures Homes(P.Apply(w, step, analysis), home)
  {
    var c := P.StepClient(step).value;
    if Retries(step) { RetryAtHome(w, step, home, analysis); }
    else if Reads(step) { ReadsAtHome(w, step, home, analysis); }
    else { PutsAtHome(w, step, home, analysis); }
    forall d: nat | d != c ensures P.ClientOf(P.Apply(w, step, analysis), d) == P.ClientOf(w, d) {
      OthersStay(w, step, analysis, d);
    }
    OthersAtHome(w, P.Apply(w, step, analysis), c, home);
  }

  lemma StepAtHome(w: P.World, step: P.Step, home: Home, analysis: P.Analysis)
    requires P.Inv(w, analysis) && Homes(w, home) && P.Enabled(w, step, analysis) && Seated(step, home)
    ensures Homes(P.Apply(w, step, analysis), home)
  {
    if step.Finish? {
      FinishAtHome(w, step.c, step.seed, step.semantic, home, analysis);
    } else if P.StepClient(step).Some? {
      ClientStepAtHome(w, step, home, analysis);
    } else {
      assert ClientAtHome(P.ClientOf(w, 0), home);
      OthersAtHome(w, P.Apply(w, step, analysis), 0, home);
    }
  }

  lemma FinishClient(w: P.World, c: nat, seed: nat, semantic: Option<SemanticStatus>, home: Home, analysis: P.Analysis)
    requires P.MintsFresh(w, P.ClientOf(w, c), seed, analysis) && ClientAtHome(P.ClientOf(w, c), home)
    ensures var v := P.DoFinish(w, c, P.ClientOf(w, c), seed, semantic, analysis);
            ClientAtHome(P.ClientOf(v, c), home) && forall d: nat | d != c :: P.ClientOf(v, d) == P.ClientOf(w, d)
  {
  }

  lemma FinishAtHome(w: P.World, c: nat, seed: nat, semantic: Option<SemanticStatus>, home: Home, analysis: P.Analysis)
    requires P.Inv(w, analysis) && Homes(w, home) && P.MintsFresh(w, P.ClientOf(w, c), seed, analysis)
    ensures Homes(P.DoFinish(w, c, P.ClientOf(w, c), seed, semantic, analysis), home)
  {
    P.FinishSessions(w, c, seed, semantic, analysis);
    assert ClientAtHome(P.ClientOf(w, c), home);
    FinishClient(w, c, seed, semantic, home, analysis);
    OthersAtHome(w, P.DoFinish(w, c, P.ClientOf(w, c), seed, semantic, analysis), c, home);
  }

  // ---------------------------------------------------------------- generations

  lemma BoundRises(w: P.World, step: P.Step, analysis: P.Analysis, rid: string)
    requires P.Inv(w, analysis) && P.Enabled(w, step, analysis)
    ensures Bound(w.store, rid) <= Bound(P.Apply(w, step, analysis).store, rid)
  {
    if rid in w.store.sessions {
      if step.Finish? {
        assert P.SessionOk(w, rid) && P.ClientOk(w, step.c);
        P.FinishSessions(w, step.c, step.seed, step.semantic, analysis);
      } else if P.StepClient(step).Some? {
        ClientStepRises(w, step, analysis, rid);
      } else {
        assert P.SessionOk(w, rid);
        if step.StartFail? { assert P.SessionOk(w, step.rid); }
      }
    }
  }

  lemma ClientStepRises(w: P.World, step: P.Step, analysis: P.Analysis, rid: string)
    requires P.Inv(w, analysis) && P.Enabled(w, step, analysis)
    requires rid in w.store.sessions && P.StepClient(step).Some? && !step.Finish?
    ensures Bound(w.store, rid) <= Bound(P.Apply(w, step, analysis).store, rid)
  {
    assert P.SessionOk(w, rid) && P.ClientOk(w, P.StepClient(step).value);
    if Retries(step) { RetryRises(w, step, analysis, rid); }
  }

  lemma RetryRises(w: P.World, step: P.Step, analysis: P.Analysis, rid: string)
    requires P.Enabled(w, step, analysis) && Retries(step) && P.ClientOk(w, P.StepClient(step).value)
    requires rid in w.store.sessions && P.SessionOk(w, rid)
    ensures Bound(w.store, rid) <= Bound(P.Apply(w, step, analysis).store, rid)
  {
  }

  predicate SameAggregates(m: MemoryState, n: MemoryState) {
    n.projects == m.projects && n.tasks == m.tasks && n.lists == m.lists
  }

  /** Every step but a creation, a write and a publication leaves the aggregates alone. */
  lemma AggregatesStay(w: P.World, step: P.Step, analysis: P.Analysis)
    requires P.Enabled(w, step, analysis) && !step.Finish? && !step.CreateProject? && !step.Write?
    ensures SameAggregates(w.store, P.Apply(w, step, analysis).store)
  {
    if Retries(step) { RetryLeaves(w, step, analysis); }
    else if P.StepClient(step).Some? { ReviewLeaves(w, step, analysis); }
  }

  lemma RetryLeaves(w: P.World, step: P.Step, analysis: P.Analysis)
    requires P.Enabled(w, step, analysis) && Retries(step)
    ensures SameAggregates(w.store, P.Apply(w, step, analysis).store)
  {
  }

  lemma ReviewLeaves(w: P.World, step: P.Step, analysis: P.Analysis)
    requires P.Enabled(w, step, analysis) && P.StepClient(step).Some? && !step.Finish? && !Retries(step)
    ensures SameAggregates(w.store, P.Apply(w, step, analysis).store)
  {
    match step
    case Open(c, rid, uid, force, details) => assert P.DoOpen(w, c, rid, uid, force, details).store == w.store;
    case StageCopy(c) => assert P.DoStage(w, c, P.ClientOf(w, c)).store == w.store;
    case _ =>
  }

  lemma WriteKeepsSat(m: MemoryState, n: MemoryState, pid: string, b: Aggregate, p: Property, home: Home, rid: string)
    requires SatAt(m, p, home, rid) && P.IsWrite(m, n, pid, b)
    requires home(rid) == pid ==> Sat(p, b, Bound(m, rid))
    ensures SatAt(n, p, home, rid)
  {
    assert Bound(n, rid) == Bound(m, rid);
    if home(rid) != pid { assert AggregateOf(n, home(rid)) == AggregateOf(m, home(rid)); }
  }

  lemma CreatedSat(w: P.World, step: P.Step, p: Property, home: Home, analysis: P.Analysis, rid: string)
    requires SatAt(w.store, p, home, rid) && P.Enabled(w, step, analysis) && step.CreateProject? && Sat(p, step.aggregate, 0)
    ensures SatAt(P.Apply(w, step, analysis).store, p, home, rid)
  {
    SatLater(p, step.aggregate, 0, Bound(w.store, rid));
    WriteKeepsSat(w.store, step.after, step.aggregate.project.projectId, step.aggregate, p, home, rid);
  }

  lemma WrittenSat(w: P.World, step: P.Step, p: Property, home: Home, analysis: P.Analysis, rid: string)
    requires SatAt(w.store, p, home, rid) && P.Enabled(w, step, analysis) && step.Write?
    requires KeepsSat(p, AggregateOf(w.store, step.pid).value, step.change(AggregateOf(w.store, step.pid).value))
    ensures SatAt(P.Apply(w, step, analysis).store, p, home, rid)
  {
    WriteKeepsSat(w.store, step.after, step.pid, step.change(AggregateOf(w.store, step.pid).value), p, home, rid);
  }

  lemma UntouchedSat(m: MemoryState, n: MemoryState, p: Property, home: Home, rid: string)
    requires SatAt(m, p, home, rid) && SameAggregates(m, n) && Bound(m, rid) <= Bound(n, rid)
    ensures SatAt(n, p, home, rid)
  {
    assert AggregateOf(n, home(rid)) == AggregateOf(m, home(rid));
    if AggregateOf(m, home(rid)).Some? {
      SatLater(p, AggregateOf(m, home(rid)).value, Bound(m, rid), Bound(n, rid));
    }
  }

  lemma Unpublished(w: P.World, c: nat, seed: nat, semantic: Option<SemanticStatus>, analysis: P.Analysis)
    requires P.MintsFresh(w, P.ClientOf(w, c), seed, analysis)
    ensures var v := P.DoFinish(w, c, P.ClientOf(w, c), seed, semantic, analysis);
            P.ClientOf(v, c).Idle? || v.store == w.store
  {
  }

  /** A claim at home whose result replaced its project's live aggregate, and nothing else. */
  ghost predicate Landed(m: MemoryState, n: MemoryState, claim: ReviewSession, result: Option<Aggregate>, home: Home) {
    && AtHome(claim, home) && claim.confirmed.Some? && claim.confirmed.value.title != ""
    && Bound(m, claim.reviewId) == claim.generation && Bound(n, claim.reviewId) == claim.generation + 1
    && (forall rid | rid != claim.reviewId :: Bound(n, rid) == Bound(m, rid))
    && result.Some? && AggregateOf(n, claim.projectId) == result
    && (forall pid | pid != claim.projectId :: AggregateOf(n, pid) == AggregateOf(m, pid))
  }

  /** A publication lands the analysis of the live aggregate. */
  lemma PublishLands(w: P.World, step: P.Step, home: Home, analysis: P.Analysis)
    requires P.Inv(w, analysis) && Homes(w, home) && P.Enabled(w, step, analysis) && step.Finish?
    requires P.ClientOf(P.Apply(w, step, analysis), step.c).Idle?
    ensures var me := P.ClientOf(w, step.c);
            && AggregateOf(w.store, me.claim.projectId).Some? && me.claim.confirmed.Some?
            && me.claim.generation == P.Claims(w, me.claim.reviewId)
            && Landed(w.store, P.Apply(w, step, analysis).store, me.claim,
                      analysis(AggregateOf(w.store, me.claim.projectId).value, me.claim.confirmed.value,
                               me.claim.generation, me.force, step.seed), home)
  {
    var me, v := P.ClientOf(w, step.c), P.Apply(w, step, analysis);
    forall pid | pid != me.claim.projectId ensures AggregateOf(v.store, pid) == AggregateOf(w.store, pid) {
      P.PublishIsAtomicAnalysis(w, step.c, step.seed, step.semantic, analysis, pid);
    }
    P.PublishIsAtomicAnalysis(w, step.c, step.seed, step.semantic, analysis, me.claim.projectId);
    assert ClientAtHome(me, home) && P.ClientOk(w, step.c) && P.SessionOk(w, me.claim.reviewId);
  }

  lemma LandedElsewhere(m: MemoryState, n: MemoryState, claim: ReviewSession, result: Option<Aggregate>, p: Property,
                        home: Home, rid: string)
    requires SatAt(m, p, home, rid) && OneReviewEach(home) && Landed(m, n, claim, result, home) && rid != claim.reviewId
    ensures SatAt(n, p, home, rid)
  {
    assert home(rid) != home(claim.reviewId);
  }

  lemma LiveSat(m: MemoryState, n: MemoryState, claim: ReviewSession, result: Option<Aggregate>, p: Property, home: Home)
    requires Landed(m, n, claim, result, home) && SatAt(m, p, home, claim.reviewId)
    requires AggregateOf(m, claim.projectId).Some?
    ensures Sat(p, AggregateOf(m, claim.projectId).value, claim.generation)
  {
  }

  lemma LandedHere(m: MemoryState, n: MemoryState, claim: ReviewSession, result: Option<Aggregate>, p: Property, home: Home)
    requires Landed(m, n, claim, result, home) && Sat(p, result.value, claim.generation + 1)
    ensures SatAt(n, p, home, claim.reviewId)
  {
  }

  /** The analysis a publication landed keeps the property of the project it was live on. */
  lemma ResultSat(live: Aggregate, claim: ReviewSession, force: bool, seed: nat, p: Property, oracle: nat -> Outside, r: Aggregate)
    requires Sat(p, live, claim.generation) && Answers(p, oracle) && FreshFor(live, oracle(seed))
    requires claim.confirmed.Some? && claim.confirmed.value.title != ""
    requires Staged(live, claim.confirmed.value, claim.generation, force, oracle(seed)) == Some(r)
    ensures Sat(p, r, claim.generation + 1)
  {
    AnalysisKeepsSat(p, live, claim.confirmed.value, claim.generation, force, seed, oracle);
  }

  /** What a landed analysis leaves of the property in its own project. */
  lemma LandedOwn(m: MemoryState, n: MemoryState, claim: ReviewSession, live: Aggregate, r: Aggregate, force: bool, seed: nat,
                  p: Property, home: Home, oracle: nat -> Outside)
    requires Landed(m, n, claim, Some(r), home) && SatAt(m, p, home, claim.reviewId) && AggregateOf(m, claim.projectId) == Some(live)
    requires Answers(p, oracle) && FreshFor(live, oracle(seed))
    requires Staged(live, claim.confirmed.value, claim.generation, force, oracle(seed)) == Some(r)
    ensures SatAt(n, p, home, claim.reviewId)
  {
    LiveSat(m, n, claim, Some(r), p, home);
    ResultSat(live, claim, force, seed, p, oracle, r);
    LandedHere(m, n, claim, Some(r), p, home);
  }

  lemma PublishedSat(w: P.World, step: P.Step, p: Property, home: Home, oracle: nat -> Outside, rid: string)
    requires GenInv(w, p, home, oracle) && OneReviewEach(home) && Answers(p, oracle)
    requires step.Finish? && P.Enabled(w, step, Analysis(oracle)) && Orderly(w, step, p, home, oracle)
    requires P.ClientOf(P.Apply(w, step, Analysis(oracle)), step.c).Idle?
    ensures SatAt(P.Apply(w, step, Analysis(oracle)).store, p, home, rid)
  {
    var me := P.ClientOf(w, step.c);
    PublishLands(w, step, home, Analysis(oracle));
    var result := Staged(AggregateOf(w.store, me.claim.projectId).value, me.claim.confirmed.value, me.claim.generation,
                         me.force, oracle(step.seed));
    var n := P.Apply(w, step, Analysis(oracle)).store;
    if rid == me.claim.reviewId {
      LandedOwn(w.store, n, me.claim, AggregateOf(w.store, me.claim.projectId).value, result.value, me.force, step.seed, p, home, oracle);
    } else {
      LandedElsewhere(w.store, n, me.claim, result, p, home, rid);
    }
  }

  lemma StepKeepsSat(w: P.World, step: P.Step, p: Property, home: Home, oracle: nat -> Outside, rid: string)
    requires GenInv(w, p, home, oracle) && OneReviewEach(home) && Answers(p, oracle)
    requires P.Enabled(w, step, Analysis(oracle)) && Orderly(w, step, p, home, oracle)
    ensures SatAt(P.Apply(w, step, Analysis(oracle)).store, p, home, rid)
  {
    var v := P.Apply(w, step, Analysis(oracle));
    assert SatAt(w.store, p, home, rid);
    if step.CreateProject? {
      CreatedSat(w, step, p, home, Analysis(oracle), rid);
    } else if step.Write? {
      WrittenSat(w, step, p, home, Analysis(oracle), rid);
    } else if step.Finish? && P.ClientOf(v, step.c).Idle? {
      PublishedSat(w, step, p, home, oracle, rid);
    } else {
      if step.Finish? { Unpublished(w, step.c, step.seed, step.semantic, Analysis(oracle)); }
      else { AggregatesStay(w, step, Analysis(oracle)); }
      BoundRises(w, step, Analysis(oracle), rid);
      UntouchedSat(w.store, v.store, p, home, rid);
    }
  }

  lemma StepKeepsGenInv(w: P.World, step: P.Step, p: Property, home: Home, oracle: nat -> Outside)
    requires GenInv(w, p, home, oracle) && OneReviewEach(home) && Answers(p, oracle)
    requires P.Enabled(w, step, Analysis(oracle)) && Orderly(w, step, p, home, oracle)
    ensures GenInv(P.Apply(w, step, Analysis(oracle)), p, home, oracle)
  {
    P.StepKeepsInv(w, step, Analysis(oracle));
    StepAtHome(w, step, home, Analysis(oracle));
    forall rid ensures SatAt(P.Apply(w, step, Analysis(oracle)).store, p, home, rid) {
      StepKeepsSat(w, step, p, home, oracle, rid);
    }
  }

  /** Any other call of the service is an orderly write, for either property. */
  lemma OrdinaryCallIsOrderly(p: Property, a: Aggregate, w: Workspace, s: R.Step, env: Env)
    requires R.Inv(WorkspaceOf(a), env.digest) && Shows(w, a) && Ordinary(a, s) && R.Legal(w, s)
    requires p.WorkflowInvariant? ==> p.digest == env.digest
    ensures KeepsSat(p, a, AfterCall(a, R.Do(w, s, env).after))
  {
    var b := AfterCall(a, R.Do(w, s, env).after);
    OrdinaryCallKeepsInv(a, w, s, env);
    forall n: nat | Sat(p, a, n) ensures Sat(p, b, n) {
      if p.NumberedSoFar? { OrdinaryCallKeeps(a, w, s, env, n); }
    }
  }

  /** A finding that brings no new generation number, and takes the alert's id only as an alert. */
  ghost predicate FindingFits(a: Aggregate, f: Finding) {
    && (f.findingId == AlertId(a.project) ==> F.ClassificationAlert(f))
    && (f.generation.None? || exists g :: g in a.findings && g.generation == f.generation)
  }

  /** A task under an ordinary key, or under the key and project of one that is stored. */
  ghost predicate TaskFits(a: Aggregate, t: WorkflowTask) {
    || (t.projectId == a.project.projectId && KeyedBefore(t, 0))
    || exists u :: u in a.tasks && u.projectId == t.projectId && u.idempotencyKey == t.idempotencyKey
  }

  lemma TaskFitsOk(a: Aggregate, t: WorkflowTask, n: nat)
    requires Numbered(a, n) && TaskFits(a, t)
    ensures TaskOk(t, a.project.projectId, n)
  {
    if t.projectId == a.project.projectId && KeyedBefore(t, 0) {
      KeyedLater(t, 0, n);
    } else {
      var u :| u in a.tasks && u.projectId == t.projectId && u.idempotencyKey == t.idempotencyKey;
      assert TaskOk(u, a.project.projectId, n);
      var kind: TaskType, asset: string, g: Option<nat> :| MadeFrom(u, kind, asset, g) && (g.Some? ==> g.value < n);
      assert MadeFrom(t, kind, asset, g);
    }
  }

  /**
   And so is each single write such a call makes, so that a review may land between any
   two of them: one finding, one task, the project, or any of the other collections.
   */
  lemma EachWriteIsOrderly(a: Aggregate, f: Finding, t: WorkflowTask, p: Project, other: Aggregate)
    requires FindingFits(a, f) && TaskFits(a, t) && p.projectId == a.project.projectId
    ensures KeepsSat(NumberedSoFar, a, a.(findings := PutById(a.findings, FindingId, f)))
    ensures KeepsSat(NumberedSoFar, a, a.(tasks := PutById(a.tasks, TaskId, t)))
    ensures KeepsSat(NumberedSoFar, a, a.(project := p))
    ensures KeepsSat(NumberedSoFar, a,
                     a.(facts := other.facts, forms := other.forms, timeline := other.timeline, audit := other.audit))
  {
    forall n: nat | Sat(NumberedSoFar, a, n)
      ensures Sat(NumberedSoFar, a.(findings := PutById(a.findings, FindingId, f)), n)
      ensures Sat(NumberedSoFar, a.(tasks := PutById(a.tasks, TaskId, t)), n)
    {
      if f.generation.Some? {
        var g :| g in a.findings && g.generation == f.generation;
        assert FindingOk(g, AlertId(a.project), n);
      }
      FindingWriteKeeps(a, f, n);
      TaskFitsOk(a, t, n);
      TaskWriteKeeps(a, t, n);
    }
  }

  // ------------------------------------------------------------------ whole runs

  ghost predicate OrderlyRun(w: P.World, steps: seq<P.Step>, p: Property, home: Home, oracle: nat -> Outside)
    requires P.Runs(w, steps, Analysis(oracle))
    decreases |steps|
  {
    steps == [] ||
    ( && Orderly(w, steps[0], p, home, oracle)
      && OrderlyRun(P.Apply(w, steps[0], Analysis(oracle)), steps[1..], p, home, oracle))
  }

  lemma {:induction false} RunKeepsGenInv(w: P.World, steps: seq<P.Step>, p: Property, home: Home, oracle: nat -> Outside)
    requires GenInv(w, p, home, oracle) && OneReviewEach(home) && Answers(p, oracle)
    requires P.Runs(w, steps, Analysis(oracle)) && OrderlyRun(w, steps, p, home, oracle)
    ensures GenInv(P.Run(w, steps, Analysis(oracle)), p, home, oracle)
    decreases |steps|
  {
    if steps != [] {
      StepKeepsGenInv(w, steps[0], p, home, oracle);
      RunKeepsGenInv(P.Apply(w, steps[0], Analysis(oracle)), steps[1..], p, home, oracle);
    }
  }

  lemma InitGenInv(w: P.World, p: Property, home: Home, oracle: nat -> Outside)
    requires P.Init(w)
    ensures GenInv(w, p, home, oracle)
  {
    P.InitInv(w, Analysis(oracle));
    forall c: nat ensures ClientAtHome(P.ClientOf(w, c), home) {}
    forall rid ensures SatAt(w.store, p, home, rid) {}
  }

  /**
   However reviews, retries and other calls interleave, every reviewed project's
   log is a path of the state table that ends in its state, its drafts are chained
   and sealed, and its asset rule holds, published reanalyses and resets included.
   */
  lemma ReviewsKeepTheWorkflow(w: P.World, steps: seq<P.Step>, digest: R.Digest, home: Home, oracle: nat -> Outside, rid: string)
    requires P.Init(w) && OneReviewEach(home) && Answers(WorkflowInvariant(digest), oracle)
    requires P.Runs(w, steps, Analysis(oracle)) && OrderlyRun(w, steps, WorkflowInvariant(digest), home, oracle)
    requires AggregateOf(P.Run(w, steps, Analysis(oracle)).store, home(rid)).Some?
    ensures R.Inv(WorkspaceOf(AggregateOf(P.Run(w, steps, Analysis(oracle)).store, home(rid)).value), digest)
  {
    InitGenInv(w, WorkflowInvariant(digest), home, oracle);
    RunKeepsGenInv(w, steps, WorkflowInvariant(digest), home, oracle);
    assert SatAt(P.Run(w, steps, Analysis(oracle)).store, WorkflowInvariant(digest), home, rid);
  }

  /** The claim's project, before and after: concluded afresh, under the number of the claim. */
  ghost predicate Concludes(m: MemoryState, n: MemoryState, claim: ReviewSession, s: Script) {
    && AggregateOf(m, claim.projectId).Some? && AggregateOf(n, claim.projectId).Some?
    && FreshConclusion(AggregateOf(m, claim.projectId).value, AggregateOf(n, claim.projectId).value, s, claim.generation)
  }

  lemma LandedConcludes(m: MemoryState, n: MemoryState, claim: ReviewSession, home: Home, o: Outside)
    requires SatAt(m, NumberedSoFar, home, claim.reviewId) && o.script.Some?
    requires AggregateOf(m, claim.projectId).Some? && claim.confirmed.Some?
    requires FreshFor(AggregateOf(m, claim.projectId).value, o)
    requires Landed(m, n, claim, Staged(AggregateOf(m, claim.projectId).value, claim.confirmed.value, claim.generation,
                                        true, o), home)
    ensures Concludes(m, n, claim, o.script.value)
  {
    ReanalysisIsFresh(AggregateOf(m, claim.projectId).value, claim.confirmed.value, claim.generation, o);
  }

  /** A forced analysis that publishes concludes afresh on the project as it was live. */
  lemma PublishConcludes(w: P.World, step: P.Step, home: Home, oracle: nat -> Outside)
    requires GenInv(w, NumberedSoFar, home, oracle)
    requires step.Finish? && P.Enabled(w, step, Analysis(oracle)) && Orderly(w, step, NumberedSoFar, home, oracle)
    requires P.ClientOf(w, step.c).force && oracle(step.seed).script.Some?
    requires P.ClientOf(P.Apply(w, step, Analysis(oracle)), step.c).Idle?
    ensures Concludes(w.store, P.Apply(w, step, Analysis(oracle)).store, P.ClientOf(w, step.c).claim, oracle(step.seed).script.value)
    ensures P.ClientOf(w, step.c).claim.generation == P.Claims(w, P.ClientOf(w, step.c).claim.reviewId)
  {
    var claim := P.ClientOf(w, step.c).claim;
    PublishLands(w, step, home, Analysis(oracle));
    assert SatAt(w.store, NumberedSoFar, home, claim.reviewId);
    LandedConcludes(w.store, P.Apply(w, step, Analysis(oracle)).store, claim, home, oracle(step.seed));
  }

  /**
   Fresh conclusion per generation. In any interleaving, when a reanalysis claimed
   as generation g publishes, the current script findings on its script are exactly
   those of generation g and say what its review proposed; every earlier one is
   still stored, inactive; at most one alert is active, and it is generation g's;
   and the review ran under generation g's own key instead of replaying an earlier one.
   */
  lemma EveryReanalysisConcludesAfresh(w: P.World, steps: seq<P.Step>, last: P.Step, home: Home, oracle: nat -> Outside)
    requires P.Init(w) && OneReviewEach(home)
    requires P.Runs(w, steps, Analysis(oracle)) && OrderlyRun(w, steps, NumberedSoFar, home, oracle)
    requires var v := P.Run(w, steps, Analysis(oracle));
             && last.Finish? && P.Enabled(v, last, Analysis(oracle)) && Orderly(v, last, NumberedSoFar, home, oracle)
             && P.ClientOf(v, last.c).force && oracle(last.seed).script.Some?
             && P.ClientOf(P.Apply(v, last, Analysis(oracle)), last.c).Idle?
    ensures var v := P.Run(w, steps, Analysis(oracle));
            && Concludes(v.store, P.Apply(v, last, Analysis(oracle)).store, P.ClientOf(v, last.c).claim, oracle(last.seed).script.value)
            && P.ClientOf(v, last.c).claim.generation == P.Claims(v, P.ClientOf(v, last.c).claim.reviewId)
  {
    InitGenInv(w, NumberedSoFar, home, oracle);
    RunKeepsGenInv(w, steps, NumberedSoFar, home, oracle);
    PublishConcludes(P.Run(w, steps, Analysis(oracle)), last, home, oracle);
  }

  // ---------------------------------------------------------- and that they publish

  /** What a reanalysis needs: a chain that asks nothing back, a review job that works, and ids nobody has. */
  ghost predicate Reanalyses(m: MemoryState, a: Aggregate, d: ConfirmedDetails, g: nat, o: Outside) {
    && Numbered(a, g) && FreshFor(a, o) && o.script.Some? && o.script.value.verdict.Produced?
    && R.Inv(WorkspaceOf(a), o.env.digest) && d.title != "" && R.ChainAnswer(o.answer) && !o.answer.askBack
    && (Staged(a, d, g, true, o).Some? ==> WellFormedAggregate(m, Staged(a, d, g, true, o).value))
  }

  lemma StagedLands(m: MemoryState, a: Aggregate, d: ConfirmedDetails, g: nat, o: Outside, pid: string)
    requires Reanalyses(m, a, d, g, o) && a.project.projectId == pid
    requires !R.NotJudged(a.project.state) && !LatestFrozen(a.forms)
    ensures Staged(a, d, g, true, o).Some? && Facade.Lands(m, Staged(a, d, g, true, o).value, pid)
    ensures FreshConclusion(a, Staged(a, d, g, true, o).value, o.script.value, g)
  {
    ReanalysisGoesThroughExactly(a, d, g, o);
    StagedKeepsNumbers(a, d, g, true, o);
    StagedFindings(a, d, g, true, o);
    ReanalysisIsFresh(a, d, g, o);
    var r := Staged(a, d, g, true, o).value;
    forall t | t in r.tasks ensures t.projectId == pid { assert TaskOk(t, pid, g + 1); }
  }

  /**
   Left alone, a reanalysis of a completed review whose project was judged and has no frozen
   form publishes: the session is COMPLETE one generation on, and the project is concluded
   afresh under that generation.
   */
  lemma UndisturbedReanalysisConcludes(m: MemoryState, r: Facade.Request, work: Facade.Work, oracle: nat -> Outside,
                                       s: ReviewSession, stage: Baseline)
    requires r.force && work.analysis == Analysis(oracle)
    requires Facade.Checked(m, r, true) == Ok(s) && s.reviewId == r.rid && s.confirmed != Some(r.details)
    requires Stage(m, s.reviewId, s.projectId) == Some(stage)
    requires !R.NotJudged(stage.aggregate.project.state) && !LatestFrozen(stage.aggregate.forms)
    requires Reanalyses(m, stage.aggregate, r.details, s.generation + 1, oracle(work.seed))
    ensures var (after, error) := Facade.Call(m, r, true, work);
            && error.None? && r.rid in after.sessions
            && after.sessions[r.rid].state == Complete && after.sessions[r.rid].generation == s.generation + 1
            && AggregateOf(after, s.projectId).Some?
            && FreshConclusion(stage.aggregate, AggregateOf(after, s.projectId).value, oracle(work.seed).script.value,
                               s.generation + 1)
  {
    P.StagedBaseline(m, s.reviewId, s.projectId);
    R.ResetExactly(WorkspaceOf(stage.aggregate), oracle(work.seed).env);
    StagedLands(m, stage.aggregate, r.details, s.generation + 1, oracle(work.seed), s.projectId);
    Facade.UndisturbedCallPublishes(m, r, true, work, s, stage);
  }
}
