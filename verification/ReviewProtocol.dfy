/**
 The review-generation protocol as a transition system. Any number of clients
 interleave store calls: each client stages a copy of a project, claims the
 session by compare-and-put, analyses the copy, and publishes, restores or fails.
 Between any two calls other clients run, ordinary writes land on any project,
 and any client may raise or vanish.
 */
module ReviewProtocol {
  import opened Entities
  import opened Keyed
  import opened MemoryStore
  import StateMachine

  /** (baseline, details, generation, forced, fresh ids and model answers) -> staged result, or it raises. */
  type Analysis = (Aggregate, ConfirmedDetails, nat, bool, nat) -> Option<Aggregate>

  datatype Client =
    | Idle
    | Reading(session: ReviewSession, force: bool, details: ConfirmedDetails)
    | Staged(session: ReviewSession, baseline: Baseline, force: bool, details: ConfirmedDetails)
    | Claimed(claim: ReviewSession, baseline: Baseline, force: bool)
    | Refused(claim: ReviewSession, baseline: Baseline)
    | Raised(claim: ReviewSession)
    | RetryReading(session: ReviewSession)
    | Retrying(extracting: ReviewSession)
    | RetryRaised(extracting: ReviewSession)

  /** What took effect on the aggregates, in commit order. */
  datatype Event =
    | Created(aggregate: Aggregate)
    | Wrote(pid: string, change: Aggregate -> Aggregate)
    | Analysed(pid: string, details: ConfirmedDetails, generation: nat, force: bool, seed: nat)

  /** `claims`, `published`, `last` and `log` only record history; no step reads them. */
  datatype World = World(
    store: MemoryState,
    clients: map<nat, Client>,
    starting: set<string>,
    synchronous: bool,
    claims: map<string, nat>,
    published: set<(string, nat)>,
    last: map<string, ConfirmedDetails>,
    log: seq<Event>)

  datatype Step =
    | StartSession(session: ReviewSession)
    | StartAdvance(session: ReviewSession)
    | StartFail(rid: string, error: string)
    | StartReturn(rid: string)
    | Open(c: nat, rid: string, uid: string, force: bool, details: ConfirmedDetails)
    | StageCopy(c: nat)
    | Claim(c: nat)
    | Finish(c: nat, seed: nat, semantic: Option<SemanticStatus>)
    | Restore(c: nat)
    | Throw(c: nat)
    | Fail(c: nat, error: string)
    | Crash(c: nat)
    | OpenRetry(c: nat, rid: string, uid: string)
    | ClaimRetry(c: nat)
    | FinishRetry(c: nat, candidates: string, intake: IntakeStatus)
    | ThrowRetry(c: nat)
    | FailRetry(c: nat, error: string)
    | CreateProject(aggregate: Aggregate, after: MemoryState)
    | Write(pid: string, change: Aggregate -> Aggregate, after: MemoryState)

  function ClientOf(w: World, c: nat): Client { if c in w.clients then w.clients[c] else Idle }

  function Become(w: World, c: nat, next: Client): World { w.(clients := w.clients[c := next]) }

  function Claims(w: World, rid: string): nat { if rid in w.claims then w.claims[rid] else 0 }

  // ------------------------------------------------------------------ steps

  function DoOpen(w: World, c: nat, rid: string, uid: string, force: bool, details: ConfirmedDetails): World {
    if rid !in w.store.sessions || w.store.sessions[rid].ownerUid != uid then Become(w, c, Idle)
    else
      var s := w.store.sessions[rid];
      if s.state != (if force then Complete else AwaitingConfirmation) then Become(w, c, Idle)
      else if s.scriptMode && !w.synchronous then Become(w, c, Idle)
      else Become(w, c, Reading(s, force, details))
  }

  function DoStage(w: World, c: nat, me: Client): World
    requires me.Reading?
  {
    match Stage(w.store, me.session.reviewId, me.session.projectId)
    case None => Become(w, c, Idle)
    case Some(b) =>
      if b.session != me.session then Become(w, c, Idle)
      else if me.force && (b.aggregate.project.state !in StateMachine.REANALYZABLE || LatestFrozen(b.aggregate.forms))
      then Become(w, c, Idle)
      else if me.force && me.session.confirmed == Some(me.details) then Become(w, c, Idle)
      else Become(w, c, Staged(me.session, b, me.force, me.details))
  }

  function ClaimSession(s: ReviewSession, force: bool, details: ConfirmedDetails): ReviewSession {
    s.(state := Analyzing, confirmed := Some(details), generation := s.generation + 1,
       semantic := if force then None else s.semantic)
  }

  function DoClaim(w: World, c: nat, me: Client): World
    requires me.Staged?
  {
    var claim := ClaimSession(me.session, me.force, me.details);
    var (store, won) := CompareAndPut(w.store, me.session.reviewId,
      if me.force then Complete else AwaitingConfirmation, claim, Some(me.session.generation));
    if won then
      Become(w, c, Claimed(claim, me.baseline, me.force)).(
        store := store, claims := w.claims[claim.reviewId := Claims(w, claim.reviewId) + 1])
    else Become(w, c, Idle)
  }

  function DoFinish(w: World, c: nat, me: Client, seed: nat, semantic: Option<SemanticStatus>, analysis: Analysis): World
    requires me.Claimed? && me.claim.confirmed.Some?
  {
    var s, b := me.claim, me.baseline;
    match analysis(b.aggregate, s.confirmed.value, s.generation, me.force, seed)
    case None => Become(w, c, Raised(s))
    case Some(result) =>
      var (store, done) := Publish(w.store, Publication(b, Completed(s, semantic), result));
      match done {
        case None => Become(w, c, Raised(s))
        case Some(false) => Become(w, c, if me.force then Refused(s, b) else Raised(s))
        case Some(true) => Become(w, c, Idle).(
          store := store,
          published := w.published + {(s.reviewId, s.generation)},
          last := w.last[s.reviewId := s.confirmed.value],
          log := w.log + [Analysed(s.projectId, s.confirmed.value, s.generation, me.force, seed)])
      }
  }

  function Completed(s: ReviewSession, semantic: Option<SemanticStatus>): ReviewSession {
    s.(state := Complete, semantic := semantic)
  }

  function DoRestore(w: World, c: nat, me: Client): World
    requires me.Refused?
  {
    var restored := me.baseline.session.(generation := me.claim.generation);
    Become(w, c, Raised(me.claim)).(
      store := CompareAndPut(w.store, restored.reviewId, Analyzing, restored, Some(me.claim.generation)).0)
  }

  function DoFail(w: World, c: nat, me: Client, error: string): World
    requires me.Raised?
  {
    var failed := me.claim.(state := SessionFailed, error := Some(error));
    Become(w, c, Idle).(
      store := CompareAndPut(w.store, failed.reviewId, Analyzing, failed, Some(me.claim.generation)).0)
  }

  function DoOpenRetry(w: World, c: nat, rid: string, uid: string): World {
    if rid !in w.store.sessions || w.store.sessions[rid].ownerUid != uid then Become(w, c, Idle)
    else
      var s := w.store.sessions[rid];
      if s.state == AwaitingConfirmation && (s.intake == Unavailable || s.intake == Partial)
      then Become(w, c, RetryReading(s)) else Become(w, c, Idle)
  }

  function DoClaimRetry(w: World, c: nat, me: Client): World
    requires me.RetryReading?
  {
    var extracting := me.session.(state := Extracting, intake := IntakeRunning);
    var (store, won) := CompareAndPut(w.store, extracting.reviewId, AwaitingConfirmation, extracting, None);
    Become(w, c, if won then Retrying(extracting) else Idle).(store := store)
  }

  function DoFinishRetry(w: World, c: nat, me: Client, candidates: string, intake: IntakeStatus): World
    requires me.Retrying?
  {
    var updated := me.extracting.(state := AwaitingConfirmation, candidates := Some(candidates), intake := intake);
    var (store, won) := CompareAndPut(w.store, updated.reviewId, Extracting, updated, None);
    Become(w, c, if won then Idle else RetryRaised(me.extracting)).(store := store)
  }

  function DoFailRetry(w: World, c: nat, me: Client, error: string): World
    requires me.RetryRaised?
  {
    var failed := me.extracting.(state := SessionFailed, error := Some(error));
    Become(w, c, Idle).(store := CompareAndPut(w.store, failed.reviewId, Extracting, failed, None).0)
  }

  predicate Early(state: ReviewState) { state.Uploading? || state.Extracting? || state.AwaitingConfirmation? }

  /** The staged analysis mints ids no other project has used. */
  ghost predicate MintsFresh(w: World, me: Client, seed: nat, analysis: Analysis) {
    && me.Claimed? && me.claim.confirmed.Some?
    && var r := analysis(me.baseline.aggregate, me.claim.confirmed.value, me.claim.generation, me.force, seed);
       r.Some? ==> WellFormedAggregate(w.store, r.value)
  }

  /** Steps carry what their caller supplies; ids minted elsewhere are new, and the rest follows program order. */
  ghost predicate Enabled(w: World, step: Step, analysis: Analysis) {
    match step
    case StartSession(s) => s.reviewId !in w.store.sessions && s.generation == 0 && Early(s.state)
    case StartAdvance(s) => s.reviewId in w.starting && s.generation == 0 && Early(s.state)
    case StartFail(rid, _) => rid in w.starting
    case StartReturn(rid) => rid in w.starting
    case Open(c, rid, _, _, _) => ClientOf(w, c).Idle? && rid !in w.starting
    case StageCopy(c) => ClientOf(w, c).Reading?
    case Claim(c) => ClientOf(w, c).Staged?
    case Finish(c, seed, _) => MintsFresh(w, ClientOf(w, c), seed, analysis)
    case Restore(c) => ClientOf(w, c).Refused?
    case Throw(c) => ClientOf(w, c).Claimed? || ClientOf(w, c).Refused?
    case Fail(c, _) => ClientOf(w, c).Raised?
    case Crash(c) => true
    case OpenRetry(c, rid, _) => ClientOf(w, c).Idle? && rid !in w.starting
    case ClaimRetry(c) => ClientOf(w, c).RetryReading?
    case FinishRetry(c, _, _) => ClientOf(w, c).Retrying?
    case ThrowRetry(c) => ClientOf(w, c).Retrying?
    case FailRetry(c, _) => ClientOf(w, c).RetryRaised?
    case CreateProject(a, after) =>
      && AggregateOf(w.store, a.project.projectId) == None
      && IsWrite(w.store, after, a.project.projectId, a)
    case Write(pid, change, after) =>
      && AggregateOf(w.store, pid).Some?
      && IsWrite(w.store, after, pid, change(AggregateOf(w.store, pid).value))
  }

  /** The store moved by one write to one project's aggregate and by nothing else. */
  ghost predicate IsWrite(before: MemoryState, after: MemoryState, pid: string, a: Aggregate) {
    && after.sessions == before.sessions
    && AggregateOf(after, pid) == Some(a)
    && forall other | other != pid :: AggregateOf(after, other) == AggregateOf(before, other)
  }

  ghost function Apply(w: World, step: Step, analysis: Analysis): World
    requires Enabled(w, step, analysis)
  {
    match step
    case StartSession(s) => w.(store := PutSession(w.store, s), starting := w.starting + {s.reviewId})
    case StartAdvance(s) => w.(store := PutSession(w.store, s))
    case StartFail(rid, error) =>
      if rid in w.store.sessions then
        w.(store := PutSession(w.store, w.store.sessions[rid].(state := SessionFailed, error := Some(error))),
           starting := w.starting - {rid})
      else w
    case StartReturn(rid) => w.(starting := w.starting - {rid})
    case Open(c, rid, uid, force, details) => DoOpen(w, c, rid, uid, force, details)
    case StageCopy(c) => DoStage(w, c, ClientOf(w, c))
    case Claim(c) => DoClaim(w, c, ClientOf(w, c))
    case Finish(c, seed, semantic) => DoFinish(w, c, ClientOf(w, c), seed, semantic, analysis)
    case Restore(c) => DoRestore(w, c, ClientOf(w, c))
    case Throw(c) => Become(w, c, Raised(ClientOf(w, c).claim))
    case Fail(c, error) => DoFail(w, c, ClientOf(w, c), error)
    case Crash(c) => Become(w, c, Idle)
    case OpenRetry(c, rid, uid) => DoOpenRetry(w, c, rid, uid)
    case ClaimRetry(c) => DoClaimRetry(w, c, ClientOf(w, c))
    case FinishRetry(c, candidates, intake) => DoFinishRetry(w, c, ClientOf(w, c), candidates, intake)
    case ThrowRetry(c) => Become(w, c, RetryRaised(ClientOf(w, c).extracting))
    case FailRetry(c, error) => DoFailRetry(w, c, ClientOf(w, c), error)
    case CreateProject(a, after) => w.(store := after, log := w.log + [Created(a)])
    case Write(pid, change, after) => w.(store := after, log := w.log + [Wrote(pid, change)])
  }

  ghost predicate Runs(w: World, steps: seq<Step>, analysis: Analysis)
    decreases |steps|
  {
    steps == [] || (Enabled(w, steps[0], analysis) && Runs(Apply(w, steps[0], analysis), steps[1..], analysis))
  }

  ghost function Run(w: World, steps: seq<Step>, analysis: Analysis): World
    requires Runs(w, steps, analysis)
    decreases |steps|
  {
    if steps == [] then w else Run(Apply(w, steps[0], analysis), steps[1..], analysis)
  }

  // -------------------------------------------------------------- invariant

  /** The (session, generation) a client has claimed and not yet let go. */
  function Holds(me: Client): Option<(string, nat)> {
    match me
    case Claimed(s, _, _) => Some((s.reviewId, s.generation))
    case Refused(s, _) => Some((s.reviewId, s.generation))
    case Raised(s) => Some((s.reviewId, s.generation))
    case _ => None
  }

  /** The claim a client is working under: it has neither published, restored nor raised. */
  function Keeps(me: Client): Option<ReviewSession> {
    match me case Claimed(s, _, _) => Some(s) case Refused(s, _) => Some(s) case _ => None
  }

  ghost predicate Held(w: World, me: Client) {
    Keeps(me).Some? ==>
      var s := Keeps(me).value; s.reviewId in w.store.sessions && w.store.sessions[s.reviewId] == s
  }

  ghost predicate SessionOk(w: World, rid: string) {
    if rid !in w.store.sessions then Claims(w, rid) == 0
    else
      var s := w.store.sessions[rid];
      && s.reviewId == rid
      && Claims(w, rid) == s.generation
      && (Early(s.state) ==> s.generation == 0)
      && (s.state == Complete ==> rid in w.last && s.confirmed == Some(w.last[rid]))
      && (rid in w.starting ==> Early(s.state))
      && (s.state == Analyzing ==> (rid, s.generation) !in w.published)
  }

  /** What a client remembers of a session still describes it, or is visibly out of date. */
  ghost predicate Remembers(w: World, s: ReviewSession) {
    && s.reviewId in w.store.sessions && s.reviewId !in w.starting
    && s.generation <= w.store.sessions[s.reviewId].generation
    && (s.state == Complete && s.generation == w.store.sessions[s.reviewId].generation ==>
          w.store.sessions[s.reviewId] == s)
    && (Early(s.state) ==> s.generation == 0)
  }

  ghost predicate BaselineOk(b: Baseline, s: ReviewSession) {
    && b.session == s
    && b.aggregate.project.projectId == s.projectId
    && (forall t | t in b.aggregate.tasks :: t.projectId == s.projectId)
  }

  ghost predicate ClaimOk(w: World, s: ReviewSession) {
    && s.reviewId in w.store.sessions && s.reviewId !in w.starting
    && s.state == Analyzing && s.confirmed.Some?
    && 1 <= s.generation <= w.store.sessions[s.reviewId].generation
    && (w.store.sessions[s.reviewId].state == Analyzing && w.store.sessions[s.reviewId].generation == s.generation ==>
          w.store.sessions[s.reviewId] == s)
  }

  ghost predicate ForceOk(w: World, s: ReviewSession, b: Baseline) {
    && b.session.state == Complete && s.reviewId in w.store.sessions
    && (w.store.sessions[s.reviewId].state == Analyzing && w.store.sessions[s.reviewId].generation == s.generation ==>
          s.reviewId in w.last && b.session.confirmed == Some(w.last[s.reviewId]))
  }

  ghost predicate ClaimedFrom(s: ReviewSession, b: Baseline) {
    && BaselineOk(b, b.session)
    && s.reviewId == b.session.reviewId && s.projectId == b.session.projectId
    && s.generation == b.session.generation + 1
  }

  ghost predicate ClientOk(w: World, c: nat) {
    Held(w, ClientOf(w, c)) &&
    match ClientOf(w, c)
    case Idle => true
    case Reading(s, force, _) => Remembers(w, s) && s.state == (if force then Complete else AwaitingConfirmation)
    case Staged(s, b, force, _) =>
      Remembers(w, s) && s.state == (if force then Complete else AwaitingConfirmation) && BaselineOk(b, s)
    case Claimed(s, b, force) => ClaimOk(w, s) && ClaimedFrom(s, b) && (force ==> ForceOk(w, s, b))
    case Refused(s, b) => ClaimOk(w, s) && ClaimedFrom(s, b) && ForceOk(w, s, b)
    case Raised(s) => ClaimOk(w, s)
    case RetryReading(s) => Remembers(w, s) && s.generation == 0
    case Retrying(s) => s.reviewId in w.store.sessions && s.reviewId !in w.starting && s.generation == 0
    case RetryRaised(s) => s.reviewId in w.store.sessions && s.reviewId !in w.starting && s.generation == 0
  }

  ghost predicate Exclusive(w: World, c: nat, d: nat) {
    c != d && Holds(ClientOf(w, c)).Some? ==> Holds(ClientOf(w, c)) != Holds(ClientOf(w, d))
  }

  /** Replaying the log, each analysis atomically on the aggregate it finds. */
  ghost function Replay(log: seq<Event>, analysis: Analysis, pid: string): Option<Aggregate> {
    if log == [] then None
    else
      var before := Replay(log[..|log| - 1], analysis, pid);
      match log[|log| - 1]
      case Created(a) => if a.project.projectId == pid then Some(a) else before
      case Wrote(p, change) => if p == pid && before.Some? then Some(change(before.value)) else before
      case Analysed(p, details, generation, force, seed) =>
        if p == pid && before.Some? then analysis(before.value, details, generation, force, seed) else before
  }

  ghost predicate Serial(w: World, analysis: Analysis, pid: string) {
    AggregateOf(w.store, pid) == Replay(w.log, analysis, pid)
  }

  ghost predicate Inv(w: World, analysis: Analysis) {
    && (forall rid :: SessionOk(w, rid))
    && (forall c :: ClientOk(w, c))
    && (forall c, d :: Exclusive(w, c, d))
    && (forall pid :: Serial(w, analysis, pid))
    && (forall p | p in w.published :: p.0 in w.store.sessions && p.1 <= w.store.sessions[p.0].generation)
    && w.starting <= w.store.sessions.Keys
  }

  ghost predicate Init(w: World) {
    && w.store == MemoryState([], map[], [], map[], map[])
    && w.clients == map[] && w.starting == {} && w.claims == map[]
    && w.published == {} && w.last == map[] && w.log == []
  }

  // ------------------------------------------------------- every step keeps it

  /** A session never goes back in generation, leaves Complete or enters Analyzing only by a new claim. */
  ghost predicate Evolves(s: ReviewSession, t: ReviewSession) {
    || s == t
    || ( && s.reviewId == t.reviewId && s.generation <= t.generation
         && (s.state == Complete || t.state == Analyzing ==> s.generation < t.generation))
  }

  ghost predicate Moved(w: World, v: World) {
    && (forall rid | rid in w.store.sessions ::
          rid in v.store.sessions && Evolves(w.store.sessions[rid], v.store.sessions[rid]))
    && (forall rid | rid in v.starting :: rid in w.starting || rid !in w.store.sessions)
    && (forall rid | rid in w.last && rid in v.store.sessions && v.store.sessions[rid].state == Analyzing ::
          rid in v.last && v.last[rid] == w.last[rid])
  }

  lemma OtherClient(w: World, v: World, d: nat)
    requires ClientOk(w, d) && Moved(w, v) && ClientOf(v, d) == ClientOf(w, d)
    requires Held(v, ClientOf(w, d))
    ensures ClientOk(v, d)
  {
  }

  lemma Assemble(w: World, v: World, c: nat, analysis: Analysis)
    requires Inv(w, analysis) && Moved(w, v)
    requires forall d | d != c :: ClientOf(v, d) == ClientOf(w, d) && Held(v, ClientOf(w, d))
    requires ClientOk(v, c)
    requires Holds(ClientOf(v, c)).Some? ==> forall d | d != c :: Holds(ClientOf(w, d)) != Holds(ClientOf(v, c))
    requires forall rid :: SessionOk(v, rid)
    requires forall pid :: Serial(v, analysis, pid)
    requires forall p | p in v.published :: p.0 in v.store.sessions && p.1 <= v.store.sessions[p.0].generation
    requires v.starting <= v.store.sessions.Keys
    ensures Inv(v, analysis)
  {
    forall d ensures ClientOk(v, d) {
      assert ClientOk(w, d);
      if d != c { OtherClient(w, v, d); }
    }
    forall d, e ensures Exclusive(v, d, e) {
      assert Exclusive(w, d, e) && Exclusive(w, e, d);
    }
  }

  /** Steps that move one client and touch nothing else. */
  lemma OnlyClient(w: World, c: nat, next: Client, analysis: Analysis)
    requires Inv(w, analysis)
    requires ClientOk(Become(w, c, next), c)
    requires Holds(next).Some? ==> Holds(next) == Holds(ClientOf(w, c))
    ensures Inv(Become(w, c, next), analysis)
  {
    var v := Become(w, c, next);
    forall rid ensures SessionOk(v, rid) { assert SessionOk(w, rid); }
    forall pid ensures Serial(v, analysis, pid) { assert Serial(w, analysis, pid); }
    forall d | d != c ensures Holds(next).Some? ==> Holds(ClientOf(w, d)) != Holds(next) {
      assert Exclusive(w, c, d);
    }
    forall d | d != c ensures Held(v, ClientOf(w, d)) { assert ClientOk(w, d); }
    Assemble(w, v, c, analysis);
  }

  /** Steps that put one session and move one client. */
  lemma OneSession(w: World, v: World, c: nat, rid: string, analysis: Analysis)
    requires Inv(w, analysis)
    requires rid in v.store.sessions && v.store == w.store.(sessions := w.store.sessions[rid := v.store.sessions[rid]])
    requires v.log == w.log && v.published == w.published && v.last == w.last
    requires forall d | d != c :: ClientOf(v, d) == ClientOf(w, d)
    requires forall d | d != c && Keeps(ClientOf(w, d)).Some? :: Keeps(ClientOf(w, d)).value.reviewId != rid
    requires forall r | r != rid :: Claims(v, r) == Claims(w, r)
    requires rid in w.store.sessions ==> Evolves(w.store.sessions[rid], v.store.sessions[rid])
    requires v.starting <= v.store.sessions.Keys
    requires forall r | r in v.starting :: r in w.starting || r !in w.store.sessions
    requires forall r | r != rid && r in v.starting :: r in w.starting
    requires SessionOk(v, rid) && ClientOk(v, c)
    requires Holds(ClientOf(v, c)).Some? ==> forall d | d != c :: Holds(ClientOf(w, d)) != Holds(ClientOf(v, c))
    ensures Inv(v, analysis)
  {
    forall r ensures SessionOk(v, r) { assert SessionOk(w, r); }
    forall pid ensures Serial(v, analysis, pid) { assert Serial(w, analysis, pid); }
    forall d | d != c ensures Held(v, ClientOf(w, d)) { assert ClientOk(w, d); }
    Assemble(w, v, c, analysis);
  }

  function StartedId(step: Step): string {
    match step case StartSession(s) => s.reviewId case StartAdvance(s) => s.reviewId case StartFail(rid, _) => rid case _ => ""
  }

  lemma StartMoves(w: World, step: Step, analysis: Analysis)
    requires Inv(w, analysis) && Enabled(w, step, analysis)
    requires step.StartSession? || step.StartAdvance? || step.StartFail?
    ensures Moved(w, Apply(w, step, analysis)) && SessionOk(Apply(w, step, analysis), StartedId(step))
    ensures StartedId(step) in Apply(w, step, analysis).store.sessions
  {
    assert SessionOk(w, StartedId(step));
  }

  lemma StartSteps(w: World, step: Step, analysis: Analysis)
    requires Inv(w, analysis) && Enabled(w, step, analysis)
    requires step.StartSession? || step.StartAdvance? || step.StartFail?
    ensures Inv(Apply(w, step, analysis), analysis)
  {
    var v, rid := Apply(w, step, analysis), StartedId(step);
    StartMoves(w, step, analysis);
    assert SessionOk(w, rid) && ClientOk(w, 0);
    forall d ensures Keeps(ClientOf(w, d)).Some? ==> Keeps(ClientOf(w, d)).value.reviewId != rid { assert ClientOk(w, d); }
    OtherClient(w, v, 0);
    forall d | d != 0 ensures Holds(ClientOf(v, 0)).Some? ==> Holds(ClientOf(w, d)) != Holds(ClientOf(v, 0)) {
      assert Exclusive(w, 0, d);
    }
    OneSession(w, v, 0, rid, analysis);
  }

  lemma ReturnStep(w: World, rid: string, analysis: Analysis)
    requires Inv(w, analysis)
    ensures Inv(w.(starting := w.starting - {rid}), analysis)
  {
    var v := w.(starting := w.starting - {rid});
    forall r ensures SessionOk(v, r) { assert SessionOk(w, r); }
    forall pid ensures Serial(v, analysis, pid) { assert Serial(w, analysis, pid); }
    forall d ensures ClientOk(v, d) { assert ClientOk(w, d); OtherClient(w, v, d); }
    forall d, e ensures Exclusive(v, d, e) { assert Exclusive(w, d, e); }
  }

  lemma OpenStep(w: World, step: Step, analysis: Analysis)
    requires Inv(w, analysis) && Enabled(w, step, analysis) && step.Open?
    ensures Inv(Apply(w, step, analysis), analysis)
  {
    assert SessionOk(w, step.rid);
    OnlyClient(w, step.c, ClientOf(Apply(w, step, analysis), step.c), analysis);
  }

  lemma OpenRetryStep(w: World, step: Step, analysis: Analysis)
    requires Inv(w, analysis) && Enabled(w, step, analysis) && step.OpenRetry?
    ensures Inv(Apply(w, step, analysis), analysis)
  {
    assert SessionOk(w, step.rid);
    OnlyClient(w, step.c, ClientOf(Apply(w, step, analysis), step.c), analysis);
  }

  lemma StageStep(w: World, c: nat, analysis: Analysis)
    requires Inv(w, analysis) && ClientOf(w, c).Reading?
    ensures Inv(DoStage(w, c, ClientOf(w, c)), analysis)
  {
    var me := ClientOf(w, c);
    var next := ClientOf(DoStage(w, c, me), c);
    assert ClientOk(w, c);
    StagedBaseline(w.store, me.session.reviewId, me.session.projectId);
    assert next.Idle? || next == Staged(me.session, Stage(w.store, me.session.reviewId, me.session.projectId).value, me.force, me.details);
    OnlyClient(w, c, next, analysis);
  }

  lemma StagedBaseline(m: MemoryState, rid: string, pid: string)
    ensures var b := Stage(m, rid, pid);
            b.Some? ==> b.value.aggregate.project.projectId == pid
                        && forall t | t in b.value.aggregate.tasks :: t.projectId == pid
  {
    assert forall t | t in TasksOf(m.tasks, pid) :: Of(pid)(t);
  }

  lemma LeaveSteps(w: World, step: Step, analysis: Analysis)
    requires Inv(w, analysis) && Enabled(w, step, analysis)
    requires step.Crash? || step.Throw? || step.ThrowRetry?
    ensures Inv(Apply(w, step, analysis), analysis)
  {
    assert ClientOk(w, step.c);
    OnlyClient(w, step.c, ClientOf(Apply(w, step, analysis), step.c), analysis);
  }

  lemma ClaimStep(w: World, c: nat, analysis: Analysis)
    requires Inv(w, analysis) && ClientOf(w, c).Staged?
    ensures Inv(DoClaim(w, c, ClientOf(w, c)), analysis)
  {
    var me, v := ClientOf(w, c), DoClaim(w, c, ClientOf(w, c));
    var rid := me.session.reviewId;
    assert ClientOk(w, c) && SessionOk(w, rid);
    if ClientOf(v, c).Idle? { OnlyClient(w, c, Idle, analysis); assert v == Become(w, c, Idle); }
    else {
      assert (rid, me.session.generation + 1) !in w.published;
      forall d | d != c ensures Holds(ClientOf(w, d)) != Holds(ClientOf(v, c)) { assert ClientOk(w, d); }
      forall d | d != c && Keeps(ClientOf(w, d)).Some? ensures Keeps(ClientOf(w, d)).value.reviewId != rid { assert ClientOk(w, d); }
      OneSession(w, v, c, rid, analysis);
    }
  }

  /** A compare-and-put that may lose: either only the client moved, or one session evolved. */
  lemma SwapStep(w: World, v: World, c: nat, rid: string, expected: ReviewState, session: ReviewSession,
                 generation: Option<nat>, analysis: Analysis)
    requires Inv(w, analysis)
    requires v == Become(w, c, ClientOf(v, c)).(store := CompareAndPut(w.store, rid, expected, session, generation).0)
    requires ClientOk(v, c) && SessionOk(v, rid)
    requires Holds(ClientOf(v, c)).Some? ==> Holds(ClientOf(v, c)) == Holds(ClientOf(w, c))
    requires Matches(w.store, rid, expected, generation) ==> Evolves(w.store.sessions[rid], session)
    requires expected == Analyzing ==> generation.Some? && Holds(ClientOf(w, c)) == Some((rid, generation.value))
    ensures Inv(v, analysis)
  {
    if Matches(w.store, rid, expected, generation) {
      forall d | d != c && Keeps(ClientOf(w, d)).Some? ensures Keeps(ClientOf(w, d)).value.reviewId != rid {
        assert ClientOk(w, d) && Exclusive(w, c, d);
      }
      forall d | d != c ensures Holds(ClientOf(v, c)).Some? ==> Holds(ClientOf(w, d)) != Holds(ClientOf(v, c)) {
        assert Exclusive(w, c, d);
      }
      OneSession(w, v, c, rid, analysis);
    } else {
      assert ClientOk(Become(w, c, ClientOf(v, c)), c);
      OnlyClient(w, c, ClientOf(v, c), analysis);
    }
  }

  lemma RestoreStep(w: World, c: nat, analysis: Analysis)
    requires Inv(w, analysis) && ClientOf(w, c).Refused?
    ensures Inv(DoRestore(w, c, ClientOf(w, c)), analysis)
  {
    var me, v := ClientOf(w, c), DoRestore(w, c, ClientOf(w, c));
    var restored := me.baseline.session.(generation := me.claim.generation);
    assert ClientOk(w, c) && SessionOk(w, restored.reviewId);
    SwapStep(w, v, c, restored.reviewId, Analyzing, restored, Some(me.claim.generation), analysis);
  }

  lemma FailStep(w: World, c: nat, error: string, analysis: Analysis)
    requires Inv(w, analysis) && ClientOf(w, c).Raised?
    ensures Inv(DoFail(w, c, ClientOf(w, c), error), analysis)
  {
    var me, v := ClientOf(w, c), DoFail(w, c, ClientOf(w, c), error);
    var failed := me.claim.(state := SessionFailed, error := Some(error));
    assert ClientOk(w, c) && SessionOk(w, failed.reviewId);
    SwapStep(w, v, c, failed.reviewId, Analyzing, failed, Some(me.claim.generation), analysis);
  }

  lemma ClaimRetryStep(w: World, c: nat, analysis: Analysis)
    requires Inv(w, analysis) && Enabled(w, ClaimRetry(c), analysis)
    ensures Inv(Apply(w, ClaimRetry(c), analysis), analysis)
  {
    var s := ClientOf(w, c).session;
    assert ClientOk(w, c) && SessionOk(w, s.reviewId);
    SwapStep(w, Apply(w, ClaimRetry(c), analysis), c, s.reviewId, AwaitingConfirmation,
             s.(state := Extracting, intake := IntakeRunning), None, analysis);
  }

  lemma FinishRetryStep(w: World, step: Step, analysis: Analysis)
    requires Inv(w, analysis) && Enabled(w, step, analysis) && step.FinishRetry?
    ensures Inv(Apply(w, step, analysis), analysis)
  {
    var s := ClientOf(w, step.c).extracting;
    assert ClientOk(w, step.c) && SessionOk(w, s.reviewId);
    SwapStep(w, Apply(w, step, analysis), step.c, s.reviewId, Extracting,
             s.(state := AwaitingConfirmation, candidates := Some(step.candidates), intake := step.intake), None, analysis);
  }

  lemma FailRetryStep(w: World, step: Step, analysis: Analysis)
    requires Inv(w, analysis) && Enabled(w, step, analysis) && step.FailRetry?
    ensures Inv(Apply(w, step, analysis), analysis)
  {
    var s := ClientOf(w, step.c).extracting;
    assert ClientOk(w, step.c) && SessionOk(w, s.reviewId);
    SwapStep(w, Apply(w, step, analysis), step.c, s.reviewId, Extracting,
             s.(state := SessionFailed, error := Some(step.error)), None, analysis);
  }

  /** The claim's project holds the result, nobody else's moved, and only its session did. */
  ghost predicate Replaced(w: World, v: World, claim: ReviewSession, semantic: Option<SemanticStatus>,
                           result: Option<Aggregate>, pid: string)
  {
    && AggregateOf(v.store, claim.projectId) == result
    && (pid != claim.projectId ==> AggregateOf(v.store, pid) == AggregateOf(w.store, pid))
    && v.store.sessions == w.store.sessions[claim.reviewId := Completed(claim, semantic)]
    && claim.reviewId in w.store.sessions && w.store.sessions[claim.reviewId] == claim
  }

  /**
   The publish itself: what lands is the analysis of the aggregate that was live
   at that moment, and no other project's data moves.
   */
  lemma PublishIsAtomicAnalysis(w: World, c: nat, seed: nat, semantic: Option<SemanticStatus>, analysis: Analysis, pid: string)
    requires Inv(w, analysis) && MintsFresh(w, ClientOf(w, c), seed, analysis)
    requires ClientOf(DoFinish(w, c, ClientOf(w, c), seed, semantic, analysis), c).Idle?
    ensures var me := ClientOf(w, c);
            && AggregateOf(w.store, me.claim.projectId).Some?
            && Replaced(w, DoFinish(w, c, me, seed, semantic, analysis), me.claim, semantic,
                        analysis(AggregateOf(w.store, me.claim.projectId).value, me.claim.confirmed.value,
                                 me.claim.generation, me.force, seed), pid)
  {
    var me := ClientOf(w, c);
    assert ClientOk(w, c) && SessionOk(w, me.claim.reviewId);
    var result := analysis(me.baseline.aggregate, me.claim.confirmed.value, me.claim.generation, me.force, seed).value;
    PublishEffect(w.store, Publication(me.baseline, Completed(me.claim, semantic), result), pid);
  }

  lemma FinishStep(w: World, c: nat, seed: nat, semantic: Option<SemanticStatus>, analysis: Analysis)
    requires Inv(w, analysis) && MintsFresh(w, ClientOf(w, c), seed, analysis)
    ensures Inv(DoFinish(w, c, ClientOf(w, c), seed, semantic, analysis), analysis)
  {
    var me, v := ClientOf(w, c), DoFinish(w, c, ClientOf(w, c), seed, semantic, analysis);
    assert ClientOk(w, c) && SessionOk(w, me.claim.reviewId);
    if ClientOf(v, c).Idle? {
      Published(w, v, c, seed, semantic, analysis);
    } else {
      assert v == Become(w, c, ClientOf(v, c)) && ClientOk(v, c);
      OnlyClient(w, c, ClientOf(v, c), analysis);
    }
  }

  lemma Published(w: World, v: World, c: nat, seed: nat, semantic: Option<SemanticStatus>, analysis: Analysis)
    requires Inv(w, analysis) && MintsFresh(w, ClientOf(w, c), seed, analysis)
    requires v == DoFinish(w, c, ClientOf(w, c), seed, semantic, analysis) && ClientOf(v, c).Idle?
    ensures Inv(v, analysis)
  {
    var me := ClientOf(w, c);
    var e := Analysed(me.claim.projectId, me.claim.confirmed.value, me.claim.generation, me.force, seed);
    assert v == World(v.store, w.clients[c := Idle], w.starting, w.synchronous, w.claims,
                      w.published + {(me.claim.reviewId, me.claim.generation)},
                      w.last[me.claim.reviewId := me.claim.confirmed.value], w.log + [e]);
    forall pid ensures AfterAnalysis(w, v, e, analysis, pid) {
      PublishIsAtomicAnalysis(w, c, seed, semantic, analysis, pid);
    }
    PublishIsAtomicAnalysis(w, c, seed, semantic, analysis, "");
    assert ClientOk(w, c);
    AfterPublish(w, v, c, me.claim, e, semantic, analysis);
  }

  ghost predicate AfterAnalysis(w: World, v: World, e: Event, analysis: Analysis, pid: string) {
    && e.Analysed? && AggregateOf(w.store, e.pid).Some?
    && AggregateOf(v.store, e.pid) ==
         analysis(AggregateOf(w.store, e.pid).value, e.details, e.generation, e.force, e.seed)
    && (pid != e.pid ==> AggregateOf(v.store, pid) == AggregateOf(w.store, pid))
  }

  lemma AfterPublish(w: World, v: World, c: nat, s: ReviewSession, e: Event, semantic: Option<SemanticStatus>, analysis: Analysis)
    requires Inv(w, analysis)
    requires ClientOf(w, c).Claimed? && ClientOf(w, c).claim == s && s.reviewId in w.store.sessions
    requires w.store.sessions[s.reviewId] == s && s.state == Analyzing && s.confirmed.Some?
    requires v == World(v.store, w.clients[c := Idle], w.starting, w.synchronous, w.claims,
                        w.published + {(s.reviewId, s.generation)},
                        w.last[s.reviewId := s.confirmed.value], w.log + [e])
    requires v.store.sessions == w.store.sessions[s.reviewId := Completed(s, semantic)]
    requires forall pid :: AfterAnalysis(w, v, e, analysis, pid)
    ensures Inv(v, analysis)
  {
    forall pid ensures Serial(v, analysis, pid) {
      assert Serial(w, analysis, pid) && AfterAnalysis(w, v, e, analysis, pid);
      assert v.log[..|v.log| - 1] == w.log;
    }
    PublishedSessions(w, v, s, semantic, analysis);
    forall d | d != c ensures Held(v, ClientOf(w, d)) {
      assert ClientOk(w, d) && ClientOk(w, c) && Exclusive(w, c, d);
    }
    Assemble(w, v, c, analysis);
  }

  lemma PublishedSessions(w: World, v: World, s: ReviewSession, semantic: Option<SemanticStatus>, analysis: Analysis)
    requires Inv(w, analysis)
    requires s.reviewId in w.store.sessions && w.store.sessions[s.reviewId] == s && s.state == Analyzing && s.confirmed.Some?
    requires v.store.sessions == w.store.sessions[s.reviewId := Completed(s, semantic)]
    requires v.claims == w.claims && v.starting == w.starting && v.last == w.last[s.reviewId := s.confirmed.value]
    requires v.published == w.published + {(s.reviewId, s.generation)}
    ensures forall r :: SessionOk(v, r)
    ensures Moved(w, v)
    ensures forall p | p in v.published :: p.0 in v.store.sessions && p.1 <= v.store.sessions[p.0].generation
  {
    assert SessionOk(w, s.reviewId);
    forall r ensures SessionOk(v, r) { assert SessionOk(w, r); }
  }

  lemma WriteSteps(w: World, step: Step, analysis: Analysis)
    requires Inv(w, analysis) && Enabled(w, step, analysis)
    requires step.CreateProject? || step.Write?
    ensures Inv(Apply(w, step, analysis), analysis)
  {
    var v := Apply(w, step, analysis);
    forall r ensures SessionOk(v, r) { assert SessionOk(w, r); }
    forall pid ensures Serial(v, analysis, pid) { WrittenSerial(w, step, analysis, pid); }
    forall d ensures ClientOk(v, d) { assert ClientOk(w, d); OtherClient(w, v, d); }
    forall d, e ensures Exclusive(v, d, e) { assert Exclusive(w, d, e); }
  }

  lemma WrittenSerial(w: World, step: Step, analysis: Analysis, pid: string)
    requires Serial(w, analysis, pid) && Enabled(w, step, analysis) && (step.CreateProject? || step.Write?)
    ensures Serial(Apply(w, step, analysis), analysis, pid)
  {
    var v := Apply(w, step, analysis);
    assert v.log[..|v.log| - 1] == w.log;
  }

  lemma StepKeepsInv(w: World, step: Step, analysis: Analysis)
    requires Inv(w, analysis) && Enabled(w, step, analysis)
    ensures Inv(Apply(w, step, analysis), analysis)
  {
    match step
    case StartSession(_) => StartSteps(w, step, analysis);
    case StartAdvance(_) => StartSteps(w, step, analysis);
    case StartFail(_, _) => StartSteps(w, step, analysis);
    case StartReturn(rid) => ReturnStep(w, rid, analysis);
    case Claim(c) => ClaimStep(w, c, analysis);
    case Finish(c, seed, semantic) => FinishStep(w, c, seed, semantic, analysis);
    case Restore(c) => RestoreStep(w, c, analysis);
    case Fail(c, error) => FailStep(w, c, error, analysis);
    case ClaimRetry(c) => ClaimRetryStep(w, c, analysis);
    case FinishRetry(_, _, _) => FinishRetryStep(w, step, analysis);
    case FailRetry(_, _) => FailRetryStep(w, step, analysis);
    case CreateProject(_, _) => WriteSteps(w, step, analysis);
    case Write(_, _, _) => WriteSteps(w, step, analysis);
    case Open(_, _, _, _, _) => OpenStep(w, step, analysis);
    case OpenRetry(_, _, _) => OpenRetryStep(w, step, analysis);
    case StageCopy(c) => StageStep(w, c, analysis);
    case _ => LeaveSteps(w, step, analysis);
  }

  lemma InitInv(w: World, analysis: Analysis)
    requires Init(w)
    ensures Inv(w, analysis)
  {
    forall pid ensures Serial(w, analysis, pid) {}
    forall c ensures ClientOk(w, c) {}
    forall c, d ensures Exclusive(w, c, d) {}
  }

  // ---------------------------------------------------------------- theorems

  lemma {:induction false} RunKeepsInv(w: World, steps: seq<Step>, analysis: Analysis)
    requires Inv(w, analysis) && Runs(w, steps, analysis)
    ensures Inv(Run(w, steps, analysis), analysis)
    decreases |steps|
  {
    if steps != [] {
      StepKeepsInv(w, steps[0], analysis);
      RunKeepsInv(Apply(w, steps[0], analysis), steps[1..], analysis);
    }
  }

  /**
   Serializability. However reviews, retries and ordinary writes interleave, every
   project's aggregate is what replaying the committed events one by one gives,
   with each published analysis run atomically on the aggregate it meets.
   */
  lemma Serializable(w: World, steps: seq<Step>, analysis: Analysis, pid: string)
    requires Init(w) && Runs(w, steps, analysis)
    ensures var v := Run(w, steps, analysis); AggregateOf(v.store, pid) == Replay(v.log, analysis, pid)
  {
    InitInv(w, analysis);
    RunKeepsInv(w, steps, analysis);
    assert Serial(Run(w, steps, analysis), analysis, pid);
  }

  /** In every reachable world: generations count claims, early states have none, COMPLETE shows its last publication. */
  lemma ReachableSessions(w: World, steps: seq<Step>, analysis: Analysis, rid: string)
    requires Init(w) && Runs(w, steps, analysis)
    requires rid in Run(w, steps, analysis).store.sessions
    ensures var v := Run(w, steps, analysis);
            var s := v.store.sessions[rid];
            && s.generation == Claims(v, rid)
            && (s.state.Uploading? || s.state.Extracting? || s.state.AwaitingConfirmation? ==> s.generation == 0)
            && (s.state == Complete ==> rid in v.last && s.confirmed == Some(v.last[rid]))
            && (s.state == Analyzing ==> (rid, s.generation) !in v.published)
  {
    InitInv(w, analysis);
    RunKeepsInv(w, steps, analysis);
    assert SessionOk(Run(w, steps, analysis), rid);
  }

  function StepClient(step: Step): Option<nat> {
    match step
    case Open(c, _, _, _, _) => Some(c) case StageCopy(c) => Some(c) case Claim(c) => Some(c)
    case Finish(c, _, _) => Some(c) case Restore(c) => Some(c) case Throw(c) => Some(c)
    case Fail(c, _) => Some(c) case Crash(c) => Some(c) case OpenRetry(c, _, _) => Some(c)
    case ClaimRetry(c) => Some(c) case FinishRetry(c, _, _) => Some(c) case ThrowRetry(c) => Some(c)
    case FailRetry(c, _) => Some(c)
    case _ => None
  }

  /** While a session is ANALYZING at generation g, only the client holding (session, g) can change it. */
  lemma OnlyTheClaimantMoves(w: World, step: Step, analysis: Analysis, rid: string)
    requires Inv(w, analysis) && Enabled(w, step, analysis)
    requires rid in w.store.sessions && w.store.sessions[rid].state == Analyzing
    requires var v := Apply(w, step, analysis);
             rid !in v.store.sessions || v.store.sessions[rid] != w.store.sessions[rid]
    ensures StepClient(step).Some?
    ensures Holds(ClientOf(w, StepClient(step).value)) == Some((rid, w.store.sessions[rid].generation))
    ensures forall d | d != StepClient(step).value ::
              Holds(ClientOf(w, d)) != Some((rid, w.store.sessions[rid].generation))
  {
    MovedByHolder(w, step, analysis, rid);
    var c := StepClient(step).value;
    forall d | d != c ensures Holds(ClientOf(w, d)) != Holds(ClientOf(w, c)) {
      assert Exclusive(w, c, d);
    }
  }

  lemma MovedByHolder(w: World, step: Step, analysis: Analysis, rid: string)
    requires Inv(w, analysis) && Enabled(w, step, analysis)
    requires rid in w.store.sessions && w.store.sessions[rid].state == Analyzing
    requires var v := Apply(w, step, analysis);
             rid !in v.store.sessions || v.store.sessions[rid] != w.store.sessions[rid]
    ensures StepClient(step).Some?
    ensures Holds(ClientOf(w, StepClient(step).value)) == Some((rid, w.store.sessions[rid].generation))
  {
    if step.Finish? {
      FinishMovedByHolder(w, step, analysis, rid);
    } else {
      OtherMovedByHolder(w, step, analysis, rid);
    }
  }

  lemma FinishMovedByHolder(w: World, step: Step, analysis: Analysis, rid: string)
    requires Inv(w, analysis) && Enabled(w, step, analysis)
    requires rid in w.store.sessions && w.store.sessions[rid].state == Analyzing
    requires var v := Apply(w, step, analysis);
             rid !in v.store.sessions || v.store.sessions[rid] != w.store.sessions[rid]
    requires step.Finish?
    ensures StepClient(step).Some?
    ensures Holds(ClientOf(w, StepClient(step).value)) == Some((rid, w.store.sessions[rid].generation))
  {
    assert SessionOk(w, rid) && ClientOk(w, step.c);
    FinishSessions(w, step.c, step.seed, step.semantic, analysis);
  }

  lemma OtherMovedByHolder(w: World, step: Step, analysis: Analysis, rid: string)
    requires Inv(w, analysis) && Enabled(w, step, analysis)
    requires rid in w.store.sessions && w.store.sessions[rid].state == Analyzing
    requires var v := Apply(w, step, analysis);
             rid !in v.store.sessions || v.store.sessions[rid] != w.store.sessions[rid]
    requires !step.Finish?
    ensures StepClient(step).Some?
    ensures Holds(ClientOf(w, StepClient(step).value)) == Some((rid, w.store.sessions[rid].generation))
  {
    if StepClient(step).None? {
      NobodyMoves(w, step, analysis, rid);
    } else if step.Restore? || step.Fail? {
      assert SessionOk(w, rid) && ClientOk(w, step.c);
    } else {
      BystandersMoveNothing(w, step, analysis, rid);
    }
  }

  /** Reading, claiming and retrying leave a session alone that is ANALYZING already. */
  lemma BystandersMoveNothing(w: World, step: Step, analysis: Analysis, rid: string)
    requires Inv(w, analysis) && Enabled(w, step, analysis) && StepClient(step).Some?
    requires !step.Finish? && !step.Restore? && !step.Fail?
    requires rid in w.store.sessions && w.store.sessions[rid].state == Analyzing
    ensures var v := Apply(w, step, analysis);
            rid in v.store.sessions && v.store.sessions[rid] == w.store.sessions[rid]
  {
    assert SessionOk(w, rid) && ClientOk(w, StepClient(step).value);
  }

  /** Steps of no client leave an ANALYZING session alone. */
  lemma NobodyMoves(w: World, step: Step, analysis: Analysis, rid: string)
    requires Inv(w, analysis) && Enabled(w, step, analysis) && StepClient(step).None?
    requires rid in w.store.sessions && w.store.sessions[rid].state == Analyzing
    ensures var v := Apply(w, step, analysis);
            rid in v.store.sessions && v.store.sessions[rid] == w.store.sessions[rid]
  {
    assert SessionOk(w, rid);
    if step.StartFail? { assert SessionOk(w, step.rid); }
  }

  /** What finishing makes of the client, with the publish's answer left closed. */
  lemma FinishClient(w: World, c: nat, me: Client, seed: nat, semantic: Option<SemanticStatus>, analysis: Analysis)
    requires me.Claimed? && me.claim.confirmed.Some?
    ensures var v := DoFinish(w, c, me, seed, semantic, analysis);
            && v.clients == w.clients[c := ClientOf(v, c)] && v.starting == w.starting
            && (ClientOf(v, c) == Idle || ClientOf(v, c) == Raised(me.claim) || ClientOf(v, c) == Refused(me.claim, me.baseline))
  {
    var v := DoFinish(w, c, me, seed, semantic, analysis);
    match analysis(me.baseline.aggregate, me.claim.confirmed.value, me.claim.generation, me.force, seed)
    case None =>
    case Some(result) =>
      var (store, done) := Publish(w.store, Publication(me.baseline, Completed(me.claim, semantic), result));
      if done == Some(true) { assert ClientOf(v, c) == Idle; }
  }

  lemma FinishSessions(w: World, c: nat, seed: nat, semantic: Option<SemanticStatus>, analysis: Analysis)
    requires Inv(w, analysis) && MintsFresh(w, ClientOf(w, c), seed, analysis)
    ensures var me, v := ClientOf(w, c), DoFinish(w, c, ClientOf(w, c), seed, semantic, analysis);
            v.store.sessions == w.store.sessions
            || v.store.sessions == w.store.sessions[me.claim.reviewId := Completed(me.claim, semantic)]
  {
  }

  /** A failed session is never written again. */
  lemma FailedStays(w: World, step: Step, analysis: Analysis, rid: string)
    requires Inv(w, analysis) && Enabled(w, step, analysis)
    requires rid in w.store.sessions && w.store.sessions[rid].state == SessionFailed
    ensures var v := Apply(w, step, analysis);
            rid in v.store.sessions && v.store.sessions[rid] == w.store.sessions[rid]
  {
    if step.Finish? {
      FailedFinish(w, step, analysis, rid);
    } else if step.ClaimRetry? || step.FinishRetry? || step.FailRetry? {
      FailedRetry(w, step, analysis, rid);
    } else if StepClient(step).Some? {
      FailedClient(w, step, analysis, rid);
    } else {
      assert SessionOk(w, rid);
      if step.StartFail? { assert SessionOk(w, step.rid); }
    }
  }

  lemma FailedFinish(w: World, step: Step, analysis: Analysis, rid: string)
    requires Inv(w, analysis) && Enabled(w, step, analysis)
    requires rid in w.store.sessions && w.store.sessions[rid].state == SessionFailed
    requires step.Finish?
    ensures var v := Apply(w, step, analysis);
            rid in v.store.sessions && v.store.sessions[rid] == w.store.sessions[rid]
  {
    assert SessionOk(w, rid) && ClientOk(w, step.c);
    FinishSessions(w, step.c, step.seed, step.semantic, analysis);
  }

  lemma FailedClient(w: World, step: Step, analysis: Analysis, rid: string)
    requires Inv(w, analysis) && Enabled(w, step, analysis)
    requires rid in w.store.sessions && w.store.sessions[rid].state == SessionFailed
    requires !step.Finish? && StepClient(step).Some? && !step.ClaimRetry? && !step.FinishRetry? && !step.FailRetry?
    ensures var v := Apply(w, step, analysis);
            rid in v.store.sessions && v.store.sessions[rid] == w.store.sessions[rid]
  {
    assert SessionOk(w, rid) && ClientOk(w, StepClient(step).value);
  }

  lemma FailedRetry(w: World, step: Step, analysis: Analysis, rid: string)
    requires Inv(w, analysis) && Enabled(w, step, analysis)
    requires rid in w.store.sessions && w.store.sessions[rid].state == SessionFailed
    requires step.ClaimRetry? || step.FinishRetry? || step.FailRetry?
    ensures var v := Apply(w, step, analysis);
            rid in v.store.sessions && v.store.sessions[rid] == w.store.sessions[rid]
  {
  }

  lemma {:induction false} FailedIsAbsorbing(w: World, steps: seq<Step>, analysis: Analysis, rid: string)
    requires Inv(w, analysis) && Runs(w, steps, analysis)
    requires rid in w.store.sessions && w.store.sessions[rid].state == SessionFailed
    ensures var v := Run(w, steps, analysis);
            rid in v.store.sessions && v.store.sessions[rid] == w.store.sessions[rid]
    decreases |steps|
  {
    if steps != [] {
      FailedStays(w, steps[0], analysis, rid);
      StepKeepsInv(w, steps[0], analysis);
      FailedIsAbsorbing(Apply(w, steps[0], analysis), steps[1..], analysis, rid);
    }
  }

  /**
   A finished analysis is published exactly when the project's live aggregate is
   still the one that was staged; the session's own check can never refuse it.
   */
  lemma RefusedExactlyOnChange(w: World, c: nat, seed: nat, semantic: Option<SemanticStatus>, analysis: Analysis)
    requires Inv(w, analysis) && MintsFresh(w, ClientOf(w, c), seed, analysis)
    requires var me := ClientOf(w, c);
             var r := analysis(me.baseline.aggregate, me.claim.confirmed.value, me.claim.generation, me.force, seed);
             && r.Some? && r.value.project.projectId == me.claim.projectId
             && forall t | t in r.value.tasks :: t.projectId == me.claim.projectId
    ensures var me, v := ClientOf(w, c), DoFinish(w, c, ClientOf(w, c), seed, semantic, analysis);
            && (ClientOf(v, c).Idle? <==> AggregateOf(w.store, me.claim.projectId) == Some(me.baseline.aggregate))
            && (ClientOf(v, c).Idle? ==> (me.claim.reviewId, me.claim.generation) !in w.published)
            && (!ClientOf(v, c).Idle? ==> v.store == w.store && v.log == w.log)
  {
    assert ClientOk(w, c) && SessionOk(w, ClientOf(w, c).claim.reviewId);
  }

  /**
   A call that does not publish, because its analysis raised or was refused, leaves
   every store as it was: the session is ANALYZING under its claim still, and its
   client is the only one that holds it.
   */
  lemma RaisingChangesNothing(w: World, c: nat, seed: nat, semantic: Option<SemanticStatus>, analysis: Analysis)
    requires Inv(w, analysis) && MintsFresh(w, ClientOf(w, c), seed, analysis)
    requires !ClientOf(DoFinish(w, c, ClientOf(w, c), seed, semantic, analysis), c).Idle?
    ensures var claim, v := ClientOf(w, c).claim, DoFinish(w, c, ClientOf(w, c), seed, semantic, analysis);
            && v.store == w.store && v.log == w.log && claim.reviewId in v.store.sessions
            && v.store.sessions[claim.reviewId] == claim && claim.state == Analyzing
            && Holds(ClientOf(v, c)) == Some((claim.reviewId, claim.generation))
            && forall d | d != c :: Holds(ClientOf(v, d)) != Some((claim.reviewId, claim.generation))
  {
    var claim, v := ClientOf(w, c).claim, DoFinish(w, c, ClientOf(w, c), seed, semantic, analysis);
    assert ClientOk(w, c);
    forall d | d != c ensures Holds(ClientOf(v, d)) != Some((claim.reviewId, claim.generation)) {
      assert Exclusive(w, c, d);
    }
  }

  /**
   A refused reanalysis gives the session back: COMPLETE, with the details of its
   last publication, under the bumped generation. The failure handler that then
   runs finds nothing to fail, whoever claims the session in between.
   */
  lemma RefusedReanalysisRestores(w: World, c: nat, analysis: Analysis)
    requires Inv(w, analysis) && ClientOf(w, c).Refused?
    ensures var me, v := ClientOf(w, c), DoRestore(w, c, ClientOf(w, c));
            var rid := me.claim.reviewId;
            && rid in w.store.sessions && rid in v.store.sessions
            && v.store == w.store.(sessions := w.store.sessions[rid := v.store.sessions[rid]])
            && v.store.sessions[rid].state == Complete
            && rid in w.last && v.store.sessions[rid].confirmed == Some(w.last[rid])
            && v.store.sessions[rid].generation == w.store.sessions[rid].generation
            && v.store.sessions[rid] == me.baseline.session.(generation := me.claim.generation)
  {
    assert ClientOk(w, c) && SessionOk(w, ClientOf(w, c).claim.reviewId);
  }

  /** A raised client past its generation, or past ANALYZING, changes no session. */
  lemma LateFailureIsHarmless(w: World, c: nat, error: string, analysis: Analysis)
    requires Inv(w, analysis) && ClientOf(w, c).Raised?
    requires var rid := ClientOf(w, c).claim.reviewId;
             rid in w.store.sessions && w.store.sessions[rid] != ClientOf(w, c).claim
    ensures DoFail(w, c, ClientOf(w, c), error).store.sessions == w.store.sessions
  {
    assert ClientOk(w, c);
  }

  // ------------------------------------------------- ordinary writes are writes

  lemma ListWrite(m: MemoryState, pid: string, l: Lists)
    requires AggregateOf(m, pid).Some?
    ensures var x := AggregateOf(m, pid).value;
            IsWrite(m, SetLists(m, pid, l), pid,
              Aggregate(x.project, l.facts, l.findings, l.forms, x.tasks, l.timeline, l.audit))
  {
    var v := SetLists(m, pid, l);
    forall other | other != pid ensures AggregateOf(v, other) == AggregateOf(m, other) {
      assert ListsOf(v, other) == ListsOf(m, other);
    }
  }

  /** Store operations the service uses outside a review are single-project writes. */
  lemma OrdinaryListWrites(m: MemoryState, pid: string, f: Fact, g: Finding, d: FormDraft, e: TimelineEvent, a: AuditEntry)
    requires AggregateOf(m, pid).Some?
    ensures var x := AggregateOf(m, pid).value;
            && IsWrite(m, AddFact(m, pid, f), pid, x.(facts := x.facts + [f]))
            && IsWrite(m, SaveFinding(m, pid, g), pid, x.(findings := PutById(x.findings, FindingId, g)))
            && IsWrite(m, PutForm(m, pid, d), pid, x.(forms := PutById(x.forms, DraftId, d)))
            && IsWrite(m, AddEvent(m, pid, e), pid, x.(timeline := x.timeline + [e]))
            && IsWrite(m, AddAudit(m, pid, a), pid, x.(audit := x.audit + [a]))
  {
    var l := ListsOf(m, pid);
    ListWrite(m, pid, l.(facts := l.facts + [f]));
    ListWrite(m, pid, l.(findings := PutById(l.findings, FindingId, g)));
    ListWrite(m, pid, l.(forms := PutById(l.forms, DraftId, d)));
    ListWrite(m, pid, l.(timeline := l.timeline + [e]));
    ListWrite(m, pid, l.(audit := l.audit + [a]));
  }

  lemma OrdinaryProjectWrite(m: MemoryState, p: Project)
    requires AggregateOf(m, p.projectId).Some?
    ensures IsWrite(m, SaveProject(m, p), p.projectId, AggregateOf(m, p.projectId).value.(project := p))
  {
    forall other ensures
      GetProject(SaveProject(m, p), other) == (if other == p.projectId then Some(p) else GetProject(m, other))
    {
      PutByIdKeepsIds(m.projects, ProjectId, p, other);
    }
  }

  /** Saving a task, as the claim and the finished job do, changes its own project's tasks only. */
  lemma OrdinaryTaskWrite(m: MemoryState, t: WorkflowTask)
    requires AggregateOf(m, t.projectId).Some?
    requires forall u | u in m.tasks && u.taskId == t.taskId :: u.projectId == t.projectId
    ensures var x := AggregateOf(m, t.projectId).value;
            IsWrite(m, SaveTask(m, t), t.projectId, x.(tasks := PutById(x.tasks, TaskId, t)))
  {
    var v := SaveTask(m, t);
    forall other ensures TasksOf(v.tasks, other) ==
                         if other == t.projectId then PutById(TasksOf(m.tasks, other), TaskId, t) else TasksOf(m.tasks, other)
    {
      PutThenFilter(m.tasks, t, other);
    }
    forall other | other != t.projectId ensures AggregateOf(v, other) == AggregateOf(m, other) {
      assert TasksOf(v.tasks, other) == TasksOf(m.tasks, other);
    }
  }

  lemma PutThenFilter(s: seq<WorkflowTask>, t: WorkflowTask, pid: string)
    requires forall u | u in s && u.taskId == t.taskId :: u.projectId == t.projectId
    ensures TasksOf(PutById(s, TaskId, t), pid) ==
            if pid == t.projectId then PutById(TasksOf(s, pid), TaskId, t) else TasksOf(s, pid)
  {
    var i := Find(s, TaskId, t.taskId);
    if i == |s| {
      FilterConcat(s, [t], Of(pid));
      assert [t][..0] == [];
      FilterFind(s, TaskId, Of(pid), t.taskId, pid == t.projectId);
    } else {
      UpdateThenFilter(s, i, t, pid);
    }
  }

  lemma UpdateThenFilter(s: seq<WorkflowTask>, i: nat, t: WorkflowTask, pid: string)
    requires i < |s| && i == Find(s, TaskId, t.taskId) && s[i].projectId == t.projectId
    ensures TasksOf(s[i := t], pid) ==
            if pid == t.projectId then PutById(TasksOf(s, pid), TaskId, t) else TasksOf(s, pid)
  {
    var left, right, keep := s[..i], s[i + 1..], Of(pid);
    assert s == left + [s[i]] + right && s[i := t] == left + [t] + right;
    FilterAround(left, s[i], right, keep);
    FilterAround(left, t, right, keep);
    if pid == t.projectId {
      assert forall u | u in Filter(left, keep) :: u in left;
      PutInMiddle(Filter(left, keep), s[i], Filter(right, keep), t);
    }
  }

  lemma PutInMiddle(a: seq<WorkflowTask>, x: WorkflowTask, b: seq<WorkflowTask>, t: WorkflowTask)
    requires x.taskId == t.taskId && forall u | u in a :: u.taskId != t.taskId
    ensures PutById(a + [x] + b, TaskId, t) == a + [t] + b
  {
    FindUnique(a + [x] + b, TaskId, t.taskId, |a|);
  }

  lemma FilterAround<T>(left: seq<T>, x: T, right: seq<T>, keep: T -> bool)
    ensures Filter(left + [x] + right, keep) ==
            Filter(left, keep) + (if keep(x) then [x] else []) + Filter(right, keep)
  {
    FilterConcat(left + [x], right, keep);
    FilterConcat(left, [x], keep);
    FilterOne(x, keep);
  }

  lemma FilterOne<T>(x: T, keep: T -> bool)
    ensures Filter([x], keep) == if keep(x) then [x] else []
  {
    assert [x][..0] == [];
  }
}
