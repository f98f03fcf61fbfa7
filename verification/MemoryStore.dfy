/**
 The in-memory store as a value: every operation on it, what a publication does to
 it, and when its idempotency-key index is right.
 */
module MemoryStore {
  import opened Entities
  import opened Keyed

  /** What one project's id selects from the five per-project collections. */
  datatype Lists = Lists(
    facts: seq<Fact>, findings: seq<Finding>, forms: seq<FormDraft>,
    timeline: seq<TimelineEvent>, audit: seq<AuditEntry>)

  /** `byKey` is the task store's index from idempotency key to task id. */
  datatype MemoryState = MemoryState(
    projects: seq<Project>,
    sessions: map<string, ReviewSession>,
    tasks: seq<WorkflowTask>,
    byKey: map<string, string>,
    lists: map<string, Lists>)

  datatype Baseline = Baseline(session: ReviewSession, aggregate: Aggregate)

  datatype Publication = Publication(baseline: Baseline, session: ReviewSession, aggregate: Aggregate)

  function ProjectId(p: Project): string { p.projectId }
  function FindingId(f: Finding): string { f.findingId }
  function FactId(f: Fact): string { f.factId }
  function DraftId(d: FormDraft): string { d.draftId }
  function EventId(e: TimelineEvent): string { e.eventId }
  function TaskId(t: WorkflowTask): string { t.taskId }
  function TaskKey(t: WorkflowTask): string { t.idempotencyKey }

  // ---------------------------------------------------------------- reads

  function ListsOf(m: MemoryState, pid: string): Lists {
    if pid in m.lists then m.lists[pid] else Lists([], [], [], [], [])
  }

  function GetProject(m: MemoryState, pid: string): Option<Project> {
    var i := Find(m.projects, ProjectId, pid);
    if i < |m.projects| then Some(m.projects[i]) else None
  }

  function GetTask(tasks: seq<WorkflowTask>, taskId: string): Option<WorkflowTask> {
    var i := Find(tasks, TaskId, taskId);
    if i < |tasks| then Some(tasks[i]) else None
  }

  /** First task in insertion order carrying the idempotency key. */
  function FirstByKey(tasks: seq<WorkflowTask>, key: string): Option<WorkflowTask> {
    var i := Find(tasks, TaskKey, key);
    if i < |tasks| then Some(tasks[i]) else None
  }

  /** What the store answers: the task the index names. */
  function FindByKey(m: MemoryState, key: string): Option<WorkflowTask> {
    if key in m.byKey then GetTask(m.tasks, m.byKey[key]) else None
  }

  function Of(pid: string): WorkflowTask -> bool { (t: WorkflowTask) => t.projectId == pid }

  function NotOf(pid: string): WorkflowTask -> bool { (t: WorkflowTask) => t.projectId != pid }

  function TasksOf(tasks: seq<WorkflowTask>, pid: string): seq<WorkflowTask> { Filter(tasks, Of(pid)) }

  function TasksOfOthers(tasks: seq<WorkflowTask>, pid: string): seq<WorkflowTask> {
    Filter(tasks, NotOf(pid))
  }

  function AggregateOf(m: MemoryState, pid: string): Option<Aggregate> {
    match GetProject(m, pid)
    case None => None
    case Some(p) =>
      var l := ListsOf(m, pid);
      Some(Aggregate(p, l.facts, l.findings, l.forms, TasksOf(m.tasks, pid), l.timeline, l.audit))
  }

  // --------------------------------------------------------------- writes

  function SaveProject(m: MemoryState, p: Project): MemoryState {
    m.(projects := PutById(m.projects, ProjectId, p))
  }

  function PutSession(m: MemoryState, s: ReviewSession): MemoryState {
    m.(sessions := m.sessions[s.reviewId := s])
  }

  function SetLists(m: MemoryState, pid: string, l: Lists): MemoryState {
    m.(lists := m.lists[pid := l])
  }

  function AddFact(m: MemoryState, pid: string, f: Fact): MemoryState {
    var l := ListsOf(m, pid); SetLists(m, pid, l.(facts := l.facts + [f]))
  }

  function SaveFinding(m: MemoryState, pid: string, f: Finding): MemoryState {
    var l := ListsOf(m, pid); SetLists(m, pid, l.(findings := PutById(l.findings, FindingId, f)))
  }

  function PutForm(m: MemoryState, pid: string, d: FormDraft): MemoryState {
    var l := ListsOf(m, pid); SetLists(m, pid, l.(forms := PutById(l.forms, DraftId, d)))
  }

  function AddEvent(m: MemoryState, pid: string, e: TimelineEvent): MemoryState {
    var l := ListsOf(m, pid); SetLists(m, pid, l.(timeline := l.timeline + [e]))
  }

  function AddAudit(m: MemoryState, pid: string, a: AuditEntry): MemoryState {
    var l := ListsOf(m, pid); SetLists(m, pid, l.(audit := l.audit + [a]))
  }

  function SetDefault(byKey: map<string, string>, k: string, v: string): map<string, string> {
    if k in byKey then byKey else byKey[k := v]
  }

  function IndexAll(byKey: map<string, string>, ts: seq<WorkflowTask>): map<string, string> {
    if ts == [] then byKey
    else SetDefault(IndexAll(byKey, ts[..|ts| - 1]), ts[|ts| - 1].idempotencyKey, ts[|ts| - 1].taskId)
  }

  function IndexWithout(byKey: map<string, string>, ids: set<string>): map<string, string> {
    map k | k in byKey && byKey[k] !in ids :: byKey[k]
  }

  function IdsOf(tasks: seq<WorkflowTask>): set<string> { set t | t in tasks :: t.taskId }

  /** `add` gives the key to the index unless somebody holds it. */
  function AddTask(m: MemoryState, t: WorkflowTask): MemoryState {
    m.(tasks := PutById(m.tasks, TaskId, t), byKey := SetDefault(m.byKey, t.idempotencyKey, t.taskId))
  }

  /** `save` never touches the index. */
  function SaveTask(m: MemoryState, t: WorkflowTask): MemoryState {
    m.(tasks := PutById(m.tasks, TaskId, t))
  }

  predicate LatestFrozen(forms: seq<FormDraft>) { forms != [] && forms[|forms| - 1].frozen }

  // ------------------------------------------------- atomic read-and-writes

  predicate Matches(m: MemoryState, rid: string, expected: ReviewState, generation: Option<nat>) {
    && rid in m.sessions
    && m.sessions[rid].state == expected
    && (generation.Some? ==> m.sessions[rid].generation == generation.value)
  }

  function CompareAndPut(m: MemoryState, rid: string, expected: ReviewState, session: ReviewSession,
                         generation: Option<nat>): (MemoryState, bool)
  {
    if Matches(m, rid, expected, generation)
    then (m.(sessions := m.sessions[rid := session]), true)
    else (m, false)
  }

  function GetOrCreate(m: MemoryState, t: WorkflowTask): (MemoryState, WorkflowTask, bool) {
    match FindByKey(m, t.idempotencyKey)
    case Some(existing) => (m, existing, false)
    case None => (AddTask(m, t), t, true)
  }

  function ClaimTask(m: MemoryState, taskId: string): (MemoryState, Option<WorkflowTask>) {
    match GetTask(m.tasks, taskId)
    case None => (m, None)
    case Some(t) =>
      if t.status != Queued then (m, None)
      else
        var running := t.(status := Running);
        (SaveTask(m, running), Some(running))
  }

  function Stage(m: MemoryState, rid: string, pid: string): Option<Baseline> {
    match AggregateOf(m, pid)
    case None => None
    case Some(a) => if rid in m.sessions then Some(Baseline(m.sessions[rid], a)) else None
  }

  predicate ValidPublication(pub: Publication) {
    var pid := pub.aggregate.project.projectId;
    && pub.baseline.aggregate.project.projectId == pid
    && pub.baseline.session.projectId == pid
    && pub.session.projectId == pid
    && pub.baseline.session.reviewId == pub.session.reviewId
    && pub.session.generation == pub.baseline.session.generation + 1
    && (forall t | t in pub.baseline.aggregate.tasks :: t.projectId == pid)
    && (forall t | t in pub.aggregate.tasks :: t.projectId == pid)
  }

  predicate Publishable(m: MemoryState, pub: Publication) {
    && Matches(m, pub.session.reviewId, Analyzing, Some(pub.session.generation))
    && AggregateOf(m, pub.aggregate.project.projectId) == Some(pub.baseline.aggregate)
  }

  function Overwrite(m: MemoryState, pub: Publication): MemoryState {
    var a := pub.aggregate;
    var pid := a.project.projectId;
    MemoryState(
      PutById(m.projects, ProjectId, a.project),
      m.sessions[pub.session.reviewId := pub.session],
      PutAll(TasksOfOthers(m.tasks, pid), TaskId, PutAll([], TaskId, a.tasks)),
      IndexAll(IndexWithout(m.byKey, IdsOf(TasksOf(m.tasks, pid))), PutAll([], TaskId, a.tasks)),
      m.lists[pid := Lists(a.facts, PutAll([], FindingId, a.findings), a.forms, a.timeline, a.audit)])
  }

  /** None: the bundle crosses aggregate identities and the call raises. */
  function Publish(m: MemoryState, pub: Publication): (MemoryState, Option<bool>) {
    if !ValidPublication(pub) then (m, None)
    else if !Publishable(m, pub) then (m, Some(false))
    else (Overwrite(m, pub), Some(true))
  }

  /** Everything in the bundle is of one project and one session, one generation on. */
  ghost predicate OneIdentity(pub: Publication) {
    var pid := pub.aggregate.project.projectId;
    && {pub.baseline.aggregate.project.projectId, pub.baseline.session.projectId, pub.session.projectId} == {pid}
    && pub.session.reviewId == pub.baseline.session.reviewId
    && pub.session.generation - pub.baseline.session.generation == 1
    && forall t | t in pub.aggregate.tasks + pub.baseline.aggregate.tasks :: t.projectId == pid
  }

  /**
   A publish raises exactly when the bundle crosses identities; else it is refused exactly when
   the session is not ANALYZING under the bundle's generation or some live collection differs
   from the baseline's; only a publish that is neither writes.
   */
  lemma PublishAnswers(m: MemoryState, pub: Publication)
    ensures var (after, done) := Publish(m, pub);
            var rid, pid := pub.session.reviewId, pub.aggregate.project.projectId;
            var live := && rid in m.sessions && m.sessions[rid].state == Analyzing
                        && m.sessions[rid].generation == pub.session.generation
                        && AggregateOf(m, pid) == Some(pub.baseline.aggregate);
            && (done == None <==> !OneIdentity(pub))
            && (done == Some(false) <==> OneIdentity(pub) && !live)
            && (done == Some(true) <==> OneIdentity(pub) && live)
            && (done != Some(true) ==> after == m)
  {
    var pid := pub.aggregate.project.projectId;
    var ids := {pub.baseline.aggregate.project.projectId, pub.baseline.session.projectId, pub.session.projectId};
    assert ids == {pid} <==> && pub.baseline.aggregate.project.projectId == pid && pub.baseline.session.projectId == pid
                             && pub.session.projectId == pid by {
      assert pub.baseline.aggregate.project.projectId in ids && pub.baseline.session.projectId in ids && pub.session.projectId in ids;
    }
  }

  /** Ids the collections rely on being distinct, and the tasks belonging to nobody else. */
  ghost predicate WellFormedAggregate(m: MemoryState, a: Aggregate) {
    && Distinct(a.facts, FactId) && Distinct(a.findings, FindingId) && Distinct(a.forms, DraftId)
    && Distinct(a.timeline, EventId) && Distinct(a.tasks, TaskId)
    && (forall t, u | t in a.tasks && u in m.tasks && t.taskId == u.taskId ::
          u.projectId == a.project.projectId)
  }

  lemma {:induction false} PutAllFilter(s: seq<WorkflowTask>, xs: seq<WorkflowTask>, pid: string)
    requires forall t | t in xs :: t.projectId == pid
    requires forall t | t in s :: t.projectId != pid
    requires forall t, u | t in xs && u in s :: t.taskId != u.taskId
    ensures PutAll(s, TaskId, xs) == s + PutAll([], TaskId, xs)
    ensures forall t | t in PutAll([], TaskId, xs) :: t in xs
  {
    if xs != [] {
      var n := |xs| - 1;
      PutAllFilter(s, xs[..n], pid);
      assert xs[n] in xs;
      PutBehind(s, PutAll([], TaskId, xs[..n]), xs[n]);
      PutMembers(PutAll([], TaskId, xs[..n]), xs[n]);
    }
  }

  lemma PutMembers(q: seq<WorkflowTask>, x: WorkflowTask)
    ensures forall t | t in PutById(q, TaskId, x) :: t in q || t == x
  {
  }

  /** Putting a task whose id the front does not hold leaves the front alone. */
  lemma PutBehind(s: seq<WorkflowTask>, q: seq<WorkflowTask>, x: WorkflowTask)
    requires forall u | u in s :: u.taskId != x.taskId
    ensures PutById(s + q, TaskId, x) == s + PutById(q, TaskId, x)
  {
    var i := Find(q, TaskId, x.taskId);
    FindUnique(s + q, TaskId, x.taskId, |s| + i);
    if i < |q| { assert (s + q)[|s| + i := x] == s + q[i := x]; } else { assert (s + q) + [x] == s + (q + [x]); }
  }

  lemma {:induction false} FilterAll<T>(s: seq<T>, keep: T -> bool)
    requires forall x | x in s :: keep(x)
    ensures Filter(s, keep) == s
  {
    if s != [] { FilterAll(s[..|s| - 1], keep); assert s[..|s| - 1] + [s[|s| - 1]] == s; }
  }

  lemma {:induction false} FilterNone<T>(s: seq<T>, keep: T -> bool)
    requires forall x | x in s :: !keep(x)
    ensures Filter(s, keep) == []
  {
    if s != [] { FilterNone(s[..|s| - 1], keep); }
  }

  lemma {:induction false} FilterConcat<T>(s: seq<T>, t: seq<T>, keep: T -> bool)
    ensures Filter(s + t, keep) == Filter(s, keep) + Filter(t, keep)
  {
    if t == [] { assert s + t == s; }
    else {
      var n := |t| - 1;
      assert (s + t)[..|s + t| - 1] == s + t[..n];
      FilterConcat(s, t[..n], keep);
    }
  }

  lemma {:induction false} FilterTwice<T>(s: seq<T>, p: T -> bool, q: T -> bool)
    requires forall x | x in s && q(x) :: p(x)
    ensures Filter(Filter(s, p), q) == Filter(s, q)
  {
    if s != [] {
      var n := |s| - 1;
      FilterTwice(s[..n], p, q);
      FilterConcat(Filter(s[..n], p), if p(s[n]) then [s[n]] else [], q);
    }
  }

  lemma TasksAfterPublish(tasks: seq<WorkflowTask>, a: Aggregate, other: string)
    requires forall t | t in a.tasks :: t.projectId == a.project.projectId
    requires Distinct(a.tasks, TaskId)
    requires forall t, u | t in a.tasks && u in tasks && t.taskId == u.taskId :: u.projectId == a.project.projectId
    ensures var pid := a.project.projectId;
            var after := PutAll(TasksOfOthers(tasks, pid), TaskId, PutAll([], TaskId, a.tasks));
            && after == TasksOfOthers(tasks, pid) + a.tasks
            && TasksOf(after, pid) == a.tasks
            && (other != pid ==> TasksOf(after, other) == TasksOf(tasks, other))
  {
    var pid, rest := a.project.projectId, TasksOfOthers(tasks, a.project.projectId);
    PutAllFromEmpty(TaskId, a.tasks);
    PutAllFilter(rest, a.tasks, pid);
    FilterConcat(rest, a.tasks, Of(pid));
    FilterAll(a.tasks, Of(pid));
    FilterNone(rest, Of(pid));
    FilterConcat(rest, a.tasks, Of(other));
    if other != pid {
      FilterNone(a.tasks, Of(other));
      FilterTwice(tasks, NotOf(pid), Of(other));
    }
  }

  /**
   A successful publication replaces exactly one project's aggregate by the
   published one and one session; every other project is untouched.
   */
  lemma PublishEffect(m: MemoryState, pub: Publication, other: string)
    requires Publish(m, pub).1 == Some(true)
    requires WellFormedAggregate(m, pub.aggregate)
    ensures var pid := pub.aggregate.project.projectId;
            var m' := Publish(m, pub).0;
            && AggregateOf(m', pid) == Some(pub.aggregate)
            && (other != pid ==> AggregateOf(m', other) == AggregateOf(m, other))
            && m'.sessions == m.sessions[pub.session.reviewId := pub.session]
  {
    PublishOwn(m, pub);
    if other != pub.aggregate.project.projectId { PublishOther(m, pub, other); }
  }

  lemma PublishOwn(m: MemoryState, pub: Publication)
    requires Publish(m, pub).1 == Some(true) && WellFormedAggregate(m, pub.aggregate)
    ensures AggregateOf(Publish(m, pub).0, pub.aggregate.project.projectId) == Some(pub.aggregate)
  {
    var a := pub.aggregate;
    PutAllFromEmpty(FindingId, a.findings);
    TasksAfterPublish(m.tasks, a, a.project.projectId);
    PutByIdKeepsIds(m.projects, ProjectId, a.project, a.project.projectId);
  }

  lemma PublishOther(m: MemoryState, pub: Publication, other: string)
    requires Publish(m, pub).1 == Some(true) && WellFormedAggregate(m, pub.aggregate)
    requires other != pub.aggregate.project.projectId
    ensures AggregateOf(Publish(m, pub).0, other) == AggregateOf(m, other)
  {
    TasksAfterPublish(m.tasks, pub.aggregate, other);
    PutByIdKeepsIds(m.projects, ProjectId, pub.aggregate.project, other);
  }

  // ------------------------------------------------ the idempotency-key index

  /** The index answers the key exactly as a first-match scan of the tasks would. */
  ghost predicate IndexAt(tasks: seq<WorkflowTask>, byKey: map<string, string>, k: string) {
    var i := Find(tasks, TaskKey, k);
    if i < |tasks| then k in byKey && byKey[k] == tasks[i].taskId else k !in byKey
  }

  ghost predicate IndexOk(tasks: seq<WorkflowTask>, byKey: map<string, string>) {
    forall k :: IndexAt(tasks, byKey, k)
  }

  /** Every key is used by one project only: keys start with the project's id. */
  ghost predicate KeysNameProject(tasks: seq<WorkflowTask>) {
    forall t, u | t in tasks && u in tasks && t.idempotencyKey == u.idempotencyKey ::
      t.projectId == u.projectId
  }

  lemma IndexAdd(tasks: seq<WorkflowTask>, byKey: map<string, string>, t: WorkflowTask)
    requires IndexOk(tasks, byKey)
    ensures IndexOk(tasks + [t], SetDefault(byKey, t.idempotencyKey, t.taskId))
  {
    forall k ensures IndexAt(tasks + [t], SetDefault(byKey, t.idempotencyKey, t.taskId), k) {
      assert IndexAt(tasks, byKey, k) && IndexAt(tasks, byKey, t.idempotencyKey);
      FindAppend(tasks, TaskKey, k, t);
    }
  }

  /** When replacing or adding a task without touching the index leaves the index right. */
  ghost predicate SaveKeepsIndex(tasks: seq<WorkflowTask>, t: WorkflowTask) {
    var i := Find(tasks, TaskId, t.taskId);
    if i < |tasks| then
      || tasks[i].idempotencyKey == t.idempotencyKey
      || (Find(tasks, TaskKey, tasks[i].idempotencyKey) < i && Find(tasks, TaskKey, t.idempotencyKey) < i)
    else Find(tasks, TaskKey, t.idempotencyKey) < |tasks|
  }

  lemma SaveIndexExactly(tasks: seq<WorkflowTask>, byKey: map<string, string>, t: WorkflowTask)
    requires IndexOk(tasks, byKey) && Distinct(tasks, TaskId)
    ensures IndexOk(PutById(tasks, TaskId, t), byKey) <==> SaveKeepsIndex(tasks, t)
  {
    var i := Find(tasks, TaskId, t.taskId);
    if i == |tasks| {
      SaveNew(tasks, byKey, t);
    } else if SaveKeepsIndex(tasks, t) {
      var after := tasks[i := t];
      forall k ensures IndexAt(after, byKey, k) {
        FindUnique(after, TaskKey, k, Find(tasks, TaskKey, k));
        assert IndexAt(tasks, byKey, k);
      }
    } else {
      SaveBreaks(tasks, byKey, t, i);
    }
  }

  lemma SaveNew(tasks: seq<WorkflowTask>, byKey: map<string, string>, t: WorkflowTask)
    requires IndexOk(tasks, byKey)
    ensures IndexOk(tasks + [t], byKey) <==> Find(tasks, TaskKey, t.idempotencyKey) < |tasks|
  {
    assert IndexAt(tasks, byKey, t.idempotencyKey);
    if Find(tasks, TaskKey, t.idempotencyKey) < |tasks| {
      IndexAdd(tasks, byKey, t);
    } else {
      FindAppend(tasks, TaskKey, t.idempotencyKey, t);
      assert !IndexAt(tasks + [t], byKey, t.idempotencyKey);
    }
  }

  /** An in-place save that changes a first-match key leaves some key answered wrongly. */
  lemma SaveBreaks(tasks: seq<WorkflowTask>, byKey: map<string, string>, t: WorkflowTask, i: nat)
    requires IndexOk(tasks, byKey) && Distinct(tasks, TaskId)
    requires i < |tasks| && tasks[i].taskId == t.taskId && i == Find(tasks, TaskId, t.taskId)
    requires !SaveKeepsIndex(tasks, t)
    ensures !IndexOk(tasks[i := t], byKey)
  {
    var after, k0, k1 := tasks[i := t], tasks[i].idempotencyKey, t.idempotencyKey;
    assert IndexAt(tasks, byKey, k0) && IndexAt(tasks, byKey, k1);
    assert forall j | 0 <= j < |tasks| && j != i :: TaskId(tasks[j]) != TaskId(tasks[i]);
    if Find(tasks, TaskKey, k0) == i {
      var g := Find(after, TaskKey, k0);
      assert g < |after| ==> g != i && after[g] == tasks[g];
      assert !IndexAt(after, byKey, k0);
    } else {
      FindUnique(after, TaskKey, k1, i);
      assert !IndexAt(after, byKey, k1);
    }
  }

  /** When all carriers of a key are kept or all are dropped, filtering keeps or loses its first match. */
  lemma {:induction false} FilterFind<T>(s: seq<T>, id: T -> string, keep: T -> bool, k: string, b: bool)
    requires forall x | x in s && id(x) == k :: keep(x) == b
    ensures var i, r := Find(s, id, k), Filter(s, keep);
            if i < |s| && b then Find(r, id, k) < |r| && r[Find(r, id, k)] == s[i]
            else Find(r, id, k) == |r|
  {
    if s != [] {
      var n := |s| - 1;
      var t, x := s[..n], s[n];
      FilterFind(t, id, keep, k, b);
      var r := Filter(t, keep);
      assert s == t + [x];
      FindAppend(t, id, k, x);
      if keep(x) {
        assert Filter(s, keep) == r + [x];
        FindAppend(r, id, k, x);
      } else {
        assert Filter(s, keep) == r;
      }
    }
  }

  /** Removing one project's tasks, and the index entries that point at them. */
  lemma IndexRemove(tasks: seq<WorkflowTask>, byKey: map<string, string>, pid: string)
    requires IndexOk(tasks, byKey) && Distinct(tasks, TaskId) && KeysNameProject(tasks)
    ensures IndexOk(TasksOfOthers(tasks, pid), IndexWithout(byKey, IdsOf(TasksOf(tasks, pid))))
  {
    forall k ensures IndexAt(TasksOfOthers(tasks, pid), IndexWithout(byKey, IdsOf(TasksOf(tasks, pid))), k) {
      assert IndexAt(tasks, byKey, k);
      var i := Find(tasks, TaskKey, k);
      if i < |tasks| {
        FilterFind(tasks, TaskKey, NotOf(pid), k, tasks[i].projectId != pid);
        GoneExactly(tasks, pid, i);
      } else {
        FilterFind(tasks, TaskKey, NotOf(pid), k, false);
      }
    }
  }

  lemma GoneExactly(tasks: seq<WorkflowTask>, pid: string, i: nat)
    requires Distinct(tasks, TaskId) && i < |tasks|
    ensures tasks[i].taskId in IdsOf(TasksOf(tasks, pid)) <==> tasks[i].projectId == pid
  {
    if tasks[i].projectId == pid { assert Of(pid)(tasks[i]); }
    if tasks[i].taskId in IdsOf(TasksOf(tasks, pid)) {
      var u :| u in TasksOf(tasks, pid) && u.taskId == tasks[i].taskId;
      assert Of(pid)(u);
      var j :| 0 <= j < |tasks| && tasks[j] == u;
      assert TaskId(tasks[j]) == TaskId(tasks[i]);
    }
  }

  lemma {:induction false} IndexAddAll(tasks: seq<WorkflowTask>, byKey: map<string, string>, ts: seq<WorkflowTask>)
    requires IndexOk(tasks, byKey)
    ensures IndexOk(tasks + ts, IndexAll(byKey, ts))
  {
    if ts == [] { assert tasks + ts == tasks; }
    else {
      var n := |ts| - 1;
      IndexAddAll(tasks, byKey, ts[..n]);
      IndexAdd(tasks + ts[..n], IndexAll(byKey, ts[..n]), ts[n]);
      assert tasks + ts == tasks + ts[..n] + [ts[n]];
    }
  }

  /** After a publication removes and reinserts a project's tasks, the index is again a first-match scan. */
  lemma IndexAfterPublish(m: MemoryState, pub: Publication)
    requires IndexOk(m.tasks, m.byKey) && Distinct(m.tasks, TaskId) && KeysNameProject(m.tasks)
    requires Publish(m, pub).1 == Some(true) && WellFormedAggregate(m, pub.aggregate)
    ensures IndexOk(Publish(m, pub).0.tasks, Publish(m, pub).0.byKey)
  {
    var a := pub.aggregate;
    var pid := a.project.projectId;
    PutAllFromEmpty(TaskId, a.tasks);
    IndexRemove(m.tasks, m.byKey, pid);
    IndexAddAll(TasksOfOthers(m.tasks, pid), IndexWithout(m.byKey, IdsOf(TasksOf(m.tasks, pid))), a.tasks);
    TasksAfterPublish(m.tasks, a, pid);
  }

  // ------------------------------------------------------ a task store in order

  /** One record per id, keys that name their project, and an index that is a first-match scan. */
  ghost predicate IndexValid(tasks: seq<WorkflowTask>, byKey: map<string, string>) {
    Distinct(tasks, TaskId) && IndexOk(tasks, byKey) && KeysNameProject(tasks)
  }

  /** The task's key is not another project's. */
  ghost predicate KeyFits(tasks: seq<WorkflowTask>, t: WorkflowTask) {
    forall u | u in tasks && u.idempotencyKey == t.idempotencyKey :: u.projectId == t.projectId
  }

  ghost predicate KeysFit(m: MemoryState, a: Aggregate) { forall t | t in a.tasks :: KeyFits(m.tasks, t) }

  /** In order, the index answers what a scan would. */
  lemma FoundByKey(m: MemoryState, key: string)
    requires IndexValid(m.tasks, m.byKey)
    ensures FindByKey(m, key) == FirstByKey(m.tasks, key)
  {
    assert IndexAt(m.tasks, m.byKey, key);
    var i := Find(m.tasks, TaskKey, key);
    if i < |m.tasks| { GetAt(m.tasks, i); }
  }

  lemma GetAt(tasks: seq<WorkflowTask>, n: nat)
    requires Distinct(tasks, TaskId) && n < |tasks|
    ensures GetTask(tasks, tasks[n].taskId) == Some(tasks[n])
  {
    forall j | 0 <= j < n ensures TaskId(tasks[j]) != tasks[n].taskId { assert TaskId(tasks[j]) != TaskId(tasks[n]); }
    FindUnique(tasks, TaskId, tasks[n].taskId, n);
  }

  lemma PutKeepsKeys(tasks: seq<WorkflowTask>, t: WorkflowTask)
    requires Distinct(tasks, TaskId) && KeysNameProject(tasks) && KeyFits(tasks, t)
    ensures Distinct(PutById(tasks, TaskId, t), TaskId) && KeysNameProject(PutById(tasks, TaskId, t))
  {
    PutByIdDistinct(tasks, TaskId, t);
    forall u | u in PutById(tasks, TaskId, t) ensures u == t || u in tasks {}
  }

  lemma AddKeepsIndex(m: MemoryState, t: WorkflowTask)
    requires IndexValid(m.tasks, m.byKey) && GetTask(m.tasks, t.taskId).None? && KeyFits(m.tasks, t)
    ensures IndexValid(AddTask(m, t).tasks, AddTask(m, t).byKey)
  {
    PutKeepsKeys(m.tasks, t);
    IndexAdd(m.tasks, m.byKey, t);
  }

  /** A save keeps the store in order exactly when it keeps the index. */
  lemma SaveKeepsOrder(m: MemoryState, t: WorkflowTask)
    requires IndexValid(m.tasks, m.byKey) && KeyFits(m.tasks, t)
    ensures IndexValid(SaveTask(m, t).tasks, SaveTask(m, t).byKey) <==> SaveKeepsIndex(m.tasks, t)
  {
    PutKeepsKeys(m.tasks, t);
    SaveIndexExactly(m.tasks, m.byKey, t);
  }

  /** Saving a record over one of the same key and project keeps the store in order. */
  lemma ResaveKeepsOrder(m: MemoryState, t: WorkflowTask)
    requires IndexValid(m.tasks, m.byKey) && GetTask(m.tasks, t.taskId).Some?
    requires var u := GetTask(m.tasks, t.taskId).value; u.idempotencyKey == t.idempotencyKey && u.projectId == t.projectId
    ensures IndexValid(SaveTask(m, t).tasks, SaveTask(m, t).byKey)
  {
    var u := GetTask(m.tasks, t.taskId).value;
    assert u in m.tasks;
    SaveKeepsOrder(m, t);
  }

  lemma ClaimKeepsOrder(m: MemoryState, id: string)
    requires IndexValid(m.tasks, m.byKey)
    ensures IndexValid(ClaimTask(m, id).0.tasks, ClaimTask(m, id).0.byKey)
  {
    if ClaimTask(m, id).1.Some? { ResaveKeepsOrder(m, ClaimTask(m, id).1.value); }
  }

  lemma PublishKeepsOrder(m: MemoryState, pub: Publication)
    requires IndexValid(m.tasks, m.byKey) && WellFormedAggregate(m, pub.aggregate) && KeysFit(m, pub.aggregate)
    requires Publish(m, pub).1 == Some(true)
    ensures IndexValid(Publish(m, pub).0.tasks, Publish(m, pub).0.byKey)
  {
    IndexAfterPublish(m, pub);
    DistinctAfterPublish(m, pub);
  }

  lemma DistinctAfterPublish(m: MemoryState, pub: Publication)
    requires Publish(m, pub).1 == Some(true) && WellFormedAggregate(m, pub.aggregate) && KeysFit(m, pub.aggregate)
    requires Distinct(m.tasks, TaskId) && KeysNameProject(m.tasks)
    ensures Distinct(Publish(m, pub).0.tasks, TaskId) && KeysNameProject(Publish(m, pub).0.tasks)
  {
    var a := pub.aggregate;
    TasksAfterPublish(m.tasks, a, a.project.projectId);
    FilterDistinct(m.tasks, TaskId, NotOf(a.project.projectId));
    PutAllDistinct(TasksOfOthers(m.tasks, a.project.projectId), TaskId, PutAll([], TaskId, a.tasks));
    forall t, u | t in a.tasks && u in m.tasks && t.idempotencyKey == u.idempotencyKey ensures t.projectId == u.projectId {
      assert KeyFits(m.tasks, t);
    }
  }

  lemma {:induction false} FilterDistinct<T>(s: seq<T>, id: T -> string, keep: T -> bool)
    requires Distinct(s, id)
    ensures Distinct(Filter(s, keep), id)
  {
    if s != [] {
      var n := |s| - 1;
      FilterDistinct(s[..n], id, keep);
      forall x | x in Filter(s[..n], keep) ensures id(x) != id(s[n]) {
        var j :| 0 <= j < n && s[..n][j] == x;
        assert id(s[j]) != id(s[n]);
      }
    }
  }
}
