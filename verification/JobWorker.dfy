/** The job worker and the job runner over the memory store, and the keys that make a resubmission a replay. */
module Worker {
  import opened Entities
  import opened Keyed
  import opened MemoryStore
  import InMemory
  import Jobs
  import Table = SqliteTable

  /** What the job's own code does when it is run: produce an outcome, or raise. */
  datatype Work = Produced(status: TaskStatus, error: Option<string>) | Raised(reason: string)

  /** What else may raise: the claim, or the event recorded after the verdict is saved. */
  datatype Fault = NoFault | ClaimFails(reason: string) | RecordFails(reason: string)

  datatype Executed = Ran(task: WorkflowTask) | NotClaimed | RaisedBy(reason: string)

  datatype Reason = AlreadyFinished | AlreadyClaimed | NoHandler | JobFailed

  datatype HandledJob = HandledJob(task: WorkflowTask, ran: bool, reason: Option<Reason>)

  const NO_WORKER := "no worker handles this type"

  /** `execute_task`: claim, work, save, record; whatever raises leaves what was written before it. */
  function Execute(m: MemoryState, task: WorkflowTask, work: Work, fault: Fault): (MemoryState, Executed) {
    if !Jobs.Handled(task.kind) then (m, RaisedBy(NO_WORKER))
    else if fault.ClaimFails? then (m, RaisedBy(fault.reason))
    else
      var (claimed, running) := ClaimTask(m, task.taskId);
      match running
      case None => (m, NotClaimed)
      case Some(r) =>
        if work.Raised? then (claimed, RaisedBy(work.reason))
        else
          var done := Jobs.Done(r, work.status, work.error);
          (SaveTask(claimed, done), if fault.RecordFails? then RaisedBy(fault.reason) else Ran(done))
  }

  function Found(m: MemoryState, message: WorkflowTask): WorkflowTask {
    match GetTask(m.tasks, message.taskId) case Some(t) => t case None => message
  }

  /** One delivery, handled without interruption. */
  function Delivery(m: MemoryState, message: WorkflowTask, work: Work, fault: Fault): (MemoryState, HandledJob) {
    var current := Found(m, message);
    if Jobs.Finished(current.status) then (m, HandledJob(current, false, Some(AlreadyFinished)))
    else if !Jobs.Handled(current.kind) then
      (SaveTask(m, Jobs.Rejected(current)), HandledJob(Jobs.Rejected(current), false, Some(NoHandler)))
    else
      var (after, executed) := Execute(m, current, work, fault);
      match executed
      case Ran(t) => (after, HandledJob(t, true, None))
      case NotClaimed => (after, HandledJob(current, false, Some(AlreadyClaimed)))
      case RaisedBy(reason) =>
        var failed := Jobs.Broken(current, reason);
        (SaveTask(after, failed), HandledJob(failed, true, Some(JobFailed)))
  }

  /** After a delivery the task is finished, or was running under somebody else's claim, or is unknown. */
  ghost predicate Closed(m: MemoryState, message: WorkflowTask) {
    match GetTask(m.tasks, message.taskId)
    case Some(t) => Jobs.Finished(t.status) || (Jobs.Handled(t.kind) && !t.status.Queued?)
    case None => Jobs.Finished(message.status) || Jobs.Handled(message.kind)
  }

  lemma DeliveryCloses(m: MemoryState, message: WorkflowTask, work: Work, fault: Fault)
    requires work.Produced? ==> Jobs.Finished(work.status)
    ensures Closed(Delivery(m, message, work, fault).0, message)
  {
    var current := Found(m, message);
    if !Jobs.Finished(current.status) {
      if !Jobs.Handled(current.kind) {
        Jobs.GetAfterPut(m.tasks, Jobs.Rejected(current), current.taskId);
      } else {
        var after := Execute(m, current, work, fault).0;
        var executed := Execute(m, current, work, fault).1;
        if executed.RaisedBy? {
          Jobs.GetAfterPut(after.tasks, Jobs.Broken(current, executed.reason), current.taskId);
        } else if executed.Ran? {
          Jobs.GetAfterPut(ClaimTask(m, current.taskId).0.tasks, executed.task, current.taskId);
        }
      }
    }
  }

  /**
   A second delivery of the same message writes nothing and runs nothing, unless its
   own claim raises while the task is not finished: exactly then it saves FAILED.
   */
  lemma RedeliveryIsDropped(m: MemoryState, message: WorkflowTask, first: Work, fault: Fault, second: Work, later: Fault)
    requires first.Produced? ==> Jobs.Finished(first.status)
    ensures var once := Delivery(m, message, first, fault).0;
            var again := Delivery(once, message, second, later);
            && (again.0 == once <==> !later.ClaimFails? || Jobs.Finished(Found(once, message).status))
            && (again.1.ran <==> later.ClaimFails? && !Jobs.Finished(Found(once, message).status))
  {
    var once := Delivery(m, message, first, fault).0;
    DeliveryCloses(m, message, first, fault);
    ClosedRedelivery(once, message, second, later);
  }

  lemma ClosedRedelivery(m: MemoryState, message: WorkflowTask, work: Work, fault: Fault)
    requires Closed(m, message)
    ensures var again := Delivery(m, message, work, fault);
            && (again.0 == m <==> !fault.ClaimFails? || Jobs.Finished(Found(m, message).status))
            && (again.1.ran <==> fault.ClaimFails? && !Jobs.Finished(Found(m, message).status))
  {
    var current := Found(m, message);
    if fault.ClaimFails? && !Jobs.Finished(current.status) {
      var failed := Jobs.Broken(current, fault.reason);
      Jobs.GetAfterPut(m.tasks, failed, message.taskId);
    }
  }

  predicate Over(s: TaskStatus) { s == Succeeded || s == Failed || s == TaskNeedsHuman }

  predicate HasWorker(kind: TaskType) { kind == FactExtract || kind == ReviewFull || kind == ReviewIncremental }

  function FailedWith(t: WorkflowTask, error: string): WorkflowTask { t.(status := Failed, error := Some(error)) }

  /** `execute_task` by itself: a type nobody handles and a claim that raises run nothing and write nothing. */
  lemma ExecutedExactly(m: MemoryState, t: WorkflowTask, work: Work, fault: Fault)
    ensures var (after, e) := Execute(m, t, work, fault);
            var held := GetTask(m.tasks, t.taskId);
            && (!HasWorker(t.kind) ==> after == m && e == RaisedBy(NO_WORKER))
            && (HasWorker(t.kind) && fault.ClaimFails? ==> after == m && e == RaisedBy(fault.reason))
            && (HasWorker(t.kind) && !fault.ClaimFails? && !(held.Some? && held.value.status == Queued) ==>
                  after == m && e == NotClaimed)
            && (HasWorker(t.kind) && !fault.ClaimFails? && held.Some? && held.value.status == Queued && work.Raised? ==>
                  e == RaisedBy(work.reason))
            && (e.Ran? ==> e.task.status == work.status && e.task.error == work.error)
  {
  }

  /**
   One delivery of a stored task, case by case: dropped when the task is over or somebody
   else's; failed when nobody handles its type, or when the claim, the work or the record
   after it raises; else the work's own verdict.
   */
  lemma DeliveredExactly(m: MemoryState, message: WorkflowTask, work: Work, fault: Fault, t: WorkflowTask)
    requires GetTask(m.tasks, message.taskId) == Some(t) && t.taskId == message.taskId
    ensures var (after, h) := Delivery(m, message, work, fault);
            var claimable := !Over(t.status) && HasWorker(t.kind) && !fault.ClaimFails?;
            var record := GetTask(after.tasks, t.taskId);
            && (Over(t.status) ==> after == m && h == HandledJob(t, false, Some(AlreadyFinished)))
            && (!Over(t.status) && !HasWorker(t.kind) ==>
                  record == Some(FailedWith(t, "no handler")) && h == HandledJob(record.value, false, Some(NoHandler)))
            && (!Over(t.status) && HasWorker(t.kind) && fault.ClaimFails? ==>
                  record == Some(FailedWith(t, fault.reason)) && h == HandledJob(record.value, true, Some(JobFailed)))
            && (claimable && t.status == Running ==> after == m && h == HandledJob(t, false, Some(AlreadyClaimed)))
            && (claimable && t.status == Queued && work.Raised? ==>
                  record == Some(FailedWith(t, work.reason)) && h == HandledJob(record.value, true, Some(JobFailed)))
            && (claimable && t.status == Queued && work.Produced? && fault.RecordFails? ==>
                  record == Some(FailedWith(t, fault.reason)) && h == HandledJob(record.value, true, Some(JobFailed)))
            && (claimable && t.status == Queued && work.Produced? && fault.NoFault? ==>
                  record == Some(t.(status := work.status, error := work.error)) && h == HandledJob(record.value, true, None))
            && (forall id | id != t.taskId :: GetTask(after.tasks, id) == GetTask(m.tasks, id))
            && after == m.(tasks := after.tasks)
  {
    var after := Delivery(m, message, work, fault).0;
    forall id: string, a: seq<WorkflowTask>, u: WorkflowTask
      ensures GetTask(PutById(a, TaskId, u), id) == if id == u.taskId then Some(u) else GetTask(a, id)
    {
      Jobs.GetAfterPut(a, u, id);
    }
  }

  /** A record saved over one of its own key and project fits, and keeps the index right. */
  lemma SaveOver(m: MemoryState, t: WorkflowTask)
    requires IndexValid(m.tasks, m.byKey) && GetTask(m.tasks, t.taskId).Some?
    requires var u := GetTask(m.tasks, t.taskId).value; u.idempotencyKey == t.idempotencyKey && u.projectId == t.projectId
    ensures KeyFits(m.tasks, t) && SaveKeepsIndex(m.tasks, t)
  {
    assert GetTask(m.tasks, t.taskId).value in m.tasks;
  }

  lemma ExecuteKeepsTask(m: MemoryState, task: WorkflowTask, work: Work, fault: Fault)
    requires GetTask(m.tasks, task.taskId).Some? ==> GetTask(m.tasks, task.taskId).value == task
    ensures var after := Execute(m, task, work, fault).0;
            && (GetTask(m.tasks, task.taskId).None? ==> after == m)
            && (GetTask(m.tasks, task.taskId).Some? ==>
                  GetTask(after.tasks, task.taskId).Some? && Jobs.Same(GetTask(after.tasks, task.taskId).value, task))
  {
    var (claimed, running) := ClaimTask(m, task.taskId);
    if running.Some? {
      Jobs.GetAfterPut(m.tasks, running.value, task.taskId);
      if work.Produced? { Jobs.GetAfterPut(claimed.tasks, Jobs.Done(running.value, work.status, work.error), task.taskId); }
    }
  }

  class JobWorker {
    const stores: InMemory.InMemoryStores

    constructor (s: InMemory.InMemoryStores)
      ensures stores == s
    {
      stores := s;
    }

    method ExecuteTask(task: WorkflowTask, work: Work, fault: Fault) returns (executed: Executed)
      requires stores.Valid()
      requires GetTask(stores.taskItems, task.taskId).Some? ==> GetTask(stores.taskItems, task.taskId).value == task
      modifies stores
      ensures (stores.State(), executed) == Execute(old(stores.State()), task, work, fault)
      ensures stores.Valid()
    {
      if !Jobs.Handled(task.kind) { return RaisedBy(NO_WORKER); }
      if fault.ClaimFails? { return RaisedBy(fault.reason); }
      ghost var before := stores.taskItems;
      var running := stores.ClaimQueuedTask(task.taskId);
      if running.None? { return NotClaimed; }
      if work.Raised? { return RaisedBy(work.reason); }
      var done := Jobs.Done(running.value, work.status, work.error);
      Jobs.GetAfterPut(before, running.value, task.taskId);
      SaveOver(stores.State(), done);
      stores.SaveTask(done);
      if fault.RecordFails? { return RaisedBy(fault.reason); }
      return Ran(done);
    }

    /** Handles one message; a message of a stored task leaves the store in order. */
    method Handle(message: WorkflowTask, work: Work, fault: Fault) returns (handled: HandledJob)
      requires stores.Valid() && KeyFits(stores.taskItems, message)
      modifies stores
      ensures (stores.State(), handled) == Delivery(old(stores.State()), message, work, fault)
      ensures GetTask(old(stores.taskItems), message.taskId).Some? ==> stores.Valid()
    {
      ghost var before := stores.State();
      ghost var known := GetTask(before.tasks, message.taskId).Some?;
      var found := GetTask(stores.taskItems, message.taskId);
      var current := if found.Some? then found.value else message;
      if Jobs.Finished(current.status) { return HandledJob(current, false, Some(AlreadyFinished)); }
      if !Jobs.Handled(current.kind) {
        var failed := Jobs.Rejected(current);
        if known { SaveOver(stores.State(), failed); }
        stores.SaveTask(failed);
        return HandledJob(failed, false, Some(NoHandler));
      }
      var executed := ExecuteTask(current, work, fault);
      if executed.Ran? { return HandledJob(executed.task, true, None); }
      if executed.NotClaimed? { return HandledJob(current, false, Some(AlreadyClaimed)); }
      var failed := Jobs.Broken(current, executed.reason);
      ExecuteKeepsTask(before, current, work, fault);
      if known { SaveOver(stores.State(), failed); }
      stores.SaveTask(failed);
      return HandledJob(failed, true, Some(JobFailed));
    }
  }

  // ------------------------------------------------------------------- running jobs

  /** A replay; a run in the request; or a message for a worker. */
  datatype Dispatch = Replayed | RanHere | Published

  function Settled(running: WorkflowTask, work: Work): WorkflowTask {
    match work
    case Produced(status, error) => Jobs.Done(running, status, error)
    case Raised(reason) => Jobs.Broken(running, reason)
  }

  /** `_run_job`: a key already held is a replay, published again if it is queued still. */
  function RunJob(m: MemoryState, candidate: WorkflowTask, work: Work, synchronous: bool): (MemoryState, WorkflowTask, Dispatch) {
    var (stored, task, created) := GetOrCreate(m, candidate);
    if !created then (stored, task, if !synchronous && task.status.Queued? then Published else Replayed)
    else if !synchronous then (stored, task, Published)
    else
      var t := Settled(task.(status := Running), work);
      (SaveTask(stored, t), t, RanHere)
  }

  /**
   One job: a held key is answered with its holder, published again while it is queued and
   nobody runs jobs in the request; a new one is stored, and published or run at once.
   */
  lemma RunExactly(m: MemoryState, c: WorkflowTask, work: Work, synchronous: bool)
    requires GetTask(m.tasks, c.taskId).None?
    ensures var (after, task, how) := RunJob(m, c, work, synchronous);
            var holder := FindByKey(m, c.idempotencyKey);
            && (holder.Some? ==> after == m && task == holder.value
                                 && how == if synchronous || holder.value.status != Queued then Replayed else Published)
            && (holder.None? && !synchronous ==> task == c && how == Published && GetTask(after.tasks, c.taskId) == Some(c))
            && (holder.None? && synchronous ==>
                  && how == RanHere && GetTask(after.tasks, c.taskId) == Some(task)
                  && task == match work case Produced(status, error) => c.(status := status, error := error)
                                        case Raised(reason) => FailedWith(c, reason))
            && (forall id | id != c.taskId :: GetTask(after.tasks, id) == GetTask(m.tasks, id))
  {
    forall id: string, a: seq<WorkflowTask>, u: WorkflowTask
      ensures GetTask(PutById(a, TaskId, u), id) == if id == u.taskId then Some(u) else GetTask(a, id)
    {
      Jobs.GetAfterPut(a, u, id);
    }
  }

  /** A second job under the same key answers with the first task, runs nothing and writes nothing. */
  lemma ReplayReturnsTheFirst(m: MemoryState, c: WorkflowTask, first: Work, again: WorkflowTask, second: Work, synchronous: bool)
    requires IndexValid(m.tasks, m.byKey) && GetTask(m.tasks, c.taskId).None? && KeyFits(m.tasks, c)
    requires again.idempotencyKey == c.idempotencyKey
    ensures var once := RunJob(m, c, first, synchronous);
            var twice := RunJob(once.0, again, second, synchronous);
            && twice.0 == once.0 && twice.1 == once.1 && !twice.2.RanHere?
            && (twice.2.Published? <==> !synchronous && once.1.status.Queued?)
  {
    if FindByKey(m, c.idempotencyKey).None? {
      FirstIsFound(m, c, first, synchronous);
    }
  }

  lemma FirstIsFound(m: MemoryState, c: WorkflowTask, work: Work, synchronous: bool)
    requires IndexValid(m.tasks, m.byKey) && GetTask(m.tasks, c.taskId).None? && FindByKey(m, c.idempotencyKey).None?
    ensures var once := RunJob(m, c, work, synchronous); FindByKey(once.0, c.idempotencyKey) == Some(once.1)
  {
    var added := AddTask(m, c);
    FoundByKey(m, c.idempotencyKey);
    assert IndexAt(m.tasks, m.byKey, c.idempotencyKey);
    assert c.idempotencyKey !in m.byKey;
    Jobs.GetAfterPut(m.tasks, c, c.taskId);
    Jobs.GetAfterPut(added.tasks, Settled(c.(status := Running), work), c.taskId);
  }

  class JobRunner {
    const stores: InMemory.InMemoryStores
    const synchronous: bool

    constructor (s: InMemory.InMemoryStores, sync: bool)
      ensures stores == s && synchronous == sync
    {
      stores, synchronous := s, sync;
    }

    method Run(candidate: WorkflowTask, work: Work) returns (task: WorkflowTask, dispatch: Dispatch)
      requires stores.Valid() && GetTask(stores.taskItems, candidate.taskId).None? && KeyFits(stores.taskItems, candidate)
      modifies stores
      ensures (stores.State(), task, dispatch) == RunJob(old(stores.State()), candidate, work, synchronous)
      ensures stores.Valid()
    {
      ghost var before := stores.State();
      var created;
      task, created := stores.GetOrCreateByIdempotencyKey(candidate);
      if !created {
        if !synchronous && task.status.Queued? { return task, Published; }
        return task, Replayed;
      }
      if !synchronous { return task, Published; }
      var running := task.(status := Running);
      if work.Raised? { task := Jobs.Broken(running, work.reason); } else { task := Jobs.Done(running, work.status, work.error); }
      Jobs.GetAfterPut(before.tasks, candidate, candidate.taskId);
      SaveOver(stores.State(), task);
      stores.SaveTask(task);
      return task, RanHere;
    }
  }

  // ------------------------------------------------------------------- the keys

  function TypeName(kind: TaskType): string {
    match kind
    case FactExtract => "fact_extract"
    case ReviewFull => "review_full"
    case ReviewIncremental => "review_incremental"
    case Teaser => "teaser"
    case OtherTask => "other"
  }

  /** A forced review of generation g is keyed apart from every other review of the same script. */
  function JobVersion(asset: string, generation: Option<nat>): string {
    if generation.Some? then asset + ":analysis-generation:" + Table.Decimal(generation.value) else asset
  }

  function JobKey(pid: string, kind: TaskType, version: string): string { pid + ":" + TypeName(kind) + ":" + version }

  lemma SplitAtColon(p: string, a: string, q: string, b: string)
    requires ':' !in p && ':' !in q && p + ":" + a == q + ":" + b
    ensures p == q && a == b
  {
    var s := p + ":" + a;
    assert s[|p|] == ':' && s[|q|] == ':';
    assert forall n | 0 <= n < |p| :: s[n] == p[n] && s[n] != ':';
    assert forall n | 0 <= n < |q| :: s[n] == q[n] && s[n] != ':';
    assert s[..|p|] == p && s[..|q|] == q;
    assert s[|p| + 1..] == a && s[|q| + 1..] == b;
  }

  const TAG := "analysis-generation:"

  lemma TaggedInjective(a: string, g: nat, b: string, h: nat)
    requires ':' !in a && ':' !in b && a + ":" + (TAG + Table.Decimal(g)) == b + ":" + (TAG + Table.Decimal(h))
    ensures a == b && g == h
  {
    var x, y := Table.Decimal(g), Table.Decimal(h);
    SplitAtColon(a, TAG + x, b, TAG + y);
    assert (TAG + x)[|TAG|..] == x && (TAG + y)[|TAG|..] == y;
    Table.DecimalInjective(g, h);
  }

  lemma TaggedForm(a: string, g: nat)
    ensures JobVersion(a, Some(g)) == a + ":" + (TAG + Table.Decimal(g))
  {
    assert ":analysis-generation:" == ":" + TAG;
  }

  lemma VersionInjective(a: string, g: Option<nat>, b: string, h: Option<nat>)
    requires ':' !in a && ':' !in b && JobVersion(a, g) == JobVersion(b, h)
    ensures a == b && g == h
  {
    ColonMarksGeneration(a, g);
    ColonMarksGeneration(b, h);
    if g.Some? {
      TaggedForm(a, g.value);
      TaggedForm(b, h.value);
      TaggedInjective(a, g.value, b, h.value);
    }
  }

  lemma ColonMarksGeneration(asset: string, g: Option<nat>)
    requires ':' !in asset
    ensures ':' in JobVersion(asset, g) <==> g.Some?
  {
    if g.Some? { assert JobVersion(asset, g)[|asset|] == ':'; }
  }

  /** A job key determines what it was made from. */
  lemma KeyInjective(p: string, k: TaskType, a: string, g: Option<nat>, q: string, l: TaskType, b: string, h: Option<nat>)
    requires ':' !in p && ':' !in q && ':' !in a && ':' !in b
    requires JobKey(p, k, JobVersion(a, g)) == JobKey(q, l, JobVersion(b, h))
    ensures p == q && TypeName(k) == TypeName(l) && a == b && g == h
  {
    var v, u := JobVersion(a, g), JobVersion(b, h);
    KeySplits(p, k, v);
    KeySplits(q, l, u);
    SplitAtColon(p, TypeName(k) + ":" + v, q, TypeName(l) + ":" + u);
    NoColonInName(k);
    NoColonInName(l);
    SplitAtColon(TypeName(k), v, TypeName(l), u);
    VersionInjective(a, g, b, h);
  }

  lemma KeySplits(p: string, k: TaskType, v: string)
    ensures JobKey(p, k, v) == p + ":" + (TypeName(k) + ":" + v)
  {
  }

  lemma NoColonInName(k: TaskType)
    ensures ':' !in TypeName(k)
  {
  }

  /** Who made a task's key, and for which generation. */
  ghost predicate KeyedBefore(t: WorkflowTask, generation: nat) {
    exists kind: TaskType, asset: string, g: Option<nat> :: MadeFrom(t, kind, asset, g) && (g.Some? ==> g.value < generation)
  }

  ghost predicate MadeFrom(t: WorkflowTask, kind: TaskType, asset: string, g: Option<nat>) {
    ':' !in t.projectId && ':' !in asset && t.idempotencyKey == JobKey(t.projectId, kind, JobVersion(asset, g))
  }

  /** The review forced by generation g never replays an earlier task: its key is held by nobody. */
  lemma ForcedReviewIsNew(m: MemoryState, c: WorkflowTask, kind: TaskType, asset: string, generation: nat)
    requires MadeFrom(c, kind, asset, Some(generation))
    requires IndexValid(m.tasks, m.byKey) && forall t | t in m.tasks :: KeyedBefore(t, generation)
    ensures GetOrCreate(m, c).1 == c && GetOrCreate(m, c).2
  {
    FoundByKey(m, c.idempotencyKey);
    forall t | t in m.tasks ensures t.idempotencyKey != c.idempotencyKey {
      assert KeyedBefore(t, generation);
      var k: TaskType, a: string, g: Option<nat> :| MadeFrom(t, k, a, g) && (g.Some? ==> g.value < generation);
      if t.idempotencyKey == c.idempotencyKey {
        KeyInjective(t.projectId, k, a, g, c.projectId, kind, asset, Some(generation));
      }
    }
    forall j | 0 <= j < |m.tasks| ensures TaskKey(m.tasks[j]) != c.idempotencyKey { assert m.tasks[j] in m.tasks; }
    FindUnique(m.tasks, TaskKey, c.idempotencyKey, |m.tasks|);
  }
}
