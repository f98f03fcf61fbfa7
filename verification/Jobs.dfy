/**
 Queued jobs. Submitters, redelivered messages and concurrent workers interleave at
 every store call; a worker may raise anywhere and stop at any point.
 */
module Jobs {
  import opened Entities
  import opened Keyed
  import opened MemoryStore

  predicate Finished(s: TaskStatus) { s.Succeeded? || s.Failed? || s.TaskNeedsHuman? }

  predicate Handled(kind: TaskType) { kind.FactExtract? || kind.ReviewFull? || kind.ReviewIncremental? }

  const NO_HANDLER := "no handler"

  /**
   Where one delivery has got to. `current` is the record the worker read. A worker
   that caught an exception is Failing until it has saved; `outside` tells whether the
   exception came from anywhere but the job's own work.
   */
  datatype Worker =
    | Refusing(current: WorkflowTask)
    | Holding(current: WorkflowTask)
    | Working(current: WorkflowTask, running: WorkflowTask)
    | Recording(current: WorkflowTask, finished: WorkflowTask)
    | Failing(current: WorkflowTask, reason: string, outside: bool)
    | Gone

  /** `runs` and `disturbed` only record history: works started, and tasks some worker raised on outside its work. */
  datatype World = World(
    store: MemoryState, published: set<WorkflowTask>, workers: seq<Worker>, runs: seq<string>, disturbed: set<string>)

  datatype Step =
    | Submit(candidate: WorkflowTask)
    | Deliver(message: WorkflowTask)
    | Refuse(worker: nat)
    | Claim(worker: nat)
    | ClaimRaises(worker: nat, reason: string)
    | Finish(worker: nat, status: TaskStatus, error: Option<string>)
    | WorkRaises(worker: nat, reason: string)
    | Record(worker: nat)
    | RecordRaises(worker: nat, reason: string)
    | SaveFailed(worker: nat)
    | Stop(worker: nat)

  function Task(w: World, id: string): Option<WorkflowTask> { GetTask(w.store.tasks, id) }

  function Read(w: World, message: WorkflowTask): WorkflowTask {
    match Task(w, message.taskId) case Some(t) => t case None => message
  }

  function Rejected(t: WorkflowTask): WorkflowTask { t.(status := Failed, error := Some(NO_HANDLER)) }

  function Broken(t: WorkflowTask, reason: string): WorkflowTask { t.(status := Failed, error := Some(reason)) }

  function Done(t: WorkflowTask, status: TaskStatus, error: Option<string>): WorkflowTask {
    t.(status := status, error := error)
  }

  function WorkerAt(w: World, i: nat): Worker { if i < |w.workers| then w.workers[i] else Gone }

  ghost predicate Enabled(w: World, s: Step) {
    match s
    case Submit(c) => c.status.Queued? && Task(w, c.taskId).None? && KeyFits(w.store.tasks, c)
    case Deliver(m) => m in w.published
    case Refuse(i) => WorkerAt(w, i).Refusing?
    case Claim(i) => WorkerAt(w, i).Holding?
    case ClaimRaises(i, _) => WorkerAt(w, i).Holding?
    case Finish(i, status, _) => WorkerAt(w, i).Working? && (status.Succeeded? || status.TaskNeedsHuman?)
    case WorkRaises(i, _) => WorkerAt(w, i).Working?
    case Record(i) => WorkerAt(w, i).Recording?
    case RecordRaises(i, _) => WorkerAt(w, i).Recording?
    case SaveFailed(i) => WorkerAt(w, i).Failing?
    case Stop(i) => i < |w.workers|
  }

  /** A retry of a key whose task is still queued publishes that task again. */
  function Submitted(w: World, candidate: WorkflowTask): World {
    var (store, task, created) := GetOrCreate(w.store, candidate);
    w.(store := store, published := if created || task.status.Queued? then w.published + {task} else w.published)
  }

  /** What is published by a submission: a new task, or the holder of its key while it is still queued. */
  lemma SubmittedExactly(w: World, candidate: WorkflowTask)
    ensures var holder := FindByKey(w.store, candidate.idempotencyKey);
            Submitted(w, candidate).published ==
            w.published + (match holder case None => {candidate} case Some(t) => if t.status == Queued then {t} else {})
  {
  }

  function Delivered(w: World, message: WorkflowTask): World {
    var current := Read(w, message);
    if Finished(current.status) then w
    else if !Handled(current.kind) then w.(workers := w.workers + [Refusing(current)])
    else w.(workers := w.workers + [Holding(current)])
  }

  /** A delivery of a finished task starts nothing; of any other it starts one worker, which refuses a type nobody handles. */
  lemma DeliveredExactly(w: World, message: WorkflowTask)
    ensures var read := match Task(w, message.taskId) case Some(t) => t case None => message;
            var v := Delivered(w, message);
            && v == w.(workers := v.workers)
            && (read.status in {Succeeded, Failed, TaskNeedsHuman} ==> v.workers == w.workers)
            && (read.status in {Queued, Running} ==>
                  v.workers == w.workers +
                  [if read.kind in {FactExtract, ReviewFull, ReviewIncremental} then Holding(read) else Refusing(read)])
  {
  }

  function Become(w: World, i: nat, k: Worker): World
    requires i < |w.workers|
  {
    w.(workers := w.workers[i := k])
  }

  /** A save, after which the worker is `next`. */
  function Saved(w: World, i: nat, t: WorkflowTask, next: Worker): World
    requires i < |w.workers|
  {
    w.(store := SaveTask(w.store, t), workers := w.workers[i := next])
  }

  function Claimed(w: World, i: nat): World
    requires WorkerAt(w, i).Holding?
  {
    var current := w.workers[i].current;
    var (store, running) := ClaimTask(w.store, current.taskId);
    match running
    case None => Become(w, i, Gone)
    case Some(r) => Saved(w, i, r, Working(current, r)).(runs := w.runs + [r.taskId])
  }

  /** An exception from outside the work reaches the same handler. */
  function Disturbed(w: World, i: nat, reason: string): World
    requires WorkerAt(w, i).Holding? || WorkerAt(w, i).Recording?
  {
    var c := w.workers[i].current;
    Become(w, i, Failing(c, reason, true)).(disturbed := w.disturbed + {c.taskId})
  }

  ghost function After(w: World, s: Step): World
    requires Enabled(w, s)
  {
    match s
    case Submit(c) => Submitted(w, c)
    case Deliver(m) => Delivered(w, m)
    case Refuse(i) => Saved(w, i, Rejected(w.workers[i].current), Gone)
    case Claim(i) => Claimed(w, i)
    case ClaimRaises(i, reason) => Disturbed(w, i, reason)
    case Finish(i, status, error) =>
      var t := Done(w.workers[i].running, status, error);
      Saved(w, i, t, Recording(w.workers[i].current, t))
    case WorkRaises(i, reason) => Become(w, i, Failing(w.workers[i].current, reason, false))
    case Record(i) => Become(w, i, Gone)
    case RecordRaises(i, reason) => Disturbed(w, i, reason)
    case SaveFailed(i) => Saved(w, i, Broken(w.workers[i].current, w.workers[i].reason), Gone)
    case Stop(i) => Become(w, i, Gone)
  }

  // ------------------------------------------------------------------- invariant

  /** The parts of a task no write changes. */
  predicate Same(t: WorkflowTask, u: WorkflowTask) {
    t.taskId == u.taskId && t.idempotencyKey == u.idempotencyKey && t.kind == u.kind && t.projectId == u.projectId
  }

  ghost predicate Known(w: World, t: WorkflowTask) { Task(w, t.taskId).Some? && Same(Task(w, t.taskId).value, t) }

  ghost predicate AllKnown(w: World) { forall t | t in w.published :: Known(w, t) }

  /** The one delivery that won the claim, until it has saved a verdict. */
  predicate Owns(k: Worker) { k.Working? || k.Recording? || (k.Failing? && !k.outside) }

  ghost predicate Started(w: World, id: string) { Task(w, id).Some? && !Task(w, id).value.status.Queued? }

  ghost predicate WorkerOk(w: World, k: Worker) {
    match k
    case Gone => true
    case Holding(c) => Known(w, c) && Handled(c.kind)
    case Refusing(c) =>
      && Known(w, c) && !Handled(c.kind) && c.status.Queued?
      && (Task(w, c.taskId) == Some(c) || Task(w, c.taskId) == Some(Rejected(c)))
    case Working(c, r) =>
      && Known(w, c) && Same(c, r) && Handled(c.kind) && Started(w, c.taskId) && r.status.Running?
      && (c.taskId !in w.disturbed ==> Task(w, c.taskId) == Some(r))
    case Recording(c, f) => Known(w, c) && Same(c, f) && Handled(c.kind) && Started(w, c.taskId)
    case Failing(c, _, outside) =>
      && Known(w, c) && Handled(c.kind) && (outside ==> c.taskId in w.disturbed)
      && (!outside ==> Started(w, c.taskId))
      && (!outside && c.taskId !in w.disturbed ==> Task(w, c.taskId).value.status.Running?)
  }

  ghost predicate WorkersOk(w: World) { forall i | 0 <= i < |w.workers| :: WorkerOk(w, w.workers[i]) }

  predicate Apart(j: Worker, k: Worker) { Owns(j) && Owns(k) ==> j.current.taskId != k.current.taskId }

  ghost predicate OneOwnerEach(w: World) {
    forall i, j | 0 <= i < j < |w.workers| :: Apart(w.workers[i], w.workers[j])
  }

  function Itself(s: string): string { s }

  ghost predicate RunsOk(w: World) { Distinct(w.runs, Itself) && forall id | id in w.runs :: Started(w, id) }

  ghost predicate TaskOk(t: WorkflowTask) { !Handled(t.kind) ==> t.status.Queued? || t.status.Failed? }

  ghost predicate TasksOk(w: World) { forall t | t in w.store.tasks :: TaskOk(t) }

  ghost predicate StoreOk(w: World) { IndexValid(w.store.tasks, w.store.byKey) && Distinct(w.store.tasks, TaskKey) }

  ghost predicate Inv(w: World) {
    StoreOk(w) && TasksOk(w) && AllKnown(w) && WorkersOk(w) && OneOwnerEach(w) && RunsOk(w)
  }

  // --------------------------------------------------------------- one saved task

  lemma GetAfterPut(tasks: seq<WorkflowTask>, t: WorkflowTask, id: string)
    ensures GetTask(PutById(tasks, TaskId, t), id) == if id == t.taskId then Some(t) else GetTask(tasks, id)
  {
    PutByIdKeepsIds(tasks, TaskId, t, id);
  }

  lemma GetIsIn(tasks: seq<WorkflowTask>, id: string)
    requires GetTask(tasks, id).Some?
    ensures GetTask(tasks, id).value in tasks && GetTask(tasks, id).value.taskId == id
  {
  }

  lemma PutSameKeepsKeys(tasks: seq<WorkflowTask>, t: WorkflowTask)
    requires Distinct(tasks, TaskKey)
    requires GetTask(tasks, t.taskId).Some? && Same(GetTask(tasks, t.taskId).value, t)
    ensures Distinct(PutById(tasks, TaskId, t), TaskKey)
  {
    var n := Find(tasks, TaskId, t.taskId);
    var after := tasks[n := t];
    forall i, j | 0 <= i < j < |after| ensures TaskKey(after[i]) != TaskKey(after[j]) {
      assert TaskKey(tasks[i]) != TaskKey(tasks[j]);
    }
  }

  lemma PutTasksOk(tasks: seq<WorkflowTask>, t: WorkflowTask)
    requires (forall u | u in tasks :: TaskOk(u)) && TaskOk(t)
    ensures forall u | u in PutById(tasks, TaskId, t) :: TaskOk(u)
  {
    forall u | u in PutById(tasks, TaskId, t) ensures TaskOk(u) { assert u == t || u in tasks; }
  }

  ghost predicate OneWrite(w: World, v: World, t: WorkflowTask) {
    forall id :: Task(v, id) == if id == t.taskId then Some(t) else Task(w, id)
  }

  /** A save of a known task, seen from the store. */
  lemma SaveKeepsStore(w: World, v: World, t: WorkflowTask)
    requires StoreOk(w) && TasksOk(w) && AllKnown(w) && Known(w, t) && TaskOk(t)
    requires v.store == SaveTask(w.store, t) && v.published == w.published
    ensures StoreOk(v) && TasksOk(v) && AllKnown(v) && OneWrite(w, v, t)
  {
    ResaveKeepsOrder(w.store, t);
    PutSameKeepsKeys(w.store.tasks, t);
    PutTasksOk(w.store.tasks, t);
    forall id ensures Task(v, id) == if id == t.taskId then Some(t) else Task(w, id) { GetAfterPut(w.store.tasks, t, id); }
    forall u | u in v.published ensures Known(v, u) { assert Known(w, u); }
  }

  /** What a write of `t` must respect in another worker. */
  ghost predicate Aside(w: World, k: Worker, t: WorkflowTask) {
    && (Owns(k) && k.current.taskId == t.taskId ==> t.taskId in w.disturbed)
    && (k.Refusing? && k.current.taskId == t.taskId ==> t == Rejected(k.current))
  }

  lemma WorkerSurvives(w: World, v: World, t: WorkflowTask, k: Worker)
    requires WorkerOk(w, k) && Known(w, t) && !t.status.Queued? && OneWrite(w, v, t) && w.disturbed <= v.disturbed
    requires Aside(w, k, t)
    ensures WorkerOk(v, k)
  {
  }

  lemma WorkersSurvive(w: World, v: World, t: WorkflowTask, i: nat)
    requires WorkersOk(w) && Known(w, t) && !t.status.Queued? && OneWrite(w, v, t) && w.disturbed <= v.disturbed
    requires i < |w.workers| && |v.workers| == |w.workers| && v.workers == w.workers[i := v.workers[i]]
    requires WorkerOk(v, v.workers[i])
    requires forall j | 0 <= j < |w.workers| && j != i :: Aside(w, w.workers[j], t)
    ensures WorkersOk(v)
  {
    forall j | 0 <= j < |v.workers| ensures WorkerOk(v, v.workers[j]) {
      if j != i {
        assert WorkerOk(w, w.workers[j]) && Aside(w, w.workers[j], t);
        WorkerSurvives(w, v, t, w.workers[j]);
      }
    }
  }

  lemma ApartAfter(w: World, v: World, i: nat)
    requires OneOwnerEach(w) && i < |w.workers| && |v.workers| == |w.workers| && v.workers == w.workers[i := v.workers[i]]
    requires forall j | 0 <= j < |w.workers| && j != i :: Apart(v.workers[i], w.workers[j])
    ensures OneOwnerEach(v)
  {
    forall a, b | 0 <= a < b < |v.workers| ensures Apart(v.workers[a], v.workers[b]) {
      assert Apart(w.workers[a], w.workers[b]);
      if a == i { assert Apart(v.workers[i], w.workers[b]); }
      if b == i { assert Apart(v.workers[i], w.workers[a]); }
    }
  }

  /** A worker that changes phase without taking a claim stays apart from the others. */
  lemma StaysApart(w: World, i: nat, k: Worker)
    requires OneOwnerEach(w) && i < |w.workers|
    requires Owns(k) ==> Owns(w.workers[i]) && k.current.taskId == w.workers[i].current.taskId
    ensures forall j | 0 <= j < |w.workers| && j != i :: Apart(k, w.workers[j])
  {
    forall j | 0 <= j < |w.workers| && j != i ensures Apart(k, w.workers[j]) {
      if j < i { assert Apart(w.workers[j], w.workers[i]); } else { assert Apart(w.workers[i], w.workers[j]); }
    }
  }

  lemma RunsStay(w: World, v: World, t: WorkflowTask)
    requires RunsOk(w) && !t.status.Queued? && v.runs == w.runs && OneWrite(w, v, t)
    ensures RunsOk(v)
  {
    forall id | id in v.runs ensures Started(v, id) { assert Started(w, id); }
  }

  // ----------------------------------------------------------------------- steps

  /** Steps that leave the store alone and move one worker. */
  lemma MoveKeeps(w: World, v: World, i: nat)
    requires Inv(w) && i < |w.workers| && w.disturbed <= v.disturbed
    requires v == w.(workers := v.workers, disturbed := v.disturbed)
    requires |v.workers| == |w.workers| && v.workers == w.workers[i := v.workers[i]] && WorkerOk(v, v.workers[i])
    requires Owns(v.workers[i]) ==> Owns(w.workers[i]) && v.workers[i].current.taskId == w.workers[i].current.taskId
    ensures Inv(v)
  {
    forall j | 0 <= j < |v.workers| ensures WorkerOk(v, v.workers[j]) {
      if j != i { assert WorkerOk(w, w.workers[j]); }
    }
    StaysApart(w, i, v.workers[i]);
    ApartAfter(w, v, i);
    forall u | u in v.published ensures Known(v, u) { assert Known(w, u); }
    forall id | id in v.runs ensures Started(v, id) { assert Started(w, id); }
  }

  /** A save that settles a task, whoever makes it. */
  lemma SavedKeeps(w: World, i: nat, t: WorkflowTask, next: Worker)
    requires Inv(w) && i < |w.workers| && Known(w, t) && TaskOk(t) && !t.status.Queued?
    requires forall j | 0 <= j < |w.workers| && j != i :: Aside(w, w.workers[j], t)
    requires Owns(next) ==> Owns(w.workers[i]) && next.current.taskId == w.workers[i].current.taskId
    requires OneWrite(w, Saved(w, i, t, next), t) ==> WorkerOk(Saved(w, i, t, next), next)
    ensures Inv(Saved(w, i, t, next))
  {
    var v := Saved(w, i, t, next);
    SaveKeepsStore(w, v, t);
    WorkersSurvive(w, v, t, i);
    StaysApart(w, i, next);
    ApartAfter(w, v, i);
    RunsStay(w, v, t);
  }

  /** An owner's task is no other owner's, and no refused one. */
  lemma OthersAside(w: World, i: nat, t: WorkflowTask)
    requires WorkersOk(w) && OneOwnerEach(w) && i < |w.workers| && (w.workers[i].Working? || w.workers[i].Failing?)
    requires t.taskId == w.workers[i].current.taskId
    ensures forall j | 0 <= j < |w.workers| && j != i :: Aside(w, w.workers[j], t)
  {
    assert WorkerOk(w, w.workers[i]);
    forall j | 0 <= j < |w.workers| && j != i ensures Aside(w, w.workers[j], t) {
      assert WorkerOk(w, w.workers[j]);
      if j < i { assert Apart(w.workers[j], w.workers[i]); } else { assert Apart(w.workers[i], w.workers[j]); }
    }
  }

  lemma FinishKeeps(w: World, i: nat, status: TaskStatus, error: Option<string>)
    requires Inv(w) && Enabled(w, Finish(i, status, error))
    ensures Inv(After(w, Finish(i, status, error)))
  {
    assert WorkerOk(w, w.workers[i]);
    var t := Done(w.workers[i].running, status, error);
    OthersAside(w, i, t);
    SavedKeeps(w, i, t, Recording(w.workers[i].current, t));
  }

  lemma SaveFailedKeeps(w: World, i: nat)
    requires Inv(w) && Enabled(w, SaveFailed(i))
    ensures Inv(After(w, SaveFailed(i)))
  {
    assert WorkerOk(w, w.workers[i]);
    var t := Broken(w.workers[i].current, w.workers[i].reason);
    OthersAside(w, i, t);
    SavedKeeps(w, i, t, Gone);
  }

  lemma RefuseKeeps(w: World, i: nat)
    requires Inv(w) && Enabled(w, Refuse(i))
    ensures Inv(After(w, Refuse(i)))
  {
    var t := Rejected(w.workers[i].current);
    assert WorkerOk(w, w.workers[i]);
    forall j | 0 <= j < |w.workers| && j != i ensures Aside(w, w.workers[j], t) { assert WorkerOk(w, w.workers[j]); }
    SavedKeeps(w, i, t, Gone);
  }

  lemma ClaimKeeps(w: World, i: nat)
    requires Inv(w) && Enabled(w, Claim(i))
    ensures Inv(Claimed(w, i))
  {
    var v := Claimed(w, i);
    var c := w.workers[i].current;
    assert WorkerOk(w, w.workers[i]);
    var t := Task(w, c.taskId).value;
    GetIsIn(w.store.tasks, c.taskId);
    if t.status.Queued? {
      var r := t.(status := Running);
      assert v.workers[i] == Working(c, r);
      SaveKeepsStore(w, v, r);
      forall j | 0 <= j < |w.workers| && j != i ensures Aside(w, w.workers[j], r) && Apart(v.workers[i], w.workers[j]) {
        assert WorkerOk(w, w.workers[j]);
      }
      WorkersSurvive(w, v, r, i);
      ApartAfter(w, v, i);
      NewRun(w, v, r);
    } else {
      MoveKeeps(w, v, i);
    }
  }

  lemma NewRun(w: World, v: World, r: WorkflowTask)
    requires RunsOk(w) && !Started(w, r.taskId) && v.runs == w.runs + [r.taskId] && OneWrite(w, v, r) && r.status.Running?
    ensures RunsOk(v)
  {
    forall id | id in v.runs ensures Started(v, id) { if id in w.runs { assert Started(w, id); } }
  }

  lemma SubmitKeeps(w: World, c: WorkflowTask)
    requires Inv(w) && Enabled(w, Submit(c))
    ensures Inv(Submitted(w, c))
  {
    var v := Submitted(w, c);
    var tasks := w.store.tasks;
    var n := Find(tasks, TaskKey, c.idempotencyKey);
    FoundByKey(w.store, c.idempotencyKey);
    if n < |tasks| {
      GetAt(tasks, n);
      SubmitAgain(w, v, tasks[n]);
    } else {
      AddKeepsIndex(w.store, c);
      forall id ensures Task(v, id) == if id == c.taskId then Some(c) else Task(w, id) { GetAfterPut(tasks, c, id); }
      SubmitNew(w, v, c);
    }
  }

  lemma SubmitAgain(w: World, v: World, t: WorkflowTask)
    requires Inv(w) && Task(w, t.taskId) == Some(t)
    requires v == w || v == w.(published := w.published + {t})
    ensures Inv(v)
  {
    forall u | u in v.published ensures Known(v, u) { assert u == t || Known(w, u); }
    forall i | 0 <= i < |v.workers| ensures WorkerOk(v, v.workers[i]) { assert WorkerOk(w, w.workers[i]); }
    forall id | id in v.runs ensures Started(v, id) { assert Started(w, id); }
  }

  lemma SubmitNew(w: World, v: World, c: WorkflowTask)
    requires Inv(w) && c.status.Queued? && Task(w, c.taskId).None?
    requires v == w.(store := AddTask(w.store, c), published := w.published + {c})
    requires IndexValid(v.store.tasks, v.store.byKey) && OneWrite(w, v, c)
    requires Find(w.store.tasks, TaskKey, c.idempotencyKey) == |w.store.tasks|
    ensures Inv(v)
  {
    assert v.store.tasks == w.store.tasks + [c];
    forall u | u in v.published ensures Known(v, u) { assert u == c || Known(w, u); }
    forall i | 0 <= i < |v.workers| ensures WorkerOk(v, v.workers[i]) { assert WorkerOk(w, w.workers[i]); }
    forall id | id in v.runs ensures Started(v, id) { assert Started(w, id); }
    forall u | u in v.store.tasks ensures TaskOk(u) { assert u == c || u in w.store.tasks; }
  }

  lemma DeliverKeeps(w: World, m: WorkflowTask)
    requires Inv(w) && m in w.published
    ensures Inv(Delivered(w, m))
  {
    var v := Delivered(w, m);
    assert Known(w, m);
    GetIsIn(w.store.tasks, m.taskId);
    forall i | 0 <= i < |v.workers| ensures WorkerOk(v, v.workers[i]) {
      if i < |w.workers| { assert WorkerOk(w, w.workers[i]); }
    }
    forall a, b | 0 <= a < b < |v.workers| ensures Apart(v.workers[a], v.workers[b]) {
      if b < |w.workers| { assert Apart(w.workers[a], w.workers[b]); }
    }
    forall u | u in v.published ensures Known(v, u) { assert Known(w, u); }
    forall id | id in v.runs ensures Started(v, id) { assert Started(w, id); }
  }

  lemma StepKeeps(w: World, s: Step)
    requires Inv(w) && Enabled(w, s)
    ensures Inv(After(w, s)) && w.disturbed <= After(w, s).disturbed
  {
    match s {
      case Submit(c) => SubmitKeeps(w, c);
      case Deliver(m) => DeliverKeeps(w, m);
      case Refuse(i) => RefuseKeeps(w, i);
      case Claim(i) => ClaimKeeps(w, i);
      case Finish(i, status, error) => FinishKeeps(w, i, status, error);
      case SaveFailed(i) => SaveFailedKeeps(w, i);
      case _ => assert WorkerOk(w, w.workers[s.worker]); MoveKeeps(w, After(w, s), s.worker);
    }
  }

  // ------------------------------------------------------------------------ runs

  const EMPTY := World(MemoryState([], map[], [], map[], map[]), {}, [], [], {})

  ghost predicate Went(ws: seq<World>, ss: seq<Step>, i: nat)
    requires i < |ss| && |ws| == |ss| + 1
  {
    Enabled(ws[i], ss[i]) && ws[i + 1] == After(ws[i], ss[i])
  }

  /** A run from a state: the states it goes through and the steps between them. */
  ghost predicate Follows(w: World, ws: seq<World>, ss: seq<Step>) {
    |ws| == |ss| + 1 && ws[0] == w && forall i: nat | i < |ss| :: Went(ws, ss, i)
  }

  ghost predicate Reaches(ws: seq<World>, ss: seq<Step>) { Follows(EMPTY, ws, ss) }

  lemma {:induction false} FollowsKeeps(w: World, ws: seq<World>, ss: seq<Step>, i: nat)
    requires Inv(w) && Follows(w, ws, ss) && i < |ws|
    ensures Inv(ws[i])
  {
    if i > 0 {
      var m: nat := i - 1;
      FollowsKeeps(w, ws, ss, m);
      assert Went(ws, ss, m);
      StepKeeps(ws[m], ss[m]);
    }
  }

  lemma EveryStateKeeps(ws: seq<World>, ss: seq<Step>, i: nat)
    requires Reaches(ws, ss) && i < |ws|
    ensures Inv(ws[i])
  {
    assert forall k :: IndexAt([], map[], k);
    FollowsKeeps(EMPTY, ws, ss, i);
  }

  /**
   Whatever is resubmitted, redelivered, raced or raised: one task per key, the key
   index answers as a scan, and each task's work is started at most once.
   */
  lemma AtMostOnce(ws: seq<World>, ss: seq<Step>, i: nat)
    requires Reaches(ws, ss) && i < |ws|
    ensures forall t, u | t in ws[i].store.tasks && u in ws[i].store.tasks && t.idempotencyKey == u.idempotencyKey :: t == u
    ensures forall key :: FindByKey(ws[i].store, key) == FirstByKey(ws[i].store.tasks, key)
    ensures forall a, b | 0 <= a < b < |ws[i].runs| :: ws[i].runs[a] != ws[i].runs[b]
    ensures forall id | id in ws[i].runs :: Started(ws[i], id)
  {
    EveryStateKeeps(ws, ss, i);
    var w := ws[i];
    forall key ensures FindByKey(w.store, key) == FirstByKey(w.store.tasks, key) { FoundByKey(w.store, key); }
    forall t, u | t in w.store.tasks && u in w.store.tasks && t.idempotencyKey == u.idempotencyKey ensures t == u {
      var a :| 0 <= a < |w.store.tasks| && w.store.tasks[a] == t;
      var b :| 0 <= b < |w.store.tasks| && w.store.tasks[b] == u;
      var ka, kb := TaskKey(w.store.tasks[a]), TaskKey(w.store.tasks[b]);
      assert ka == kb && a == b;
    }
    forall a, b | 0 <= a < b < |w.runs| ensures w.runs[a] != w.runs[b] {
      assert Itself(w.runs[a]) != Itself(w.runs[b]);
    }
  }

  // ------------------------------------------------------------ finished records

  /** What a step saves, if it saves an existing record. */
  ghost function Save(w: World, s: Step): Option<WorkflowTask>
    requires Enabled(w, s)
  {
    match s
    case Finish(i, status, error) => Some(Done(w.workers[i].running, status, error))
    case SaveFailed(i) => Some(Broken(w.workers[i].current, w.workers[i].reason))
    case _ => None
  }

  ghost predicate Ended(w: World, id: string) { Task(w, id).Some? && Finished(Task(w, id).value.status) }

  /** A step that changes a finished record: a verdict or a failure saved over it. */
  ghost predicate Overwrites(w: World, s: Step, id: string)
    requires Enabled(w, s)
  {
    Save(w, s).Some? && Save(w, s).value.taskId == id && Task(w, id) != Save(w, s)
  }

  /**
   What one step does to a finished record: it changes it only by saving a different
   verdict or failure over it, and only for tasks on which some worker has raised
   outside the job's own work.
   */
  lemma FinishedStep(w: World, s: Step, id: string)
    requires Inv(w) && Enabled(w, s) && Ended(w, id)
    ensures Task(After(w, s), id) == Task(w, id) <==> !Overwrites(w, s, id)
    ensures Overwrites(w, s, id) ==> id in w.disturbed
  {
    match s {
      case Submit(c) => FinishedSubmit(w, c, id);
      case Refuse(i) => FinishedRefuse(w, i, id);
      case Claim(i) => FinishedClaim(w, i, id);
      case Finish(i, status, error) => FinishedFinish(w, i, status, error, id);
      case SaveFailed(i) => FinishedSaveFailed(w, i, id);
      case _ =>
    }
  }

  lemma FinishedRefuse(w: World, i: nat, id: string)
    requires Inv(w) && Enabled(w, Refuse(i)) && Ended(w, id)
    ensures Task(After(w, Refuse(i)), id) == Task(w, id)
  {
    assert WorkerOk(w, w.workers[i]);
    GetAfterPut(w.store.tasks, Rejected(w.workers[i].current), id);
  }

  lemma FinishedClaim(w: World, i: nat, id: string)
    requires Inv(w) && Enabled(w, Claim(i)) && Ended(w, id)
    ensures Task(After(w, Claim(i)), id) == Task(w, id)
  {
    assert WorkerOk(w, w.workers[i]);
    GetAfterPut(w.store.tasks, Task(w, w.workers[i].current.taskId).value.(status := Running), id);
  }

  lemma FinishedFinish(w: World, i: nat, status: TaskStatus, error: Option<string>, id: string)
    requires Inv(w) && Enabled(w, Finish(i, status, error)) && Ended(w, id)
    ensures var s := Finish(i, status, error);
            && (Task(After(w, s), id) == Task(w, id) <==> !Overwrites(w, s, id))
            && (Overwrites(w, s, id) ==> id in w.disturbed)
  {
    assert WorkerOk(w, w.workers[i]);
    GetAfterPut(w.store.tasks, Save(w, Finish(i, status, error)).value, id);
  }

  lemma FinishedSaveFailed(w: World, i: nat, id: string)
    requires Inv(w) && Enabled(w, SaveFailed(i)) && Ended(w, id)
    ensures var s := SaveFailed(i);
            && (Task(After(w, s), id) == Task(w, id) <==> !Overwrites(w, s, id))
            && (Overwrites(w, s, id) ==> id in w.disturbed)
  {
    assert WorkerOk(w, w.workers[i]);
    GetAfterPut(w.store.tasks, Save(w, SaveFailed(i)).value, id);
  }

  lemma FinishedSubmit(w: World, c: WorkflowTask, id: string)
    requires Inv(w) && Enabled(w, Submit(c)) && Task(w, id).Some?
    ensures Task(Submitted(w, c), id) == Task(w, id)
  {
    GetAfterPut(w.store.tasks, c, id);
  }

  lemma EndedStep(w: World, s: Step, id: string)
    requires Inv(w) && Enabled(w, s) && Ended(w, id)
    ensures Ended(After(w, s), id)
  {
    FinishedStep(w, s, id);
    if Overwrites(w, s, id) { GetAfterPut(w.store.tasks, Save(w, s).value, id); }
  }

  /** Terminal statuses stay terminal, whoever raises where: only another terminal status can replace one. */
  lemma {:induction false} TerminalStays(ws: seq<World>, ss: seq<Step>, i: nat, j: nat, id: string)
    requires Reaches(ws, ss) && i <= j < |ws| && Ended(ws[i], id)
    ensures Ended(ws[j], id)
    decreases j
  {
    if i < j {
      var m: nat := j - 1;
      TerminalStays(ws, ss, i, m, id);
      EveryStateKeeps(ws, ss, m);
      assert Went(ws, ss, m);
      EndedStep(ws[m], ss[m], id);
    }
  }

  /** A worker on task `id` that can still write it: it is before its verdict's record, or about to save another failure. */
  ghost predicate MayWrite(w: World, k: Worker, id: string) {
    && !k.Gone? && k.current.taskId == id
    && (k.Holding? || k.Working? || k.Recording? || (k.Failing? && Task(w, id) != Some(Broken(k.current, k.reason))))
  }

  ghost predicate Quiet(w: World, id: string) { forall i | 0 <= i < |w.workers| :: !MayWrite(w, w.workers[i], id) }

  /** While nobody may write it, no step changes a finished record or gives it a writer. */
  lemma QuietStep(w: World, s: Step, id: string)
    requires Inv(w) && Enabled(w, s) && Ended(w, id) && Quiet(w, id)
    ensures Task(After(w, s), id) == Task(w, id) && Quiet(After(w, s), id)
  {
    var v := After(w, s);
    QuietRecord(w, s, id);
    forall i | 0 <= i < |v.workers| ensures !MayWrite(v, v.workers[i], id) {
      if i < |w.workers| { assert !MayWrite(w, w.workers[i], id); }
      QuietWorker(w, s, i, id);
    }
  }

  lemma QuietRecord(w: World, s: Step, id: string)
    requires Inv(w) && Enabled(w, s) && Ended(w, id) && Quiet(w, id)
    ensures Task(After(w, s), id) == Task(w, id)
  {
    FinishedStep(w, s, id);
    if s.Finish? || s.SaveFailed? {
      assert !MayWrite(w, w.workers[s.worker], id) && WorkerOk(w, w.workers[s.worker]);
    }
  }

  lemma QuietWorker(w: World, s: Step, i: nat, id: string)
    requires Inv(w) && Enabled(w, s) && Ended(w, id) && i < |After(w, s).workers|
    requires Task(After(w, s), id) == Task(w, id)
    requires i < |w.workers| ==> !MayWrite(w, w.workers[i], id)
    ensures !MayWrite(After(w, s), After(w, s).workers[i], id)
  {
    if i < |w.workers| { assert WorkerOk(w, w.workers[i]); }
    if s == Claim(i) && w.workers[i].current.taskId != id { ClaimOfAnother(w, i, id); }
  }

  lemma ClaimOfAnother(w: World, i: nat, id: string)
    requires Inv(w) && Enabled(w, Claim(i)) && w.workers[i].current.taskId != id
    ensures !Claimed(w, i).workers[i].Gone? ==> Claimed(w, i).workers[i].current.taskId != id
  {
  }

  lemma {:induction false} QuietForever(w: World, ws: seq<World>, ss: seq<Step>, i: nat, id: string)
    requires Inv(w) && Follows(w, ws, ss) && i < |ws| && Ended(w, id) && Quiet(w, id)
    ensures Task(ws[i], id) == Task(w, id) && Quiet(ws[i], id)
  {
    if i > 0 {
      var m: nat := i - 1;
      QuietForever(w, ws, ss, m, id);
      FollowsKeeps(w, ws, ss, m);
      assert Went(ws, ss, m);
      QuietStep(ws[m], ss[m], id);
    }
  }

  /** Whatever happens next, the record of the task is the one it has now. */
  ghost predicate Stands(w: World, id: string) {
    forall ws, ss | Follows(w, ws, ss) :: Task(ws[|ss|], id) == Task(w, id)
  }

  lemma OneStep(w: World, s: Step)
    requires Enabled(w, s)
    ensures Follows(w, [w, After(w, s)], [s])
  {
    assert Went([w, After(w, s)], [s], 0);
  }

  lemma TwoSteps(w: World, s: Step, t: Step)
    requires Enabled(w, s) && Enabled(After(w, s), t)
    ensures Follows(w, [w, After(w, s), After(After(w, s), t)], [s, t])
  {
    var ws := [w, After(w, s), After(After(w, s), t)];
    assert Went(ws, [s, t], 0) && Went(ws, [s, t], 1);
  }

  /** A failure saved over the record, whose reason is not the stored one. */
  lemma FailureChanges(w: World, i: nat, id: string)
    requires i < |w.workers| && w.workers[i].Failing? && MayWrite(w, w.workers[i], id)
    ensures Enabled(w, SaveFailed(i)) && Task(After(w, SaveFailed(i)), id) != Task(w, id)
  {
    GetAfterPut(w.store.tasks, Broken(w.workers[i].current, w.workers[i].reason), id);
  }

  function OtherThan(e: Option<string>): string { if e == Some("a") then "b" else "a" }

  /** A worker that may still raise outside its work can put another failure on the record. */
  lemma RaiseChanges(w: World, i: nat, s: Step, id: string)
    requires i < |w.workers| && MayWrite(w, w.workers[i], id) && Task(w, id).Some?
    requires w.workers[i].Holding? || w.workers[i].Recording?
    requires var reason := OtherThan(Task(w, id).value.error);
             s == if w.workers[i].Holding? then ClaimRaises(i, reason) else RecordRaises(i, reason)
    ensures Enabled(w, s) && Enabled(After(w, s), SaveFailed(i))
    ensures Task(After(After(w, s), SaveFailed(i)), id) != Task(w, id)
  {
    var v := After(w, s);
    assert v.workers[i] == Failing(w.workers[i].current, s.reason, true) && Task(v, id) == Task(w, id);
    FailureChanges(v, i, id);
  }

  lemma VerdictChanges(w: World, i: nat, id: string)
    requires Inv(w) && i < |w.workers| && w.workers[i].Working? && MayWrite(w, w.workers[i], id) && Task(w, id).Some?
    ensures var s := Finish(i, Succeeded, Some(OtherThan(Task(w, id).value.error)));
            Enabled(w, s) && Task(After(w, s), id) != Task(w, id)
  {
    assert WorkerOk(w, w.workers[i]);
    var t := Done(w.workers[i].running, Succeeded, Some(OtherThan(Task(w, id).value.error)));
    GetAfterPut(w.store.tasks, t, id);
  }

  /** While a worker may write a record, at most two steps change it. */
  lemma WriterChanges(w: World, i: nat, id: string)
    requires Inv(w) && i < |w.workers| && MayWrite(w, w.workers[i], id) && Task(w, id).Some?
    ensures !Stands(w, id)
  {
    if w.workers[i].Working? {
      var s := Finish(i, Succeeded, Some(OtherThan(Task(w, id).value.error)));
      VerdictChanges(w, i, id);
      OneStep(w, s);
      assert [w, After(w, s)][|[s]|] == After(w, s);
    } else if w.workers[i].Failing? {
      FailureChanges(w, i, id);
      OneStep(w, SaveFailed(i));
      assert [w, After(w, SaveFailed(i))][|[SaveFailed(i)]|] == After(w, SaveFailed(i));
    } else {
      var reason := OtherThan(Task(w, id).value.error);
      var s := if w.workers[i].Holding? then ClaimRaises(i, reason) else RecordRaises(i, reason);
      RaiseChanges(w, i, s, id);
      TwoSteps(w, s, SaveFailed(i));
      var ws := [w, After(w, s), After(After(w, s), SaveFailed(i))];
      assert ws[|[s, SaveFailed(i)]|] == After(After(w, s), SaveFailed(i));
    }
  }

  /**
   When a finished record stands for good. In any state of the invariant, nothing that
   can happen later changes it if and only if no worker may still write it: none holds
   it unclaimed, works on it, has its event still to record, or is about to save a failure
   that is not the stored one.
   */
  lemma RecordStandsExactly(w: World, id: string)
    requires Inv(w) && Ended(w, id)
    ensures Stands(w, id) <==> Quiet(w, id)
  {
    if Quiet(w, id) {
      forall ws, ss | Follows(w, ws, ss) ensures Task(ws[|ss|], id) == Task(w, id) {
        QuietForever(w, ws, ss, |ss|, id);
      }
    } else {
      var i :| 0 <= i < |w.workers| && MayWrite(w, w.workers[i], id);
      WriterChanges(w, i, id);
    }
  }

  /** In a run: a record that is finished with nobody left to write it is the record of every later state. */
  lemma {:induction false} QuietRecordStays(ws: seq<World>, ss: seq<Step>, i: nat, j: nat, id: string)
    requires Reaches(ws, ss) && i <= j < |ws| && Ended(ws[i], id) && Quiet(ws[i], id)
    ensures Task(ws[j], id) == Task(ws[i], id) && Quiet(ws[j], id)
    decreases j
  {
    if i < j {
      var m: nat := j - 1;
      QuietRecordStays(ws, ss, i, m, id);
      EveryStateKeeps(ws, ss, m);
      assert Went(ws, ss, m);
      QuietStep(ws[m], ss[m], id);
    }
  }

  /** Over a run: while nobody raises outside the work of a task, its finished record stands. */
  lemma {:induction false} FinishedStands(ws: seq<World>, ss: seq<Step>, i: nat, j: nat, id: string)
    requires Reaches(ws, ss) && i <= j < |ws| && id !in ws[j].disturbed
    requires Task(ws[i], id).Some? && Finished(Task(ws[i], id).value.status)
    ensures Task(ws[j], id) == Task(ws[i], id)
    decreases j
  {
    if i < j {
      var m: nat := j - 1;
      EveryStateKeeps(ws, ss, m);
      assert Went(ws, ss, m);
      StepKeeps(ws[m], ss[m]);
      FinishedStands(ws, ss, i, m, id);
      FinishedStep(ws[m], ss[m], id);
    }
  }

  // ------------------------------------------- what raising outside the work can do

  /** A store holding one task that was added under its key. */
  function StoreOf(t: WorkflowTask): MemoryState {
    MemoryState([], map[], [t], map[t.idempotencyKey := t.taskId], map[])
  }

  function WorldOf(t: WorkflowTask, u: WorkflowTask, workers: seq<Worker>, runs: seq<string>, disturbed: set<string>): World {
    World(StoreOf(u), {t}, workers, runs, disturbed)
  }

  lemma OneTask(t: WorkflowTask, u: WorkflowTask)
    requires Same(t, u)
    ensures GetTask([t], t.taskId) == Some(t) && SaveTask(StoreOf(t), u) == StoreOf(u)
  {
  }

  lemma FirstSubmit(t: WorkflowTask)
    requires t.status.Queued?
    ensures Enabled(EMPTY, Submit(t)) && After(EMPTY, Submit(t)) == WorldOf(t, t, [], [], {})
  {
  }

  lemma Read1(t: WorkflowTask, workers: seq<Worker>)
    requires t.status.Queued? && Handled(t.kind)
    ensures var w := WorldOf(t, t, workers, [], {});
            Enabled(w, Deliver(t)) && After(w, Deliver(t)) == WorldOf(t, t, workers + [Holding(t)], [], {})
  {
    OneTask(t, t);
  }

  lemma Claim1(t: WorkflowTask, others: seq<Worker>)
    requires t.status.Queued?
    ensures var w := WorldOf(t, t, [Holding(t)] + others, [], {});
            var r := t.(status := Running);
            Enabled(w, Claim(0)) && After(w, Claim(0)) == WorldOf(t, r, [Working(t, r)] + others, [t.taskId], {})
  {
    var w := WorldOf(t, t, [Holding(t)] + others, [], {});
    var r := t.(status := Running);
    OneTask(t, r);
    assert w.workers[0 := Working(t, r)] == [Working(t, r)] + others;
  }

  lemma Save1(t: WorkflowTask, u: WorkflowTask, w: World, v: World, s: Step, i: nat, next: Worker)
    requires Enabled(w, s) && w.store == StoreOf(u) && i < |w.workers| && Same(u, t)
    requires v == w.(store := StoreOf(t), workers := w.workers[i := next])
    requires After(w, s) == Saved(w, i, t, next)
    ensures After(w, s) == v
  {
    OneTask(u, t);
  }

  /** One more step of a run. */
  lemma Extend(ws: seq<World>, ss: seq<Step>, s: Step, v: World)
    requires Reaches(ws, ss) && Enabled(ws[|ss|], s) && After(ws[|ss|], s) == v
    ensures Reaches(ws + [v], ss + [s])
  {
    var vs, ts := ws + [v], ss + [s];
    forall i: nat | i < |ts| ensures Went(vs, ts, i) {
      if i < |ss| { assert Went(ws, ss, i); }
    }
  }

  lemma Start(t: WorkflowTask) returns (ws: seq<World>, ss: seq<Step>)
    requires t.status.Queued? && Handled(t.kind)
    ensures Reaches(ws, ss) && ws[|ss|] == WorldOf(t, t, [Holding(t)], [], {})
  {
    FirstSubmit(t);
    Read1(t, []);
    assert [] + [Holding(t)] == [Holding(t)];
    ws, ss := [EMPTY], [];
    Extend(ws, ss, Submit(t), WorldOf(t, t, [], [], {}));
    ws, ss := ws + [WorldOf(t, t, [], [], {})], ss + [Submit(t)];
    Extend(ws, ss, Deliver(t), WorldOf(t, t, [Holding(t)], [], {}));
    ws, ss := ws + [WorldOf(t, t, [Holding(t)], [], {})], ss + [Deliver(t)];
  }

  lemma Finish1(t: WorkflowTask, u: WorkflowTask, others: seq<Worker>, disturbed: set<string>)
    requires Same(t, u)
    ensures var r := t.(status := Running);
            var f := Done(t, Succeeded, None);
            var w := WorldOf(t, u, [Working(t, r)] + others, [t.taskId], disturbed);
            var s := Finish(0, Succeeded, None);
            Enabled(w, s) && After(w, s) == WorldOf(t, f, [Recording(t, f)] + others, [t.taskId], disturbed)
  {
    var r, f := t.(status := Running), Done(t, Succeeded, None);
    var w := WorldOf(t, u, [Working(t, r)] + others, [t.taskId], disturbed);
    assert w.workers[0 := Recording(t, f)] == [Recording(t, f)] + others;
    Save1(f, u, w, WorldOf(t, f, [Recording(t, f)] + others, [t.taskId], disturbed), Finish(0, Succeeded, None), 0, Recording(t, f));
  }

  lemma SaveFailed1(t: WorkflowTask, u: WorkflowTask, before: seq<Worker>, reason: string, runs: seq<string>)
    requires Same(t, u)
    ensures var i := |before|;
            var b := Broken(t, reason);
            var w := WorldOf(t, u, before + [Failing(t, reason, true)], runs, {t.taskId});
            Enabled(w, SaveFailed(i)) && After(w, SaveFailed(i)) == WorldOf(t, b, before + [Gone], runs, {t.taskId})
  {
    var i, b := |before|, Broken(t, reason);
    var w := WorldOf(t, u, before + [Failing(t, reason, true)], runs, {t.taskId});
    assert w.workers[i := Gone] == before + [Gone];
    Save1(b, u, w, WorldOf(t, b, before + [Gone], runs, {t.taskId}), SaveFailed(i), i, Gone);
  }

  /** The event after the save raises: the handler writes FAILED over the success just recorded. */
  lemma SuccessOverwritten(t: WorkflowTask) returns (ws: seq<World>, ss: seq<Step>)
    requires t.status.Queued? && Handled(t.kind)
    ensures Reaches(ws, ss) && |ss| > 1
    ensures Task(ws[|ss| - 1], t.taskId) == Some(Done(t, Succeeded, None))
    ensures Task(ws[|ss|], t.taskId) == Some(Broken(t, "event"))
  {
    var r, f, b := t.(status := Running), Done(t, Succeeded, None), Broken(t, "event");
    ws, ss := Start(t);
    Claim1(t, []);
    assert [Holding(t)] + [] == [Holding(t)] && [Working(t, r)] + [] == [Working(t, r)];
    var w3 := WorldOf(t, r, [Working(t, r)], [t.taskId], {});
    Extend(ws, ss, Claim(0), w3);
    ws, ss := ws + [w3], ss + [Claim(0)];
    Finish1(t, r, [], {});
    assert [Recording(t, f)] + [] == [Recording(t, f)];
    var w4 := WorldOf(t, f, [Recording(t, f)], [t.taskId], {});
    Extend(ws, ss, Finish(0, Succeeded, None), w4);
    ws, ss := ws + [w4], ss + [Finish(0, Succeeded, None)];
    ws, ss := RaiseAndSave(t, f, ws, ss);
  }

  lemma RaiseAndSave(t: WorkflowTask, f: WorkflowTask, ws: seq<World>, ss: seq<Step>) returns (vs: seq<World>, ts: seq<Step>)
    requires Same(t, f) && Reaches(ws, ss) && ws[|ss|] == WorldOf(t, f, [Recording(t, f)], [t.taskId], {})
    ensures Reaches(vs, ts) && |ts| > 1
    ensures Task(vs[|ts| - 1], t.taskId) == Some(f)
    ensures Task(vs[|ts|], t.taskId) == Some(Broken(t, "event"))
  {
    var b := Broken(t, "event");
    var w5 := WorldOf(t, f, [Failing(t, "event", true)], [t.taskId], {t.taskId});
    assert [Recording(t, f)][0 := Failing(t, "event", true)] == [Failing(t, "event", true)];
    Extend(ws, ss, RecordRaises(0, "event"), w5);
    vs, ts := ws + [w5], ss + [RecordRaises(0, "event")];
    SaveFailed1(t, f, [], "event", [t.taskId]);
    assert [] + [Failing(t, "event", true)] == [Failing(t, "event", true)] && [] + [Gone] == [Gone];
    var w6 := WorldOf(t, b, [Gone], [t.taskId], {t.taskId});
    Extend(vs, ts, SaveFailed(0), w6);
    vs, ts := vs + [w6], ts + [SaveFailed(0)];
    OneTask(f, f);
    OneTask(b, b);
  }

  /**
   A second delivery whose claim raises: it saves FAILED over the record another worker
   is running, and that worker's success then overwrites the failure.
   */
  lemma FailureOverwritten(t: WorkflowTask) returns (ws: seq<World>, ss: seq<Step>)
    requires t.status.Queued? && Handled(t.kind)
    ensures Reaches(ws, ss) && |ss| > 1
    ensures Task(ws[|ss| - 1], t.taskId) == Some(Broken(t, "claim"))
    ensures Task(ws[|ss|], t.taskId) == Some(Done(t, Succeeded, None))
  {
    var r := t.(status := Running);
    ws, ss := Start(t);
    Read1(t, [Holding(t)]);
    var w3 := WorldOf(t, t, [Holding(t)] + [Holding(t)], [], {});
    Extend(ws, ss, Deliver(t), w3);
    ws, ss := ws + [w3], ss + [Deliver(t)];
    Claim1(t, [Holding(t)]);
    var w4 := WorldOf(t, r, [Working(t, r)] + [Holding(t)], [t.taskId], {});
    Extend(ws, ss, Claim(0), w4);
    ws, ss := ws + [w4], ss + [Claim(0)];
    ws, ss := SecondRaises(t, ws, ss);
  }

  lemma SecondRaises(t: WorkflowTask, ws: seq<World>, ss: seq<Step>) returns (vs: seq<World>, ts: seq<Step>)
    requires Reaches(ws, ss)
    requires var r := t.(status := Running); ws[|ss|] == WorldOf(t, r, [Working(t, r)] + [Holding(t)], [t.taskId], {})
    ensures Reaches(vs, ts) && |ts| > 1
    ensures Task(vs[|ts| - 1], t.taskId) == Some(Broken(t, "claim"))
    ensures Task(vs[|ts|], t.taskId) == Some(Done(t, Succeeded, None))
  {
    var r, f, b := t.(status := Running), Done(t, Succeeded, None), Broken(t, "claim");
    var mine := [Working(t, r)];
    var w5 := WorldOf(t, r, mine + [Failing(t, "claim", true)], [t.taskId], {t.taskId});
    assert (mine + [Holding(t)])[1 := Failing(t, "claim", true)] == mine + [Failing(t, "claim", true)];
    Extend(ws, ss, ClaimRaises(1, "claim"), w5);
    vs, ts := ws + [w5], ss + [ClaimRaises(1, "claim")];
    SaveFailed1(t, r, mine, "claim", [t.taskId]);
    var w6 := WorldOf(t, b, mine + [Gone], [t.taskId], {t.taskId});
    Extend(vs, ts, SaveFailed(1), w6);
    vs, ts := vs + [w6], ts + [SaveFailed(1)];
    Finish1(t, b, [Gone], {t.taskId});
    var w7 := WorldOf(t, f, [Recording(t, f)] + [Gone], [t.taskId], {t.taskId});
    Extend(vs, ts, Finish(0, Succeeded, None), w7);
    vs, ts := vs + [w7], ts + [Finish(0, Succeeded, None)];
    OneTask(b, b);
    OneTask(f, f);
  }
}
