/** The memory store as the object the service holds: fields changed in place under one lock. */
module InMemory {
  import opened Entities
  import opened Keyed
  import MS = MemoryStore
  import opened MemoryStore

  class InMemoryStores {
    var projects: seq<Project>
    var sessions: map<string, ReviewSession>
    var taskItems: seq<WorkflowTask>
    var byKey: map<string, string>
    var lists: map<string, Lists>

    function State(): MemoryState
      reads this
    {
      MemoryState(projects, sessions, taskItems, byKey, lists)
    }

    ghost predicate Valid()
      reads this
    {
      IndexValid(taskItems, byKey)
    }

    constructor ()
      ensures Valid() && State() == MemoryState([], map[], [], map[], map[])
    {
      projects, sessions, taskItems, byKey, lists := [], map[], [], map[], map[];
    }

    method ComparePut(rid: string, expected: ReviewState, session: ReviewSession, generation: Option<nat>)
      returns (swapped: bool)
      modifies this`sessions
      ensures (State(), swapped) == CompareAndPut(old(State()), rid, expected, session, generation)
      ensures old(Valid()) ==> Valid()
    {
      if rid !in sessions { return false; }
      var current := sessions[rid];
      if current.state != expected { return false; }
      if generation.Some? && current.generation != generation.value { return false; }
      sessions := sessions[rid := session];
      return true;
    }

    method PutFormDraft(pid: string, draft: FormDraft)
      modifies this`lists
      ensures State() == PutForm(old(State()), pid, draft)
    {
      var l := ListsOf(State(), pid);
      var drafts := l.forms;
      var index := 0;
      while index < |drafts|
        invariant index <= |drafts|
        invariant forall j | 0 <= j < index :: drafts[j].draftId != draft.draftId
      {
        if drafts[index].draftId == draft.draftId {
          FindUnique(drafts, DraftId, draft.draftId, index);
          lists := lists[pid := l.(forms := drafts[index := draft])];
          return;
        }
        index := index + 1;
      }
      FindUnique(drafts, DraftId, draft.draftId, |drafts|);
      lists := lists[pid := l.(forms := drafts + [draft])];
    }

    /** `add` with a fresh id: the index learns the key only if nobody holds it. */
    method AddTask(task: WorkflowTask)
      requires Valid() && GetTask(taskItems, task.taskId).None? && KeyFits(taskItems, task)
      modifies this`taskItems, this`byKey
      ensures Valid() && State() == MS.AddTask(old(State()), task)
    {
      AddKeepsIndex(State(), task);
      taskItems := taskItems + [task];
      if task.idempotencyKey !in byKey { byKey := byKey[task.idempotencyKey := task.taskId]; }
    }

    /** `save` never touches the index; the last clause says when that is right. */
    method SaveTask(task: WorkflowTask)
      requires Valid() && KeyFits(taskItems, task)
      modifies this`taskItems
      ensures State() == MS.SaveTask(old(State()), task)
      ensures Valid() <==> SaveKeepsIndex(old(taskItems), task)
    {
      SaveKeepsOrder(State(), task);
      taskItems := PutById(taskItems, TaskId, task);
    }

    method FindByIdempotencyKey(key: string) returns (found: Option<WorkflowTask>)
      ensures found == FindByKey(State(), key)
      ensures Valid() ==> found == FirstByKey(taskItems, key)
    {
      if Valid() { FoundByKey(State(), key); }
      if key !in byKey { return None; }
      found := GetTask(taskItems, byKey[key]);
    }

    method GetOrCreateByIdempotencyKey(task: WorkflowTask) returns (stored: WorkflowTask, created: bool)
      requires Valid() && GetTask(taskItems, task.taskId).None? && KeyFits(taskItems, task)
      modifies this`taskItems, this`byKey
      ensures Valid() && (State(), stored, created) == GetOrCreate(old(State()), task)
    {
      var existing := FindByIdempotencyKey(task.idempotencyKey);
      if existing.Some? { return existing.value, false; }
      AddTask(task);
      return task, true;
    }

    method ClaimQueuedTask(taskId: string) returns (claimed: Option<WorkflowTask>)
      requires Valid()
      modifies this`taskItems
      ensures Valid() && (State(), claimed) == ClaimTask(old(State()), taskId)
    {
      ClaimKeepsOrder(State(), taskId);
      var task := GetTask(taskItems, taskId);
      if task.None? || task.value.status != Queued { return None; }
      var running := task.value.(status := Running);
      taskItems := PutById(taskItems, TaskId, running);
      return Some(running);
    }

    /** A copy of the session and of the project's live collections, or the KeyError. */
    method StageReviewAnalysis(rid: string, pid: string) returns (baseline: Option<Baseline>)
      ensures baseline == Stage(State(), rid, pid)
    {
      var project := GetProject(State(), pid);
      if rid !in sessions || project.None? { return None; }
      var l := ListsOf(State(), pid);
      var tasks := [];
      for i := 0 to |taskItems|
        invariant tasks == Filter(taskItems[..i], Of(pid))
      {
        assert taskItems[..i + 1][..i] == taskItems[..i];
        if taskItems[i].projectId == pid { tasks := tasks + [taskItems[i]]; }
      }
      assert taskItems[..|taskItems|] == taskItems;
      return Some(Baseline(sessions[rid],
        Aggregate(project.value, l.facts, l.findings, l.forms, tasks, l.timeline, l.audit)));
    }

    method PublishReviewAnalysis(pub: Publication) returns (published: Option<bool>)
      requires Valid()
      requires WellFormedAggregate(State(), pub.aggregate) && KeysFit(State(), pub.aggregate)
      modifies this
      ensures Valid()
      ensures (State(), published) == Publish(old(State()), pub)
    {
      if !ValidPublication(pub) { return None; }
      var a := pub.aggregate;
      var pid := a.project.projectId;
      var live := StageReviewAnalysis(pub.session.reviewId, pid);
      if !( && pub.session.reviewId in sessions
            && sessions[pub.session.reviewId].state == Analyzing
            && sessions[pub.session.reviewId].generation == pub.session.generation
            && live.Some? && live.value.aggregate == pub.baseline.aggregate)
      {
        return Some(false);
      }
      Overwrite(pub);
      return Some(true);
    }

    /** Replaces the live aggregate and the session, entry by entry. */
    /** One project's tasks and index entries go, and the published ones come in. */
    method ReplaceTasks(pid: string, ts: seq<WorkflowTask>)
      requires PutAll([], TaskId, ts) == ts
      modifies this`taskItems, this`byKey
      ensures taskItems == PutAll(TasksOfOthers(old(taskItems), pid), TaskId, ts)
      ensures byKey == IndexAll(IndexWithout(old(byKey), IdsOf(TasksOf(old(taskItems), pid))), ts)
    {
      RemoveTasksOf(pid);
      InsertTasks(ts);
    }

    method Overwrite(pub: Publication)
      requires Valid() && Publish(State(), pub).1 == Some(true)
      requires WellFormedAggregate(State(), pub.aggregate) && KeysFit(State(), pub.aggregate)
      modifies this
      ensures Valid() && State() == MS.Overwrite(old(State()), pub)
    {
      var a := pub.aggregate;
      var pid := a.project.projectId;
      PublishKeepsOrder(State(), pub);
      PutAllFromEmpty(TaskId, a.tasks);
      var findings := CollectFindings(a.findings);
      ReplaceTasks(pid, a.tasks);
      projects := PutById(projects, ProjectId, a.project);
      lists := lists[pid := Lists(a.facts, findings, a.forms, a.timeline, a.audit)];
      sessions := sessions[pub.session.reviewId := pub.session];
    }

    /** `update` the task dict with new tasks, then `setdefault` their keys in the same order. */
    method InsertTasks(ts: seq<WorkflowTask>)
      modifies this`taskItems, this`byKey
      ensures taskItems == PutAll(old(taskItems), TaskId, ts)
      ensures byKey == IndexAll(old(byKey), ts)
    {
      for k := 0 to |ts|
        invariant taskItems == PutAll(old(taskItems), TaskId, ts[..k]) && byKey == old(byKey)
      {
        assert ts[..k + 1][..k] == ts[..k];
        taskItems := PutById(taskItems, TaskId, ts[k]);
      }
      assert ts[..|ts|] == ts;
      ghost var index := byKey;
      for k := 0 to |ts|
        invariant taskItems == PutAll(old(taskItems), TaskId, ts)
        invariant byKey == IndexAll(index, ts[..k])
      {
        assert ts[..k + 1][..k] == ts[..k];
        byKey := SetDefault(byKey, ts[k].idempotencyKey, ts[k].taskId);
      }
      assert ts[..|ts|] == ts;
    }

    /** The dict built from a list of findings: later entries replace earlier ones in place. */
    method CollectFindings(xs: seq<Finding>) returns (findings: seq<Finding>)
      ensures findings == PutAll([], FindingId, xs)
    {
      findings := [];
      for i := 0 to |xs|
        invariant findings == PutAll([], FindingId, xs[..i])
      {
        assert xs[..i + 1][..i] == xs[..i];
        findings := PutById(findings, FindingId, xs[i]);
      }
      assert xs[..|xs|] == xs;
    }

    /** Pop the project's tasks, then every index entry pointing at one of them. */
    method RemoveTasksOf(pid: string)
      modifies this`taskItems, this`byKey
      ensures taskItems == TasksOfOthers(old(taskItems), pid)
      ensures byKey == IndexWithout(old(byKey), IdsOf(TasksOf(old(taskItems), pid)))
    {
      var gone := IdsOf(TasksOf(taskItems, pid));
      var rest := [];
      for i := 0 to |taskItems|
        invariant rest == Filter(taskItems[..i], NotOf(pid))
      {
        assert taskItems[..i + 1][..i] == taskItems[..i];
        if taskItems[i].projectId != pid { rest := rest + [taskItems[i]]; }
      }
      assert taskItems[..|taskItems|] == taskItems;
      var todo := byKey.Keys;
      while todo != {}
        invariant todo <= old(byKey).Keys
        invariant byKey.Keys <= old(byKey).Keys
        invariant forall k | k in old(byKey) :: k in byKey <==> k in todo || old(byKey)[k] !in gone
        invariant forall k | k in byKey :: byKey[k] == old(byKey)[k]
      {
        var k :| k in todo;
        if byKey[k] in gone { byKey := byKey - {k}; }
        todo := todo - {k};
      }
      taskItems := rest;
    }
  }
}
