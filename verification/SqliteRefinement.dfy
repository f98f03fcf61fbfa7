/** The SQLite store refines the memory store: same answers, and related states after every operation. */
module SqliteRefinement {
  import opened Entities
  import opened Keyed
  import opened MemoryStore
  import opened SqliteTable

  function WrapProject(p: Project): Document { ProjectDoc(p) }
  function WrapFact(f: Fact): Document { FactDoc(f) }
  function WrapFinding(f: Finding): Document { FindingDoc(f) }
  function WrapForm(f: FormDraft): Document { FormDoc(f) }
  function WrapTask(t: WorkflowTask): Document { TaskDoc(t) }
  function WrapEvent(e: TimelineEvent): Document { EventDoc(e) }
  function WrapAudit(a: AuditEntry): Document { AuditDoc(a) }

  /** What the memory store lists for a collection and parent. */
  function Docs(m: MemoryState, kind: Kind, parent: string): seq<Document> {
    match kind
    case Projects => if parent == "" then Map(m.projects, WrapProject) else []
    case Tasks => if parent == "" then Map(m.tasks, WrapTask) else []
    case Sessions => []
    case Facts => Map(ListsOf(m, parent).facts, WrapFact)
    case Findings => Map(ListsOf(m, parent).findings, WrapFinding)
    case Forms => Map(ListsOf(m, parent).forms, WrapForm)
    case Timeline => Map(ListsOf(m, parent).timeline, WrapEvent)
    case Audit => Map(ListsOf(m, parent).audit, WrapAudit)
  }

  ghost predicate Same(db: Db, m: MemoryState, kind: Kind, parent: string) {
    kind != Sessions && ParentOk(kind, parent) ==> View(db, kind, parent) == Docs(m, kind, parent)
  }

  function SessionDocOf(m: MemoryState, rid: string): Option<Document> {
    if rid in m.sessions then Some(SessionDoc(m.sessions[rid])) else None
  }

  ghost predicate SameSession(db: Db, m: MemoryState, rid: string) {
    GetDoc(db, Sessions, "", rid) == SessionDocOf(m, rid)
  }

  /** The refinement relation: every list, in order, and every session, over a memory store in order. */
  ghost predicate Refines(db: Db, m: MemoryState) {
    && Wf(db) && IndexValid(m.tasks, m.byKey)
    && (forall kind, parent :: Same(db, m, kind, parent))
    && (forall rid :: SameSession(db, m, rid))
  }

  // -------------------------------------------------------------- operations

  datatype Op =
    | SaveProjectOp(project: Project)
    | PutSessionOp(session: ReviewSession)
    | AddFactOp(pid: string, fact: Fact)
    | SaveFindingOp(pid: string, finding: Finding)
    | PutFormOp(pid: string, form: FormDraft)
    | AddEventOp(pid: string, event: TimelineEvent)
    | AddAuditOp(pid: string, entry: AuditEntry)
    | SaveTaskOp(task: WorkflowTask)
    | ComparePutOp(rid: string, expected: ReviewState, session: ReviewSession, generation: Option<nat>)
    | GetOrCreateOp(task: WorkflowTask)
    | ClaimOp(taskId: string)
    | PublishOp(pub: Publication)
    | GetOp(kind: Kind, parent: string, id: string)
    | ListOp(kind: Kind, parent: string)
    | ListAllOp(kind: Kind)

  datatype Answer = Done | Yes(bool) | Docs(docs: seq<Document>) | Doc(doc: Option<Document>)
    | Task(task: WorkflowTask, created: bool) | ClaimedTask(claimed: Option<WorkflowTask>) | RaisedError

  function DocOf(m: MemoryState, kind: Kind, parent: string, id: string): Option<Document> {
    if kind == Sessions then SessionDocOf(m, id)
    else
      var s := Docs(m, kind, parent);
      var i := Find(s, DocId, id);
      if i < |s| then Some(s[i]) else None
  }

  function MemDo(m: MemoryState, op: Op): (MemoryState, Answer) {
    match op
    case SaveProjectOp(p) => (SaveProject(m, p), Done)
    case PutSessionOp(s) => (PutSession(m, s), Done)
    case AddFactOp(pid, f) => (AddFact(m, pid, f), Done)
    case SaveFindingOp(pid, f) => (SaveFinding(m, pid, f), Done)
    case PutFormOp(pid, d) => (PutForm(m, pid, d), Done)
    case AddEventOp(pid, e) => (AddEvent(m, pid, e), Done)
    case AddAuditOp(pid, a) => (AddAudit(m, pid, a), Done)
    case SaveTaskOp(t) => (SaveTask(m, t), Done)
    case ComparePutOp(rid, expected, s, g) =>
      var (m', won) := CompareAndPut(m, rid, expected, s, g); (m', Yes(won))
    case GetOrCreateOp(t) => var (m', stored, created) := GetOrCreate(m, t); (m', Task(stored, created))
    case ClaimOp(id) => var (m', claimed) := ClaimTask(m, id); (m', ClaimedTask(claimed))
    case PublishOp(pub) =>
      var (m', done) := Publish(m, pub); (m', if done.Some? then Yes(done.value) else RaisedError)
    case GetOp(kind, parent, id) => (m, Doc(DocOf(m, kind, parent, id)))
    case ListOp(kind, parent) => (m, Answer.Docs(Docs(m, kind, parent)))
    case ListAllOp(kind) => (m, Answer.Docs(Docs(m, kind, "")))
  }

  function TaskDocKey(d: Document): string { if d.TaskDoc? then d.task.idempotencyKey else "" }

  function TaskDocOf(pid: string): Document -> bool { (d: Document) => d.TaskDoc? && d.task.projectId == pid }

  ghost function SqlGetOrCreate(db: Db, t: WorkflowTask): (Db, Answer) {
    var all := Scan(db, Tasks, None, Next(db));
    var i := Find(all, TaskDocKey, t.idempotencyKey);
    if i < |all| && all[i].TaskDoc? then (db, Task(all[i].task, false))
    else (PutDoc(db, Tasks, "", TaskDoc(t)), Task(t, true))
  }

  function SqlClaim(db: Db, id: string): (Db, Answer) {
    match GetDoc(db, Tasks, "", id)
    case None => (db, ClaimedTask(None))
    case Some(d) =>
      if !d.TaskDoc? || d.task.status != Queued then (db, ClaimedTask(None))
      else
        var running := d.task.(status := Running);
        (PutDoc(db, Tasks, "", TaskDoc(running)), ClaimedTask(Some(running)))
  }

  predicate SqlMatches(db: Db, rid: string, expected: ReviewState, generation: Option<nat>) {
    var d := GetDoc(db, Sessions, "", rid);
    && d.Some? && d.value.SessionDoc? && d.value.session.state == expected
    && (generation.Some? ==> d.value.session.generation == generation.value)
  }

  function SqlComparePut(db: Db, rid: string, expected: ReviewState, s: ReviewSession, g: Option<nat>): (Db, bool) {
    if SqlMatches(db, rid, expected, g) && (Sessions, rid) in db.rows
    then (db.(rows := db.rows[(Sessions, rid) := db.rows[(Sessions, rid)].(payload := SessionDoc(s))]), true)
    else (db, false)
  }

  function AppendAll(db: Db, kind: Kind, parent: string, docs: seq<Document>): Db {
    if docs == [] then db
    else AppendDoc(AppendAll(db, kind, parent, docs[..|docs| - 1]), kind, parent, docs[|docs| - 1])
  }

  function PutAllDocs(db: Db, kind: Kind, parent: string, docs: seq<Document>): Db {
    if docs == [] then db
    else PutDoc(PutAllDocs(db, kind, parent, docs[..|docs| - 1]), kind, parent, docs[|docs| - 1])
  }

  ghost predicate SqlPublishable(db: Db, pub: Publication) {
    var b := pub.baseline.aggregate;
    var pid := pub.aggregate.project.projectId;
    && SqlMatches(db, pub.session.reviewId, Analyzing, Some(pub.session.generation))
    && GetDoc(db, Projects, "", pid) == Some(ProjectDoc(b.project))
    && View(db, Facts, pid) == Map(b.facts, WrapFact)
    && View(db, Findings, pid) == Map(b.findings, WrapFinding)
    && View(db, Forms, pid) == Map(b.forms, WrapForm)
    && Filter(Scan(db, Tasks, None, Next(db)), TaskDocOf(pid)) == Map(b.tasks, WrapTask)
    && View(db, Timeline, pid) == Map(b.timeline, WrapEvent)
    && View(db, Audit, pid) == Map(b.audit, WrapAudit)
  }

  function DeleteLists(db: Db, pid: string): Db {
    DeleteParent(DeleteParent(DeleteParent(DeleteParent(DeleteParent(db,
      Facts, pid), Findings, pid), Forms, pid), Timeline, pid), Audit, pid)
  }

  function InsertLists(db: Db, pid: string, a: Aggregate): Db {
    AppendAll(AppendAll(PutAllDocs(PutAllDocs(AppendAll(db,
      Facts, pid, Map(a.facts, WrapFact)),
      Findings, pid, Map(a.findings, WrapFinding)),
      Forms, pid, Map(a.forms, WrapForm)),
      Timeline, pid, Map(a.timeline, WrapEvent)),
      Audit, pid, Map(a.audit, WrapAudit))
  }

  /** Ids of the project's tasks as `tasks.list(project_id)` reports them. */
  ghost function TaskIdsOf(db: Db, pid: string): set<string> {
    set d | d in Filter(Scan(db, Tasks, None, Next(db)), TaskDocOf(pid)) :: DocId(d)
  }

  ghost function SqlOverwrite(db: Db, pub: Publication): Db {
    var a := pub.aggregate;
    var pid := a.project.projectId;
    var saved := PutDoc(db, Projects, "", ProjectDoc(a.project));
    var listed := InsertLists(DeleteLists(saved, pid), pid, a);
    var tasked := PutAllDocs(DeleteKeys(listed, Tasks, TaskIdsOf(listed, pid)), Tasks, "", Map(a.tasks, WrapTask));
    PutDoc(tasked, Sessions, "", SessionDoc(pub.session))
  }

  ghost function SqlPublish(db: Db, pub: Publication): (Db, Answer) {
    if !ValidPublication(pub) then (db, RaisedError)
    else if !SqlPublishable(db, pub) then (db, Yes(false))
    else (SqlOverwrite(db, pub), Yes(true))
  }

  ghost function SqlDo(db: Db, op: Op): (Db, Answer) {
    match op
    case SaveProjectOp(p) => (PutDoc(db, Projects, "", ProjectDoc(p)), Done)
    case PutSessionOp(s) => (PutDoc(db, Sessions, "", SessionDoc(s)), Done)
    case AddFactOp(pid, f) => (AppendDoc(db, Facts, pid, FactDoc(f)), Done)
    case SaveFindingOp(pid, f) => (PutDoc(db, Findings, pid, FindingDoc(f)), Done)
    case PutFormOp(pid, d) => (PutDoc(db, Forms, pid, FormDoc(d)), Done)
    case AddEventOp(pid, e) => (AppendDoc(db, Timeline, pid, EventDoc(e)), Done)
    case AddAuditOp(pid, a) => (AppendDoc(db, Audit, pid, AuditDoc(a)), Done)
    case SaveTaskOp(t) => (PutDoc(db, Tasks, "", TaskDoc(t)), Done)
    case ComparePutOp(rid, expected, s, g) =>
      var (db', won) := SqlComparePut(db, rid, expected, s, g); (db', Yes(won))
    case GetOrCreateOp(t) => SqlGetOrCreate(db, t)
    case ClaimOp(id) => SqlClaim(db, id)
    case PublishOp(pub) => SqlPublish(db, pub)
    case GetOp(kind, parent, id) => (db, Doc(GetDoc(db, kind, parent, id)))
    case ListOp(kind, parent) => (db, Answer.Docs(View(db, kind, parent)))
    case ListAllOp(kind) => (db, Answer.Docs(Scan(db, kind, None, Next(db))))
  }

  predicate ProjectIdOk(pid: string) { pid != "" && '/' !in pid }

  /**
   What the callers guarantee: project ids without a slash, new ids for appended
   records, keys that name their project, and saves of tasks that were added before.
   */
  ghost predicate Legal(m: MemoryState, op: Op) {
    match op
    case AddFactOp(pid, f) => ProjectIdOk(pid) && forall g | g in ListsOf(m, pid).facts :: g.factId != f.factId
    case SaveFindingOp(pid, _) => ProjectIdOk(pid)
    case PutFormOp(pid, _) => ProjectIdOk(pid)
    case AddEventOp(pid, e) => ProjectIdOk(pid) && forall g | g in ListsOf(m, pid).timeline :: g.eventId != e.eventId
    case AddAuditOp(pid, _) => ProjectIdOk(pid)
    case ComparePutOp(rid, _, s, _) => s.reviewId == rid
    case PublishOp(pub) => ProjectIdOk(pub.aggregate.project.projectId) && WellFormedAggregate(m, pub.aggregate) && KeysFit(m, pub.aggregate)
    case SaveTaskOp(t) => SaveKeepsIndex(m.tasks, t) && KeyFits(m.tasks, t)
    case GetOrCreateOp(t) => GetTask(m.tasks, t.taskId).None? && KeyFits(m.tasks, t)
    case GetOp(kind, parent, _) => ParentOk(kind, parent) && kind != Audit
    case ListOp(kind, parent) => ParentOk(kind, parent) && kind != Sessions
    case ListAllOp(kind) => kind.Projects? || kind.Tasks?
    case _ => true
  }

  // -------------------------------------------------------------- simulation

  lemma PutSim(db: Db, m: MemoryState, v: MemoryState, kind: Kind, parent: string, doc: Document)
    requires Refines(db, m) && ParentOk(kind, parent) && KindOf(doc) == kind && kind != Audit && kind != Sessions
    requires v.sessions == m.sessions && IndexValid(v.tasks, v.byKey)
    requires Docs(v, kind, parent) == PutById(Docs(m, kind, parent), DocId, doc)
    requires forall k, p | !(k == kind && p == parent) :: Docs(v, k, p) == Docs(m, k, p)
    ensures Refines(PutDoc(db, kind, parent, doc), v)
  {
    var to := PutDoc(db, kind, parent, doc);
    PutView(db, kind, parent, doc, kind, parent);
    forall k, p ensures Same(to, v, k, p) {
      assert Same(db, m, k, p);
      PutView(db, kind, parent, doc, k, p);
    }
    forall rid ensures SameSession(to, v, rid) { assert SameSession(db, m, rid); }
  }

  lemma AppendSim(db: Db, m: MemoryState, v: MemoryState, kind: Kind, parent: string, doc: Document)
    requires Refines(db, m) && ParentOk(kind, parent) && KindOf(doc) == kind && !Root(kind)
    requires kind != Audit ==> forall d | d in Docs(m, kind, parent) :: DocId(d) != DocId(doc)
    requires v.sessions == m.sessions && v.tasks == m.tasks && v.byKey == m.byKey
    requires Docs(v, kind, parent) == Docs(m, kind, parent) + [doc]
    requires forall k, p | !(k == kind && p == parent) :: Docs(v, k, p) == Docs(m, k, p)
    ensures Refines(AppendDoc(db, kind, parent, doc), v)
  {
    var to := AppendDoc(db, kind, parent, doc);
    assert Same(db, m, kind, parent);
    if kind != Audit { GetView(db, kind, parent, DocId(doc)); }
    AppendView(db, kind, parent, doc, kind, parent);
    forall k, p ensures Same(to, v, k, p) {
      assert Same(db, m, k, p);
      AppendView(db, kind, parent, doc, k, p);
    }
    forall rid ensures SameSession(to, v, rid) { assert SameSession(db, m, rid); }
  }

  lemma SaveProjectSim(db: Db, m: MemoryState, p: Project)
    requires Refines(db, m)
    ensures Refines(PutDoc(db, Projects, "", ProjectDoc(p)), SaveProject(m, p))
  {
    PutByIdMap(m.projects, ProjectId, WrapProject, DocId, p);
    PutSim(db, m, SaveProject(m, p), Projects, "", ProjectDoc(p));
  }

  /** Any write of one task record that leaves the memory store in order. */
  lemma PutTaskDocs(m: MemoryState, v: MemoryState, t: WorkflowTask)
    requires v == m.(tasks := PutById(m.tasks, TaskId, t), byKey := v.byKey)
    ensures Docs(v, Tasks, "") == PutById(Docs(m, Tasks, ""), DocId, TaskDoc(t))
    ensures forall k, p | !(k == Tasks && p == "") :: Docs(v, k, p) == Docs(m, k, p)
  {
    PutByIdMap(m.tasks, TaskId, WrapTask, DocId, t);
  }

  lemma PutTaskSim(db: Db, m: MemoryState, v: MemoryState, t: WorkflowTask)
    requires Refines(db, m) && IndexValid(v.tasks, v.byKey)
    requires v == m.(tasks := PutById(m.tasks, TaskId, t), byKey := v.byKey)
    ensures Refines(PutDoc(db, Tasks, "", TaskDoc(t)), v)
  {
    PutTaskDocs(m, v, t);
    PutSim(db, m, v, Tasks, "", TaskDoc(t));
  }

  lemma SaveTaskSim(db: Db, m: MemoryState, t: WorkflowTask)
    requires Refines(db, m) && SaveKeepsIndex(m.tasks, t) && KeyFits(m.tasks, t)
    ensures Refines(PutDoc(db, Tasks, "", TaskDoc(t)), SaveTask(m, t))
  {
    SaveKeepsOrder(m, t);
    PutTaskSim(db, m, SaveTask(m, t), t);
  }

  lemma SaveFindingDocs(m: MemoryState, pid: string, f: Finding, k: Kind, p: string)
    ensures Docs(SaveFinding(m, pid, f), k, p) ==
            if k == Findings && p == pid then PutById(Docs(m, k, p), DocId, FindingDoc(f)) else Docs(m, k, p)
  {
    PutByIdMap(ListsOf(m, pid).findings, FindingId, WrapFinding, DocId, f);
  }

  lemma SaveFindingSim(db: Db, m: MemoryState, pid: string, f: Finding)
    requires Refines(db, m) && ProjectIdOk(pid)
    ensures Refines(PutDoc(db, Findings, pid, FindingDoc(f)), SaveFinding(m, pid, f))
  {
    var v := SaveFinding(m, pid, f);
    SaveFindingDocs(m, pid, f, Findings, pid);
    forall k, p | !(k == Findings && p == pid) ensures Docs(v, k, p) == Docs(m, k, p) { SaveFindingDocs(m, pid, f, k, p); }
    PutSim(db, m, v, Findings, pid, FindingDoc(f));
  }

  lemma PutFormDocs(m: MemoryState, pid: string, d: FormDraft, k: Kind, p: string)
    ensures Docs(PutForm(m, pid, d), k, p) ==
            if k == Forms && p == pid then PutById(Docs(m, k, p), DocId, FormDoc(d)) else Docs(m, k, p)
  {
    PutByIdMap(ListsOf(m, pid).forms, DraftId, WrapForm, DocId, d);
  }

  lemma PutFormSim(db: Db, m: MemoryState, pid: string, d: FormDraft)
    requires Refines(db, m) && ProjectIdOk(pid)
    ensures Refines(PutDoc(db, Forms, pid, FormDoc(d)), PutForm(m, pid, d))
  {
    var v := PutForm(m, pid, d);
    PutFormDocs(m, pid, d, Forms, pid);
    forall k, p | !(k == Forms && p == pid) ensures Docs(v, k, p) == Docs(m, k, p) { PutFormDocs(m, pid, d, k, p); }
    PutSim(db, m, v, Forms, pid, FormDoc(d));
  }

  lemma AddFactSim(db: Db, m: MemoryState, pid: string, f: Fact)
    requires Refines(db, m) && Legal(m, AddFactOp(pid, f))
    ensures Refines(AppendDoc(db, Facts, pid, FactDoc(f)), AddFact(m, pid, f))
  {
    AppendSim(db, m, AddFact(m, pid, f), Facts, pid, FactDoc(f));
  }

  lemma AddEventSim(db: Db, m: MemoryState, pid: string, e: TimelineEvent)
    requires Refines(db, m) && Legal(m, AddEventOp(pid, e))
    ensures Refines(AppendDoc(db, Timeline, pid, EventDoc(e)), AddEvent(m, pid, e))
  {
    AppendSim(db, m, AddEvent(m, pid, e), Timeline, pid, EventDoc(e));
  }

  lemma AddAuditSim(db: Db, m: MemoryState, pid: string, a: AuditEntry)
    requires Refines(db, m) && ProjectIdOk(pid)
    ensures Refines(AppendDoc(db, Audit, pid, AuditDoc(a)), AddAudit(m, pid, a))
  {
    AppendSim(db, m, AddAudit(m, pid, a), Audit, pid, AuditDoc(a));
  }

  lemma WritesSim(db: Db, m: MemoryState, op: Op)
    requires Refines(db, m) && Legal(m, op)
    requires op.SaveProjectOp? || op.AddFactOp? || op.SaveFindingOp? || op.PutFormOp? || op.AddEventOp? || op.AddAuditOp? || op.SaveTaskOp?
    ensures Refines(SqlDo(db, op).0, MemDo(m, op).0)
  {
    match op
    case SaveProjectOp(p) => SaveProjectSim(db, m, p);
    case SaveTaskOp(t) => SaveTaskSim(db, m, t);
    case SaveFindingOp(pid, f) => SaveFindingSim(db, m, pid, f);
    case PutFormOp(pid, d) => PutFormSim(db, m, pid, d);
    case AddFactOp(pid, f) => AddFactSim(db, m, pid, f);
    case AddEventOp(pid, e) => AddEventSim(db, m, pid, e);
    case AddAuditOp(pid, a) => AddAuditSim(db, m, pid, a);
  }

  /** Sessions have no list; a put changes one lookup. */
  lemma SessionSim(db: Db, m: MemoryState, to: Db, s: ReviewSession)
    requires Refines(db, m) && to == PutDoc(db, Sessions, "", SessionDoc(s))
    ensures Refines(to, PutSession(m, s))
  {
    var v := PutSession(m, s);
    PutView(db, Sessions, "", SessionDoc(s), Sessions, "");
    forall k, p ensures Same(to, v, k, p) {
      assert Same(db, m, k, p);
      PutView(db, Sessions, "", SessionDoc(s), k, p);
    }
    forall rid ensures SameSession(to, v, rid) { assert SameSession(db, m, rid); }
  }

  lemma ComparePutSim(db: Db, m: MemoryState, rid: string, expected: ReviewState, s: ReviewSession, g: Option<nat>)
    requires Refines(db, m) && s.reviewId == rid
    ensures var (m', won) := CompareAndPut(m, rid, expected, s, g);
            var (db', won') := SqlComparePut(db, rid, expected, s, g);
            won == won' && Refines(db', m')
  {
    assert SameSession(db, m, rid);
    if Matches(m, rid, expected, g) {
      SessionSim(db, m, SqlComparePut(db, rid, expected, s, g).0, s);
    }
  }

  lemma FindMap<T>(s: seq<T>, idT: T -> string, f: T -> Document, idD: Document -> string, k: string)
    requires forall t :: idD(f(t)) == idT(t)
    ensures Find(Map(s, f), idD, k) == Find(s, idT, k)
  {
    FindUnique(Map(s, f), idD, k, Find(s, idT, k));
  }

  lemma GetOrCreateSim(db: Db, m: MemoryState, t: WorkflowTask)
    requires Refines(db, m) && Legal(m, GetOrCreateOp(t))
    ensures Refines(SqlDo(db, GetOrCreateOp(t)).0, MemDo(m, GetOrCreateOp(t)).0)
    ensures SqlDo(db, GetOrCreateOp(t)).1 == MemDo(m, GetOrCreateOp(t)).1
  {
    assert Same(db, m, Tasks, "");
    ListAllIsRoot(db, Tasks);
    FoundByKey(m, t.idempotencyKey);
    FindMap(m.tasks, TaskKey, WrapTask, TaskDocKey, t.idempotencyKey);
    AddKeepsIndex(m, t);
    PutTaskSim(db, m, AddTask(m, t), t);
  }

  lemma ClaimSim(db: Db, m: MemoryState, id: string)
    requires Refines(db, m)
    ensures Refines(SqlDo(db, ClaimOp(id)).0, MemDo(m, ClaimOp(id)).0)
    ensures SqlDo(db, ClaimOp(id)).1 == MemDo(m, ClaimOp(id)).1
  {
    assert Same(db, m, Tasks, "");
    FindMap(m.tasks, TaskId, WrapTask, DocId, id);
    GetView(db, Tasks, "", id);
    ClaimKeepsOrder(m, id);
    var d := GetDoc(db, Tasks, "", id);
    if d.Some? && d.value.task.status.Queued? { PutTaskSim(db, m, ClaimTask(m, id).0, d.value.task.(status := Running)); }
  }

  lemma ReadsSim(db: Db, m: MemoryState, op: Op)
    requires Refines(db, m) && Legal(m, op) && (op.GetOp? || op.ListOp? || op.ListAllOp?)
    ensures SqlDo(db, op).1 == MemDo(m, op).1
  {
    match op
    case GetOp(kind, parent, id) =>
      assert Same(db, m, kind, parent) && SameSession(db, m, id);
      GetView(db, kind, parent, id);
    case ListOp(kind, parent) => assert Same(db, m, kind, parent);
    case ListAllOp(kind) => assert Same(db, m, kind, ""); ListAllIsRoot(db, kind);
  }

  // ------------------------------------------------------------- publication

  lemma {:induction false} MapInjective<T>(x: seq<T>, y: seq<T>, f: T -> Document)
    requires forall a, b :: f(a) == f(b) ==> a == b
    ensures Map(x, f) == Map(y, f) <==> x == y
  {
    if Map(x, f) == Map(y, f) {
      assert |x| == |Map(x, f)| == |y|;
      forall i | 0 <= i < |x| ensures x[i] == y[i] { assert Map(x, f)[i] == Map(y, f)[i]; }
    }
  }

  /** Live documents equal the baseline's exactly when the memory lists do. */
  lemma LiveLists(db: Db, m: MemoryState, pid: string, b: Aggregate)
    requires Refines(db, m) && ProjectIdOk(pid)
    ensures var l := ListsOf(m, pid);
            && (View(db, Facts, pid) == Map(b.facts, WrapFact) <==> l.facts == b.facts)
            && (View(db, Findings, pid) == Map(b.findings, WrapFinding) <==> l.findings == b.findings)
            && (View(db, Forms, pid) == Map(b.forms, WrapForm) <==> l.forms == b.forms)
            && (View(db, Timeline, pid) == Map(b.timeline, WrapEvent) <==> l.timeline == b.timeline)
            && (View(db, Audit, pid) == Map(b.audit, WrapAudit) <==> l.audit == b.audit)
  {
    var l := ListsOf(m, pid);
    assert Same(db, m, Facts, pid) && Same(db, m, Findings, pid) && Same(db, m, Forms, pid);
    assert Same(db, m, Timeline, pid) && Same(db, m, Audit, pid);
    MapInjective(l.facts, b.facts, WrapFact);
    MapInjective(l.findings, b.findings, WrapFinding);
    MapInjective(l.forms, b.forms, WrapForm);
    MapInjective(l.timeline, b.timeline, WrapEvent);
    MapInjective(l.audit, b.audit, WrapAudit);
  }

  /** The SQL comparison of live documents with the baseline decides exactly as the memory one. */
  lemma PublishableSim(db: Db, m: MemoryState, pub: Publication)
    requires Refines(db, m) && ProjectIdOk(pub.aggregate.project.projectId)
    ensures SqlPublishable(db, pub) <==> Publishable(m, pub)
  {
    var b := pub.baseline.aggregate;
    var pid := pub.aggregate.project.projectId;
    assert SameSession(db, m, pub.session.reviewId);
    LiveLists(db, m, pid, b);
    LiveTasks(db, m, pid);
    MapInjective(TasksOf(m.tasks, pid), b.tasks, WrapTask);
    LiveProject(db, m, pid);
  }

  lemma LiveTasks(db: Db, m: MemoryState, pid: string)
    requires Refines(db, m)
    ensures Filter(Scan(db, Tasks, None, Next(db)), TaskDocOf(pid)) == Map(TasksOf(m.tasks, pid), WrapTask)
  {
    ListAllIsRoot(db, Tasks);
    assert Same(db, m, Tasks, "");
    FilterMap(m.tasks, WrapTask, Of(pid), TaskDocOf(pid));
  }

  lemma LiveProject(db: Db, m: MemoryState, pid: string)
    requires Refines(db, m)
    ensures GetDoc(db, Projects, "", pid) ==
            match GetProject(m, pid) { case None => None case Some(p) => Some(ProjectDoc(p)) }
  {
    assert Same(db, m, Projects, "");
    GetView(db, Projects, "", pid);
    FindMap(m.projects, ProjectId, WrapProject, DocId, pid);
  }

  /** Appending a list of new documents appends that list. */
  lemma {:induction false} AppendAllView(db: Db, kind: Kind, parent: string, docs: seq<Document>, k: Kind, p: string)
    requires Wf(db) && ParentOk(kind, parent) && !Root(kind)
    requires forall d | d in docs :: KindOf(d) == kind
    requires kind != Audit ==> Distinct(View(db, kind, parent) + docs, DocId)
    ensures var to := AppendAll(db, kind, parent, docs);
            && Wf(to)
            && View(to, k, p) == if k == kind && p == parent then View(db, k, p) + docs else View(db, k, p)
  {
    if docs != [] {
      var n := |docs| - 1;
      var all := View(db, kind, parent) + docs;
      assert docs == docs[..n] + [docs[n]];
      assert all[..|all| - 1] == View(db, kind, parent) + docs[..n];
      AppendAllView(db, kind, parent, docs[..n], k, p);
      AppendAllView(db, kind, parent, docs[..n], kind, parent);
      var mid := AppendAll(db, kind, parent, docs[..n]);
      if kind != Audit {
        GetView(mid, kind, parent, DocId(docs[n]));
        assert View(mid, kind, parent) == all[..|all| - 1];
        assert forall j | 0 <= j < |all| - 1 :: DocId(all[j]) != DocId(all[|all| - 1]);
      }
      AppendView(mid, kind, parent, docs[n], k, p);
    }
  }

  lemma {:induction false} PutAllView(db: Db, kind: Kind, parent: string, docs: seq<Document>, k: Kind, p: string)
    requires Wf(db) && ParentOk(kind, parent) && kind != Audit
    requires forall d | d in docs :: KindOf(d) == kind
    ensures var to := PutAllDocs(db, kind, parent, docs);
            && Wf(to)
            && View(to, k, p) == if k == kind && p == parent then PutAll(View(db, k, p), DocId, docs) else View(db, k, p)
  {
    if docs != [] {
      var n := |docs| - 1;
      PutAllView(db, kind, parent, docs[..n], k, p);
      PutView(PutAllDocs(db, kind, parent, docs[..n]), kind, parent, docs[n], k, p);
    }
  }

  lemma DeleteListsView(db: Db, pid: string, k: Kind, p: string)
    requires Wf(db)
    ensures var to := DeleteLists(db, pid);
            && Wf(to) && View(to, k, p) == if !Root(k) && p == pid then [] else View(db, k, p)
  {
    var a := DeleteParent(db, Facts, pid);
    var b := DeleteParent(a, Findings, pid);
    var c := DeleteParent(b, Forms, pid);
    var d := DeleteParent(c, Timeline, pid);
    DeleteView(db, Facts, pid, k, p);
    DeleteView(a, Findings, pid, k, p);
    DeleteView(b, Forms, pid, k, p);
    DeleteView(c, Timeline, pid, k, p);
    DeleteView(d, Audit, pid, k, p);
  }

  /** The five lists after reinsertion, whatever they were: the published ones. */
  function Fresh(a: Aggregate, k: Kind): seq<Document> {
    match k
    case Facts => Map(a.facts, WrapFact)
    case Findings => Map(a.findings, WrapFinding)
    case Forms => Map(a.forms, WrapForm)
    case Timeline => Map(a.timeline, WrapEvent)
    case Audit => Map(a.audit, WrapAudit)
    case _ => []
  }

  ghost predicate DistinctLists(a: Aggregate) {
    && Distinct(a.facts, FactId) && Distinct(a.findings, FindingId) && Distinct(a.forms, DraftId)
    && Distinct(a.timeline, EventId)
  }

  lemma MapDistinct<T>(s: seq<T>, idT: T -> string, f: T -> Document)
    requires Distinct(s, idT) && forall t :: DocId(f(t)) == idT(t)
    ensures Distinct(Map(s, f), DocId) && [] + Map(s, f) == Map(s, f)
  {
  }

  lemma AppendFresh(db: Db, kind: Kind, pid: string, a: Aggregate, k: Kind, p: string)
    requires Wf(db) && ProjectIdOk(pid) && DistinctLists(a) && (kind.Facts? || kind.Timeline? || kind.Audit?)
    requires View(db, kind, pid) == []
    ensures var to := AppendAll(db, kind, pid, Fresh(a, kind));
            && Wf(to) && View(to, k, p) == if k == kind && p == pid then Fresh(a, k) else View(db, k, p)
  {
    FreshDistinct(a, kind);
    assert [] + Fresh(a, kind) == Fresh(a, kind);
    AppendAllView(db, kind, pid, Fresh(a, kind), k, p);
  }

  lemma PutFresh(db: Db, kind: Kind, pid: string, a: Aggregate, k: Kind, p: string)
    requires Wf(db) && ProjectIdOk(pid) && DistinctLists(a) && (kind.Findings? || kind.Forms?)
    requires View(db, kind, pid) == []
    ensures var to := PutAllDocs(db, kind, pid, Fresh(a, kind));
            && Wf(to) && View(to, k, p) == if k == kind && p == pid then Fresh(a, k) else View(db, k, p)
  {
    FreshDistinct(a, kind);
    PutAllFromEmpty(DocId, Fresh(a, kind));
    PutAllView(db, kind, pid, Fresh(a, kind), k, p);
  }

  lemma FreshDistinct(a: Aggregate, kind: Kind)
    requires DistinctLists(a) && !Root(kind)
    ensures kind != Audit ==> Distinct(Fresh(a, kind), DocId)
    ensures forall d | d in Fresh(a, kind) :: KindOf(d) == kind
  {
    match kind
    case Facts => MapDistinct(a.facts, FactId, WrapFact);
    case Findings => MapDistinct(a.findings, FindingId, WrapFinding);
    case Forms => MapDistinct(a.forms, DraftId, WrapForm);
    case Timeline => MapDistinct(a.timeline, EventId, WrapEvent);
    case Audit =>
  }

  lemma InsertListsView(db: Db, pid: string, a: Aggregate, k: Kind, p: string)
    requires Wf(db) && ProjectIdOk(pid) && DistinctLists(a)
    requires forall kind | !Root(kind) :: View(db, kind, pid) == []
    ensures var to := InsertLists(db, pid, a);
            && Wf(to) && View(to, k, p) == if !Root(k) && p == pid then Fresh(a, k) else View(db, k, p)
  {
    assert View(db, Facts, pid) == [];
    var d1 := AppendAll(db, Facts, pid, Fresh(a, Facts));
    AppendFresh(db, Facts, pid, a, k, p);
    AppendFresh(db, Facts, pid, a, Findings, pid);
    AppendFresh(db, Facts, pid, a, Forms, pid);
    AppendFresh(db, Facts, pid, a, Timeline, pid);
    AppendFresh(db, Facts, pid, a, Audit, pid);
    var d2 := PutAllDocs(d1, Findings, pid, Fresh(a, Findings));
    PutFresh(d1, Findings, pid, a, k, p);
    PutFresh(d1, Findings, pid, a, Forms, pid);
    PutFresh(d1, Findings, pid, a, Timeline, pid);
    PutFresh(d1, Findings, pid, a, Audit, pid);
    var d3 := PutAllDocs(d2, Forms, pid, Fresh(a, Forms));
    PutFresh(d2, Forms, pid, a, k, p);
    PutFresh(d2, Forms, pid, a, Timeline, pid);
    PutFresh(d2, Forms, pid, a, Audit, pid);
    AppendFresh(d3, Timeline, pid, a, k, p);
    AppendFresh(d3, Timeline, pid, a, Audit, pid);
    AppendFresh(AppendAll(d3, Timeline, pid, Fresh(a, Timeline)), Audit, pid, a, k, p);
  }

  /** Deleting the project's tasks by key leaves the other projects' tasks, in order. */
  lemma DeleteTasksView(db: Db, m: MemoryState, pid: string, k: Kind, p: string)
    requires Wf(db) && View(db, Tasks, "") == Map(m.tasks, WrapTask)
    ensures var to := DeleteKeys(db, Tasks, TaskIdsOf(db, pid));
            && Wf(to)
            && View(to, k, p) == if k == Tasks && p == "" then Map(TasksOfOthers(m.tasks, pid), WrapTask) else View(db, k, p)
  {
    var ids := TaskIdsOf(db, pid);
    var keep := (d: Document) => DocId(d) !in ids;
    DeleteKeysView(db, Tasks, ids, keep, k, p);
    if k == Tasks && p == "" {
      ListAllIsRoot(db, Tasks);
      FilterMap(m.tasks, WrapTask, Of(pid), TaskDocOf(pid));
      KeptAreOthers(db, m.tasks, pid, ids, keep);
    }
  }

  lemma {:induction false} FilterSame<T>(s: seq<T>, p: T -> bool, q: T -> bool)
    requires forall x | x in s :: p(x) == q(x)
    ensures Filter(s, p) == Filter(s, q)
  {
    if s != [] { FilterSame(s[..|s| - 1], p, q); }
  }

  lemma KeptAreOthers(db: Db, tasks: seq<WorkflowTask>, pid: string, ids: set<string>, keep: Document -> bool)
    requires Wf(db) && View(db, Tasks, "") == Map(tasks, WrapTask)
    requires ids == set d | d in Map(TasksOf(tasks, pid), WrapTask) :: DocId(d)
    requires forall d: Document :: keep(d) <==> DocId(d) !in ids
    ensures Filter(Map(tasks, WrapTask), keep) == Map(TasksOfOthers(tasks, pid), WrapTask)
  {
    var others := (d: Document) => d.TaskDoc? && d.task.projectId != pid;
    var kept := (t: WorkflowTask) => keep(WrapTask(t));
    forall x | x in tasks ensures kept(x) == NotOf(pid)(x) {
      if x.projectId == pid { InView(tasks, pid, x); }
      else if x.taskId in ids {
        var d :| d in Map(TasksOf(tasks, pid), WrapTask) && DocId(d) == x.taskId;
        SameTask(db, tasks, pid, d, x);
      }
    }
    FilterSame(tasks, kept, NotOf(pid));
    FilterMap(tasks, WrapTask, kept, keep);
  }

  lemma InView(tasks: seq<WorkflowTask>, pid: string, x: WorkflowTask)
    requires x in tasks && x.projectId == pid
    ensures WrapTask(x) in Map(TasksOf(tasks, pid), WrapTask) && DocId(WrapTask(x)) == x.taskId
  {
    assert Of(pid)(x);
    var i :| 0 <= i < |TasksOf(tasks, pid)| && TasksOf(tasks, pid)[i] == x;
    assert Map(TasksOf(tasks, pid), WrapTask)[i] == WrapTask(x);
  }

  /** One id, one row: a listed task and another with its id are the same task. */
  lemma SameTask(db: Db, tasks: seq<WorkflowTask>, pid: string, d: Document, x: WorkflowTask)
    requires Wf(db) && View(db, Tasks, "") == Map(tasks, WrapTask)
    requires d in Map(TasksOf(tasks, pid), WrapTask) && x in tasks && DocId(d) == x.taskId
    ensures x.projectId == pid
  {
    var i :| 0 <= i < |TasksOf(tasks, pid)| && WrapTask(TasksOf(tasks, pid)[i]) == d;
    var t := TasksOf(tasks, pid)[i];
    assert t in tasks && Of(pid)(t);
    var a :| 0 <= a < |tasks| && tasks[a] == t;
    var b :| 0 <= b < |tasks| && tasks[b] == x;
    OneRow(db, tasks, a, b);
  }

  lemma OneRow(db: Db, tasks: seq<WorkflowTask>, a: nat, b: nat)
    requires Wf(db) && View(db, Tasks, "") == Map(tasks, WrapTask)
    requires a < |tasks| && b < |tasks| && tasks[a].taskId == tasks[b].taskId
    ensures a == b
  {
    var s := View(db, Tasks, "");
    var keys := ScanIsOrderBy(db, Tasks, Some(""), Next(db));
    assert s[a] == TaskDoc(tasks[a]) && s[b] == TaskDoc(tasks[b]);
    assert RowOk(db, (Tasks, keys[a])) && RowOk(db, (Tasks, keys[b]));
    assert keys[a] == keys[b];
  }

  ghost function Listed(db: Db, a: Aggregate): Db {
    InsertLists(DeleteLists(PutDoc(db, Projects, "", ProjectDoc(a.project)), a.project.projectId), a.project.projectId, a)
  }

  lemma ListedView(db: Db, a: Aggregate, k: Kind, p: string)
    requires Wf(db) && ProjectIdOk(a.project.projectId) && DistinctLists(a)
    ensures var to := Listed(db, a);
            && Wf(to)
            && View(to, k, p) ==
               if !Root(k) && p == a.project.projectId then Fresh(a, k)
               else if k == Projects && p == "" then PutById(View(db, k, p), DocId, ProjectDoc(a.project))
               else View(db, k, p)
  {
    var pid := a.project.projectId;
    var saved := PutDoc(db, Projects, "", ProjectDoc(a.project));
    PutView(db, Projects, "", ProjectDoc(a.project), k, p);
    var cleared := DeleteLists(saved, pid);
    DeleteListsView(saved, pid, k, p);
    forall kind | !Root(kind) ensures View(cleared, kind, pid) == [] { DeleteListsView(saved, pid, kind, pid); }
    InsertListsView(cleared, pid, a, k, p);
  }

  ghost function Retasked(listed: Db, a: Aggregate): Db {
    PutAllDocs(DeleteKeys(listed, Tasks, TaskIdsOf(listed, a.project.projectId)), Tasks, "", Map(a.tasks, WrapTask))
  }

  lemma RetaskedView(listed: Db, m: MemoryState, a: Aggregate, k: Kind, p: string)
    requires Wf(listed) && View(listed, Tasks, "") == Map(m.tasks, WrapTask)
    ensures var to := Retasked(listed, a);
            && Wf(to)
            && View(to, k, p) ==
               if k == Tasks && p == "" then
                 Map(PutAll(TasksOfOthers(m.tasks, a.project.projectId), TaskId, a.tasks), WrapTask)
               else View(listed, k, p)
  {
    var pid := a.project.projectId;
    DeleteTasksView(listed, m, pid, k, p);
    var dropped := DeleteKeys(listed, Tasks, TaskIdsOf(listed, pid));
    PutAllView(dropped, Tasks, "", Map(a.tasks, WrapTask), k, p);
    if k == Tasks && p == "" { PutAllMap(TasksOfOthers(m.tasks, pid), TaskId, WrapTask, DocId, a.tasks); }
  }

  lemma OverwriteView(db: Db, m: MemoryState, pub: Publication, k: Kind, p: string)
    requires Wf(db) && View(db, Tasks, "") == Map(m.tasks, WrapTask)
    requires ProjectIdOk(pub.aggregate.project.projectId) && DistinctLists(pub.aggregate)
    ensures var a, to := pub.aggregate, SqlOverwrite(db, pub);
            && Wf(to)
            && View(to, k, p) ==
               if !Root(k) && p == a.project.projectId then Fresh(a, k)
               else if p != "" then View(db, k, p)
               else if k == Projects then PutById(View(db, k, p), DocId, ProjectDoc(a.project))
               else if k == Tasks then Map(PutAll(TasksOfOthers(m.tasks, a.project.projectId), TaskId, a.tasks), WrapTask)
               else if k == Sessions then PutById(View(db, k, p), DocId, SessionDoc(pub.session))
               else View(db, k, p)
  {
    var a := pub.aggregate;
    var listed := Listed(db, a);
    ListedView(db, a, k, p);
    ListedView(db, a, Tasks, "");
    RetaskedView(listed, m, a, k, p);
    PutView(Retasked(listed, a), Sessions, "", SessionDoc(pub.session), k, p);
    assert SqlOverwrite(db, pub) == PutDoc(Retasked(listed, a), Sessions, "", SessionDoc(pub.session));
  }

  /** The memory side of the same bookkeeping: the published project's own lists. */
  lemma OverwriteOwnDocs(m: MemoryState, pub: Publication, k: Kind)
    requires DistinctLists(pub.aggregate) && !Root(k)
    ensures Docs(Overwrite(m, pub), k, pub.aggregate.project.projectId) == Fresh(pub.aggregate, k)
  {
    PutAllFromEmpty(FindingId, pub.aggregate.findings);
  }

  lemma OverwriteOtherDocs(m: MemoryState, pub: Publication, k: Kind, p: string)
    requires !Root(k) && p != pub.aggregate.project.projectId
    ensures Docs(Overwrite(m, pub), k, p) == Docs(m, k, p)
  {
  }

  lemma OverwriteProjects(m: MemoryState, pub: Publication)
    ensures Docs(Overwrite(m, pub), Projects, "") == PutById(Docs(m, Projects, ""), DocId, ProjectDoc(pub.aggregate.project))
  {
    PutByIdMap(m.projects, ProjectId, WrapProject, DocId, pub.aggregate.project);
  }

  lemma OverwriteTasks(m: MemoryState, pub: Publication)
    requires Distinct(pub.aggregate.tasks, TaskId)
    ensures Docs(Overwrite(m, pub), Tasks, "") ==
            Map(PutAll(TasksOfOthers(m.tasks, pub.aggregate.project.projectId), TaskId, pub.aggregate.tasks), WrapTask)
  {
    PutAllFromEmpty(TaskId, pub.aggregate.tasks);
  }

  /** What each list holds after the overwrite. */
  lemma OverwriteDocs(m: MemoryState, pub: Publication, k: Kind, p: string)
    requires Legal(m, PublishOp(pub)) && ParentOk(k, p)
    ensures var a := pub.aggregate;
            Docs(Overwrite(m, pub), k, p) ==
            if !Root(k) && p == a.project.projectId then Fresh(a, k)
            else if k == Projects then PutById(Docs(m, k, p), DocId, ProjectDoc(a.project))
            else if k == Tasks then
              Map(PutAll(TasksOfOthers(m.tasks, a.project.projectId), TaskId, a.tasks), WrapTask)
            else Docs(m, k, p)
  {
    if !Root(k) {
      if p == pub.aggregate.project.projectId { OverwriteOwnDocs(m, pub, k); } else { OverwriteOtherDocs(m, pub, k, p); }
    } else if k == Projects {
      OverwriteProjects(m, pub);
    } else if k == Tasks {
      OverwriteTasks(m, pub);
    }
  }

  lemma OverwriteSame(db: Db, m: MemoryState, pub: Publication, k: Kind, p: string)
    requires Refines(db, m) && Legal(m, PublishOp(pub))
    ensures Wf(SqlOverwrite(db, pub)) && Same(SqlOverwrite(db, pub), Overwrite(m, pub), k, p)
  {
    assert Same(db, m, k, p) && Same(db, m, Tasks, "");
    OverwriteView(db, m, pub, k, p);
    if k != Sessions && ParentOk(k, p) { OverwriteDocs(m, pub, k, p); }
  }

  lemma OverwriteSession(db: Db, m: MemoryState, pub: Publication, rid: string)
    requires Refines(db, m) && Legal(m, PublishOp(pub))
    ensures SameSession(SqlOverwrite(db, pub), Overwrite(m, pub), rid)
  {
    assert Same(db, m, Tasks, "") && SameSession(db, m, rid);
    OverwriteView(db, m, pub, Sessions, "");
    SessionLookup(db, SqlOverwrite(db, pub), pub.session, rid);
  }

  /** A database whose sessions are those of another with one put on top. */
  lemma SessionLookup(db: Db, to: Db, s: ReviewSession, rid: string)
    requires Wf(db) && Wf(to) && View(to, Sessions, "") == PutById(View(db, Sessions, ""), DocId, SessionDoc(s))
    ensures GetDoc(to, Sessions, "", rid) == if rid == s.reviewId then Some(SessionDoc(s)) else GetDoc(db, Sessions, "", rid)
  {
    GetView(db, Sessions, "", rid);
    GetView(to, Sessions, "", rid);
    PutByIdKeepsIds(View(db, Sessions, ""), DocId, SessionDoc(s), rid);
  }

  lemma PublishSim(db: Db, m: MemoryState, pub: Publication)
    requires Refines(db, m) && Legal(m, PublishOp(pub))
    ensures Refines(SqlPublish(db, pub).0, Publish(m, pub).0)
    ensures SqlPublish(db, pub).1 == MemDo(m, PublishOp(pub)).1
  {
    PublishableSim(db, m, pub);
    if ValidPublication(pub) && Publishable(m, pub) {
      PublishKeepsOrder(m, pub);
      forall k, p ensures Same(SqlOverwrite(db, pub), Overwrite(m, pub), k, p) { OverwriteSame(db, m, pub, k, p); }
      forall rid ensures SameSession(SqlOverwrite(db, pub), Overwrite(m, pub), rid) { OverwriteSession(db, m, pub, rid); }
      OverwriteSame(db, m, pub, Facts, "");
    }
  }

  // ---------------------------------------------------------------- theorems

  /** One operation: equal answers, related states. */
  lemma StepSimulates(db: Db, m: MemoryState, op: Op)
    requires Refines(db, m) && Legal(m, op)
    ensures Refines(SqlDo(db, op).0, MemDo(m, op).0)
    ensures SqlDo(db, op).1 == MemDo(m, op).1
  {
    match op
    case PutSessionOp(s) => SessionSim(db, m, SqlDo(db, op).0, s);
    case ComparePutOp(rid, expected, s, g) => ComparePutSim(db, m, rid, expected, s, g);
    case GetOrCreateOp(t) => GetOrCreateSim(db, m, t);
    case ClaimOp(id) => ClaimSim(db, m, id);
    case PublishOp(pub) => PublishSim(db, m, pub);
    case GetOp(_, _, _) => ReadsSim(db, m, op);
    case ListOp(_, _) => ReadsSim(db, m, op);
    case ListAllOp(_) => ReadsSim(db, m, op);
    case _ => WritesSim(db, m, op);
  }

  function MemRun(m: MemoryState, ops: seq<Op>): seq<Answer>
    decreases |ops|
  {
    if ops == [] then [] else var (m', a) := MemDo(m, ops[0]); [a] + MemRun(m', ops[1..])
  }

  ghost function SqlRun(db: Db, ops: seq<Op>): seq<Answer>
    decreases |ops|
  {
    if ops == [] then [] else var (db', a) := SqlDo(db, ops[0]); [a] + SqlRun(db', ops[1..])
  }

  ghost predicate AllLegal(m: MemoryState, ops: seq<Op>)
    decreases |ops|
  {
    ops == [] || (Legal(m, ops[0]) && AllLegal(MemDo(m, ops[0]).0, ops[1..]))
  }

  /** Over any run of store operations the two backends cannot be told apart. */
  lemma {:induction false} RunSimulates(db: Db, m: MemoryState, ops: seq<Op>)
    requires Refines(db, m) && AllLegal(m, ops)
    ensures SqlRun(db, ops) == MemRun(m, ops)
    decreases |ops|
  {
    if ops != [] {
      StepSimulates(db, m, ops[0]);
      RunSimulates(SqlDo(db, ops[0]).0, MemDo(m, ops[0]).0, ops[1..]);
    }
  }

  const EMPTY_MEMORY := MemoryState([], map[], [], map[], map[])

  const EMPTY_DB := Db(map[], None)

  lemma EmptyStoresRelated()
    ensures Refines(EMPTY_DB, EMPTY_MEMORY)
  {
    forall kind, parent ensures Same(EMPTY_DB, EMPTY_MEMORY, kind, parent) {
      ScanEmpty(EMPTY_DB, kind, Some(parent), 0);
    }
    forall k ensures IndexAt([], map[], k) {}
  }

  /**
   Why saves must follow adds: a task saved without being added is missing from the
   memory index, so the next caller with its key is told to create one, while the
   rows answer with the task that was saved.
   */
  lemma SaveOfUnseenTellsThemApart(t: WorkflowTask, u: WorkflowTask)
    requires t.taskId != u.taskId && t.idempotencyKey == u.idempotencyKey
    ensures var ops := [SaveTaskOp(t), GetOrCreateOp(u)];
            && !AllLegal(EMPTY_MEMORY, ops)
            && MemRun(EMPTY_MEMORY, ops) == [Done, Task(u, true)]
            && SqlRun(EMPTY_DB, ops) == [Done, Task(t, false)]
  {
    var ops := [SaveTaskOp(t), GetOrCreateOp(u)];
    var m := MemDo(EMPTY_MEMORY, ops[0]).0;
    var db := SqlDo(EMPTY_DB, ops[0]).0;
    assert ops[1..] == [GetOrCreateOp(u)] && ops[1..][1..] == [];
    OneTaskScan(t);
    assert MemDo(m, ops[1]).1 == Task(u, true);
    assert SqlDo(db, ops[1]).1 == Task(t, false);
    assert MemRun(m, ops[1..]) == [Task(u, true)];
    assert SqlRun(db, ops[1..]) == [Task(t, false)];
  }

  lemma OneTaskScan(t: WorkflowTask)
    ensures var db := PutDoc(EMPTY_DB, Tasks, "", TaskDoc(t)); Scan(db, Tasks, None, Next(db)) == [TaskDoc(t)]
  {
    var db := PutDoc(EMPTY_DB, Tasks, "", TaskDoc(t));
    EmptyStoresRelated();
    PutView(EMPTY_DB, Tasks, "", TaskDoc(t), Tasks, "");
    ListAllIsRoot(db, Tasks);
    assert Same(EMPTY_DB, EMPTY_MEMORY, Tasks, "");
  }

  /** The separator matters: with a slash in a project id two projects share a key. */
  lemma SlashInParentCollides()
    ensures DocKey("a/b", "c") == DocKey("a", "b/c")
    ensures var db := AppendDoc(Db(map[], None), Facts, "a/b",
                        FactDoc(Fact("c", "k", None, SourceRef(FromAnswer, "r", None), FactConflict, None)));
            GetDoc(db, Facts, "a", "b/c").Some?
  {
    assert DocKey("a/b", "c") == "a/b/c" == DocKey("a", "b/c");
  }
}
