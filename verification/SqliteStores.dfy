/**
 The SQLite store as an object: a table and a counter behind one connection, and
 transactions that either commit every statement or roll all of them back.
 */
module Sqlite {
  import opened Entities
  import opened Keyed
  import opened MemoryStore
  import opened SqliteTable
  import opened SqliteRefinement

  class SqliteStores {
    var rows: map<(Kind, string), Row>
    var counter: Option<nat>
    var saved: Option<Db>    // what ROLLBACK restores while a transaction is open
    var budget: Option<nat>  // write statements the engine still accepts; None when it never fails

    function State(): Db
      reads this`rows, this`counter
    {
      Db(rows, counter)
    }

    constructor ()
      ensures State() == Db(map[], None) && saved == None && budget == None
    {
      rows, counter, saved, budget := map[], None, None, None;
    }

    method Begin()
      modifies this`saved
      ensures saved == Some(State())
    {
      saved := Some(State());
    }

    method Commit()
      modifies this`saved
      ensures saved == None
    {
      saved := None;
    }

    method Rollback()
      requires saved.Some?
      modifies this`rows, this`counter, this`saved
      ensures State() == old(saved).value && saved == None
    {
      rows, counter, saved := saved.value.rows, saved.value.counter, None;
    }

    /** Whether the next write statement succeeds, or the engine raises instead. */
    method Accepts() returns (ok: bool)
      modifies this`budget
      ensures ok <==> old(budget) != Some(0)
      ensures old(budget) == None ==> budget == None
    {
      if budget.None? { return true; }
      if budget.value == 0 { return false; }
      budget := Some(budget.value - 1);
      return true;
    }

    /** INSERT the counter at 0, or on conflict add one; then read it back. */
    method NextOrdinal() returns (n: nat)
      modifies this`counter
      ensures n == Next(old(State())) && State() == Bump(old(State()))
      ensures old(Wf(State())) ==> Wf(State()) && forall k | k in rows :: rows[k].ordinal < n
    {
      if Wf(State()) { BumpIsAbove(State()); }
      if counter.None? { counter := Some(0); } else { counter := Some(counter.value + 1); }
      n := counter.value;
    }

    method Insert(kind: Kind, key: string, parent: string, ordinal: nat, doc: Document)
      modifies this`rows
      ensures State() == Upsert(old(State()), kind, key, parent, ordinal, doc)
    {
      if (kind, key) in rows {
        rows := rows[(kind, key) := rows[(kind, key)].(payload := doc)];
      } else {
        rows := rows[(kind, key) := Row(parent, ordinal, doc)];
      }
    }

    method Put(kind: Kind, parent: string, doc: Document)
      modifies this`rows, this`counter
      ensures State() == PutDoc(old(State()), kind, parent, doc)
    {
      var key, ordinal := DocKey(parent, DocId(doc)), 0;
      if (kind, key) in rows { ordinal := rows[(kind, key)].ordinal; } else { ordinal := NextOrdinal(); }
      Insert(kind, key, parent, ordinal, doc);
    }

    method Append(kind: Kind, parent: string, doc: Document)
      modifies this`rows, this`counter
      ensures State() == AppendDoc(old(State()), kind, parent, doc)
    {
      var ordinal := NextOrdinal();
      var id := if kind == Audit then Numbered(ordinal) else DocId(doc);
      Insert(kind, DocKey(parent, id), parent, ordinal, doc);
    }

    /** SELECT payload ... ORDER BY ordinal. */
    method Select(kind: Kind, parent: Option<string>) returns (docs: seq<Document>)
      requires Wf(State())
      ensures docs == Scan(State(), kind, parent, Next(State()))
    {
      docs := [];
      for o := 0 to Next(State())
        invariant docs == Scan(State(), kind, parent, o)
      {
        var hits := set k | k in rows && k.0 == kind && rows[k].ordinal == o
                            && (parent.Some? ==> rows[k].parent == parent.value);
        if hits != {} {
          var k :| k in hits;
          ScanStep(State(), kind, parent, o, k.1);
          docs := docs + [rows[k].payload];
        } else {
          forall key ensures !Hit(State(), kind, parent, key, o) {
            assert Hit(State(), kind, parent, key, o) ==> (kind, key) in hits;
          }
          ScanSkip(State(), kind, parent, o);
        }
      }
    }

    method ComparePut(rid: string, expected: ReviewState, session: ReviewSession, generation: Option<nat>)
      returns (swapped: bool)
      modifies this`rows, this`counter, this`saved
      ensures (State(), swapped) == SqlComparePut(old(State()), rid, expected, session, generation)
      ensures saved == None
    {
      Begin();
      if (Sessions, rid) !in rows { Rollback(); return false; }
      var current := rows[(Sessions, rid)].payload;
      if !current.SessionDoc? || current.session.state != expected { Rollback(); return false; }
      if generation.Some? && current.session.generation != generation.value { Rollback(); return false; }
      rows := rows[(Sessions, rid) := rows[(Sessions, rid)].(payload := SessionDoc(session))];
      Commit();
      return true;
    }

    method GetOrCreateByIdempotencyKey(task: WorkflowTask) returns (stored: WorkflowTask, created: bool)
      requires Wf(State())
      modifies this`rows, this`counter, this`saved
      ensures (State(), Task(stored, created)) == SqlGetOrCreate(old(State()), task)
    {
      var all := Select(Tasks, None);
      OnlyTasks(State(), all);
      Begin();
      for i := 0 to |all|
        invariant forall j | 0 <= j < i :: TaskDocKey(all[j]) != task.idempotencyKey
        invariant State() == old(State())
      {
        if all[i].task.idempotencyKey == task.idempotencyKey {
          FindUnique(all, TaskDocKey, task.idempotencyKey, i);
          Commit();
          return all[i].task, false;
        }
      }
      FindUnique(all, TaskDocKey, task.idempotencyKey, |all|);
      Put(Tasks, "", TaskDoc(task));
      Commit();
      return task, true;
    }

    method ClaimQueuedTask(taskId: string) returns (claimed: Option<WorkflowTask>)
      requires Wf(State())
      modifies this`rows, this`counter, this`saved
      ensures (State(), ClaimedTask(claimed)) == SqlClaim(old(State()), taskId)
    {
      Begin();
      if (Tasks, taskId) !in rows { Rollback(); return None; }
      assert RowOk(State(), (Tasks, taskId));
      var task := rows[(Tasks, taskId)].payload.task;
      if task.status != Queued { Rollback(); return None; }
      var running := task.(status := Running);
      Put(Tasks, "", TaskDoc(running));
      Commit();
      return Some(running);
    }

    method AppendDocs(kind: Kind, parent: string, docs: seq<Document>) returns (ok: bool)
      modifies this`rows, this`counter, this`budget
      ensures ok ==> State() == AppendAll(old(State()), kind, parent, docs)
      ensures old(budget) == None ==> ok && budget == None
    {
      for i := 0 to |docs|
        invariant State() == AppendAll(old(State()), kind, parent, docs[..i])
        invariant old(budget) == None ==> budget == None
      {
        assert docs[..i + 1][..i] == docs[..i];
        ok := Accepts();
        if !ok { return; }
        Append(kind, parent, docs[i]);
      }
      assert docs[..|docs|] == docs;
      ok := true;
    }

    method PutDocs(kind: Kind, parent: string, docs: seq<Document>) returns (ok: bool)
      modifies this`rows, this`counter, this`budget
      ensures ok ==> State() == PutAllDocs(old(State()), kind, parent, docs)
      ensures old(budget) == None ==> ok && budget == None
    {
      for i := 0 to |docs|
        invariant State() == PutAllDocs(old(State()), kind, parent, docs[..i])
        invariant old(budget) == None ==> budget == None
      {
        assert docs[..i + 1][..i] == docs[..i];
        ok := Accepts();
        if !ok { return; }
        Put(kind, parent, docs[i]);
      }
      assert docs[..|docs|] == docs;
      ok := true;
    }

    /** DELETE the five project collections, then insert the published ones. */
    method ReplaceLists(pid: string, a: Aggregate) returns (ok: bool)
      modifies this`rows, this`counter, this`budget
      ensures ok ==> State() == InsertLists(DeleteLists(old(State()), pid), pid, a)
      ensures old(budget) == None ==> ok && budget == None
    {
      ok := Accepts();
      if !ok { return; }
      rows := DeleteLists(State(), pid).rows;
      ok := AppendDocs(Facts, pid, Map(a.facts, WrapFact));
      if ok { ok := PutDocs(Findings, pid, Map(a.findings, WrapFinding)); }
      if ok { ok := PutDocs(Forms, pid, Map(a.forms, WrapForm)); }
      if ok { ok := AppendDocs(Timeline, pid, Map(a.timeline, WrapEvent)); }
      if ok { ok := AppendDocs(Audit, pid, Map(a.audit, WrapAudit)); }
    }

    method ReplaceTasks(pid: string, a: Aggregate) returns (ok: bool)
      requires Wf(State()) && pid == a.project.projectId
      modifies this`rows, this`counter, this`budget
      ensures ok ==> State() == Retasked(old(State()), a)
      ensures old(budget) == None ==> ok && budget == None
    {
      var all := Select(Tasks, None);
      var mine := Filter(all, TaskDocOf(pid));
      for i := 0 to |mine|
        invariant State() == DeleteKeys(old(State()), Tasks, set d | d in mine[..i] :: DocId(d))
        invariant old(budget) == None ==> budget == None
      {
        ok := Accepts();
        if !ok { return; }
        rows := rows - {(Tasks, DocId(mine[i]))};
        assert mine[..i + 1] == mine[..i] + [mine[i]];
      }
      assert mine[..|mine|] == mine;
      ok := PutDocs(Tasks, "", Map(a.tasks, WrapTask));
    }

    /** True when the session and all seven live collections are still the staged ones. */
    method StillLive(pub: Publication) returns (live: bool)
      requires Wf(State())
      ensures live <==> SqlPublishable(State(), pub)
    {
      var b, pid := pub.baseline.aggregate, pub.aggregate.project.projectId;
      var facts := Select(Facts, Some(pid));
      var findings := Select(Findings, Some(pid));
      var forms := Select(Forms, Some(pid));
      var timeline := Select(Timeline, Some(pid));
      var audit := Select(Audit, Some(pid));
      var tasks := Select(Tasks, None);
      live := && SqlMatches(State(), pub.session.reviewId, Analyzing, Some(pub.session.generation))
              && GetDoc(State(), Projects, "", pid) == Some(ProjectDoc(b.project))
              && facts == Map(b.facts, WrapFact) && findings == Map(b.findings, WrapFinding)
              && forms == Map(b.forms, WrapForm) && Filter(tasks, TaskDocOf(pid)) == Map(b.tasks, WrapTask)
              && timeline == Map(b.timeline, WrapEvent) && audit == Map(b.audit, WrapAudit);
    }

    /**
     One transaction. `None` means a statement raised part-way: every row and the
     ordinal counter are back where they were.
     */
    method PublishReviewAnalysis(pub: Publication) returns (answer: Option<Answer>)
      requires Wf(State()) && ProjectIdOk(pub.aggregate.project.projectId) && DistinctLists(pub.aggregate)
      modifies this
      ensures answer.Some? ==> (State(), answer.value) == SqlPublish(old(State()), pub)
      ensures answer.None? ==> State() == old(State())
      ensures old(budget) == None ==> answer.Some?
    {
      if !ValidPublication(pub) { return Some(RaisedError); }
      Begin();
      var live := StillLive(pub);
      if !live { Rollback(); return Some(Yes(false)); }
      var ok := WriteAll(pub);
      if !ok { Rollback(); return None; }
      Commit();
      return Some(Yes(true));
    }

    method WriteAll(pub: Publication) returns (ok: bool)
      requires Wf(State()) && ProjectIdOk(pub.aggregate.project.projectId) && DistinctLists(pub.aggregate)
      modifies this`rows, this`counter, this`budget
      ensures ok ==> State() == SqlOverwrite(old(State()), pub)
      ensures old(budget) == None ==> ok
    {
      var a := pub.aggregate;
      ListedView(State(), a, Facts, "");
      ok := Accepts();
      if !ok { return; }
      Put(Projects, "", ProjectDoc(a.project));
      ok := ReplaceLists(a.project.projectId, a);
      if !ok { return; }
      assert State() == Listed(old(State()), a);
      ok := ReplaceTasks(a.project.projectId, a);
      if !ok { return; }
      ok := Accepts();
      if !ok { return; }
      Put(Sessions, "", SessionDoc(pub.session));
    }
  }

  lemma OnlyTasks(db: Db, all: seq<Document>)
    requires Wf(db) && all == Scan(db, Tasks, None, Next(db))
    ensures forall d | d in all :: d.TaskDoc?
  {
    var keys := ScanIsOrderBy(db, Tasks, None, Next(db));
    forall i | 0 <= i < |all| ensures all[i].TaskDoc? { assert RowOk(db, (Tasks, keys[i])); }
  }
}
