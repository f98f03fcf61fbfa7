/**
 The durable store's one table: JSON documents keyed by (collection, key), with
 a parent and an ordinal drawn from one counter. Lists are rows in ordinal order.
 */
module SqliteTable {
  import opened Entities
  import opened Keyed

  datatype Kind = Projects | Sessions | Facts | Findings | Forms | Tasks | Timeline | Audit

  datatype Document =
    | ProjectDoc(project: Project)
    | SessionDoc(session: ReviewSession)
    | FactDoc(fact: Fact)
    | FindingDoc(finding: Finding)
    | FormDoc(form: FormDraft)
    | TaskDoc(task: WorkflowTask)
    | EventDoc(event: TimelineEvent)
    | AuditDoc(entry: AuditEntry)

  datatype Row = Row(parent: string, ordinal: nat, payload: Document)

  datatype Db = Db(rows: map<(Kind, string), Row>, counter: Option<nat>)

  function DocId(d: Document): string {
    match d
    case ProjectDoc(p) => p.projectId
    case SessionDoc(s) => s.reviewId
    case FactDoc(f) => f.factId
    case FindingDoc(f) => f.findingId
    case FormDoc(f) => f.draftId
    case TaskDoc(t) => t.taskId
    case EventDoc(e) => e.eventId
    case AuditDoc(_) => ""
  }

  function KindOf(d: Document): Kind {
    match d
    case ProjectDoc(_) => Projects case SessionDoc(_) => Sessions case FactDoc(_) => Facts
    case FindingDoc(_) => Findings case FormDoc(_) => Forms case TaskDoc(_) => Tasks
    case EventDoc(_) => Timeline case AuditDoc(_) => Audit
  }

  // ------------------------------------------------------------------- keys

  function DocKey(parent: string, id: string): string {
    if parent == "" then id else parent + "/" + id
  }

  function Digit(n: nat): char requires n < 10 { '0' + (n as char) }

  function Decimal(n: nat): string {
    if n < 10 then [Digit(n)] else Decimal(n / 10) + [Digit(n % 10)]
  }

  function Numbered(n: nat): string { "#" + Decimal(n) }

  lemma {:induction false} DecimalInjective(a: nat, b: nat)
    requires Decimal(a) == Decimal(b)
    ensures a == b
  {
    var x, y := Decimal(a), Decimal(b);
    assert x[|x| - 1] == Digit(a % 10) && y[|y| - 1] == Digit(b % 10);
    if a >= 10 && b >= 10 {
      assert x[..|x| - 1] == Decimal(a / 10) && y[..|y| - 1] == Decimal(b / 10);
      DecimalInjective(a / 10, b / 10);
    }
  }

  lemma NumberedInjective(a: nat, b: nat)
    requires Numbered(a) == Numbered(b)
    ensures a == b
  {
    assert Numbered(a)[1..] == Decimal(a) && Numbered(b)[1..] == Decimal(b);
    DecimalInjective(a, b);
  }

  /** Keys are unambiguous as long as no parent contains the separator. */
  lemma KeyInjective(p: string, i: string, q: string, j: string)
    requires p != "" && q != "" && '/' !in p && '/' !in q
    requires DocKey(p, i) == DocKey(q, j)
    ensures p == q && i == j
  {
    var k := DocKey(p, i);
    assert k[|p|] == '/' && k[|q|] == '/';
    assert forall n | 0 <= n < |p| :: k[n] == p[n] && k[n] != '/';
    assert forall n | 0 <= n < |q| :: k[n] == q[n] && k[n] != '/';
    assert k[..|p|] == p && k[..|q|] == q;
    assert k[|p| + 1..] == i && k[|q| + 1..] == j;
  }

  predicate Root(kind: Kind) { kind.Projects? || kind.Sessions? || kind.Tasks? }

  /** Root collections use the empty parent; project collections use ids without a slash. */
  predicate ParentOk(kind: Kind, parent: string) {
    if Root(kind) then parent == "" else parent != "" && '/' !in parent
  }

  /** The key a row must carry: its document's id, or its own ordinal for documents without one. */
  function RowKey(kind: Kind, row: Row): string {
    DocKey(row.parent, if kind == Audit then Numbered(row.ordinal) else DocId(row.payload))
  }

  // ------------------------------------------------------------- statements

  function Next(db: Db): nat { if db.counter.None? then 0 else db.counter.value + 1 }

  function Bump(db: Db): Db { db.(counter := Some(Next(db))) }

  /** INSERT ... ON CONFLICT DO UPDATE SET payload: a clash keeps parent and ordinal. */
  function Upsert(db: Db, kind: Kind, key: string, parent: string, ordinal: nat, doc: Document): Db {
    if (kind, key) in db.rows
    then db.(rows := db.rows[(kind, key) := db.rows[(kind, key)].(payload := doc)])
    else db.(rows := db.rows[(kind, key) := Row(parent, ordinal, doc)])
  }

  function PutDoc(db: Db, kind: Kind, parent: string, doc: Document): Db {
    var key := DocKey(parent, DocId(doc));
    if (kind, key) in db.rows
    then Upsert(db, kind, key, parent, db.rows[(kind, key)].ordinal, doc)
    else Upsert(Bump(db), kind, key, parent, Next(db), doc)
  }

  function AppendDoc(db: Db, kind: Kind, parent: string, doc: Document): Db {
    var id := if kind == Audit then Numbered(Next(db)) else DocId(doc);
    Upsert(Bump(db), kind, DocKey(parent, id), parent, Next(db), doc)
  }

  function GetDoc(db: Db, kind: Kind, parent: string, id: string): Option<Document> {
    if (kind, DocKey(parent, id)) in db.rows then Some(db.rows[(kind, DocKey(parent, id))].payload) else None
  }

  function DeleteParent(db: Db, kind: Kind, parent: string): Db {
    db.(rows := map k | k in db.rows && !(k.0 == kind && db.rows[k].parent == parent) :: db.rows[k])
  }

  function DeleteKeys(db: Db, kind: Kind, keys: set<string>): Db {
    db.(rows := map k | k in db.rows && !(k.0 == kind && k.1 in keys) :: db.rows[k])
  }

  ghost predicate Hit(db: Db, kind: Kind, parent: Option<string>, key: string, ordinal: int) {
    && (kind, key) in db.rows
    && (parent.Some? ==> db.rows[(kind, key)].parent == parent.value)
    && db.rows[(kind, key)].ordinal == ordinal
  }

  /** SELECT payload WHERE collection [AND parent] ORDER BY ordinal, up to ordinal `n`. */
  ghost function Scan(db: Db, kind: Kind, parent: Option<string>, n: nat): seq<Document> {
    if n == 0 then []
    else
      var o := n - 1;
      if key :| Hit(db, kind, parent, key, o) then Scan(db, kind, parent, o) + [db.rows[(kind, key)].payload]
      else Scan(db, kind, parent, o)
  }

  ghost function View(db: Db, kind: Kind, parent: string): seq<Document> {
    Scan(db, kind, Some(parent), Next(db))
  }

  ghost predicate RowOk(db: Db, k: (Kind, string)) {
    k in db.rows ==>
      var row := db.rows[k];
      && row.ordinal < Next(db)
      && KindOf(row.payload) == k.0
      && ParentOk(k.0, row.parent)
      && k.1 == RowKey(k.0, row)
  }

  ghost predicate Apart(db: Db, k: (Kind, string), l: (Kind, string)) {
    k in db.rows && l in db.rows && db.rows[k].ordinal == db.rows[l].ordinal ==> k == l
  }

  ghost predicate Wf(db: Db) {
    && (forall k :: RowOk(db, k))
    && (forall k, l :: Apart(db, k, l))
  }

  /** The next ordinal is above every stored one, and drawing it leaves the table in order. */
  lemma BumpIsAbove(db: Db)
    requires Wf(db)
    ensures Wf(Bump(db)) && forall k | k in db.rows :: db.rows[k].ordinal < Next(db)
  {
    forall k ensures RowOk(Bump(db), k) { assert RowOk(db, k); }
    forall k, l ensures Apart(Bump(db), k, l) { assert Apart(db, k, l); }
    forall k | k in db.rows ensures db.rows[k].ordinal < Next(db) { assert RowOk(db, k); }
  }

  // ------------------------------------------------------- what a scan shows

  lemma ScanStep(db: Db, kind: Kind, parent: Option<string>, n: nat, key: string)
    requires Wf(db) && Hit(db, kind, parent, key, n)
    ensures Scan(db, kind, parent, n + 1) == Scan(db, kind, parent, n) + [db.rows[(kind, key)].payload]
  {
    var k :| Hit(db, kind, parent, k, n)
             && Scan(db, kind, parent, n + 1) == Scan(db, kind, parent, n) + [db.rows[(kind, k)].payload];
    assert Apart(db, (kind, k), (kind, key));
  }

  lemma ScanSkip(db: Db, kind: Kind, parent: Option<string>, n: nat)
    requires forall key :: !Hit(db, kind, parent, key, n)
    ensures Scan(db, kind, parent, n + 1) == Scan(db, kind, parent, n)
  {
  }

  /**
   ORDER BY, stated independently: the scan is the payloads of exactly the
   matching rows, listed by strictly increasing ordinal.
   */
  lemma {:induction false} ScanIsOrderBy(db: Db, kind: Kind, parent: Option<string>, n: nat) returns (keys: seq<string>)
    requires Wf(db)
    ensures |keys| == |Scan(db, kind, parent, n)|
    ensures forall i | 0 <= i < |keys| ::
              && (kind, keys[i]) in db.rows && db.rows[(kind, keys[i])].ordinal < n
              && Hit(db, kind, parent, keys[i], db.rows[(kind, keys[i])].ordinal)
              && Scan(db, kind, parent, n)[i] == db.rows[(kind, keys[i])].payload
    ensures forall i, j | 0 <= i < j < |keys| ::
              (kind, keys[i]) in db.rows && (kind, keys[j]) in db.rows &&
              db.rows[(kind, keys[i])].ordinal < db.rows[(kind, keys[j])].ordinal
    ensures forall key, o | Hit(db, kind, parent, key, o) && o < n :: key in keys
  {
    if n == 0 { return []; }
    var m := n - 1;
    var before := ScanIsOrderBy(db, kind, parent, m);
    if key :| Hit(db, kind, parent, key, m) {
      ScanStep(db, kind, parent, m, key);
      keys := before + [key];
      forall k, o | Hit(db, kind, parent, k, o) && o < n ensures k in keys {
        if o == m { assert Apart(db, (kind, k), (kind, key)); assert keys[|before|] == key; }
      }
    } else {
      ScanSkip(db, kind, parent, m);
      keys := before;
    }
  }

  /** Two tables with the same matching rows show the same scan. */
  lemma {:induction false} ScanFrame(db: Db, to: Db, kind: Kind, parent: Option<string>, toParent: Option<string>, n: nat)
    requires Wf(db) && Wf(to)
    requires forall key, o | o < n :: Hit(db, kind, parent, key, o) <==> Hit(to, kind, toParent, key, o)
    requires forall key, o | o < n && Hit(db, kind, parent, key, o) ::
               (kind, key) in to.rows && to.rows[(kind, key)].payload == db.rows[(kind, key)].payload
    ensures Scan(to, kind, toParent, n) == Scan(db, kind, parent, n)
  {
    if n > 0 {
      var m := n - 1;
      ScanFrame(db, to, kind, parent, toParent, m);
      if key :| Hit(db, kind, parent, key, m) {
        ScanStep(db, kind, parent, m, key);
        ScanStep(to, kind, toParent, m, key);
      } else {
        ScanSkip(db, kind, parent, m);
        ScanSkip(to, kind, toParent, m);
      }
    }
  }

  /** No rows, no elements. */
  lemma {:induction false} ScanEmpty(db: Db, kind: Kind, parent: Option<string>, n: nat)
    requires forall key, o :: !Hit(db, kind, parent, key, o)
    ensures Scan(db, kind, parent, n) == []
  {
    if n > 0 { ScanEmpty(db, kind, parent, n - 1); ScanSkip(db, kind, parent, n - 1); }
  }

  /** In a root collection every row has the empty parent, so listing all is listing the root. */
  lemma ListAllIsRoot(db: Db, kind: Kind)
    requires Wf(db) && Root(kind)
    ensures Scan(db, kind, None, Next(db)) == View(db, kind, "")
  {
    forall key, o ensures Hit(db, kind, Some(""), key, o) <==> Hit(db, kind, None, key, o) {
      assert RowOk(db, (kind, key));
    }
    ScanFrame(db, db, kind, Some(""), None, Next(db));
  }

  /** Ids in a scan are those of its rows; an id whose row is missing or later does not occur. */
  lemma {:induction false} ScanFind(db: Db, kind: Kind, parent: string, id: string, n: nat)
    requires Wf(db) && ParentOk(kind, parent) && kind != Audit
    ensures var key := (kind, DocKey(parent, id));
            var s := Scan(db, kind, Some(parent), n);
            (Find(s, DocId, id) < |s| <==> key in db.rows && db.rows[key].parent == parent && db.rows[key].ordinal < n)
    ensures var key := (kind, DocKey(parent, id));
            var s := Scan(db, kind, Some(parent), n);
            Find(s, DocId, id) < |s| ==> s[Find(s, DocId, id)] == db.rows[key].payload
  {
    if n > 0 {
      var p, m := Some(parent), n - 1;
      ScanFind(db, kind, parent, id, m);
      if key :| Hit(db, kind, p, key, m) {
        ScanStep(db, kind, p, m, key);
        var doc := db.rows[(kind, key)].payload;
        FindAppend(Scan(db, kind, p, m), DocId, id, doc);
        assert RowOk(db, (kind, key));
        SameKey(parent, DocId(doc), id);
        var own := (kind, DocKey(parent, id));
        if own in db.rows && db.rows[own].ordinal == m { assert Apart(db, own, (kind, key)); }
      } else {
        ScanSkip(db, kind, p, m);
        assert !Hit(db, kind, p, DocKey(parent, id), m);
      }
    }
  }

  lemma SameKey(parent: string, i: string, j: string)
    ensures DocKey(parent, i) == DocKey(parent, j) <==> i == j
  {
    if parent != "" && DocKey(parent, i) == DocKey(parent, j) {
      assert DocKey(parent, i)[|parent| + 1..] == i && DocKey(parent, j)[|parent| + 1..] == j;
    }
  }

  /** A row stored under a well-formed parent's key belongs to that parent. */
  lemma KeyOwner(db: Db, kind: Kind, parent: string, id: string)
    requires Wf(db) && ParentOk(kind, parent) && (kind, DocKey(parent, id)) in db.rows
    ensures db.rows[(kind, DocKey(parent, id))].parent == parent
  {
    assert RowOk(db, (kind, DocKey(parent, id)));
    var row := db.rows[(kind, DocKey(parent, id))];
    if !Root(kind) {
      KeyInjective(parent, id, row.parent, if kind == Audit then Numbered(row.ordinal) else DocId(row.payload));
    }
  }

  // ------------------------------------------------- what a statement changes

  /** A new row at the next ordinal goes to the end of its own list and of no other. */
  lemma InsertView(db: Db, kind: Kind, parent: string, key: string, doc: Document, k: Kind, p: string)
    requires Wf(db) && ParentOk(kind, parent) && KindOf(doc) == kind && (kind, key) !in db.rows
    requires key == RowKey(kind, Row(parent, Next(db), doc))
    ensures var to := Upsert(Bump(db), kind, key, parent, Next(db), doc);
            && Wf(to)
            && View(to, k, p) == if k == kind && p == parent then View(db, k, p) + [doc] else View(db, k, p)
  {
    var to, n := Upsert(Bump(db), kind, key, parent, Next(db), doc), Next(db);
    forall x ensures RowOk(to, x) { assert RowOk(db, x); }
    forall x, y ensures Apart(to, x, y) { assert Apart(db, x, y) && RowOk(db, x) && RowOk(db, y); }
    forall q, o | o < n ensures Hit(db, k, Some(p), q, o) <==> Hit(to, k, Some(p), q, o) {
      assert RowOk(db, (k, q));
    }
    ScanFrame(db, to, k, Some(p), Some(p), n);
    if k == kind && p == parent {
      assert Hit(to, k, Some(p), key, n);
      ScanStep(to, k, Some(p), n, key);
    } else {
      forall q ensures !Hit(to, k, Some(p), q, n) { assert RowOk(db, (k, q)); }
      ScanSkip(to, k, Some(p), n);
    }
  }

  /** Replacing a row's payload by one with the same id replaces one element where it stands. */
  lemma UpdateView(db: Db, kind: Kind, parent: string, doc: Document, k: Kind, p: string)
    requires Wf(db) && ParentOk(kind, parent) && KindOf(doc) == kind && kind != Audit
    requires (kind, DocKey(parent, DocId(doc))) in db.rows
    ensures var key := (kind, DocKey(parent, DocId(doc)));
            var to := db.(rows := db.rows[key := db.rows[key].(payload := doc)]);
            && Wf(to)
            && View(to, k, p) == if k == kind && p == parent then PutById(View(db, k, p), DocId, doc) else View(db, k, p)
  {
    var key := (kind, DocKey(parent, DocId(doc)));
    var to := db.(rows := db.rows[key := db.rows[key].(payload := doc)]);
    KeyOwner(db, kind, parent, DocId(doc));
    assert Wf(to) by {
      forall x ensures RowOk(to, x) { assert RowOk(db, x); }
      forall x, y ensures Apart(to, x, y) { assert Apart(db, x, y); }
    }
    if k == kind && p == parent {
      UpdateScan(db, to, kind, parent, doc, Next(db));
      ScanFind(db, kind, parent, DocId(doc), Next(db));
      assert RowOk(db, key);
    } else {
      forall q, o ensures Hit(db, k, Some(p), q, o) <==> Hit(to, k, Some(p), q, o) {}
      ScanFrame(db, to, k, Some(p), Some(p), Next(db));
    }
  }

  lemma UpdateSnoc(s: seq<Document>, t: seq<Document>, x: Document, doc: Document, own: bool)
    requires t == if Find(s, DocId, DocId(doc)) < |s| then PutById(s, DocId, doc) else s
    requires if own then DocId(x) == DocId(doc) && Find(s, DocId, DocId(doc)) == |s| else DocId(x) != DocId(doc)
    ensures t + [if own then doc else x] ==
            if Find(s + [x], DocId, DocId(doc)) < |s + [x]| then PutById(s + [x], DocId, doc) else s + [x]
  {
    FindAppend(s, DocId, DocId(doc), x);
  }

  /** A row met at ordinal m is the updated one exactly when it has the document's id. */
  lemma OwnRow(db: Db, kind: Kind, parent: string, doc: Document, m: nat, key: string)
    requires Wf(db) && kind != Audit && Hit(db, kind, Some(parent), key, m)
    requires (kind, DocKey(parent, DocId(doc))) in db.rows && db.rows[(kind, DocKey(parent, DocId(doc)))].parent == parent
    requires ParentOk(kind, parent) && KindOf(doc) == kind
    ensures var own := DocKey(parent, DocId(doc));
            if key == own then DocId(db.rows[(kind, key)].payload) == DocId(doc)
                               && Find(Scan(db, kind, Some(parent), m), DocId, DocId(doc)) == |Scan(db, kind, Some(parent), m)|
            else DocId(db.rows[(kind, key)].payload) != DocId(doc)
  {
    var own := DocKey(parent, DocId(doc));
    ScanFind(db, kind, parent, DocId(doc), m);
    assert RowOk(db, (kind, key)) && RowOk(db, (kind, own));
    SameKey(parent, DocId(db.rows[(kind, key)].payload), DocId(doc));
  }

  lemma {:induction false} UpdateScan(db: Db, to: Db, kind: Kind, parent: string, doc: Document, n: nat)
    requires Wf(db) && Wf(to) && ParentOk(kind, parent) && KindOf(doc) == kind && kind != Audit
    requires (kind, DocKey(parent, DocId(doc))) in db.rows
    requires db.rows[(kind, DocKey(parent, DocId(doc)))].parent == parent
    requires var key := (kind, DocKey(parent, DocId(doc)));
             to == db.(rows := db.rows[key := db.rows[key].(payload := doc)])
    ensures var s := Scan(db, kind, Some(parent), n);
            Scan(to, kind, Some(parent), n) ==
            if Find(s, DocId, DocId(doc)) < |s| then PutById(s, DocId, doc) else s
  {
    if n > 0 {
      var own, m, p := DocKey(parent, DocId(doc)), n - 1, Some(parent);
      UpdateScan(db, to, kind, parent, doc, m);
      if key :| Hit(db, kind, p, key, m) {
        UpdateHits(db, to, kind, p, (kind, own), doc, m, key);
        OwnRow(db, kind, parent, doc, m, key);
        UpdateSnoc(Scan(db, kind, p, m), Scan(to, kind, p, m), db.rows[(kind, key)].payload, doc, key == own);
      } else {
        UpdateSkips(db, to, kind, p, (kind, own), doc, m);
      }
    }
  }

  lemma UpdateHits(db: Db, to: Db, kind: Kind, p: Option<string>, own: (Kind, string), doc: Document, m: nat, key: string)
    requires Wf(db) && Wf(to) && own in db.rows && to == db.(rows := db.rows[own := db.rows[own].(payload := doc)])
    requires Hit(db, kind, p, key, m)
    ensures Scan(db, kind, p, m + 1) == Scan(db, kind, p, m) + [db.rows[(kind, key)].payload]
    ensures Scan(to, kind, p, m + 1) == Scan(to, kind, p, m) + [if (kind, key) == own then doc else db.rows[(kind, key)].payload]
  {
    ScanStep(db, kind, p, m, key);
    assert Hit(to, kind, p, key, m);
    ScanStep(to, kind, p, m, key);
  }

  lemma UpdateSkips(db: Db, to: Db, kind: Kind, p: Option<string>, own: (Kind, string), doc: Document, m: nat)
    requires own in db.rows && to == db.(rows := db.rows[own := db.rows[own].(payload := doc)])
    requires forall key :: !Hit(db, kind, p, key, m)
    ensures Scan(db, kind, p, m + 1) == Scan(db, kind, p, m) && Scan(to, kind, p, m + 1) == Scan(to, kind, p, m)
  {
    ScanSkip(db, kind, p, m);
    forall q ensures !Hit(to, kind, p, q, m) { assert !Hit(db, kind, p, q, m); }
    ScanSkip(to, kind, p, m);
  }

  /** `put` is replace-in-place-or-append on the list. */
  lemma PutView(db: Db, kind: Kind, parent: string, doc: Document, k: Kind, p: string)
    requires Wf(db) && ParentOk(kind, parent) && KindOf(doc) == kind && kind != Audit
    ensures var to := PutDoc(db, kind, parent, doc);
            && Wf(to)
            && View(to, k, p) == if k == kind && p == parent then PutById(View(db, k, p), DocId, doc) else View(db, k, p)
  {
    var key := DocKey(parent, DocId(doc));
    if (kind, key) in db.rows {
      UpdateView(db, kind, parent, doc, k, p);
    } else {
      InsertView(db, kind, parent, key, doc, k, p);
      ScanFind(db, kind, parent, DocId(doc), Next(db));
    }
  }

  /** `append` of a document whose id is new is append on the list; a document without an id is always new. */
  lemma AppendView(db: Db, kind: Kind, parent: string, doc: Document, k: Kind, p: string)
    requires Wf(db) && ParentOk(kind, parent) && KindOf(doc) == kind
    requires kind != Audit ==> (kind, DocKey(parent, DocId(doc))) !in db.rows
    ensures var to := AppendDoc(db, kind, parent, doc);
            && Wf(to)
            && View(to, k, p) == if k == kind && p == parent then View(db, k, p) + [doc] else View(db, k, p)
  {
    var id := if kind == Audit then Numbered(Next(db)) else DocId(doc);
    if kind == Audit && (kind, DocKey(parent, id)) in db.rows {
      var row := db.rows[(kind, DocKey(parent, id))];
      assert RowOk(db, (kind, DocKey(parent, id)));
      KeyInjective(parent, id, row.parent, Numbered(row.ordinal));
      NumberedInjective(row.ordinal, Next(db));
      assert false;
    }
    InsertView(db, kind, parent, DocKey(parent, id), doc, k, p);
  }

  /** `get` returns the element of the list with that id. */
  lemma GetView(db: Db, kind: Kind, parent: string, id: string)
    requires Wf(db) && ParentOk(kind, parent) && kind != Audit
    ensures var s := View(db, kind, parent);
            GetDoc(db, kind, parent, id) ==
            if Find(s, DocId, id) < |s| then Some(s[Find(s, DocId, id)]) else None
  {
    ScanFind(db, kind, parent, id, Next(db));
    if (kind, DocKey(parent, id)) in db.rows {
      KeyOwner(db, kind, parent, id);
      assert RowOk(db, (kind, DocKey(parent, id)));
    }
  }

  /** Deleting a parent's rows empties its list and no other. */
  lemma DeleteView(db: Db, kind: Kind, parent: string, k: Kind, p: string)
    requires Wf(db)
    ensures var to := DeleteParent(db, kind, parent);
            && Wf(to) && View(to, k, p) == if k == kind && p == parent then [] else View(db, k, p)
  {
    var to := DeleteParent(db, kind, parent);
    forall x ensures RowOk(to, x) { assert RowOk(db, x); }
    forall x, y ensures Apart(to, x, y) { assert Apart(db, x, y); }
    if k == kind && p == parent {
      ScanEmpty(to, k, Some(p), Next(db));
    } else {
      ScanFrame(db, to, k, Some(p), Some(p), Next(db));
    }
  }

  /** Deleting rows by key filters the lists by id. */
  lemma DeleteKeysView(db: Db, kind: Kind, ids: set<string>, keep: Document -> bool, k: Kind, p: string)
    requires Wf(db) && Root(kind)
    requires forall d: Document :: keep(d) <==> DocId(d) !in ids
    ensures var to := DeleteKeys(db, kind, ids);
            && Wf(to) && View(to, k, p) == if k == kind && p == "" then Filter(View(db, k, p), keep) else View(db, k, p)
  {
    var to := DeleteKeys(db, kind, ids);
    forall x ensures RowOk(to, x) { assert RowOk(db, x); }
    forall x, y ensures Apart(to, x, y) { assert Apart(db, x, y); }
    if k == kind && p == "" {
      DeleteScan(db, to, kind, ids, keep, Next(db));
    } else {
      forall q, o ensures Hit(db, k, Some(p), q, o) <==> Hit(to, k, Some(p), q, o) { assert RowOk(db, (k, q)); }
      ScanFrame(db, to, k, Some(p), Some(p), Next(db));
    }
  }

  lemma {:induction false} DeleteScan(db: Db, to: Db, kind: Kind, ids: set<string>, keep: Document -> bool, n: nat)
    requires Wf(db) && Wf(to) && Root(kind) && to == DeleteKeys(db, kind, ids)
    requires forall d: Document :: keep(d) <==> DocId(d) !in ids
    ensures Scan(to, kind, Some(""), n) == Filter(Scan(db, kind, Some(""), n), keep)
  {
    if n > 0 {
      var m, p := n - 1, Some("");
      DeleteScan(db, to, kind, ids, keep, m);
      if key :| Hit(db, kind, p, key, m) {
        ScanStep(db, kind, p, m, key);
        var s, doc := Scan(db, kind, p, m), db.rows[(kind, key)].payload;
        assert (s + [doc])[..|s|] == s;
        assert RowOk(db, (kind, key));
        if keep(doc) {
          assert Hit(to, kind, p, key, m);
          ScanStep(to, kind, p, m, key);
        } else {
          forall q ensures !Hit(to, kind, p, q, m) { assert Apart(db, (kind, q), (kind, key)); }
          ScanSkip(to, kind, p, m);
        }
      } else {
        ScanSkip(db, kind, p, m);
        forall q ensures !Hit(to, kind, p, q, m) { assert !Hit(db, kind, p, q, m); }
        ScanSkip(to, kind, p, m);
      }
    }
  }
}
