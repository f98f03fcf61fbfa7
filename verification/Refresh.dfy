/** Refreshing a policy source: one run fetches, compares with the stored hash, and proposes what changed. */
module Refresh {
  import opened Entities
  import Publication
  import Table = SqliteTable

  datatype RunStatus = InProgress | NoChange | ProposalCreated | RunFailed

  datatype Run = Run(
    source: string, status: RunStatus, previous: Option<string>, current: Option<string>, proposalId: Option<string>)

  /** The part of the policy store a refresh touches. */
  datatype Store = Store(
    runs: map<string, Run>, sources: map<string, string>, proposals: map<string, Publication.Proposal>, counter: nat)

  /** What the outside answers: the hash of the normalised page, and the proposal drafted from the
   difference; None is a failure. */
  datatype Attempt = Attempt(
    runId: string, source: string, fetched: Option<string>, draft: Option<Publication.Proposal>)

  function Padded(n: nat): string {
    (if n < 10 then "00" else if n < 100 then "0" else "") + Table.Decimal(n)
  }

  function ProposalId(n: nat): string { "proposal_" + Padded(n) }

  // ------------------------------------------------------------- repository writes

  function CreateRun(s: Store, id: string, source: string): Store {
    if id in s.runs then s else s.(runs := s.runs[id := Run(source, InProgress, None, None, None)])
  }

  /** A commit raises unless its run is in progress. */
  predicate Running(s: Store, id: string) { id in s.runs && s.runs[id].status.InProgress? }

  function FailRun(s: Store, id: string): Store {
    if id in s.runs then s.(runs := s.runs[id := s.runs[id].(status := RunFailed)]) else s
  }

  function CommitNoChange(s: Store, id: string, source: string, previous: Option<string>, current: string): Store
    requires Running(s, id)
  {
    s.(runs := s.runs[id := s.runs[id].(status := NoChange, previous := previous, current := Some(current), proposalId := None)],
       sources := s.sources[source := current])
  }

  function CommitProposal(s: Store, id: string, source: string, draft: Publication.Proposal,
                          previous: string, current: string): Store
    requires Running(s, id)
  {
    var pid := ProposalId(s.counter + 1);
    Store(
      s.runs[id := s.runs[id].(status := ProposalCreated, previous := Some(previous), current := Some(current), proposalId := Some(pid))],
      s.sources[source := current], s.proposals[pid := draft], s.counter + 1)
  }

  function Stored(s: Store, source: string): Option<string> {
    if source in s.sources then Some(s.sources[source]) else None
  }

  /** One refresh. Whatever raises, the run is marked failed and nothing else is written. */
  function Refreshed(s: Store, a: Attempt): Store {
    var previous := Stored(s, a.source);
    if a.fetched.None? || !Running(s, a.runId) then FailRun(s, a.runId)
    else if previous.None? || previous == a.fetched then
      CommitNoChange(s, a.runId, a.source, previous, a.fetched.value)
    else if a.draft.None? then FailRun(s, a.runId)
    else CommitProposal(s, a.runId, a.source, a.draft.value, previous.value, a.fetched.value)
  }

  // ---------------------------------------------------------------- many attempts

  function After(attempts: seq<Attempt>): Store {
    if attempts == [] then Store(map[], map[], map[], 0)
    else
      var a := attempts[|attempts| - 1];
      Refreshed(CreateRun(After(attempts[..|attempts| - 1]), a.runId, a.source), a)
  }

  predicate Succeeds(a: Attempt, previous: Option<string>) {
    a.fetched.Some? && (previous.None? || previous == a.fetched || a.draft.Some?)
  }

  predicate Creates(a: Attempt, previous: Option<string>) {
    a.fetched.Some? && previous.Some? && previous != a.fetched && a.draft.Some?
  }

  /** The hash of the source's latest successful attempt. */
  function LastHash(attempts: seq<Attempt>, source: string): Option<string> {
    if attempts == [] then None
    else
      var n := |attempts| - 1;
      var a := attempts[n];
      var previous := LastHash(attempts[..n], source);
      if a.source == source && Succeeds(a, previous) then a.fetched else previous
  }

  function CreatedCount(attempts: seq<Attempt>): nat {
    if attempts == [] then 0
    else
      var n := |attempts| - 1;
      CreatedCount(attempts[..n]) + (if Creates(attempts[n], LastHash(attempts[..n], attempts[n].source)) then 1 else 0)
  }

  /** What attempt `i` should have left on record, from the attempts before it alone. */
  function RecordOf(attempts: seq<Attempt>, i: nat): Run
    requires i < |attempts|
  {
    var a := attempts[i];
    var previous := LastHash(attempts[..i], a.source);
    if !Succeeds(a, previous) then Run(a.source, RunFailed, None, None, None)
    else if Creates(a, previous) then
      Run(a.source, ProposalCreated, previous, a.fetched, Some(ProposalId(CreatedCount(attempts[..i]) + 1)))
    else Run(a.source, NoChange, previous, a.fetched, None)
  }

  ghost predicate EachOnce(attempts: seq<Attempt>) {
    forall i, j | 0 <= i < j < |attempts| :: attempts[i].runId != attempts[j].runId
  }

  ghost predicate Recorded(s: Store, attempts: seq<Attempt>, i: nat)
    requires i < |attempts|
  {
    attempts[i].runId in s.runs && s.runs[attempts[i].runId] == RecordOf(attempts, i)
  }

  ghost predicate HashesOk(s: Store, attempts: seq<Attempt>) {
    forall source :: Stored(s, source) == LastHash(attempts, source)
  }

  ghost predicate ProposalsOk(s: Store, attempts: seq<Attempt>) {
    && s.counter == CreatedCount(attempts)
    && forall pid :: pid in s.proposals <==> Issued(pid, s.counter)
  }

  ghost predicate Issued(pid: string, count: nat) { exists k: nat :: 1 <= k <= count && pid == ProposalId(k) }

  ghost predicate IdsOk(s: Store, attempts: seq<Attempt>) {
    forall id | id in s.runs :: exists i | 0 <= i < |attempts| :: attempts[i].runId == id
  }

  lemma IssuedStep(pid: string, count: nat)
    ensures Issued(pid, count + 1) <==> Issued(pid, count) || pid == ProposalId(count + 1)
  {
    if pid == ProposalId(count + 1) { assert 1 <= count + 1 <= count + 1; }
  }

  /** One more attempt, on a store whose hashes are right. */
  lemma AttemptEffect(s: Store, a: Attempt, previous: Option<string>)
    requires a.runId !in s.runs && Stored(s, a.source) == previous
    ensures var t := Refreshed(CreateRun(s, a.runId, a.source), a);
            && t.runs.Keys == s.runs.Keys + {a.runId}
            && (forall id | id in s.runs :: t.runs[id] == s.runs[id])
            && t.sources == (if Succeeds(a, previous) then s.sources[a.source := a.fetched.value] else s.sources)
            && t.counter == s.counter + (if Creates(a, previous) then 1 else 0)
            && t.proposals == (if Creates(a, previous) then s.proposals[ProposalId(s.counter + 1) := a.draft.value] else s.proposals)
            && t.runs[a.runId] ==
               if !Succeeds(a, previous) then Run(a.source, RunFailed, None, None, None)
               else if Creates(a, previous) then
                 Run(a.source, ProposalCreated, previous, a.fetched, Some(ProposalId(s.counter + 1)))
               else Run(a.source, NoChange, previous, a.fetched, None)
  {
  }

  lemma RunIsNew(attempts: seq<Attempt>)
    requires EachOnce(attempts) && attempts != []
    requires IdsOk(After(attempts[..|attempts| - 1]), attempts[..|attempts| - 1])
    ensures attempts[|attempts| - 1].runId !in After(attempts[..|attempts| - 1]).runs
  {
    var n := |attempts| - 1;
    var before := attempts[..n];
    forall i | 0 <= i < n ensures before[i].runId != attempts[n].runId { assert attempts[i].runId != attempts[n].runId; }
  }

  lemma {:induction false} StoreFollows(attempts: seq<Attempt>)
    requires EachOnce(attempts)
    ensures HashesOk(After(attempts), attempts) && ProposalsOk(After(attempts), attempts) && IdsOk(After(attempts), attempts)
  {
    if attempts == [] {
      assert forall pid :: !Issued(pid, 0);
    } else {
      var n := |attempts| - 1;
      var before, a := attempts[..n], attempts[n];
      StoreFollows(before);
      var s := After(before);
      RunIsNew(attempts);
      var t := After(attempts);
      AttemptEffect(s, a, LastHash(before, a.source));
      forall pid ensures pid in t.proposals <==> Issued(pid, t.counter) { IssuedStep(pid, s.counter); }
      forall source ensures Stored(t, source) == LastHash(attempts, source) { assert Stored(s, source) == LastHash(before, source); }
      forall id | id in t.runs ensures exists i | 0 <= i < |attempts| :: attempts[i].runId == id {
        if id in s.runs { var i :| 0 <= i < n && before[i].runId == id; assert attempts[i].runId == id; }
        else { assert attempts[n].runId == id; }
      }
    }
  }

  lemma RecordOfPrefix(attempts: seq<Attempt>, n: nat, i: nat)
    requires i < n <= |attempts|
    ensures RecordOf(attempts[..n], i) == RecordOf(attempts, i)
  {
    assert attempts[..n][..i] == attempts[..i];
  }

  /**
   For runs made one after another, each once, over any number of sources: every run's
   record is what the attempts before it say. Its previous hash is that of the source's
   last successful run, a failed run records no hash, and a proposal exists exactly for
   each successful run after the first whose hash changed.
   */
  lemma {:induction false} EveryRunRecorded(attempts: seq<Attempt>, i: nat)
    requires EachOnce(attempts) && i < |attempts|
    ensures Recorded(After(attempts), attempts, i)
    decreases |attempts|
  {
    var n := |attempts| - 1;
    var before := attempts[..n];
    StoreFollows(before);
    RunIsNew(attempts);
    if i < n {
      EveryRunRecorded(before, i);
      StaysRecorded(attempts, i);
    } else {
      LastRecorded(attempts);
    }
  }

  lemma StaysRecorded(attempts: seq<Attempt>, i: nat)
    requires i < |attempts| - 1
    requires var before := attempts[..|attempts| - 1];
             && HashesOk(After(before), before) && Recorded(After(before), before, i)
             && attempts[|attempts| - 1].runId !in After(before).runs
    ensures Recorded(After(attempts), attempts, i)
  {
    var n := |attempts| - 1;
    var before, a := attempts[..n], attempts[n];
    RecordOfPrefix(attempts, n, i);
    assert Stored(After(before), a.source) == LastHash(before, a.source);
    AttemptEffect(After(before), a, LastHash(before, a.source));
    assert before[i] == attempts[i];
  }

  lemma LastRecorded(attempts: seq<Attempt>)
    requires attempts != []
    requires var before := attempts[..|attempts| - 1];
             && HashesOk(After(before), before) && ProposalsOk(After(before), before)
             && attempts[|attempts| - 1].runId !in After(before).runs
    ensures Recorded(After(attempts), attempts, |attempts| - 1)
  {
    var n := |attempts| - 1;
    var before, a := attempts[..n], attempts[n];
    assert Stored(After(before), a.source) == LastHash(before, a.source);
    AttemptEffect(After(before), a, LastHash(before, a.source));
  }

  lemma {:induction false} HashBetween(attempts: seq<Attempt>, i: nat, j: nat)
    requires i < j <= |attempts|
    requires Succeeds(attempts[i], LastHash(attempts[..i], attempts[i].source))
    requires forall k | i < k < j && attempts[k].source == attempts[i].source ::
               !Succeeds(attempts[k], LastHash(attempts[..k], attempts[k].source))
    ensures LastHash(attempts[..j], attempts[i].source) == attempts[i].fetched
    decreases j
  {
    var m := j - 1;
    assert attempts[..j][..m] == attempts[..m];
    if m > i { HashBetween(attempts, i, m); }
  }

  /** No change is lost: of two consecutive successful runs of a source, the later starts where the earlier ended. */
  lemma HashesChain(attempts: seq<Attempt>, i: nat, j: nat)
    requires EachOnce(attempts) && i < j < |attempts| && attempts[j].source == attempts[i].source
    requires Succeeds(attempts[i], LastHash(attempts[..i], attempts[i].source))
    requires Succeeds(attempts[j], LastHash(attempts[..j], attempts[j].source))
    requires forall k | i < k < j && attempts[k].source == attempts[i].source ::
               !Succeeds(attempts[k], LastHash(attempts[..k], attempts[k].source))
    ensures var runs := After(attempts).runs;
            && attempts[i].runId in runs && attempts[j].runId in runs
            && runs[attempts[j].runId].previous == runs[attempts[i].runId].current
  {
    EveryRunRecorded(attempts, i);
    EveryRunRecorded(attempts, j);
    HashBetween(attempts, i, j);
  }

  /** A source's stored hash is that of its last successful run. */
  lemma ChainEndsAtStore(attempts: seq<Attempt>, i: nat)
    requires EachOnce(attempts) && i < |attempts|
    requires Succeeds(attempts[i], LastHash(attempts[..i], attempts[i].source))
    requires forall k | i < k < |attempts| && attempts[k].source == attempts[i].source ::
               !Succeeds(attempts[k], LastHash(attempts[..k], attempts[k].source))
    ensures Stored(After(attempts), attempts[i].source) == attempts[i].fetched
    ensures var runs := After(attempts).runs;
            attempts[i].runId in runs && runs[attempts[i].runId].current == attempts[i].fetched
  {
    StoreFollows(attempts);
    EveryRunRecorded(attempts, i);
    HashBetween(attempts, i, |attempts|);
    assert attempts[..|attempts|] == attempts;
  }

  /** Running a finished run again loses nothing but its verdict: it is marked failed. */
  lemma RerunOfFinished(s: Store, a: Attempt)
    requires a.runId in s.runs && !s.runs[a.runId].status.InProgress?
    ensures Refreshed(s, a) == s.(runs := s.runs[a.runId := s.runs[a.runId].(status := RunFailed)])
  {
  }

  /** Creating a run never touches one there is; a new one starts in progress with nothing on record. */
  lemma CreateRunExactly(s: Store, id: string, source: string)
    ensures var t := CreateRun(s, id, source);
            && t == s.(runs := t.runs) && t.runs.Keys == s.runs.Keys + {id}
            && (forall k | k in s.runs :: t.runs[k] == s.runs[k])
            && (id !in s.runs ==> t.runs[id] == Run(source, InProgress, None, None, None))
  {
  }

  // --------------------------------------------------------------- proposal numbers

  lemma {:induction false} DecimalValue(n: nat)
    ensures DigitsValue(Table.Decimal(n)) == n
  {
    if n >= 10 {
      DecimalValue(n / 10);
      var s := Table.Decimal(n);
      assert s[..|s| - 1] == Table.Decimal(n / 10);
    }
  }

  lemma {:induction false} LeadingZero(s: string)
    ensures DigitsValue("0" + s) == DigitsValue(s)
  {
    var t := "0" + s;
    if s != "" {
      LeadingZero(s[..|s| - 1]);
      assert t[..|t| - 1] == "0" + s[..|s| - 1];
    } else {
      assert t == "0" && t[..0] == "";
    }
  }

  /** Two proposals never share an id. */
  lemma ProposalIdInjective(m: nat, n: nat)
    requires ProposalId(m) == ProposalId(n)
    ensures m == n
  {
    PaddedValue(m);
    PaddedValue(n);
    assert ProposalId(m)[9..] == Padded(m) && ProposalId(n)[9..] == Padded(n);
  }

  lemma PaddedValue(n: nat)
    ensures DigitsValue(Padded(n)) == n
  {
    var d := Table.Decimal(n);
    DecimalValue(n);
    LeadingZero(d);
    LeadingZero("0" + d);
    assert "00" + d == "0" + ("0" + d);
    assert Padded(n) == if n < 10 then "00" + d else if n < 100 then "0" + d else d;
  }

  /** So a new proposal never replaces an old one. */
  lemma NewProposalIsNew(attempts: seq<Attempt>)
    requires EachOnce(attempts)
    ensures ProposalId(After(attempts).counter + 1) !in After(attempts).proposals
  {
    StoreFollows(attempts);
    var s := After(attempts);
    var pid := ProposalId(s.counter + 1);
    if Issued(pid, s.counter) {
      var k: nat :| 1 <= k <= s.counter && pid == ProposalId(k);
      ProposalIdInjective(k, s.counter + 1);
    }
  }
}
