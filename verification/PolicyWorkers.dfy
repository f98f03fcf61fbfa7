/** The policy workers as they run: one in-memory repository, a publisher, and the refresh module. */
module PolicyWorkers {
  import opened Entities
  import S = Snapshots
  import P = Publication
  import R = Refresh

  datatype PublishError = ProposalConflict | NotEffective | SnapshotNotFound | ProposalInvalid

  datatype Publish = Published(version: nat) | Refused(error: PublishError)

  /** What `publish` answers when nothing runs between its reads and its commit. */
  function Verdict(r: P.Repository, pid: string, now: int, previous: Option<nat>): Publish
    requires previous.Some? ==> previous.value in r.snapshots
  {
    if pid !in r.proposals || !r.proposals[pid].status.PendingProposal? then Refused(ProposalConflict)
    else if r.proposals[pid].effectiveFrom > now then Refused(NotEffective)
    else if previous.None? then Refused(SnapshotNotFound)
    else
      var s := P.Candidate(r.proposals[pid], r.snapshots[previous.value]);
      if !P.Acceptable(s) then Refused(ProposalInvalid)
      else if !P.Committable(r, pid, s) then Refused(ProposalConflict)
      else Published(s.version)
  }

  /** Packs a proposal may be published with as version n. */
  ghost predicate Publishable(us: seq<S.Update>, before: S.Packs, n: nat) {
    exists q :: S.PackByPack(us, before, q) && q.p3.published != None && S.Coherent(q, n)
  }

  lemma PublishableExactly(us: seq<S.Update>, before: S.Packs, n: nat)
    ensures Publishable(us, before, n) <==>
            S.OverrideAll(before, us).p3.published.Some? && S.Valid(S.OverrideAll(before, us), n)
  {
    S.OverrideAllIs(before, us);
    S.ValidExactly(S.OverrideAll(before, us), n);
    if q :| S.PackByPack(us, before, q) && q.p3.published != None && S.Coherent(q, n) {
      S.PackByPackIs(before, us, q);
    }
  }

  /**
   Over the newest version n, `publish` makes n + 1 exactly when the proposal is pending and
   due and its packs are coherent; it says conflict of one that is not pending, not effective
   of one that is not due, and invalid of the rest.
   */
  lemma PublishesExactly(r: P.Repository, pid: string, now: int, n: nat)
    requires P.IsLatest(r.snapshots, n) && r.snapshots[n].version == n && n + 1 !in r.outbox
    ensures var v := Verdict(r, pid, now, Some(n));
            var pending := pid in r.proposals && r.proposals[pid].status == P.PendingProposal;
            && (v == Refused(ProposalConflict) <==> !pending)
            && (v == Refused(NotEffective) <==> pending && now < r.proposals[pid].effectiveFrom)
            && (v == Published(n + 1) <==> pending && r.proposals[pid].effectiveFrom <= now
                                           && Publishable(r.proposals[pid].updates, r.snapshots[n].packs, n + 1))
            && (v.Published? ==> v.version == n + 1)
            && v != Refused(SnapshotNotFound)
  {
    if pid in r.proposals { PublishableExactly(r.proposals[pid].updates, r.snapshots[n].packs, n + 1); }
    assert n + 1 !in r.snapshots;
  }

  class PolicyRepository {
    var runs: map<string, R.Run>
    var sources: map<string, string>
    var proposals: map<string, P.Proposal>
    var snapshots: map<nat, P.Snapshot>
    var outbox: map<nat, P.OutboxRow>
    var proposalCounter: nat

    constructor ()
      ensures Catalog() == P.Repository(map[], map[], map[]) && Refreshes() == R.Store(map[], map[], map[], 0)
    {
      runs, sources, proposals, snapshots, outbox, proposalCounter := map[], map[], map[], map[], map[], 0;
    }

    function Catalog(): P.Repository
      reads this
    {
      P.Repository(proposals, snapshots, outbox)
    }

    function Refreshes(): R.Store
      reads this
    {
      R.Store(runs, sources, proposals, proposalCounter)
    }

    /** The greatest version number, by a scan. */
    method LatestSnapshot() returns (latest: Option<nat>)
      ensures latest.None? <==> snapshots == map[]
      ensures latest.Some? ==> P.IsLatest(snapshots, latest.value)
    {
      latest := None;
      var left := snapshots.Keys;
      while left != {}
        invariant left <= snapshots.Keys
        invariant latest.None? <==> left == snapshots.Keys
        invariant latest.Some? ==> latest.value in snapshots && forall v | v in snapshots && v !in left :: v <= latest.value
        decreases |left|
      {
        var v :| v in left;
        if latest.None? || latest.value < v { latest := Some(v); }
        left := left - {v};
      }
    }

    method CommitPublication(pid: string, s: P.Snapshot, now: int) returns (ok: bool)
      modifies this`proposals, this`snapshots, this`outbox
      ensures ok <==> P.Committable(old(Catalog()), pid, s)
      ensures ok <==> && pid in old(proposals) && old(proposals)[pid].status == P.PendingProposal
                      && s.version !in old(snapshots) && s.version !in old(outbox)
      ensures ok ==>
                && proposals == old(proposals)[pid := old(proposals)[pid].(status := P.PublishedProposal, publishedVersion := Some(s.version))]
                && snapshots == old(snapshots)[s.version := s]
                && outbox == old(outbox)[s.version := P.OutboxRow(s.version, false, now)]
      ensures Catalog() == if ok then P.Committed(old(Catalog()), pid, s, now) else old(Catalog())
    {
      if pid !in proposals || !proposals[pid].status.PendingProposal? { return false; }
      if s.version in snapshots { return false; }
      if s.version in outbox { return false; }
      var published := proposals[pid].(status := P.PublishedProposal, publishedVersion := Some(s.version));
      proposals := proposals[pid := published];
      snapshots := snapshots[s.version := s];
      outbox := outbox[s.version := P.OutboxRow(s.version, false, now)];
      return true;
    }

    method DiscardProposal(pid: string) returns (ok: bool)
      modifies this`proposals
      ensures Catalog() == P.Discarding(old(Catalog()), pid)
      ensures ok <==> pid in old(proposals) && old(proposals)[pid].status.PendingProposal?
    {
      if pid !in proposals || !proposals[pid].status.PendingProposal? { return false; }
      proposals := proposals[pid := proposals[pid].(status := P.Discarded, publishedVersion := None)];
      return true;
    }

    method MarkOutboxSent(version: nat) returns (ok: bool)
      modifies this`outbox
      ensures Catalog() == P.Sent(old(Catalog()), version)
      ensures ok <==> version in old(outbox) && !old(outbox)[version].sent
    {
      if version !in outbox || outbox[version].sent { return false; }
      outbox := outbox[version := outbox[version].(sent := true)];
      return true;
    }

    method FailRun(id: string)
      modifies this`runs
      ensures Refreshes() == R.FailRun(old(Refreshes()), id)
    {
      if id in runs { runs := runs[id := runs[id].(status := R.RunFailed)]; }
    }

    method CommitRefreshNoChange(id: string, source: string, previous: Option<string>, current: string) returns (ok: bool)
      modifies this`runs, this`sources
      ensures ok <==> R.Running(old(Refreshes()), id)
      ensures Refreshes() == if ok then R.CommitNoChange(old(Refreshes()), id, source, previous, current) else old(Refreshes())
    {
      if id !in runs || !runs[id].status.InProgress? { return false; }
      runs := runs[id := runs[id].(status := R.NoChange, previous := previous, current := Some(current), proposalId := None)];
      sources := sources[source := current];
      return true;
    }

    method CommitRefreshProposal(id: string, source: string, proposal: P.Proposal, previous: string, current: string)
      returns (ok: bool)
      modifies this`runs, this`sources, this`proposals, this`proposalCounter
      ensures ok <==> R.Running(old(Refreshes()), id)
      ensures Refreshes() ==
              if ok then R.CommitProposal(old(Refreshes()), id, source, proposal, previous, current) else old(Refreshes())
    {
      if id !in runs || !runs[id].status.InProgress? { return false; }
      var pid := R.ProposalId(proposalCounter + 1);
      runs := runs[id := runs[id].(status := R.ProposalCreated, previous := Some(previous), current := Some(current),
                                   proposalId := Some(pid))];
      sources := sources[source := current];
      proposals := proposals[pid := proposal];
      proposalCounter := proposalCounter + 1;
      return true;
    }
  }

  class PolicyPublisher {
    const repository: PolicyRepository

    constructor (r: PolicyRepository)
      ensures repository == r
    {
      repository := r;
    }

    /** The previous packs, each replaced where the proposal says so. */
    method DraftPacks(packs: S.Packs, updates: seq<S.Update>) returns (drafted: S.Packs)
      ensures drafted == S.OverrideAll(packs, updates)
      ensures S.PackByPack(updates, packs, drafted)
    {
      S.OverrideAllIs(packs, updates);
      drafted := packs;
      for i := 0 to |updates|
        invariant drafted == S.OverrideAll(packs, updates[..i])
      {
        assert updates[..i + 1][..i] == updates[..i];
        drafted := S.Override(drafted, updates[i]);
      }
      assert updates[..|updates|] == updates;
    }

    method Publish(pid: string, now: int) returns (result: Publish, ghost previous: Option<nat>)
      modifies repository
      ensures previous.Some? ==> P.IsLatest(old(repository.snapshots), previous.value)
      ensures result.Published? || result == Refused(SnapshotNotFound) ==> (previous.None? <==> old(repository.snapshots) == map[])
      ensures result == Verdict(old(repository.Catalog()), pid, now, previous)
      ensures repository.Catalog() ==
              if result.Published?
              then P.Committed(old(repository.Catalog()), pid,
                               P.Candidate(old(repository.proposals)[pid], old(repository.snapshots)[previous.value]), now)
              else old(repository.Catalog())
      ensures result.Published? ==>
                && previous.Some? && pid in old(repository.proposals) && result.version in repository.snapshots
                && S.PackByPack(old(repository.proposals)[pid].updates, old(repository.snapshots)[previous.value].packs,
                                repository.snapshots[result.version].packs)
                && S.Coherent(repository.snapshots[result.version].packs, result.version)
      ensures repository.runs == old(repository.runs) && repository.sources == old(repository.sources)
    {
      previous := None;
      if pid !in repository.proposals { return Refused(ProposalConflict), None; }
      var proposal := repository.proposals[pid];
      if !proposal.status.PendingProposal? { return Refused(ProposalConflict), None; }
      if proposal.effectiveFrom > now { return Refused(NotEffective), None; }
      var latest := repository.LatestSnapshot();
      previous := latest;
      if latest.None? { return Refused(SnapshotNotFound), previous; }
      var base := repository.snapshots[latest.value];
      var packs := DraftPacks(base.packs, proposal.updates);
      if packs.p3.published.None? { return Refused(ProposalInvalid), previous; }
      var snapshot := P.Snapshot(base.version + 1, packs, proposal.effectiveFrom);
      var valid := S.ValidateSnapshot(packs, snapshot.version);
      if !valid { return Refused(ProposalInvalid), previous; }
      var ok := repository.CommitPublication(pid, snapshot, now);
      if !ok { return Refused(ProposalConflict), previous; }
      return Published(snapshot.version), previous;
    }
  }

  class PolicyRefresh {
    const repository: PolicyRepository

    constructor (r: PolicyRepository)
      ensures repository == r
    {
      repository := r;
    }

    /** One refresh of a run already created; any exception marks the run failed. */
    method Run(a: R.Attempt) returns (ok: bool)
      modifies repository
      ensures repository.Refreshes() == R.Refreshed(old(repository.Refreshes()), a)
      ensures ok <==> R.Running(old(repository.Refreshes()), a.runId)
                      && R.Succeeds(a, R.Stored(old(repository.Refreshes()), a.source))
      ensures repository.snapshots == old(repository.snapshots) && repository.outbox == old(repository.outbox)
    {
      ok := false;
      if a.fetched.Some? {
        var previous: Option<string> := if a.source in repository.sources then Some(repository.sources[a.source]) else None;
        if previous.None? || previous == a.fetched {
          ok := repository.CommitRefreshNoChange(a.runId, a.source, previous, a.fetched.value);
        } else if a.draft.Some? {
          ok := repository.CommitRefreshProposal(a.runId, a.source, a.draft.value, previous.value, a.fetched.value);
        }
      }
      if !ok { repository.FailRun(a.runId); }
    }
  }
}
