/**
 Publishing proposals. A publisher reads the proposal, then the latest snapshot, and
 commits later; in between other publishers, discards and refreshes may run.
 */
module Publication {
  import opened Entities
  import opened Snapshots

  datatype ProposalStatus = PendingProposal | PublishedProposal | Discarded

  datatype Proposal = Proposal(
    updates: seq<Update>, effectiveFrom: int, status: ProposalStatus, publishedVersion: Option<nat>)

  datatype Snapshot = Snapshot(version: nat, packs: Packs, effectiveFrom: int)

  datatype OutboxRow = OutboxRow(version: nat, sent: bool, createdAt: int)

  /** Snapshots and outbox rows are keyed by version: "vN" and "policy.updated:vN". */
  datatype Repository = Repository(
    proposals: map<string, Proposal>, snapshots: map<nat, Snapshot>, outbox: map<nat, OutboxRow>)

  datatype Publisher =
    | GotProposal(pid: string, proposal: Proposal)
    | GotLatest(pid: string, proposal: Proposal, previous: Snapshot)
    | Over

  datatype World = World(repo: Repository, publishers: seq<Publisher>)

  datatype Step =
    | Propose(pid: string, proposal: Proposal)
    | Discard(pid: string)
    | ReadProposal(pid: string, now: int)
    | ReadLatest(i: nat)
    | Commit(i: nat, now: int)
    | Stop(i: nat)
    | MarkSent(version: nat)

  // --------------------------------------------------------------- the repository

  predicate IsLatest(snapshots: map<nat, Snapshot>, v: nat) { v in snapshots && forall w | w in snapshots :: w <= v }

  function Candidate(proposal: Proposal, previous: Snapshot): Snapshot {
    Snapshot(previous.version + 1, OverrideAll(previous.packs, proposal.updates), proposal.effectiveFrom)
  }

  /** Publishable content: the flag is there, and the cross-pack rules hold. */
  predicate Acceptable(s: Snapshot) { s.packs.p3.published.Some? && Valid(s.packs, s.version) }

  /** The one atomic write: refused unless the proposal is pending and the version is new. */
  predicate Committable(r: Repository, pid: string, s: Snapshot) {
    && pid in r.proposals && r.proposals[pid].status.PendingProposal?
    && s.version !in r.snapshots && s.version !in r.outbox
  }

  function Committed(r: Repository, pid: string, s: Snapshot, now: int): Repository
    requires pid in r.proposals
  {
    Repository(
      r.proposals[pid := r.proposals[pid].(status := PublishedProposal, publishedVersion := Some(s.version))],
      r.snapshots[s.version := s],
      r.outbox[s.version := OutboxRow(s.version, false, now)])
  }

  function Discarding(r: Repository, pid: string): Repository {
    if pid in r.proposals && r.proposals[pid].status.PendingProposal?
    then r.(proposals := r.proposals[pid := r.proposals[pid].(status := Discarded, publishedVersion := None)]) else r
  }

  function Sent(r: Repository, v: nat): Repository {
    if v in r.outbox && !r.outbox[v].sent then r.(outbox := r.outbox[v := r.outbox[v].(sent := true)]) else r
  }

  /** A row is marked sent once and stays sent; a proposal that is pending is discarded and no other is; nothing else moves. */
  lemma SmallWritesExactly(r: Repository, pid: string, v: nat)
    ensures var q := Sent(r, v);
            && q == r.(outbox := q.outbox) && q.outbox.Keys == r.outbox.Keys
            && forall n | n in r.outbox :: q.outbox[n] == r.outbox[n].(sent := r.outbox[n].sent || n == v)
    ensures var q := Discarding(r, pid);
            && q == r.(proposals := q.proposals) && q.proposals.Keys == r.proposals.Keys
            && (forall p | p in r.proposals && (p != pid || r.proposals[p].status != PendingProposal) :: q.proposals[p] == r.proposals[p])
            && (pid in r.proposals && r.proposals[pid].status == PendingProposal ==>
                  q.proposals[pid].status == Discarded && q.proposals[pid].publishedVersion == None
                  && SameContent(q.proposals[pid], r.proposals[pid]))
  {
  }

  // ------------------------------------------------------------------------- steps

  predicate Enabled(w: World, s: Step) {
    match s
    case Propose(pid, p) => pid !in w.repo.proposals && p.status.PendingProposal? && p.publishedVersion.None?
    case ReadLatest(i) => i < |w.publishers| && w.publishers[i].GotProposal?
    case Commit(i, _) => i < |w.publishers| && w.publishers[i].GotLatest?
    case Stop(i) => i < |w.publishers|
    case _ => true
  }

  ghost predicate Next(w: World, s: Step, v: World)
    requires Enabled(w, s)
  {
    match s
    case Propose(pid, p) => v == w.(repo := w.repo.(proposals := w.repo.proposals[pid := p]))
    case Discard(pid) => v == w.(repo := Discarding(w.repo, pid))
    case ReadProposal(pid, now) =>
      if pid in w.repo.proposals && w.repo.proposals[pid].status.PendingProposal? && w.repo.proposals[pid].effectiveFrom <= now
      then v == w.(publishers := w.publishers + [GotProposal(pid, w.repo.proposals[pid])]) else v == w
    case ReadLatest(i) =>
      exists n :: IsLatest(w.repo.snapshots, n) &&
        v == w.(publishers := w.publishers[i := GotLatest(w.publishers[i].pid, w.publishers[i].proposal, w.repo.snapshots[n])])
    case Commit(i, now) =>
      var k := w.publishers[i];
      var s := Candidate(k.proposal, k.previous);
      v == World(if Acceptable(s) && Committable(w.repo, k.pid, s) then Committed(w.repo, k.pid, s, now) else w.repo,
                 w.publishers[i := Over])
    case Stop(i) => v == w.(publishers := w.publishers[i := Over])
    case MarkSent(n) => v == w.(repo := Sent(w.repo, n))
  }

  // --------------------------------------------------------------------- invariant

  /** Proposal `pid` is the one that made version `n`, out of the version before it. */
  predicate MadeBy(r: Repository, n: nat, pid: string) {
    && pid in r.proposals && r.proposals[pid].status.PublishedProposal?
    && r.proposals[pid].publishedVersion == Some(n)
    && n > 0 && n - 1 in r.snapshots && n in r.snapshots
    && r.snapshots[n] == Candidate(r.proposals[pid], r.snapshots[n - 1])
    && Acceptable(r.snapshots[n])
  }

  ghost predicate Made(r: Repository, n: nat) { exists pid :: MadeBy(r, n, pid) }

  ghost predicate Contiguous(r: Repository, seed: nat, top: nat) {
    && seed <= top
    && (forall n: nat :: n in r.snapshots <==> seed <= n <= top)
    && (forall n: nat :: n in r.snapshots ==> r.snapshots[n].version == n)
  }

  ghost predicate ChainOk(r: Repository, seed: nat, top: nat) {
    && Contiguous(r, seed, top)
    && (forall n: nat | seed < n <= top :: Made(r, n))
    && (forall n: nat :: n in r.outbox <==> seed < n <= top)
  }

  /** A published proposal names one version, and no other proposal names it. */
  ghost predicate ProposalsOk(r: Repository, seed: nat, top: nat) {
    && (forall p | p in r.proposals :: r.proposals[p].status.PublishedProposal? <==> r.proposals[p].publishedVersion.Some?)
    && (forall p | p in r.proposals && r.proposals[p].status.PublishedProposal? ::
          seed < r.proposals[p].publishedVersion.value <= top && MadeBy(r, r.proposals[p].publishedVersion.value, p))
    && (forall p, q | p in r.proposals && q in r.proposals && p != q && r.proposals[p].status.PublishedProposal? ::
          r.proposals[p].publishedVersion != r.proposals[q].publishedVersion)
  }

  ghost predicate PublisherOk(r: Repository, k: Publisher) {
    match k
    case Over => true
    case GotProposal(pid, p) => pid in r.proposals && SameContent(r.proposals[pid], p)
    case GotLatest(pid, p, previous) =>
      && pid in r.proposals && SameContent(r.proposals[pid], p)
      && previous.version in r.snapshots && r.snapshots[previous.version] == previous
  }

  predicate SameContent(p: Proposal, q: Proposal) { p.updates == q.updates && p.effectiveFrom == q.effectiveFrom }

  ghost predicate PublishersOk(w: World) {
    forall i | 0 <= i < |w.publishers| :: PublisherOk(w.repo, w.publishers[i])
  }

  ghost predicate Inv(w: World, seed: nat, top: nat) {
    ChainOk(w.repo, seed, top) && ProposalsOk(w.repo, seed, top) && PublishersOk(w)
  }

  /** Nothing written is unwritten: snapshots stay as they are, proposals keep their content, publications stand. */
  ghost predicate Extends(r: Repository, q: Repository) {
    && (forall n | n in r.snapshots :: n in q.snapshots && q.snapshots[n] == r.snapshots[n])
    && (forall p | p in r.proposals :: p in q.proposals && SameContent(q.proposals[p], r.proposals[p]))
    && (forall p | p in r.proposals && r.proposals[p].status.PublishedProposal? :: q.proposals[p] == r.proposals[p])
  }

  lemma MadeStays(r: Repository, q: Repository, n: nat, pid: string)
    requires MadeBy(r, n, pid) && Extends(r, q)
    ensures MadeBy(q, n, pid)
  {
  }

  lemma PublishersStay(w: World, v: World)
    requires PublishersOk(w) && Extends(w.repo, v.repo) && v.publishers == w.publishers
    ensures PublishersOk(v)
  {
    forall i | 0 <= i < |v.publishers| ensures PublisherOk(v.repo, v.publishers[i]) {
      assert PublisherOk(w.repo, w.publishers[i]);
    }
  }

  /** A change to proposals that are not published, snapshots and outbox keys untouched. */
  lemma UnpublishedChange(r: Repository, q: Repository, seed: nat, top: nat)
    requires ChainOk(r, seed, top) && ProposalsOk(r, seed, top) && Extends(r, q)
    requires q.snapshots == r.snapshots && q.outbox.Keys == r.outbox.Keys
    requires forall p | p in q.proposals && !(p in r.proposals && r.proposals[p].status.PublishedProposal?) ::
               !q.proposals[p].status.PublishedProposal? && q.proposals[p].publishedVersion.None?
    ensures ChainOk(q, seed, top) && ProposalsOk(q, seed, top)
  {
    forall n: nat | seed < n <= top ensures Made(q, n) {
      assert Made(r, n);
      var pid :| MadeBy(r, n, pid);
      MadeStays(r, q, n, pid);
    }
    forall p | p in q.proposals && q.proposals[p].status.PublishedProposal?
      ensures MadeBy(q, q.proposals[p].publishedVersion.value, p)
    {
      MadeStays(r, q, r.proposals[p].publishedVersion.value, p);
    }
  }

  /** A commit that goes through adds the version right after the top. */
  lemma CommitExtends(r: Repository, seed: nat, top: nat, pid: string, proposal: Proposal, previous: Snapshot, now: int)
    requires ChainOk(r, seed, top) && ProposalsOk(r, seed, top) && PublisherOk(r, GotLatest(pid, proposal, previous))
    requires Acceptable(Candidate(proposal, previous)) && Committable(r, pid, Candidate(proposal, previous))
    ensures previous.version == top
    ensures var q := Committed(r, pid, Candidate(proposal, previous), now);
            Extends(r, q) && MadeBy(q, top + 1, pid) && Contiguous(q, seed, top + 1)
            && (forall n: nat :: n in q.outbox <==> seed < n <= top + 1)
  {
    var q := Committed(r, pid, Candidate(proposal, previous), now);
    assert previous.version == top;
    assert q.snapshots[top] == previous;
  }

  lemma CommitKeeps(r: Repository, seed: nat, top: nat, pid: string, proposal: Proposal, previous: Snapshot, now: int)
    requires ChainOk(r, seed, top) && ProposalsOk(r, seed, top) && PublisherOk(r, GotLatest(pid, proposal, previous))
    requires Acceptable(Candidate(proposal, previous)) && Committable(r, pid, Candidate(proposal, previous))
    ensures var q := Committed(r, pid, Candidate(proposal, previous), now);
            ChainOk(q, seed, top + 1) && ProposalsOk(q, seed, top + 1) && Extends(r, q)
  {
    var q := Committed(r, pid, Candidate(proposal, previous), now);
    CommitExtends(r, seed, top, pid, proposal, previous, now);
    forall n: nat | seed < n <= top + 1 ensures Made(q, n) {
      if n == top + 1 {
        assert MadeBy(q, n, pid);
      } else {
        assert Made(r, n);
        var p :| MadeBy(r, n, p);
        MadeStays(r, q, n, p);
      }
    }
    forall p | p in q.proposals && q.proposals[p].status.PublishedProposal?
      ensures seed < q.proposals[p].publishedVersion.value <= top + 1
      ensures MadeBy(q, q.proposals[p].publishedVersion.value, p)
    {
      if p != pid { MadeStays(r, q, r.proposals[p].publishedVersion.value, p); }
    }
  }

  lemma CommitStepKeeps(w: World, i: nat, now: int, v: World, seed: nat, top: nat) returns (newTop: nat)
    requires Inv(w, seed, top) && Enabled(w, Commit(i, now)) && Next(w, Commit(i, now), v)
    ensures Inv(v, seed, newTop) && top <= newTop && Extends(w.repo, v.repo)
  {
    var k := w.publishers[i];
    var s := Candidate(k.proposal, k.previous);
    assert PublisherOk(w.repo, k);
    newTop := top;
    if Acceptable(s) && Committable(w.repo, k.pid, s) {
      CommitKeeps(w.repo, seed, top, k.pid, k.proposal, k.previous, now);
      newTop := top + 1;
    }
    forall j | 0 <= j < |v.publishers| ensures PublisherOk(v.repo, v.publishers[j]) {
      assert PublisherOk(w.repo, w.publishers[j]);
    }
  }

  lemma StepKeeps(w: World, s: Step, v: World, seed: nat, top: nat) returns (newTop: nat)
    requires Inv(w, seed, top) && Enabled(w, s) && Next(w, s, v)
    ensures Inv(v, seed, newTop) && top <= newTop && Extends(w.repo, v.repo)
  {
    newTop := top;
    match s {
      case Commit(i, now) => newTop := CommitStepKeeps(w, i, now, v, seed, top);
      case Propose(_, _) => UnpublishedChange(w.repo, v.repo, seed, top); PublishersStay(w, v);
      case Discard(_) => UnpublishedChange(w.repo, v.repo, seed, top); PublishersStay(w, v);
      case MarkSent(_) => UnpublishedChange(w.repo, v.repo, seed, top); PublishersStay(w, v);
      case _ => ReadKeeps(w, s, v);
    }
  }

  /** Reads and stops move only the publisher. */
  lemma ReadKeeps(w: World, s: Step, v: World)
    requires PublishersOk(w) && Enabled(w, s) && Next(w, s, v)
    requires s.ReadProposal? || s.ReadLatest? || s.Stop?
    requires forall n: nat :: n in w.repo.snapshots ==> w.repo.snapshots[n].version == n
    ensures v.repo == w.repo && PublishersOk(v)
  {
    forall i | 0 <= i < |v.publishers| ensures PublisherOk(v.repo, v.publishers[i]) {
      if i < |w.publishers| { assert PublisherOk(w.repo, w.publishers[i]); }
    }
  }

  // -------------------------------------------------------------------------- runs

  ghost predicate Run(ws: seq<World>, ss: seq<Step>) {
    |ws| == |ss| + 1 && forall i: nat | i < |ss| :: Went(ws, ss, i)
  }

  ghost predicate Went(ws: seq<World>, ss: seq<Step>, i: nat)
    requires i < |ss| && i + 1 < |ws|
  {
    Enabled(ws[i], ss[i]) && Next(ws[i], ss[i], ws[i + 1])
  }

  /** A repository holding the seed snapshot and unpublished proposals only. */
  ghost predicate Seeded(w: World, seed: nat) {
    && (forall n: nat :: n in w.repo.snapshots <==> n == seed) && w.repo.snapshots[seed].version == seed
    && w.repo.outbox == map[] && w.publishers == []
    && forall p | p in w.repo.proposals ::
         !w.repo.proposals[p].status.PublishedProposal? && w.repo.proposals[p].publishedVersion.None?
  }

  lemma {:induction false} RunKeeps(ws: seq<World>, ss: seq<Step>, seed: nat, i: nat) returns (top: nat)
    requires Run(ws, ss) && Seeded(ws[0], seed) && i < |ws|
    ensures Inv(ws[i], seed, top)
  {
    if i == 0 { return seed; }
    var m: nat := i - 1;
    var before := RunKeeps(ws, ss, seed, m);
    assert Went(ws, ss, m);
    top := StepKeeps(ws[m], ss[m], ws[m + 1], seed, before);
  }

  /**
   Snapshot n read against the proposal that made it: the next number, the proposal's date,
   every pack as the last update naming it left it or as it was, and coherent as a whole.
   */
  ghost predicate Follows(r: Repository, n: nat, p: Proposal) {
    && n > 0 && n - 1 in r.snapshots && n in r.snapshots
    && r.snapshots[n].version == n && r.snapshots[n].effectiveFrom == p.effectiveFrom
    && PackByPack(p.updates, r.snapshots[n - 1].packs, r.snapshots[n].packs)
    && r.snapshots[n].packs.p3.published != None && Coherent(r.snapshots[n].packs, n)
  }

  lemma MadeFollows(r: Repository, n: nat, pid: string)
    requires MadeBy(r, n, pid) && r.snapshots[n].version == n
    ensures Follows(r, n, r.proposals[pid])
  {
    OverrideAllIs(r.snapshots[n - 1].packs, r.proposals[pid].updates);
    ValidExactly(r.snapshots[n].packs, n);
  }

  /**
   The publication chain. At every moment of every run the versions are contiguous
   from the seed; each later snapshot follows its predecessor by the updates of one
   published proposal, pack by pack; and published proposals, those snapshots and
   the outbox rows correspond one to one.
   */
  lemma PublicationChain(ws: seq<World>, ss: seq<Step>, seed: nat, i: nat) returns (top: nat)
    requires Run(ws, ss) && Seeded(ws[0], seed) && i < |ws|
    ensures var r := ws[i].repo;
            && (forall n: nat :: n in r.snapshots <==> seed <= n <= top)
            && (forall n: nat :: n in r.outbox <==> seed < n <= top)
            && (forall n: nat | seed < n <= top :: OneMaker(r, n))
            && (forall p | p in r.proposals && r.proposals[p].status.PublishedProposal? ::
                  r.proposals[p].publishedVersion.Some? && seed < r.proposals[p].publishedVersion.value <= top)
  {
    top := RunKeeps(ws, ss, seed, i);
    var r := ws[i].repo;
    forall n: nat | seed < n <= top ensures OneMaker(r, n) {
      assert Made(r, n);
      var pid :| MadeBy(r, n, pid);
      MadeFollows(r, n, pid);
      assert OnlyMaker(r, n, pid);
    }
  }

  /** Proposal `pid`, and no other, is published as version n. */
  ghost predicate OnlyMaker(r: Repository, n: nat, pid: string) {
    && pid in r.proposals && r.proposals[pid].status == PublishedProposal && r.proposals[pid].publishedVersion == Some(n)
    && forall q | q in r.proposals && r.proposals[q].publishedVersion == Some(n) :: q == pid
  }

  /** Exactly one proposal made version n, and the version is what that proposal says. */
  ghost predicate OneMaker(r: Repository, n: nat) {
    exists pid :: OnlyMaker(r, n, pid) && Follows(r, n, r.proposals[pid])
  }
}
