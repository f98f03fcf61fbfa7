/**
 The policy.updated consumer over the product's own projects. A delivery is a list
 of repository calls; it may be cut off after any of them and sent again.
 */
module Consumer {
  import opened Entities
  import W = Workflow

  datatype Node = D1B | D1C | C1A

  datatype RecalcStatus = Started | Completed

  /** `decide` is the tier judge on the pack of the event's snapshot. */
  datatype PolicyEvent = PolicyEvent(
    key: string, version: string, thresholdsPublished: bool, impact: set<Node>,
    decide: (AmountBracket, Option<real>) -> W.TierDecision)

  /** A project with what this one event has left on it. */
  datatype Local = Local(
    project: Project, notices: nat, status: Option<RecalcStatus>, staleEffect: bool, tierEffect: bool)

  /** The n of "vn". */
  function Number(version: string): nat { if version == "" then 0 else DigitsValue(version[1..]) }

  function Version(p: Project): string {
    match p.classification case Some(c) => c.snapshotVersion case None => ""
  }

  /** Unclassified projects, and versions that are not "v...", have no row. */
  predicate Eligible(p: Project) { p.classification.Some? && Version(p) != "" && Version(p)[0] == 'v' }

  function Nodes(p: Project): set<Node> { {D1B, D1C} + (if p.state == DRAFT then {} else {C1A}) }

  predicate HasReview(p: Project) { p.state != DRAFT && p.state != INTAKE_DONE }

  predicate Affected(p: Project, e: PolicyEvent) {
    || (D1B in e.impact && D1B in Nodes(p))
    || (D1C in e.impact && D1C in Nodes(p))
    || (C1A in e.impact && C1A in Nodes(p) && HasReview(p))
  }

  function Decision(p: Project, e: PolicyEvent): W.TierDecision { e.decide(p.bracket, p.amount) }

  predicate Changes(p: Project, e: PolicyEvent) {
    W.Recalculates(p) && W.TierChanged(p, Decision(p, e))
  }

  // ---------------------------------------------------------- the repository calls

  datatype Call = Mark | StaleEffect | Start | Recalc | TierEffect | CompleteRecalc

  function Marked(l: Local, now: int): Local {
    l.(project := l.project.(policyStale := true, updatedAt := now),
       notices := if l.project.policyStale then l.notices else l.notices + 1)
  }

  function Recalced(l: Local, e: PolicyEvent, now: int): Local {
    if W.Recalculates(l.project)
    then l.(project := W.Recalculated(l.project, e.version, Decision(l.project, e), now),
            notices := if Changes(l.project, e) then l.notices + 1 else l.notices)
    else l
  }

  function Exec(l: Local, c: Call, e: PolicyEvent, now: int): Local {
    match c
    case Mark => Marked(l, now)
    case StaleEffect => l.(staleEffect := true)
    case Start => l.(status := if l.status.Some? then l.status else Some(Started))
    case Recalc => Recalced(l, e, now)
    case TierEffect => l.(tierEffect := true)
    case CompleteRecalc => l.(status := Some(Completed))
  }

  predicate Resumes(l: Local, e: PolicyEvent) {
    Eligible(l.project) && l.status == Some(Started) && Version(l.project) == e.version
  }

  predicate Applies(l: Local, e: PolicyEvent) {
    && Eligible(l.project) && !Resumes(l, e)
    && Number(Version(l.project)) < Number(e.version) && Affected(l.project, e)
  }

  predicate Wants(l: Local, e: PolicyEvent) {
    && e.thresholdsPublished && D1C in e.impact && D1C in Nodes(l.project)
    && l.project.classification.Some? && l.project.classification.value.provisional
  }

  /** The calls one delivery makes for one project, from the row it listed. */
  function Plan(l: Local, e: PolicyEvent): seq<Call> {
    if Resumes(l, e) then [TierEffect, CompleteRecalc]
    else if !Applies(l, e) then []
    else if !Wants(l, e) then [Mark, StaleEffect]
    else if Changes(l.project, e) then [Mark, StaleEffect, Start, Recalc, TierEffect, CompleteRecalc]
    else [Mark, StaleEffect, Start, Recalc, CompleteRecalc]
  }

  function ExecUpTo(l: Local, calls: seq<Call>, n: nat, e: PolicyEvent, now: int): Local
    requires n <= |calls|
  {
    if n == 0 then l else Exec(ExecUpTo(l, calls, n - 1, e, now), calls[n - 1], e, now)
  }

  function Clip(n: nat, bound: nat): nat { if n < bound then n else bound }

  /** Cut off after `n` of the calls. */
  function CutShort(l: Local, e: PolicyEvent, n: nat, now: int): Local {
    ExecUpTo(l, Plan(l, e), Clip(n, |Plan(l, e)|), e, now)
  }

  function Full(l: Local, e: PolicyEvent, now: int): Local { ExecUpTo(l, Plan(l, e), |Plan(l, e)|, e, now) }

  // ---------------------------------------------------- one project, written out

  function Noted(l: Local, now: int): Local { Marked(l, now).(staleEffect := true) }

  function Begun(l: Local, now: int): Local {
    Noted(l, now).(status := if l.status.Some? then l.status else Some(Started))
  }

  function Judged(l: Local, e: PolicyEvent, now: int): Local { Recalced(Begun(l, now), e, now) }

  function Reported(l: Local, e: PolicyEvent, now: int): Local {
    if Changes(l.project, e) then Judged(l, e, now).(tierEffect := true) else Judged(l, e, now)
  }

  lemma Early(l: Local, e: PolicyEvent, n: nat, now: int)
    requires Applies(l, e) && n <= 2
    ensures CutShort(l, e, n, now) == if n == 0 then l else if n == 1 then Marked(l, now) else Noted(l, now)
  {
    var p := Plan(l, e);
    assert ExecUpTo(l, p, 1, e, now) == Exec(ExecUpTo(l, p, 0, e, now), p[0], e, now);
  }

  lemma MarkedKeeps(l: Local, e: PolicyEvent, now: int)
    requires Applies(l, e)
    ensures W.Recalculates(Begun(l, now).project) == W.Recalculates(l.project)
    ensures Changes(Begun(l, now).project, e) == Changes(l.project, e)
    ensures Decision(Begun(l, now).project, e) == Decision(l.project, e)
  {
  }

  lemma Late(l: Local, e: PolicyEvent, n: nat, now: int)
    requires Applies(l, e) && Wants(l, e) && 3 <= n <= |Plan(l, e)|
    ensures n == 3 ==> CutShort(l, e, n, now) == Begun(l, now)
    ensures n == 4 ==> CutShort(l, e, n, now) == Judged(l, e, now)
    ensures n == 5 && Changes(l.project, e) ==> CutShort(l, e, n, now) == Reported(l, e, now)
    ensures n == |Plan(l, e)| ==> CutShort(l, e, n, now) == Reported(l, e, now).(status := Some(Completed))
  {
    var p := Plan(l, e);
    Early(l, e, 2, now);
    assert ExecUpTo(l, p, 3, e, now) == Exec(ExecUpTo(l, p, 2, e, now), p[2], e, now);
    if n >= 4 {
      assert ExecUpTo(l, p, 4, e, now) == Exec(ExecUpTo(l, p, 3, e, now), p[3], e, now);
    }
    if n >= 5 {
      assert ExecUpTo(l, p, 5, e, now) == Exec(ExecUpTo(l, p, 4, e, now), p[4], e, now);
    }
    if n == 6 {
      assert ExecUpTo(l, p, 6, e, now) == Exec(ExecUpTo(l, p, 5, e, now), p[5], e, now);
    }
  }

  lemma Resumption(l: Local, e: PolicyEvent, n: nat, now: int)
    requires Resumes(l, e)
    ensures CutShort(l, e, n, now) ==
            if n == 0 then l else if n == 1 then l.(tierEffect := true) else l.(tierEffect := true, status := Some(Completed))
  {
    var p := Plan(l, e);
    assert ExecUpTo(l, p, 1, e, now) == Exec(ExecUpTo(l, p, 0, e, now), p[0], e, now);
    assert ExecUpTo(l, p, 2, e, now) == Exec(ExecUpTo(l, p, 1, e, now), p[1], e, now);
  }

  /** A whole delivery to one project, in one expression. */
  function Outcome(l: Local, e: PolicyEvent, now: int): Local {
    if Resumes(l, e) then l.(tierEffect := true, status := Some(Completed))
    else if !Applies(l, e) then l
    else if !Wants(l, e) then Noted(l, now)
    else Reported(l, e, now).(status := Some(Completed))
  }

  lemma FullIs(l: Local, e: PolicyEvent, now: int)
    ensures Full(l, e, now) == Outcome(l, e, now)
  {
    var n := |Plan(l, e)|;
    assert Full(l, e, now) == CutShort(l, e, n, now);
    if Resumes(l, e) {
      Resumption(l, e, n, now);
    } else if Applies(l, e) {
      if Wants(l, e) { Late(l, e, n, now); } else { Early(l, e, n, now); }
    }
  }

  // ------------------------------------------------------- redelivery, one project

  /** All that crashes must not change; the clock stamp aside. */
  predicate SameCore(a: Local, b: Local) {
    && a.project.(updatedAt := 0) == b.project.(updatedAt := 0)
    && a.notices == b.notices && a.staleEffect == b.staleEffect && a.status == b.status
  }

  /** A completed recalculation on a project still behind was one that may not touch it. */
  predicate Settled(l: Local, e: PolicyEvent) {
    l.status == Some(Completed) && Applies(l, e) ==> !Changes(l.project, e)
  }

  lemma EarlyRedelivery(l: Local, e: PolicyEvent, n: nat, then1: int, now: int)
    requires Applies(l, e) && n <= 2
    ensures var p := CutShort(l, e, n, then1);
            SameCore(Outcome(p, e, now), Outcome(l, e, now)) && (Settled(l, e) ==> Settled(p, e))
            && Outcome(p, e, now).tierEffect == Outcome(l, e, now).tierEffect
  {
    Early(l, e, n, then1);
    var p := CutShort(l, e, n, then1);
    assert Applies(p, e) && Wants(p, e) == Wants(l, e) && Changes(p.project, e) == Changes(l.project, e);
    assert Decision(p.project, e) == Decision(l.project, e);
  }

  lemma BegunRedelivery(l: Local, e: PolicyEvent, then1: int, now: int)
    requires Applies(l, e) && Wants(l, e)
    ensures var p := Begun(l, then1);
            SameCore(Outcome(p, e, now), Outcome(l, e, now)) && (Settled(l, e) ==> Settled(p, e))
            && Outcome(p, e, now).tierEffect == Outcome(l, e, now).tierEffect
  {
    var p := Begun(l, then1);
    assert Applies(p, e) && Wants(p, e) && Changes(p.project, e) == Changes(l.project, e);
    assert Decision(p.project, e) == Decision(l.project, e);
  }

  predicate ValidEvent(e: PolicyEvent) { e.version != "" && e.version[0] == 'v' }

  /** What a redelivery after a cut at `p` owes a project that stood at `l`. */
  ghost predicate Equivalent(p: Local, l: Local, e: PolicyEvent, now: int) {
    && SameCore(Outcome(p, e, now), Outcome(l, e, now))
    && (Settled(l, e) ==> Settled(p, e) && (Outcome(l, e, now).tierEffect ==> Outcome(p, e, now).tierEffect))
  }

  /** Cut after the recalculation took: the pinned version moved, and the redelivery resumes or skips. */
  lemma MovedRedelivery(l: Local, e: PolicyEvent, p: Local, then1: int, now: int)
    requires ValidEvent(e) && Applies(l, e) && Wants(l, e) && W.Recalculates(l.project)
    requires p == Judged(l, e, then1) || p == Reported(l, e, then1) || p == Reported(l, e, then1).(status := Some(Completed))
    ensures Equivalent(p, l, e, now)
  {
    MarkedKeeps(l, e, then1);
    assert Version(p.project) == e.version && Eligible(p.project) && !Applies(p, e);
    assert p.status.Some?;
    match p.status.value {
      case Started => assert Resumes(p, e);
      case Completed => assert Outcome(p, e, now) == p;
    }
  }

  /** Cut after a recalculation that may not touch the project: it is still behind, and starts over. */
  lemma LockedRedelivery(l: Local, e: PolicyEvent, p: Local, then1: int, now: int)
    requires Applies(l, e) && Wants(l, e) && !W.Recalculates(l.project)
    requires p == Begun(l, then1) || p == Begun(l, then1).(status := Some(Completed))
    ensures Equivalent(p, l, e, now)
  {
    assert Applies(p, e) && Wants(p, e) && !W.Recalculates(p.project);
  }

  lemma ResumedRedelivery(l: Local, e: PolicyEvent, p: Local, now: int)
    requires Resumes(l, e)
    requires p == l || p == l.(tierEffect := true) || p == l.(tierEffect := true, status := Some(Completed))
    ensures Equivalent(p, l, e, now)
  {
  }

  /** One project: a delivery cut off anywhere, sent again, ends as one uninterrupted delivery does. */
  lemma CutThenRedelivered(l: Local, e: PolicyEvent, n: nat, then1: int, now: int)
    requires ValidEvent(e)
    ensures Equivalent(CutShort(l, e, n, then1), l, e, now)
  {
    var k := Clip(n, |Plan(l, e)|);
    var p := CutShort(l, e, k, then1);
    assert p == CutShort(l, e, n, then1);
    if Resumes(l, e) {
      Resumption(l, e, k, then1);
      ResumedRedelivery(l, e, p, now);
    } else if Applies(l, e) {
      if k <= 2 {
        EarlyRedelivery(l, e, k, then1, now);
      } else {
        Late(l, e, k, then1);
        MarkedKeeps(l, e, then1);
        if k == 3 {
          BegunRedelivery(l, e, then1, now);
        } else if W.Recalculates(l.project) {
          MovedRedelivery(l, e, p, then1, now);
        } else {
          LockedRedelivery(l, e, p, then1, now);
        }
      }
    }
  }

  /** Cutting changes neither who is listed nor how many come before. */
  lemma PartialStaysEligible(l: Local, e: PolicyEvent, n: nat, now: int)
    requires ValidEvent(e)
    ensures Eligible(CutShort(l, e, n, now).project) == Eligible(l.project)
  {
    if Eligible(l.project) { EligibleUpTo(l, Plan(l, e), Clip(n, |Plan(l, e)|), e, now); }
  }

  lemma {:induction false} EligibleUpTo(l: Local, calls: seq<Call>, n: nat, e: PolicyEvent, now: int)
    requires ValidEvent(e) && n <= |calls| && Eligible(l.project)
    ensures Eligible(ExecUpTo(l, calls, n, e, now).project)
  {
    if n > 0 { EligibleUpTo(l, calls, n - 1, e, now); }
  }

  // --------------------------------------------------------- whole deliveries

  const LIMIT: nat := 100

  /** How many listed rows come before project `i`. */
  function Rank(ps: seq<Local>, i: nat): nat
    requires i <= |ps|
  {
    if i == 0 then 0 else Rank(ps, i - 1) + (if Eligible(ps[i - 1].project) then 1 else 0)
  }

  /** Only the first hundred eligible projects have a row in the listing. */
  predicate Listed(ps: seq<Local>, i: nat)
    requires i < |ps|
  {
    Eligible(ps[i].project) && Rank(ps, i) < LIMIT
  }

  /** Where a delivery was cut: before `project` all is done, in it `calls` calls are, after it none. */
  datatype Cut = Cut(project: nat, calls: nat, now: int)

  function CallsMade(ps: seq<Local>, i: nat, e: PolicyEvent, c: Cut): nat
    requires i < |ps|
  {
    if i < c.project then |Plan(ps[i], e)| else if i == c.project then c.calls else 0
  }

  function Interrupted(ps: seq<Local>, e: PolicyEvent, c: Cut): (r: seq<Local>)
    ensures |r| == |ps|
  {
    seq(|ps|, i requires 0 <= i < |ps| =>
      if Listed(ps, i) then CutShort(ps[i], e, CallsMade(ps, i, e, c), c.now) else ps[i])
  }

  function Uninterrupted(ps: seq<Local>, e: PolicyEvent, now: int): (r: seq<Local>)
    ensures |r| == |ps|
  {
    seq(|ps|, i requires 0 <= i < |ps| => if Listed(ps, i) then Full(ps[i], e, now) else ps[i])
  }

  function AfterCuts(ps: seq<Local>, e: PolicyEvent, cuts: seq<Cut>): (r: seq<Local>)
    ensures |r| == |ps|
  {
    if cuts == [] then ps else Interrupted(AfterCuts(ps, e, cuts[..|cuts| - 1]), e, cuts[|cuts| - 1])
  }

  lemma {:induction false} RankStays(ps: seq<Local>, qs: seq<Local>, i: nat)
    requires |ps| == |qs| && i <= |ps|
    requires forall j | 0 <= j < |ps| :: Eligible(qs[j].project) == Eligible(ps[j].project)
    ensures Rank(ps, i) == Rank(qs, i)
  {
    if i > 0 { RankStays(ps, qs, i - 1); }
  }

  lemma InterruptedListing(ps: seq<Local>, e: PolicyEvent, c: Cut)
    requires ValidEvent(e)
    ensures forall j | 0 <= j < |ps| :: Eligible(Interrupted(ps, e, c)[j].project) == Eligible(ps[j].project)
  {
    forall j | 0 <= j < |ps| ensures Eligible(Interrupted(ps, e, c)[j].project) == Eligible(ps[j].project) {
      PartialStaysEligible(ps[j], e, CallsMade(ps, j, e, c), c.now);
    }
  }

  lemma SameCoreTransitive(a: Local, b: Local, c: Local)
    requires SameCore(a, b) && SameCore(b, c)
    ensures SameCore(a, c)
  {
  }

  /** One cut changes nothing about where a project will end. */
  lemma OneCut(ps: seq<Local>, e: PolicyEvent, c: Cut, now: int, i: nat)
    requires ValidEvent(e) && i < |ps|
    ensures Listed(Interrupted(ps, e, c), i) == Listed(ps, i)
    ensures Listed(ps, i) ==> Equivalent(Interrupted(ps, e, c)[i], ps[i], e, now)
    ensures !Listed(ps, i) ==> Interrupted(ps, e, c)[i] == ps[i]
  {
    InterruptedListing(ps, e, c);
    RankStays(ps, Interrupted(ps, e, c), i);
    if Listed(ps, i) { CutThenRedelivered(ps[i], e, CallsMade(ps, i, e, c), c.now, now); }
  }

  lemma {:induction false} ManyCuts(ps: seq<Local>, e: PolicyEvent, cuts: seq<Cut>, now: int, i: nat)
    requires ValidEvent(e) && i < |ps|
    ensures Listed(AfterCuts(ps, e, cuts), i) == Listed(ps, i)
    ensures Listed(ps, i) ==> Equivalent(AfterCuts(ps, e, cuts)[i], ps[i], e, now)
    ensures !Listed(ps, i) ==> AfterCuts(ps, e, cuts)[i] == ps[i]
  {
    if cuts != [] {
      var n := |cuts| - 1;
      var before := AfterCuts(ps, e, cuts[..n]);
      ManyCuts(ps, e, cuts[..n], now, i);
      OneCut(before, e, cuts[n], now, i);
      if Listed(ps, i) {
        EquivalentTransitive(ps[i], before[i], Interrupted(before, e, cuts[n])[i], e, now);
      }
    }
  }

  lemma EquivalentTransitive(l: Local, m: Local, p: Local, e: PolicyEvent, now: int)
    requires Equivalent(m, l, e, now) && Equivalent(p, m, e, now)
    ensures Equivalent(p, l, e, now)
  {
    SameCoreTransitive(Outcome(p, e, now), Outcome(m, e, now), Outcome(l, e, now));
  }

  /**
   Crash and redelivery. However often a delivery is cut off, and wherever, the
   delivery that completes leaves every project with the stale flag, classification,
   notices, stale effect and recalculation status of one uninterrupted delivery, and
   with a recalculation effect wherever that one has it.
   */
  lemma CrashesDoNotMatter(ps: seq<Local>, e: PolicyEvent, cuts: seq<Cut>, now: int, i: nat)
    requires ValidEvent(e) && i < |ps|
    ensures var crashed := Uninterrupted(AfterCuts(ps, e, cuts), e, now)[i];
            var once := Uninterrupted(ps, e, now)[i];
            && SameCore(crashed, once)
            && (Settled(ps[i], e) && once.tierEffect ==> crashed.tierEffect)
  {
    ManyCuts(ps, e, cuts, now, i);
    FullIs(ps[i], e, now);
    FullIs(AfterCuts(ps, e, cuts)[i], e, now);
  }

  // ------------------------------------------------------------- what is counted

  function StaleMarked(ps: seq<Local>, e: PolicyEvent, n: nat): nat
    requires n <= |ps|
  {
    if n == 0 then 0
    else StaleMarked(ps, e, n - 1) + (if Listed(ps, n - 1) && Applies(ps[n - 1], e) then 1 else 0)
  }

  function RecalculatedBy(l: Local, e: PolicyEvent): bool {
    Resumes(l, e) || (Applies(l, e) && Wants(l, e) && Changes(l.project, e))
  }

  function RecalculatedCount(ps: seq<Local>, e: PolicyEvent, n: nat): nat
    requires n <= |ps|
  {
    if n == 0 then 0
    else RecalculatedCount(ps, e, n - 1) + (if Listed(ps, n - 1) && RecalculatedBy(ps[n - 1], e) then 1 else 0)
  }
}
