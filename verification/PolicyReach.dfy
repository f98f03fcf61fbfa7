/**
 Whom one delivery of policy.updated tells, and whom it recalculates: read off the
 project's state, class and pinned version and the event's impact.
 */
module PolicyReach {
  import opened Entities
  import opened Keyed
  import opened Consumer
  import Refresh
  import Table = SqliteTable
  import W = Workflow

  /** The version "vn". */
  function Named(n: nat): string { "v" + Table.Decimal(n) }

  predicate Pinned(p: Project, n: nat) { p.classification.Some? && p.classification.value.snapshotVersion == Named(n) }

  /** A classified project whose pinned version reads "v...": one that has a row to list. */
  predicate HasRow(p: Project) {
    p.classification.Some? && p.classification.value.snapshotVersion != "" && p.classification.value.snapshotVersion[0] == 'v'
  }

  function RowAt(ps: seq<Local>): nat -> bool { (i: nat) => i < |ps| && HasRow(ps[i].project) }

  /** The rows listed before project `i`. */
  function RowsBefore(ps: seq<Local>, i: nat): set<nat> { Among(i, RowAt(ps)) }

  predicate InFirstHundred(ps: seq<Local>, i: nat)
    requires i < |ps|
  {
    HasRow(ps[i].project) && |RowsBefore(ps, i)| < 100
  }

  /** The change reaches subject and tier judgments of every classified project, and the reviews of those past intake. */
  predicate Reaches(p: Project, impact: set<Node>) {
    D1B in impact || D1C in impact || (C1A in impact && p.state != DRAFT && p.state != INTAKE_DONE)
  }

  predicate Told(p: Project, m: nat, e: PolicyEvent, n: nat) { m < n && Reaches(p, e.impact) }

  /** A provisional tier is judged again when the new figures are published. */
  predicate JudgedAgain(p: Project, m: nat, e: PolicyEvent, n: nat)
    requires p.classification.Some?
  {
    Told(p, m, e, n) && e.thresholdsPublished && D1C in e.impact && p.classification.value.provisional
  }

  /** A frozen form, a filing number, or a tier that is final keeps what it has. */
  predicate Keeps(p: Project)
    requires p.classification.Some?
  {
    || p.state in {FORM_FROZEN, INSTITUTION_REVIEW, INSTITUTION_RETURNED, READY_FOR_EXTERNAL_FILING, FILED, PRODUCTION}
    || (p.registrationNumber.Some? && p.registrationNumber.value != "")
  }

  /** The class after a recalculation: the judge's answer, pinned to the event's version. */
  function NewClass(p: Project, e: PolicyEvent): Classification
    requires p.classification.Some?
  {
    var d := e.decide(p.bracket, p.amount);
    Classification(d.tier, d.provisional, e.version,
                   match d.clause case Some(c) => [c] case None => p.classification.value.evidence)
  }

  /** The recalculation changed what the creator reads. */
  predicate News(p: Project, e: PolicyEvent)
    requires p.classification.Some?
  {
    var d := e.decide(p.bracket, p.amount);
    d.tier != p.classification.value.tier || d.provisional != p.classification.value.provisional
  }

  /** All that a delivery leaves on a listed project with no half-done recalculation of its own. */
  ghost predicate Delivered(l: Local, r: Local, m: nat, e: PolicyEvent, n: nat, now: int)
    requires l.project.classification.Some?
  {
    var p := l.project;
    var told, again := Told(p, m, e, n), JudgedAgain(p, m, e, n);
    var moved := again && !Keeps(p);
    && (!told ==> r == l)
    && (r.staleEffect <==> l.staleEffect || told)
    && (r.tierEffect <==> l.tierEffect || (moved && News(p, e)))
    && r.status == (if again then Some(Completed) else l.status)
    && r.notices == l.notices + (if told && !p.policyStale then 1 else 0) + (if moved && News(p, e) then 1 else 0)
    && (told ==> r.project == p.(classification := if moved then Some(NewClass(p, e)) else p.classification,
                                 policyStale := !moved, updatedAt := now))
  }

  lemma NumberOfNamed(n: nat)
    ensures Consumer.Number(Named(n)) == n
  {
    Refresh.DecimalValue(n);
    assert Named(n)[1..] == Table.Decimal(n);
  }

  lemma SameNamed(m: nat, n: nat)
    ensures Named(m) == Named(n) <==> m == n
  {
    NumberOfNamed(m);
    NumberOfNamed(n);
  }

  lemma AppliesExactly(l: Local, m: nat, e: PolicyEvent, n: nat)
    requires Pinned(l.project, m) && e.version == Named(n) && (l.status == Some(Started) ==> m != n)
    ensures !Resumes(l, e) && (Applies(l, e) <==> Told(l.project, m, e, n))
    ensures Applies(l, e) ==> (Wants(l, e) <==> JudgedAgain(l.project, m, e, n))
  {
    NumberOfNamed(m);
    NumberOfNamed(n);
    SameNamed(m, n);
  }

  lemma RecalculatesExactly(p: Project, e: PolicyEvent)
    requires p.classification.Some? && p.classification.value.provisional
    ensures W.Recalculates(p) <==> !Keeps(p)
    ensures W.Recalculates(p) ==> (Changes(p, e) <==> News(p, e))
    ensures W.Recalculated(p, e.version, Decision(p, e), p.updatedAt).classification == Some(NewClass(p, e))
  {
  }

  lemma FullDelivered(l: Local, m: nat, e: PolicyEvent, n: nat, now: int)
    requires Pinned(l.project, m) && e.version == Named(n) && (l.status == Some(Started) ==> m != n)
    ensures Delivered(l, Full(l, e, now), m, e, n, now)
  {
    AppliesExactly(l, m, e, n);
    FullIs(l, e, now);
    if Applies(l, e) && Wants(l, e) {
      MarkedKeeps(l, e, now);
      RecalculatesExactly(l.project, e);
    }
  }

  /** One notice when the project is told and the flag was down, and one more for a tier that changed. */
  lemma NoticesOfOneDelivery(l: Local, m: nat, e: PolicyEvent, n: nat, now: int)
    requires Pinned(l.project, m) && e.version == Named(n) && (l.status == Some(Started) ==> m != n)
    ensures var p, r := l.project, Full(l, e, now);
            var told := m < n && (D1B in e.impact || D1C in e.impact
                                  || (C1A in e.impact && p.state != DRAFT && p.state != INTAKE_DONE));
            var moved := told && e.thresholdsPublished && D1C in e.impact && p.classification.value.provisional && !Keeps(p);
            && r.notices == l.notices + (if told && !p.policyStale then 1 else 0) + (if moved && News(p, e) then 1 else 0)
            && (told && !moved ==> r.project.policyStale && r.project.classification == p.classification)
            && (moved ==> !r.project.policyStale && Pinned(r.project, n))
            && (r.staleEffect <==> l.staleEffect || told)
  {
    FullDelivered(l, m, e, n, now);
  }

  // ---------------------------------------------------------------- who is listed

  lemma {:induction false} RankCounts(ps: seq<Local>, i: nat)
    requires i <= |ps|
    ensures Rank(ps, i) == |RowsBefore(ps, i)|
  {
    if i > 0 {
      RankCounts(ps, i - 1);
      AmongMore(i - 1, RowAt(ps));
    }
  }

  lemma ListedExactly(ps: seq<Local>, i: nat)
    requires i < |ps|
    ensures Listed(ps, i) <==> InFirstHundred(ps, i)
  {
    RankCounts(ps, i);
  }

  /**
   What one delivery leaves on project `i`. Nothing beyond the first hundred classified
   projects. On one of those, pinned to version m: a recalculation already stored under the
   event's version n is reported and closed; else the project is told exactly when m is older
   than n and the impact holds D1B or D1C, or C1A with the project past intake, and judged
   again exactly when, besides, the figures are published, the impact holds D1C, and its tier
   is provisional.
   */
  ghost predicate Reached(ps: seq<Local>, i: nat, r: Local, m: nat, e: PolicyEvent, n: nat, now: int)
    requires i < |ps|
  {
    && (!InFirstHundred(ps, i) ==> r == ps[i])
    && (InFirstHundred(ps, i) && Pinned(ps[i].project, m) ==>
          if m == n && ps[i].status == Some(Started) then r == ps[i].(tierEffect := true, status := Some(Completed))
          else Delivered(ps[i], r, m, e, n, now))
  }

  lemma DeliveryReaches(ps: seq<Local>, i: nat, m: nat, e: PolicyEvent, n: nat, now: int)
    requires i < |ps| && e.version == Named(n)
    ensures Reached(ps, i, Uninterrupted(ps, e, now)[i], m, e, n, now)
  {
    ListedExactly(ps, i);
    if InFirstHundred(ps, i) && Pinned(ps[i].project, m) {
      if m == n && ps[i].status == Some(Started) { FullIs(ps[i], e, now); } else { FullDelivered(ps[i], m, e, n, now); }
    }
  }

  ghost predicate AllReached(ps: seq<Local>, rs: seq<Local>, e: PolicyEvent, now: int) {
    |rs| == |ps| && forall i: nat, m: nat, n: nat | i < |ps| && e.version == Named(n) :: Reached(ps, i, rs[i], m, e, n, now)
  }

  lemma AllAreReached(ps: seq<Local>, e: PolicyEvent, now: int)
    ensures AllReached(ps, Uninterrupted(ps, e, now), e, now)
  {
    forall i: nat, m: nat, n: nat | i < |ps| && e.version == Named(n)
      ensures Reached(ps, i, Uninterrupted(ps, e, now)[i], m, e, n, now)
    {
      DeliveryReaches(ps, i, m, e, n, now);
    }
  }

  /** The same of one listed row. */
  ghost predicate LeftAs(l: Local, r: Local, e: PolicyEvent, now: int) {
    forall m: nat, n: nat | e.version == Named(n) && Pinned(l.project, m) && (l.status == Some(Started) ==> m != n) ::
      Delivered(l, r, m, e, n, now)
  }

  lemma RowLeft(l: Local, e: PolicyEvent, now: int)
    ensures LeftAs(l, Full(l, e, now), e, now)
  {
    forall m: nat, n: nat | e.version == Named(n) && Pinned(l.project, m) && (l.status == Some(Started) ==> m != n)
      ensures Delivered(l, Full(l, e, now), m, e, n, now)
    {
      FullDelivered(l, m, e, n, now);
    }
  }

  // ------------------------------------------------------------- what is counted

  ghost predicate AllPinned(ps: seq<Local>, pins: seq<nat>) {
    |pins| == |ps| && forall i | 0 <= i < |ps| && HasRow(ps[i].project) :: Pinned(ps[i].project, pins[i])
  }

  /** Project `i` is told. */
  predicate ToldAt(ps: seq<Local>, pins: seq<nat>, e: PolicyEvent, n: nat, i: nat) {
    |pins| == |ps| && i < |ps| && InFirstHundred(ps, i) && Told(ps[i].project, pins[i], e, n)
  }

  /** A half-done recalculation closed, or a new one that changed what the creator reads. */
  predicate ReportedAt(ps: seq<Local>, pins: seq<nat>, e: PolicyEvent, n: nat, i: nat) {
    |pins| == |ps| && i < |ps| && InFirstHundred(ps, i) &&
    var p := ps[i].project;
    || (pins[i] == n && ps[i].status == Some(Started))
    || (JudgedAgain(p, pins[i], e, n) && !Keeps(p) && News(p, e))
  }

  lemma CountedExactly(ps: seq<Local>, pins: seq<nat>, e: PolicyEvent, n: nat, i: nat)
    requires AllPinned(ps, pins) && e.version == Named(n) && i < |ps|
    ensures Listed(ps, i) && Applies(ps[i], e) <==> ToldAt(ps, pins, e, n, i)
    ensures Listed(ps, i) && RecalculatedBy(ps[i], e) <==> ReportedAt(ps, pins, e, n, i)
  {
    ListedExactly(ps, i);
    if HasRow(ps[i].project) {
      NumberOfNamed(n);
      NumberOfNamed(pins[i]);
      if ps[i].status == Some(Started) ==> pins[i] != n {
        AppliesExactly(ps[i], pins[i], e, n);
        if JudgedAgain(ps[i].project, pins[i], e, n) { RecalculatesExactly(ps[i].project, e); }
      }
    }
  }

  function TellsAt(ps: seq<Local>, pins: seq<nat>, e: PolicyEvent, n: nat): nat -> bool { (i: nat) => ToldAt(ps, pins, e, n, i) }

  function ReportsAt(ps: seq<Local>, pins: seq<nat>, e: PolicyEvent, n: nat): nat -> bool { (i: nat) => ReportedAt(ps, pins, e, n, i) }

  lemma CountsMore(ps: seq<Local>, pins: seq<nat>, e: PolicyEvent, n: nat, i: nat)
    requires AllPinned(ps, pins) && e.version == Named(n) && i < |ps|
    ensures StaleMarked(ps, e, i + 1) == StaleMarked(ps, e, i) + (if ToldAt(ps, pins, e, n, i) then 1 else 0)
    ensures RecalculatedCount(ps, e, i + 1) == RecalculatedCount(ps, e, i) + (if ReportedAt(ps, pins, e, n, i) then 1 else 0)
  {
    CountedExactly(ps, pins, e, n, i);
  }

  /** `stale_marked` is the number of projects told. */
  lemma {:induction false} StaleMarkedCounts(ps: seq<Local>, pins: seq<nat>, e: PolicyEvent, n: nat, k: nat)
    requires AllPinned(ps, pins) && e.version == Named(n) && k <= |ps|
    ensures StaleMarked(ps, e, k) == |Among(k, TellsAt(ps, pins, e, n))|
  {
    if k > 0 {
      StaleMarkedCounts(ps, pins, e, n, k - 1);
      CountsMore(ps, pins, e, n, k - 1);
      AmongMore(k - 1, TellsAt(ps, pins, e, n));
    }
  }

  /** `recalculated` is the number of tiers reported. */
  lemma {:induction false} RecalculatedCounts(ps: seq<Local>, pins: seq<nat>, e: PolicyEvent, n: nat, k: nat)
    requires AllPinned(ps, pins) && e.version == Named(n) && k <= |ps|
    ensures RecalculatedCount(ps, e, k) == |Among(k, ReportsAt(ps, pins, e, n))|
  {
    if k > 0 {
      RecalculatedCounts(ps, pins, e, n, k - 1);
      CountsMore(ps, pins, e, n, k - 1);
      AmongMore(k - 1, ReportsAt(ps, pins, e, n));
    }
  }
}
