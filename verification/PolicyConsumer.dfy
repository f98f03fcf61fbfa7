/** The policy.updated consumer as it runs: one event's deliveries over the listed projects, one repository call at a time. */
module PolicyConsumer {
  import opened Entities
  import opened Consumer
  import opened PolicyReach

  datatype ConsumeResult = ConsumeResult(staleMarked: nat, recalculated: nat, alreadyProcessed: bool)

  /** The repository as one event's deliveries find it. */
  class PolicyUpdatedConsumer {
    const event: PolicyEvent
    var locals: seq<Local>
    var receipt: bool

    constructor (e: PolicyEvent, ps: seq<Local>)
      ensures event == e && locals == ps && !receipt
    {
      event, locals, receipt := e, ps, false;
    }

    /** One repository call, if the delivery lives to make it. */
    method Perform(i: nat, c: Call, now: int, left: nat) returns (rest: nat, made: bool)
      requires i < |locals|
      modifies this`locals
      ensures made <==> left > 0
      ensures rest == if left > 0 then left - 1 else 0
      ensures locals == if made then old(locals)[i := Exec(old(locals)[i], c, event, now)] else old(locals)
    {
      if left == 0 { return 0, false; }
      locals := locals[i := Exec(locals[i], c, event, now)];
      return left - 1, true;
    }

    /** Performs the plan's next call; `n` calls were made so far. */
    method Next(i: nat, ghost row: Local, c: Call, n: nat, now: int, left: nat) returns (rest: nat, made: bool)
      requires i < |locals| && n < |Plan(row, event)| && Plan(row, event)[n] == c
      requires locals[i] == CutShort(row, event, n, now)
      modifies this`locals
      ensures made <==> left > 0
      ensures locals == old(locals)[i := CutShort(row, event, if made then n + 1 else n, now)]
    {
      rest, made := Perform(i, c, now, left);
    }

    method Resume(i: nat, row: Local, now: int, left: nat) returns (rest: nat, made: nat)
      requires i < |locals| && locals[i] == row && Resumes(row, event)
      modifies this`locals
      ensures made <= 2 && locals == old(locals)[i := CutShort(row, event, made, now)]
    {
      var ok;
      rest, ok := Next(i, row, TierEffect, 0, now, left);
      if !ok { return rest, 0; }
      rest, ok := Next(i, row, CompleteRecalc, 1, now, rest);
      if !ok { return rest, 1; }
      return rest, 2;
    }

    method Recalculate(i: nat, row: Local, now: int, left: nat) returns (rest: nat, made: nat, changed: bool)
      requires i < |locals| && Applies(row, event) && Wants(row, event)
      requires locals[i] == CutShort(row, event, 2, now)
      modifies this`locals
      ensures 2 <= made <= |Plan(row, event)| && locals == old(locals)[i := CutShort(row, event, made, now)]
      ensures made == |Plan(row, event)| ==> changed == Changes(row.project, event)
    {
      var ok;
      changed := false;
      rest, ok := Next(i, row, Start, 2, now, left);
      if !ok { return rest, 2, false; }
      Late(row, event, 3, now);
      MarkedKeeps(row, event, now);
      changed := Changes(locals[i].project, event);
      rest, ok := Next(i, row, Recalc, 3, now, rest);
      if !ok { return rest, 3, changed; }
      rest, made := Report(i, row, changed, now, rest);
    }

    /** The effect of a changed tier, then the end of the recalculation. */
    method Report(i: nat, row: Local, changed: bool, now: int, left: nat) returns (rest: nat, made: nat)
      requires i < |locals| && Applies(row, event) && Wants(row, event) && changed == Changes(row.project, event)
      requires locals[i] == CutShort(row, event, 4, now)
      modifies this`locals
      ensures 4 <= made <= |Plan(row, event)| && locals == old(locals)[i := CutShort(row, event, made, now)]
    {
      var ok;
      rest := left;
      if changed {
        rest, ok := Next(i, row, TierEffect, 4, now, rest);
        if !ok { return rest, 4; }
      }
      made := if changed then 5 else 4;
      rest, ok := Next(i, row, CompleteRecalc, made, now, rest);
      if ok { made := made + 1; }
    }

    /** The body of the loop over rows, for one row. */
    method HandleRow(i: nat, now: int, left: nat)
      returns (rest: nat, ghost made: nat, done: bool, marked: bool, recalculated: bool)
      requires i < |locals|
      modifies this`locals
      ensures var row := old(locals)[i];
              && locals == old(locals)[i := CutShort(row, event, made, now)]
              && (done ==> made >= |Plan(row, event)| && marked == Applies(row, event) && recalculated == RecalculatedBy(row, event))
      ensures done ==> LeftAs(old(locals)[i], locals[i], event, now)
    {
      RowLeft(locals[i], event, now);
      var row := locals[i];
      marked, recalculated, done := false, false, false;
      if Resumes(row, event) {
        var n;
        rest, n := Resume(i, row, now, left);
        return rest, n, n == 2, false, true;
      }
      if !Applies(row, event) { return left, 0, true, false, false; }
      var ok;
      rest, ok := Next(i, row, Mark, 0, now, left);
      if !ok { made := 0; return; }
      rest, ok := Next(i, row, StaleEffect, 1, now, rest);
      if !ok { made := 1; return; }
      marked := true;
      if !Wants(row, event) { made, done := 2, true; return; }
      var n, changed;
      rest, n, changed := Recalculate(i, row, now, rest);
      made, recalculated, done := n, changed, n == |Plan(row, event)|;
    }

    /** Handles the event, making at most `left` repository calls; None when cut off before the receipt. */
    method Handle(now: int, left: nat) returns (result: Option<ConsumeResult>, ghost cut: Cut)
      modifies this
      ensures old(receipt) ==> locals == old(locals) && receipt && result == Some(ConsumeResult(0, 0, true))
      ensures !old(receipt) && result.Some? ==>
                && receipt && locals == Uninterrupted(old(locals), event, now)
                && result == Some(ConsumeResult(StaleMarked(old(locals), event, |locals|),
                                                RecalculatedCount(old(locals), event, |locals|), false))
      ensures !old(receipt) && result.Some? ==> AllReached(old(locals), locals, event, now)
      ensures !old(receipt) && result.None? ==> !receipt && locals == Interrupted(old(locals), event, cut)
    {
      AllAreReached(locals, event, now);
      cut := Cut(0, 0, now);
      if receipt { return Some(ConsumeResult(0, 0, true)), cut; }
      var rows := locals;
      var listed, rest, staleMarked, recalculated: nat := 0, left, 0, 0;
      NothingDone(rows, event, now);
      for i := 0 to |rows|
        invariant |locals| == |rows| && !receipt
        invariant locals == Interrupted(rows, event, Cut(i, 0, now))
        invariant listed == Rank(rows, i)
        invariant staleMarked == StaleMarked(rows, event, i)
        invariant recalculated == RecalculatedCount(rows, event, i)
      {
        ghost var before := locals;
        if Eligible(rows[i].project) {
          if listed < LIMIT {
            StillToDo(rows, event, i, now);
            ghost var made; var done, marked, recalc;
            rest, made, done, marked, recalc := HandleRow(i, now, rest);
            OneMore(rows, event, i, made, now);
            if !done { cut := Cut(i, made, now); return None, cut; }
            DoneRow(rows, event, i, made, now);
            if marked { staleMarked := staleMarked + 1; }
            if recalc { recalculated := recalculated + 1; }
          } else {
            SkippedRow(rows, event, i, now);
          }
          listed := listed + 1;
        } else {
          SkippedRow(rows, event, i, now);
        }
      }
      AllDone(rows, event, now);
      if rest == 0 { cut := Cut(|rows|, 0, now); return None, cut; }
      receipt := true;
      return Some(ConsumeResult(staleMarked, recalculated, false)), cut;
    }
  }

  lemma NothingDone(ps: seq<Local>, e: PolicyEvent, now: int)
    ensures Interrupted(ps, e, Cut(0, 0, now)) == ps
  {
  }

  lemma StillToDo(ps: seq<Local>, e: PolicyEvent, i: nat, now: int)
    requires i < |ps|
    ensures Interrupted(ps, e, Cut(i, 0, now))[i] == ps[i]
  {
  }

  lemma OneMore(ps: seq<Local>, e: PolicyEvent, i: nat, made: nat, now: int)
    requires i < |ps| && Listed(ps, i)
    ensures Interrupted(ps, e, Cut(i, 0, now))[i := CutShort(ps[i], e, made, now)] == Interrupted(ps, e, Cut(i, made, now))
  {
  }

  lemma DoneRow(ps: seq<Local>, e: PolicyEvent, i: nat, made: nat, now: int)
    requires i < |ps| && made >= |Plan(ps[i], e)|
    ensures Interrupted(ps, e, Cut(i, made, now)) == Interrupted(ps, e, Cut(i + 1, 0, now))
  {
  }

  lemma SkippedRow(ps: seq<Local>, e: PolicyEvent, i: nat, now: int)
    requires i < |ps| && !Listed(ps, i)
    ensures Interrupted(ps, e, Cut(i, 0, now)) == Interrupted(ps, e, Cut(i + 1, 0, now))
  {
  }

  lemma AllDone(ps: seq<Local>, e: PolicyEvent, now: int)
    ensures Interrupted(ps, e, Cut(|ps|, 0, now)) == Uninterrupted(ps, e, now)
  {
  }
}
