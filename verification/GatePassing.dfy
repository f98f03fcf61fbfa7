/** Material cards, and why the guard inside the transition never contradicts the gate report. */
module GatePassing {
  import opened Entities
  import opened Keyed
  import opened MemoryStore
  import opened GateAndForms
  import opened Workflow
  import WorkflowRuns

  ghost predicate Accounted(m: Materialised) {
    forall c | c in m.stored :: c in m.cards || c in m.unclaimed
  }

  lemma TakeCardAccounts(m: Materialised, card: Card)
    requires Accounted(m)
    ensures Accounted(TakeCard(m, card))
  {
    var after := TakeCard(m, card);
    var i := Find(m.unclaimed, CardId, card.materialId);
    forall c | c in after.stored ensures c in after.cards || c in after.unclaimed {
      if i < |m.unclaimed| {
        assert after.cards == m.cards + [m.unclaimed[i]];
        if c !in m.cards && c != m.unclaimed[i] { RemoveKeepsOthers(m.unclaimed, i, c); }
      } else if c != card {
        assert c in m.stored;
      }
    }
  }

  lemma RemoveKeepsOthers(s: seq<Card>, i: nat, c: Card)
    requires i < |s| && c in s && c != s[i]
    ensures c in Remove(s, i)
  {
    var n :| 0 <= n < |s| && s[n] == c;
    assert Remove(s, i)[if n < i then n else n - 1] == c;
  }

  lemma {:induction false} TakeCardsAccounts(m: Materialised, defined: seq<Card>)
    requires Accounted(m)
    ensures Accounted(TakeCards(m, defined))
  {
    if defined != [] {
      TakeCardsAccounts(m, defined[..|defined| - 1]);
      TakeCardAccounts(TakeCards(m, defined[..|defined| - 1]), defined[|defined| - 1]);
    }
  }

  /** Every stored card is among those returned, whatever the pack repeats. */
  lemma StoredIsReturned(stored: seq<Card>, defined: seq<Card>, c: Card)
    requires c in MaterialCards(stored, defined).stored
    ensures c in MaterialCards(stored, defined).cards
  {
    TakeCardsAccounts(Materialised(stored, stored, []), defined);
  }

  // ------------------------------------------------- and, without repeats, conversely

  ghost predicate Known(m: Materialised) {
    && (forall c | c in m.cards :: c in m.stored)
    && (forall c | c in m.unclaimed :: c in m.stored)
  }

  /** A stored card is unclaimed until the pack's own card of that id has been met. */
  ghost predicate Waiting(m: Materialised, met: seq<Card>) {
    forall c | c in m.stored :: c in m.unclaimed || exists d :: d in met && d.materialId == c.materialId
  }

  lemma TakeCardKnown(m: Materialised, met: seq<Card>, card: Card)
    requires Known(m) && Waiting(m, met) && forall d | d in met :: d.materialId != card.materialId
    ensures Known(TakeCard(m, card)) && Waiting(TakeCard(m, card), met + [card])
    ensures m.stored <= TakeCard(m, card).stored
    ensures Distinct(m.stored, CardId) ==> Distinct(TakeCard(m, card).stored, CardId)
  {
    var after := TakeCard(m, card);
    var i := Find(m.unclaimed, CardId, card.materialId);
    var more := met + [card];
    assert card in more && forall d | d in met :: d in more;
    if i < |m.unclaimed| {
      forall c | c in m.stored ensures c in after.unclaimed || exists d :: d in more && d.materialId == c.materialId {
        if c in m.unclaimed {
          if c == m.unclaimed[i] { assert card.materialId == c.materialId; } else { RemoveKeepsOthers(m.unclaimed, i, c); }
        }
      }
    } else {
      forall c | c in m.stored ensures CardId(c) != card.materialId {
        if c in m.unclaimed { var n :| 0 <= n < |m.unclaimed| && m.unclaimed[n] == c; assert CardId(m.unclaimed[n]) != card.materialId; }
      }
      FindUnique(m.stored, CardId, card.materialId, |m.stored|);
      assert after.stored == m.stored + [card];
    }
  }

  lemma EarlierDiffer(defined: seq<Card>, n: nat)
    requires Distinct(defined, CardId) && n < |defined|
    ensures Distinct(defined[..n], CardId) && forall d | d in defined[..n] :: d.materialId != defined[n].materialId
  {
    forall d | d in defined[..n] ensures d.materialId != defined[n].materialId {
      var j :| 0 <= j < n && defined[j] == d;
      assert CardId(defined[j]) != CardId(defined[n]);
    }
  }

  lemma {:induction false} TakeCardsKnown(stored: seq<Card>, defined: seq<Card>)
    requires Distinct(defined, CardId)
    ensures var m := TakeCards(Materialised(stored, stored, []), defined);
            && Known(m) && Waiting(m, defined)
            && stored <= m.stored && (Distinct(stored, CardId) ==> Distinct(m.stored, CardId))
  {
    if defined != [] {
      var n := |defined| - 1;
      EarlierDiffer(defined, n);
      TakeCardsKnown(stored, defined[..n]);
      LastCard(TakeCards(Materialised(stored, stored, []), defined[..n]), defined);
    }
  }

  lemma LastCard(m: Materialised, defined: seq<Card>)
    requires defined != []
    requires var n := |defined| - 1;
             Known(m) && Waiting(m, defined[..n]) && forall d | d in defined[..n] :: d.materialId != defined[n].materialId
    ensures Known(TakeCard(m, defined[|defined| - 1])) && Waiting(TakeCard(m, defined[|defined| - 1]), defined)
    ensures m.stored <= TakeCard(m, defined[|defined| - 1]).stored
    ensures Distinct(m.stored, CardId) ==> Distinct(TakeCard(m, defined[|defined| - 1]).stored, CardId)
  {
    var n := |defined| - 1;
    TakeCardKnown(m, defined[..n], defined[n]);
    assert defined[..n] + [defined[n]] == defined;
  }

  lemma ReturnedIsStored(stored: seq<Card>, defined: seq<Card>, c: Card)
    requires Distinct(defined, CardId) && c in MaterialCards(stored, defined).cards
    ensures c in MaterialCards(stored, defined).stored
  {
    TakeCardsKnown(stored, defined);
  }

  // -------------------------------------------------------------------- the gate

  /** What the report accepted over the returned cards, the guard accepts over the stored ones. */
  lemma GuardAcceptsReport(w: Workspace, env: Env)
    requires Gaps(w, w.project, ReadCards(w, env).cards, env) == []
    ensures Gaps(w, w.project, ReadCards(w, env).stored, env) == []
  {
    var m := ReadCards(w, env);
    var required := env.required(Pinned(w.project, env));
    GateOpensExactly(w.findings, w.facts, m.cards, required);
    forall c | c in m.stored ensures c in m.cards { StoredIsReturned(w.cards, env.cards(Pinned(w.project, env)), c); }
    GateOpensExactly(w.findings, w.facts, m.stored, required);
  }

  /** For a pack that defines each card once, the guard refuses exactly what the report refuses. */
  lemma GuardIsReport(w: Workspace, env: Env)
    requires Distinct(env.cards(Pinned(w.project, env)), CardId)
    ensures Gaps(w, w.project, ReadCards(w, env).stored, env) == [] <==>
            Gaps(w, w.project, ReadCards(w, env).cards, env) == []
  {
    var m := ReadCards(w, env);
    var required := env.required(Pinned(w.project, env));
    if Gaps(w, w.project, m.stored, env) == [] {
      GateOpensExactly(w.findings, w.facts, m.stored, required);
      forall c | c in m.cards ensures c in m.stored { ReturnedIsStored(w.cards, env.cards(Pinned(w.project, env)), c); }
      GateOpensExactly(w.findings, w.facts, m.cards, required);
    } else if Gaps(w, w.project, m.cards, env) == [] {
      GuardAcceptsReport(w, env);
    }
  }

  /** `pass_gate` succeeds exactly on an empty report in a state that is ready, or already there. */
  lemma PassGateExactly(w: Workspace, env: Env)
    ensures var open := Gaps(w, w.project, ReadCards(w, env).cards, env) == [];
            var s := w.project.state;
            && (PassGate(w, env).error.None? <==> open && (s == REVIEW_RUNNING || s == REVISION_LOOP || s == GATE_D3_PASSED))
            && (PassGate(w, env).error == Some(GateBlocked) <==> !open)
            && (PassGate(w, env).error.None? ==> PassGate(w, env).after.project.state == GATE_D3_PASSED)
            && PassGate(w, env).after.cards == ReadCards(w, env).stored
  {
    if Gaps(w, w.project, ReadCards(w, env).cards, env) == [] {
      GuardAcceptsReport(w, env);
    }
  }

  /** A gate just passed is followed by a freeze that succeeds, on the facts the gate saw. */
  lemma GateThenFreeze(w: Workspace, freshId: string, env: Env)
    requires WorkflowRuns.Inv(w, env.digest) && PassGate(w, env).error.None?
    ensures var frozen := FreezeForm(PassGate(w, env).after, freshId, env);
            frozen.error.None? && frozen.after.project.state == FORM_FROZEN && LatestFrozen(frozen.after.forms)
  {
    PassGateExactly(w, env);
    WorkflowRuns.PassGateKeeps(w, env);
    var v := PassGate(w, env).after;
    var required := env.required(Pinned(w.project, env));
    assert Pinned(v.project, env) == Pinned(w.project, env) && v.facts == w.facts;
    assert Gaps(w, w.project, ReadCards(w, env).cards, env) == [];
    GateOpensExactly(w.findings, w.facts, ReadCards(w, env).cards, required);
    NothingOutstanding(required, w.facts, w.findings, ReadCards(w, env).cards);
    BuildableUnderRule(required, v.facts);
    FreezeSucceeds(v, freshId, env);
  }

  lemma NothingOutstanding(required: seq<string>, facts: seq<Fact>, findings: seq<Finding>, cards: seq<Card>)
    requires EvaluateGate(findings, facts, cards, required) == []
    ensures PendingKeys(Fields(required, facts)) == {}
  {
    NoGaps(findings, facts, cards, required);
    GateAndFormAgree(required, facts);
  }

  lemma FreezeSucceeds(v: Workspace, freshId: string, env: Env)
    requires WorkflowRuns.Inv(v, env.digest) && v.project.state == GATE_D3_PASSED
    requires Buildable(env.required(Pinned(v.project, env)), v.facts)
    requires PendingKeys(Fields(env.required(Pinned(v.project, env)), v.facts)) == {}
    ensures var o := FreezeForm(v, freshId, env);
            o.error.None? && o.after.project.state == FORM_FROZEN && LatestFrozen(o.after.forms)
  {
    WorkflowRuns.FreezeFormKeeps(v, freshId, env);
    var saved := FormDraftOf(v, freshId, env).after;
    WorkflowRuns.TransitionShape(saved.(forms := PutById(saved.forms, DraftId, Frozen(Rebuilt(v, freshId, env), env))),
                                 v.project, FORM_FROZEN, "form.frozen", env);
  }

  /** The four gate conditions hold of the stored documents. */
  ghost predicate GateHolds(w: Workspace, env: Env) {
    GateOpen(w.findings, w.facts, w.cards, env.required(Pinned(w.project, env)))
  }

  /** A pass leaves the stored documents meeting the gate; a refusal names the gate, or the state it was asked in. */
  lemma PassGateMeans(w: Workspace, env: Env)
    ensures var o := PassGate(w, env);
            && (o.error.None? ==> o.after.project.state == GATE_D3_PASSED && GateHolds(o.after, env))
            && (o.error.Some? ==> o.after.project == w.project && o.after.audit == w.audit)
            && (o.error.None? || o.error == Some(GateBlocked)
                || (o.error == Some(StateInvalid) && w.project.state !in {REVIEW_RUNNING, REVISION_LOOP, GATE_D3_PASSED}))
  {
    PassGateExactly(w, env);
    WorkflowRuns.PassGateShape(w, env);
    WorkflowRuns.TransitionShape(w.(cards := ReadCards(w, env).stored), w.project, GATE_D3_PASSED, "gate.d3_passed", env);
    if PassGate(w, env).error.None? {
      GuardAcceptsReport(w, env);
      GateOpensExactly(w.findings, w.facts, ReadCards(w, env).stored, env.required(Pinned(w.project, env)));
    }
  }

  /** A field that opens belongs to the form, and the form is not frozen. */
  lemma OpenFieldMeans(w: Workspace, key: string, freshId: string, env: Env)
    requires WorkflowRuns.Inv(w, env.digest)
    ensures OpenField(w, key, freshId, env).error.None? ==>
              !LatestFrozen(OpenField(w, key, freshId, env).after.forms) && key in env.required(Pinned(w.project, env))
  {
    WorkflowRuns.FormDraftKeeps(w, freshId, env);
    if !LatestFrozen(w.forms) { WorkflowRuns.DraftGoesLast(w, Rebuilt(w, freshId, env), freshId, env); }
  }
}
