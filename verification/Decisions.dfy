/** What a creator's decisions do to the gate: `act_on_finding` and the material calls, joined with `pass_gate`. */
module Decisions {
  import opened Entities
  import opened Keyed
  import opened MemoryStore
  import opened GateAndForms
  import opened Workflow
  import F = Findings
  import GatePassing

  /** The report `pass_gate` decides by. */
  function Report(w: Workspace, env: Env): seq<Gap> { Gaps(w, w.project, ReadCards(w, env).cards, env) }

  lemma ReportedIsBlocked(w: Workspace, env: Env)
    ensures PassGate(w, env).error == Some(GateBlocked) <==> Report(w, env) != []
  {
    GatePassing.PassGateExactly(w, env);
  }

  // ---------------------------------------------------------------------- findings

  /** A waiver and a rejection need a reason; a choice must be one the alert offers. */
  predicate Permitted(f: Finding, action: F.Action) {
    && !action.Unknown?
    && (action.Waive? ==> Strip(action.reason) != "")
    && (action.Reject? ==> Strip(action.waiver) != "")
    && (action.Choose? ==> f.alert.Some? && action.option in f.alert.value.options)
  }

  /** The decision changes the status it names, or the alert's choice, and nothing else. */
  predicate DecidedAs(f: Finding, g: Finding, action: F.Action) {
    && f == g.(status := f.status, alert := f.alert)
    && (action.Accept? ==> g.status == Accepted)
    && (action.Resolve? ==> g.status == Resolved)
    && (action.Waive? ==> g.status == Waived)
    && (action.Reject? ==> g.status == Rejected)
    && (action.Choose? ==> g.status == f.status)
    && (if action.Choose? && f.alert.Some?
        then g.alert.Some? && g.alert.value.options == f.alert.value.options && g.alert.value.chosen == Some(action.option)
        else g.alert == f.alert)
  }

  /** Which decisions are taken, and what each stores on the one finding it names. */
  lemma DecidedExactly(w: Workspace, i: nat, action: F.Action)
    requires Distinct(w.findings, FindingId) && i < |w.findings|
    ensures var o := ActOnFinding(w, w.findings[i].findingId, action);
            && (o.error.None? <==> Permitted(w.findings[i], action))
            && (o.error.Some? ==> o == Outcome(w, Some(ValidationFailed)))
            && (o.error.None? ==>
                  && |o.after.findings| == |w.findings| && DecidedAs(w.findings[i], o.after.findings[i], action)
                  && o.after == w.(findings := w.findings[i := o.after.findings[i]]))
  {
    forall j | 0 <= j < i ensures FindingId(w.findings[j]) != w.findings[i].findingId {
      assert FindingId(w.findings[j]) != FindingId(w.findings[i]);
    }
    FindUnique(w.findings, FindingId, w.findings[i].findingId, i);
  }

  lemma DecisionOnNothing(w: Workspace, id: string, action: F.Action)
    requires forall f | f in w.findings :: f.findingId != id
    ensures ActOnFinding(w, id, action) == Outcome(w, Some(NotFound))
  {
    FindUnique(w.findings, FindingId, id, |w.findings|);
  }

  lemma ReportAfterDecision(w: Workspace, i: nat, action: F.Action, env: Env)
    requires Distinct(w.findings, FindingId) && i < |w.findings| && Permitted(w.findings[i], action)
    ensures var v := ActOnFinding(w, w.findings[i].findingId, action).after;
            && |v.findings| == |w.findings| && DecidedAs(w.findings[i], v.findings[i], action)
            && (NamesFinding(Report(v, env), w.findings[i].findingId) <==>
                  v.findings[i].active && Weighs(v.findings[i]) && !Released(v.findings[i]))
  {
    var id := w.findings[i].findingId;
    DecidedExactly(w, i, action);
    var v := ActOnFinding(w, id, action).after;
    ReportNamesFinding(v.findings, v.facts, ReadCards(v, env).cards, env.required(Pinned(v.project, env)), id);
    forall j | 0 <= j < |v.findings| && v.findings[j].findingId == id ensures j == i {
      assert FindingId(w.findings[j]) == FindingId(w.findings[i]);
    }
    assert v.findings[i] in v.findings;
  }

  /**
   When a decided finding still holds the gate: an active one that was accepted, or whose
   alert was answered without an earlier release, and whose severity holds it, or that is
   an alert still without a choice.
   */
  lemma DecisionAtGate(w: Workspace, i: nat, action: F.Action, env: Env)
    requires Distinct(w.findings, FindingId) && i < |w.findings| && Permitted(w.findings[i], action)
    ensures var f, v := w.findings[i], ActOnFinding(w, w.findings[i].findingId, action).after;
            && (NamesFinding(Report(v, env), f.findingId) <==>
                  && f.active
                  && (action.Accept? || (action.Choose? && f.status in {Open, Accepted, SelfFixed}))
                  && (f.severity == Block || f.severity == NeedsHuman
                      || (action.Accept? && f.alert.Some? && f.alert.value.chosen.None?)))
            && (NamesFinding(Report(v, env), f.findingId) ==> PassGate(v, env).error == Some(GateBlocked))
  {
    ReportAfterDecision(w, i, action, env);
    ReportedIsBlocked(ActOnFinding(w, w.findings[i].findingId, action).after, env);
  }

  /**
   Accepting acknowledges without releasing: the gate stays blocked. Resolving, waiving or
   rejecting with a reason takes the finding out of every gap. Choosing an offered option
   releases a finding that was there only as an alert.
   */
  lemma AcceptingDoesNotRelease(w: Workspace, i: nat, env: Env, reason: string, option: string)
    requires Distinct(w.findings, FindingId) && i < |w.findings| && Strip(reason) != ""
    ensures var f := w.findings[i];
            var accepted := ActOnFinding(w, f.findingId, F.Accept);
            f.active && (f.severity == Block || f.severity == NeedsHuman) ==>
              accepted.error.None? && PassGate(accepted.after, env).error == Some(GateBlocked)
    ensures forall action | action in [F.Resolve, F.Waive(reason), F.Reject(reason)] ::
              var released := ActOnFinding(w, w.findings[i].findingId, action);
              released.error.None? && !NamesFinding(Report(released.after, env), w.findings[i].findingId)
    ensures var f := w.findings[i];
            f.alert.Some? && option in f.alert.value.options && f.severity != Block && f.severity != NeedsHuman ==>
              var chosen := ActOnFinding(w, f.findingId, F.Choose(option));
              chosen.error.None? && !NamesFinding(Report(chosen.after, env), f.findingId)
  {
    DecidedExactly(w, i, F.Accept);
    DecisionAtGate(w, i, F.Accept, env);
    forall action | action in [F.Resolve, F.Waive(reason), F.Reject(reason)]
      ensures var released := ActOnFinding(w, w.findings[i].findingId, action);
              released.error.None? && !NamesFinding(Report(released.after, env), w.findings[i].findingId)
    {
      DecidedExactly(w, i, action);
      DecisionAtGate(w, i, action, env);
    }
    if Permitted(w.findings[i], F.Choose(option)) {
      DecidedExactly(w, i, F.Choose(option));
      DecisionAtGate(w, i, F.Choose(option), env);
    }
  }

  // --------------------------------------------------------------------- materials

  /** What a successful request leaves the card at. */
  predicate Asked(r: CardRequest, status: MaterialStatus) {
    match r
    case Attach(_, _) => status == CardUploaded
    case Validate(defective) => if defective then status == CardInvalid else status == CardValid
    case Waive(_) => status == CardWaived
  }

  /** Which requests are taken: a waiver gives a reason, the card exists, and an attachment is an asset of its kind. */
  lemma TouchedExactly(w: Workspace, id: string, r: CardRequest, env: Env)
    ensures var o := TouchMaterial(w, id, r, env);
            var known := exists c :: c in ReadCards(w, env).cards && c.materialId == id;
            && (o.error.None? <==> && (r.Waive? ==> Strip(r.reason) != "") && known
                                   && (r.Attach? ==> r.assetFound && r.kindMatches))
            && (o.error == Some(NotFound) <==> && (r.Waive? ==> Strip(r.reason) != "")
                                               && (!known || (r.Attach? && !r.assetFound)))
            && (o.error.Some? ==> o.error.value in {NotFound, ValidationFailed})
            && (r.Waive? && Strip(r.reason) == "" ==> o.after == w)
            && (o.error.Some? && (r.Waive? ==> Strip(r.reason) != "") ==> o.after == w.(cards := ReadCards(w, env).stored))
            && o.after == w.(cards := o.after.cards)
  {
    var cards := ReadCards(w, env).cards;
    var i := Find(cards, CardId, id);
    if i < |cards| { assert cards[i] in cards && CardId(cards[i]) == id; }
    if c :| c in cards && c.materialId == id {
      var j :| 0 <= j < |cards| && cards[j] == c;
      assert CardId(cards[j]) == id;
    }
  }

  /** The touched card is stored at the status asked for, once, and required or not as it was. */
  lemma TouchedCard(w: Workspace, id: string, r: CardRequest, env: Env) returns (card: Card, touched: Card)
    requires Distinct(w.cards, CardId) && Distinct(env.cards(Pinned(w.project, env)), CardId)
    requires TouchMaterial(w, id, r, env).error.None?
    ensures card in ReadCards(w, env).cards && card.materialId == id
    ensures touched.materialId == id && touched.required == card.required && Asked(r, touched.status)
    ensures var v := TouchMaterial(w, id, r, env).after;
            && touched in v.cards && Distinct(v.cards, CardId) && v.project == w.project
  {
    var m := ReadCards(w, env);
    var i := Find(m.cards, CardId, id);
    card := m.cards[i];
    touched := card.(status := CardVerdict(r).value);
    GatePassing.TakeCardsKnown(w.cards, env.cards(Pinned(w.project, env)));
    PutByIdDistinct(m.stored, CardId, touched);
    var j := Find(m.stored, CardId, id);
    assert PutById(m.stored, CardId, touched)[j] == touched;
  }

  lemma StillReturned(stored: seq<Card>, defined: seq<Card>, c: Card)
    requires Distinct(defined, CardId) && c in stored
    ensures c in MaterialCards(stored, defined).cards
  {
    GatePassing.TakeCardsKnown(stored, defined);
    GatePassing.StoredIsReturned(stored, defined, c);
  }

  lemma OneReturned(stored: seq<Card>, defined: seq<Card>, c: Card, d: Card)
    requires Distinct(stored, CardId) && Distinct(defined, CardId)
    requires c in MaterialCards(stored, defined).cards && d in MaterialCards(stored, defined).cards
    requires c.materialId == d.materialId
    ensures c == d
  {
    GatePassing.TakeCardsKnown(stored, defined);
    GatePassing.ReturnedIsStored(stored, defined, c);
    GatePassing.ReturnedIsStored(stored, defined, d);
    var kept := MaterialCards(stored, defined).stored;
    var i :| 0 <= i < |kept| && kept[i] == c;
    var j :| 0 <= j < |kept| && kept[j] == d;
    assert CardId(kept[i]) == CardId(kept[j]);
  }

  /**
   After a card was touched the report names it exactly when it is required and was
   attached or found defective; validated or waived, it no longer holds the gate.
   */
  lemma CardAtGate(w: Workspace, id: string, r: CardRequest, env: Env)
    requires Distinct(w.cards, CardId) && Distinct(env.cards(Pinned(w.project, env)), CardId)
    requires TouchMaterial(w, id, r, env).error.None?
    ensures var v := TouchMaterial(w, id, r, env).after;
            && (NamesCard(Report(v, env), id) <==>
                  && (exists c :: c in ReadCards(w, env).cards && c.materialId == id && c.required)
                  && (r.Attach? || (r.Validate? && r.defective)))
            && (NamesCard(Report(v, env), id) ==> PassGate(v, env).error == Some(GateBlocked))
  {
    var v := TouchMaterial(w, id, r, env).after;
    var card, touched := TouchedCard(w, id, r, env);
    var defined := env.cards(Pinned(w.project, env));
    ReportNamesCard(v.findings, v.facts, ReadCards(v, env).cards, env.required(Pinned(v.project, env)), id);
    StillReturned(v.cards, defined, touched);
    forall c | c in ReadCards(w, env).cards && c.materialId == id ensures c == card { OneReturned(w.cards, defined, c, card); }
    forall c | c in ReadCards(v, env).cards && c.materialId == id ensures c == touched { OneReturned(v.cards, defined, c, touched); }
    ReportedIsBlocked(v, env);
  }
}
