/** When each step of a filing goes through, and what it leaves behind when it does not. */
module Filing {
  import opened Entities
  import opened Keyed
  import opened MemoryStore
  import opened StateMachine
  import opened GateAndForms
  import opened Workflow
  import opened WorkflowRuns

  /** A form is frozen exactly at the gate, with every required field buildable and none outstanding. */
  lemma FrozenExactly(w: Workspace, freshId: string, env: Env)
    requires Inv(w, env.digest) && !LatestFrozen(w.forms)
    ensures var keys := env.required(Pinned(w.project, env));
            FreezeForm(w, freshId, env).error.None? <==>
              && w.project.state == GATE_D3_PASSED
              && Buildable(keys, w.facts) && PendingKeys(Fields(keys, w.facts)) == {}
    ensures FreezeForm(w, freshId, env).error.None? ==>
              var v := FreezeForm(w, freshId, env).after;
              v.project.state == FORM_FROZEN && v.forms != [] && v.forms[|v.forms| - 1] == Frozen(Rebuilt(w, freshId, env), env)
  {
    FormDraftKeeps(w, freshId, env);
    var drawn := FormDraftOf(w, freshId, env);
    var draft := Rebuilt(w, freshId, env);
    if w.project.state == GATE_D3_PASSED && drawn.error.None? && PendingKeys(draft.fields) == {} {
      DraftGoesLast(w, draft, freshId, env);
      RebuiltIsBacked(w, freshId, env);
      DraftGoesLast(drawn.after, Frozen(draft, env), freshId, env);
      TransitionShape(drawn.after.(forms := PutById(drawn.after.forms, DraftId, Frozen(draft, env))),
                      w.project, FORM_FROZEN, "form.frozen", env);
      FreezeOpens(w, drawn.after.(forms := PutById(drawn.after.forms, DraftId, Frozen(draft, env))), env);
    }
  }

  lemma FreezeOpens(w: Workspace, saved: Workspace, env: Env)
    requires w.project.state == GATE_D3_PASSED
    ensures Transition(saved, w.project, FORM_FROZEN, "form.frozen", env).error.None?
  {
  }

  /** A project is accepted exactly from review, on a valid licence check and a signed agreement. */
  lemma AcceptedExactly(w: Workspace, verdict: Verdict, comments: string, agreement: string, env: Env)
    requires w.project.state != READY_FOR_EXTERNAL_FILING
    ensures Decide(w, verdict, comments, agreement, env).after.project.state == READY_FOR_EXTERNAL_FILING <==>
              Accepts(w, verdict, agreement)
  {
    ReadyFromReview(w.project.state);
  }

  /** What one verdict can do to a project: accept it, return it, or leave it where it is. */
  lemma DecideMeans(w: Workspace, verdict: Verdict, comments: string, agreement: string, env: Env)
    ensures Decide(w, verdict, comments, agreement, env).after.project.state == Judged(w, verdict, comments, agreement)
  {
    ReadyFromReview(w.project.state);
  }

  function Judged(w: Workspace, verdict: Verdict, comments: string, agreement: string): ProjectState {
    if Accepts(w, verdict, agreement) then READY_FOR_EXTERNAL_FILING
    else if Returns(w, verdict, comments) then INSTITUTION_RETURNED
    else w.project.state
  }

  predicate Accepts(w: Workspace, verdict: Verdict, agreement: string) {
    && w.project.state == INSTITUTION_REVIEW && w.reviews != [] && verdict.AcceptVerdict?
    && Strip(agreement) != "" && w.reviews[|w.reviews| - 1].licenseValid
  }

  predicate Returns(w: Workspace, verdict: Verdict, comments: string) {
    w.project.state == INSTITUTION_REVIEW && w.reviews != [] && verdict.ReturnVerdict? && Strip(comments) != ""
  }

  lemma ReadyFromReview(from: ProjectState)
    ensures READY_FOR_EXTERNAL_FILING in Allowed(from) <==> from == INSTITUTION_REVIEW
    ensures INSTITUTION_RETURNED in Allowed(from) <==> from == INSTITUTION_REVIEW
    ensures FILED in Allowed(from) <==> from == READY_FOR_EXTERNAL_FILING
  {
  }

  lemma ReturnedExactly(w: Workspace, verdict: Verdict, comments: string, agreement: string, env: Env)
    requires w.project.state != INSTITUTION_RETURNED
    ensures Decide(w, verdict, comments, agreement, env).after.project.state == INSTITUTION_RETURNED <==>
              Returns(w, verdict, comments)
  {
    ReadyFromReview(w.project.state);
  }

  /** A verdict given in the wrong state raises, and is stored all the same. */
  lemma RefusedVerdictIsStored(w: Workspace, comments: string, agreement: string, env: Env)
    requires w.reviews != [] && Distinct(w.reviews, ReviewId) && Strip(comments) != "" && w.project.state != INSTITUTION_REVIEW
    ensures var o := Decide(w, ReturnVerdict, comments, agreement, env);
            && o.error == Some(StateInvalid) && o.after.project == w.project && |o.after.reviews| == |w.reviews|
            && o.after.reviews[|w.reviews| - 1].decision == Some(ReturnVerdict)
  {
    ReadyFromReview(w.project.state);
    var n := |w.reviews| - 1;
    var decided := w.reviews[n].(decision := Some(ReturnVerdict), comments := comments, agreement := agreement);
    forall j | 0 <= j < n ensures ReviewId(w.reviews[j]) != ReviewId(decided) { assert ReviewId(w.reviews[j]) != ReviewId(w.reviews[n]); }
    FindUnique(w.reviews, ReviewId, ReviewId(decided), n);
  }

  /** A project becomes filed exactly from READY_FOR_EXTERNAL_FILING with a number; otherwise a number given is still stored. */
  lemma FiledExactly(w: Workspace, number: string, env: Env)
    requires w.project.state != FILED
    ensures var v := RecordFiling(w, number, env).after;
            && (v.project.state == FILED <==> Strip(number) != "" && w.project.state == READY_FOR_EXTERNAL_FILING)
            && (Strip(number) != "" ==> v.project.registrationNumber == Some(Strip(number)))
            && (v.project.state != FILED ==> v.project.state == w.project.state && v.audit == w.audit)
  {
    ReadyFromReview(w.project.state);
  }

  /** Confirming a roadmap twice is one confirmation; confirming it from elsewhere stores it and raises. */
  lemma RoadmapExactly(w: Workspace, env: Env)
    ensures var o := ConfirmRoadmap(w, env);
            && (o.error.None? <==> w.project.classification.Some?
                                   && (w.project.roadmapConfirmed == Some(true) || w.project.state == CLASSIFIED))
            && (w.project.roadmapConfirmed == Some(true) ==> o.after == w)
            && (w.project.classification.Some? ==> o.after.project.roadmapConfirmed == Some(true))
            && (o.error.None? && w.project.roadmapConfirmed != Some(true) ==>
                  o.after.project.state == COLLECTING_MATERIALS && |o.after.audit| == |w.audit| + 2)
  {
    OnlyFromClassified(w.project.state);
  }

  lemma OnlyFromClassified(from: ProjectState)
    ensures ROADMAP_CONFIRMED in Allowed(from) <==> from == CLASSIFIED
  {
  }

  /** A deferral is taken exactly when the key's latest fact is not a confirmed value. */
  lemma DeferredExactly(w: Workspace, key: string, factId: string, answerId: string, freshId: string, env: Env)
    requires !LatestFrozen(w.forms) && Buildable(env.required(Pinned(w.project, env)), w.facts)
    ensures |DeferField(w, key, factId, answerId, freshId, env).after.facts| > |w.facts| <==>
              key in env.required(Pinned(w.project, env)) && CanDefer(w.facts, key)
  {
  }

  // ------------------------------------------------------------------ confirmation

  lemma UpsertedIsLatest(facts: seq<Fact>, p: FactProposal, key: string)
    ensures var after := Upsert(facts, p);
            if key == p.key then LatestByKey(after, key).Some? && LatestByKey(after, key).value.value == Some(p.value)
            else LatestByKey(after, key) == LatestByKey(facts, key)
  {
    var after := Upsert(facts, p);
    if after != facts { assert after[..|after| - 1] == facts; }
  }

  /** A confirmation that goes through leaves the value it confirms as the key's latest. */
  lemma ConfirmedFieldIsLatest(w: Workspace, key: string, value: Option<Value>, factId: string, answerId: string,
                               freshId: string, env: Env)
    ensures var o := ConfirmField(w, key, value, factId, answerId, freshId, env);
            o.error.None? ==> value.Some? && Says(o.after.facts, key, value.value)
  {
    var open := OpenField(w, key, freshId, env);
    if open.error.None? && !Blank(value) {
      UpsertedIsLatest(open.after.facts, FactProposal(factId, key, value.value, SourceRef(FromAnswer, answerId, None)), key);
    }
  }

  /** A deferral that goes through adds one fact, to a key it may be taken on. */
  lemma DeferralAdds(w: Workspace, key: string, factId: string, answerId: string, freshId: string, env: Env)
    ensures var o := DeferField(w, key, factId, answerId, freshId, env);
            o.error.None? ==> GapAdded(w.facts, o.after.facts, key)
  {
  }

  /** One fact more, on a key whose latest fact was not confirmed. */
  predicate GapAdded(before: seq<Fact>, after: seq<Fact>, key: string) { |after| == |before| + 1 && CanDefer(before, key) }

  ghost predicate Says(facts: seq<Fact>, key: string, value: Value) {
    LatestByKey(facts, key).Some? && LatestByKey(facts, key).value.value == Some(value)
  }

  ghost predicate SaysDetails(facts: seq<Fact>, d: ConfirmedDetails) {
    && Says(facts, "title", Text(d.title)) && Says(facts, "episode_count", Number(d.episodeCount as real))
    && Says(facts, "episode_minutes", Number(d.episodeMinutes))
    && Says(facts, "amount_bracket", Text(BracketText(d.bracket)))
  }

  /** After a confirmation the latest fact of each of the four keys carries the confirmed value. */
  lemma ConfirmedValuesAreLatest(w: Workspace, d: ConfirmedDetails, ids: nat -> string, env: Env)
    ensures SaysDetails(ApplyConfirmation(w, d, ids, env).after.facts, d)
  {
    var ps := DetailFacts(w.project.projectId, d, ids);
    IntentSaves(w, d, env);
    FourUpserts(w.facts, ps);
    var facts := UpsertAll(w.facts, ps);
    assert Says(facts, ps[0].key, ps[0].value) && Says(facts, ps[1].key, ps[1].value);
    assert Says(facts, ps[2].key, ps[2].value) && Says(facts, ps[3].key, ps[3].value);
  }

  lemma IntentSaves(w: Workspace, d: ConfirmedDetails, env: Env)
    ensures var p := w.project.(title := Some(d.title), bracket := d.bracket, amount := None, updatedAt := env.now);
            SaveIntent(w, p, env).error.None? && SaveIntent(w, p, env).after.facts == w.facts
  {
  }

  lemma FourUpserts(facts: seq<Fact>, ps: seq<FactProposal>)
    requires |ps| == 4 && forall i, j | 0 <= i < j < 4 :: ps[i].key != ps[j].key
    ensures forall i | 0 <= i < 4 :: Says(UpsertAll(facts, ps), ps[i].key, ps[i].value)
  {
    var f1 := Upsert(facts, ps[0]);
    var f2 := Upsert(f1, ps[1]);
    var f3 := Upsert(f2, ps[2]);
    UpsertFour(facts, ps);
    forall i | 0 <= i < 4 ensures Says(Upsert(f3, ps[3]), ps[i].key, ps[i].value) {
      UpsertedIsLatest(facts, ps[0], ps[i].key);
      UpsertedIsLatest(f1, ps[1], ps[i].key);
      UpsertedIsLatest(f2, ps[2], ps[i].key);
      UpsertedIsLatest(f3, ps[3], ps[i].key);
    }
  }

  lemma UpsertFour(facts: seq<Fact>, ps: seq<FactProposal>)
    requires |ps| == 4
    ensures UpsertAll(facts, ps) == Upsert(Upsert(Upsert(Upsert(facts, ps[0]), ps[1]), ps[2]), ps[3])
  {
    var p3, p2, p1 := ps[..3], ps[..2], ps[..1];
    assert p3[..2] == p2 && p2[..1] == p1 && p1[..0] == [];
    assert UpsertAll(facts, p1) == Upsert(facts, ps[0]);
    assert UpsertAll(facts, p2) == Upsert(UpsertAll(facts, p1), ps[1]);
    assert UpsertAll(facts, p3) == Upsert(UpsertAll(facts, p2), ps[2]);
  }
}
