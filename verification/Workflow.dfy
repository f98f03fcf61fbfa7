/**
 The workflow service as functions over one project's workspace. A call that
 raises returns its error beside whatever it had already written.
 */
module Workflow {
  import opened Entities
  import opened Keyed
  import opened MemoryStore
  import opened StateMachine
  import opened GateAndForms
  import Findings

  datatype Verdict = AcceptVerdict | ReturnVerdict | EscalateVerdict | PendingVerdict

  datatype InstitutionReview = InstitutionReview(
    reviewId: string, licenseValid: bool, decision: Option<Verdict>, comments: string, agreement: string)

  function ReviewId(r: InstitutionReview): string { r.reviewId }

  datatype Workspace = Workspace(
    project: Project,
    facts: seq<Fact>,
    findings: seq<Finding>,
    forms: seq<FormDraft>,
    audit: seq<AuditEntry>,
    cards: seq<Card>,
    reviews: seq<InstitutionReview>)

  /** What a call reads besides the workspace: the policy snapshots, the clock, and the form hash. */
  datatype Env = Env(
    latest: string, now: int,
    required: string -> seq<string>,
    cards: string -> seq<Card>,
    digest: (string, string, map<string, FormField>) -> string)

  datatype Outcome = Outcome(after: Workspace, error: Option<Error>)

  datatype FactProposal = FactProposal(factId: string, key: string, value: Value, source: SourceRef)

  /** What the classification chain answers. */
  datatype Classified = Classified(
    askBack: bool, classification: Option<Classification>, facts: seq<FactProposal>,
    alert: Option<Finding>, next: Option<ProjectState>)

  const FORM_TYPE := "registration_publicity"

  const GATE_READY: set<ProjectState> := {REVIEW_RUNNING, REVISION_LOOP}

  const RECLASSIFIABLE: set<ProjectState> := {
    CLASSIFIED, ROADMAP_CONFIRMED, COLLECTING_MATERIALS, REVIEW_RUNNING, REVISION_LOOP,
    GATE_D3_PASSED, NEEDS_HUMAN_SUBJECT, NEEDS_HUMAN_FORMTYPE }

  const RECALC_FROZEN: set<ProjectState> := {
    FORM_FROZEN, INSTITUTION_REVIEW, INSTITUTION_RETURNED, READY_FOR_EXTERNAL_FILING, FILED, PRODUCTION }

  function Fine(w: Workspace): Outcome { Outcome(w, None) }

  function Refused(w: Workspace, e: Error): Outcome { Outcome(w, Some(e)) }

  /** The snapshot a project is judged by: the one its classification pinned, else the latest. */
  function Pinned(p: Project, env: Env): string {
    match p.classification case Some(c) => c.snapshotVersion case None => env.latest
  }

  function NonEmpty(s: Option<string>): bool { s.Some? && s.value != "" }

  // -------------------------------------------------------------- transitions

  function Gaps(w: Workspace, p: Project, cards: seq<Card>, env: Env): seq<Gap> {
    EvaluateGate(w.findings, w.facts, cards, env.required(Pinned(p, env)))
  }

  /** Why the table or an entry guard refuses this step, if it does. */
  function Refusal(w: Workspace, p: Project, to: ProjectState, env: Env): Option<Error> {
    if Terminal(p.state) || to !in Allowed(p.state) then Some(StateInvalid)
    else if to == GATE_D3_PASSED && Gaps(w, p, w.cards, env) != [] then Some(GateBlocked)
    else if to == FORM_FROZEN && p.state != GATE_D3_PASSED then Some(StateInvalid)
    else if to == FILED && !NonEmpty(p.registrationNumber) then Some(StateInvalid)
    else if (to == ROADMAP_CONFIRMED || to == COLLECTING_MATERIALS) && p.roadmapConfirmed.None? then Some(StateInvalid)
    else None
  }

  function Moved(w: Workspace, p: Project, to: ProjectState, reason: string, now: int): Workspace {
    w.(project := p.(state := to, updatedAt := now), audit := w.audit + [AuditEntry(p.state, to, reason)])
  }

  function Transition(w: Workspace, p: Project, to: ProjectState, reason: string, env: Env): Outcome {
    var refusal := Refusal(w, p, to, env);
    if refusal.Some? then Refused(w, refusal.value) else Fine(Moved(w, p, to, reason, env.now))
  }

  function BeginReanalysis(w: Workspace, env: Env): Outcome {
    if w.project.state !in REANALYZABLE then Refused(w, StateInvalid)
    else
      var reset := w.project.(classification := None, roadmapConfirmed := None, policyStale := false,
                              registrationNumber := None);
      Fine(Moved(w, reset, DRAFT, RESET, env.now))
  }

  // ------------------------------------------------------------ intake and class

  function Upsert(facts: seq<Fact>, p: FactProposal): seq<Fact> {
    UpsertFact(facts, p.factId, p.key, p.value, p.source)
  }

  function UpsertAll(facts: seq<Fact>, ps: seq<FactProposal>): seq<Fact> {
    if ps == [] then facts else Upsert(UpsertAll(facts, ps[..|ps| - 1]), ps[|ps| - 1])
  }

  function SaveIntent(w: Workspace, p: Project, env: Env): Outcome {
    if p.state == DRAFT then Transition(w, p, INTAKE_DONE, "intent.submitted", env) else Fine(w.(project := p))
  }

  function SubmitIntent(w: Workspace, bracket: AmountBracket, amount: Option<real>, env: Env): Outcome {
    SaveIntent(w, w.project.(bracket := bracket, amount := amount, updatedAt := env.now), env)
  }

  function BracketText(b: AmountBracket): string {
    match b
    case BelowLower => "below_lower"
    case Between => "between"
    case AtOrAboveUpper => "at_or_above_upper"
    case BracketUnknown => "unknown"
  }

  /** The four facts a confirmation answers, under new ids. */
  function DetailFacts(pid: string, d: ConfirmedDetails, ids: nat -> string): seq<FactProposal> {
    var source := SourceRef(FromAnswer, "review_confirmation:" + pid, None);
    [ FactProposal(ids(0), "title", Text(d.title), source),
      FactProposal(ids(1), "episode_count", Number(d.episodeCount as real), source),
      FactProposal(ids(2), "episode_minutes", Number(d.episodeMinutes), source),
      FactProposal(ids(3), "amount_bracket", Text(BracketText(d.bracket)), source) ]
  }

  /** The creator's confirmed details become the intake, then four facts of their own. */
  function ApplyConfirmation(w: Workspace, details: ConfirmedDetails, ids: nat -> string, env: Env): Outcome {
    var p := w.project.(title := Some(details.title), bracket := details.bracket, amount := None, updatedAt := env.now);
    var saved := SaveIntent(w, p, env);
    if saved.error.Some? then saved
    else Fine(saved.after.(facts := UpsertAll(saved.after.facts, DetailFacts(p.projectId, details, ids))))
  }

  function AlertId(p: Project): string { "classification_alert:" + p.projectId }

  /** A decided form type passes through FORM_JUDGED on its way to a class. */
  function JudgeForm(w: Workspace, target: ProjectState, env: Env): Outcome {
    if w.project.state == INTAKE_DONE && (target == CLASSIFIED || target == NEEDS_HUMAN_SUBJECT)
    then Transition(w, w.project, FORM_JUDGED, "d1a.form_type_decided", env) else Fine(w)
  }

  function Settle(w: Workspace, target: ProjectState, env: Env): Outcome {
    var judged := JudgeForm(w, target, env);
    if judged.error.Some? || judged.after.project.state == target then judged
    else Transition(judged.after, judged.after.project, target, "classification.decided", env)
  }

  function Recorded(w: Workspace, c: Classified, generation: Option<nat>, now: int): Workspace {
    var p := if c.classification.Some? then w.project.(classification := c.classification, updatedAt := now) else w.project;
    w.(project := p, facts := UpsertAll(w.facts, c.facts),
       findings := Findings.SyncAlert(w.findings, AlertId(p), c.alert, generation))
  }

  function Persist(w: Workspace, c: Classified, generation: Option<nat>, env: Env): Outcome {
    var saved := Recorded(w, c, generation, env.now);
    if c.next.None? then Fine(saved) else Settle(saved, c.next.value, env)
  }

  function RunClassification(w: Workspace, c: Classified, generation: Option<nat>, env: Env): Outcome {
    if w.project.state == DRAFT || c.askBack then Refused(w, StateInvalid) else Persist(w, c, generation, env)
  }

  function Reclassify(w: Workspace, c: Classified, env: Env): Outcome {
    if !w.project.policyStale || w.project.state !in RECLASSIFIABLE || c.askBack || c.classification.None?
    then Refused(w, StateInvalid)
    else Fine(w.(project := w.project.(classification := c.classification, policyStale := false, updatedAt := env.now),
                 facts := UpsertAll(w.facts, c.facts)))
  }

  function ConfirmRoadmap(w: Workspace, env: Env): Outcome {
    if w.project.classification.None? then Refused(w, StateInvalid)
    else if w.project.roadmapConfirmed == Some(true) then Fine(w)
    else
      var saved := w.(project := w.project.(roadmapConfirmed := Some(true), updatedAt := env.now));
      var confirmed := Transition(saved, saved.project, ROADMAP_CONFIRMED, "roadmap.confirmed", env);
      if confirmed.error.Some? then confirmed
      else Transition(confirmed.after, confirmed.after.project, COLLECTING_MATERIALS, "materials.collection_started", env)
  }

  // ------------------------------------------------------------------- reviews

  predicate AnyBlocking(findings: seq<Finding>) { exists f | f in findings :: BlocksGate(f) }

  function Advance(w: Workspace, env: Env): Outcome {
    var started := if w.project.state == COLLECTING_MATERIALS
                   then Transition(w, w.project, REVIEW_RUNNING, "review.started", env) else Fine(w);
    if started.error.Some? || started.after.project.state != REVIEW_RUNNING || !AnyBlocking(started.after.findings)
    then started
    else Transition(started.after, started.after.project, REVISION_LOOP, "review.findings_open", env)
  }

  function ReviewScript(w: Workspace, version: string, document: string, ps: seq<Findings.Proposal>,
                        generation: Option<nat>, ids: nat -> string, env: Env): Outcome
  {
    Advance(w.(findings := Findings.Review(w.findings, version, document, ps, generation, ids)), env)
  }

  function ActOnFinding(w: Workspace, id: string, action: Findings.Action): Outcome {
    var i := Find(w.findings, FindingId, id);
    if i == |w.findings| then Refused(w, NotFound)
    else if Findings.Acted(w.findings[i], action).None? then Refused(w, ValidationFailed)
    else Fine(w.(findings := Findings.Act(w.findings, id, action)))
  }

  // --------------------------------------------------------- materials and gate

  /** Cards of the pack, each stored when first seen; then the stored cards the pack no longer defines. */
  datatype Materialised = Materialised(stored: seq<Card>, unclaimed: seq<Card>, cards: seq<Card>)

  function Remove(s: seq<Card>, i: nat): seq<Card> requires i < |s| { s[..i] + s[i + 1..] }

  function TakeCard(m: Materialised, card: Card): Materialised {
    var i := Find(m.unclaimed, CardId, card.materialId);
    if i < |m.unclaimed|
    then Materialised(m.stored, Remove(m.unclaimed, i), m.cards + [m.unclaimed[i]])
    else Materialised(PutById(m.stored, CardId, card), m.unclaimed, m.cards + [card])
  }

  function TakeCards(m: Materialised, defined: seq<Card>): Materialised {
    if defined == [] then m else TakeCard(TakeCards(m, defined[..|defined| - 1]), defined[|defined| - 1])
  }

  function MaterialCards(stored: seq<Card>, defined: seq<Card>): Materialised {
    var m := TakeCards(Materialised(stored, stored, []), defined);
    m.(cards := m.cards + m.unclaimed)
  }

  function ReadCards(w: Workspace, env: Env): Materialised { MaterialCards(w.cards, env.cards(Pinned(w.project, env))) }

  /** What a creator asks of one card; the asset lookup and the defect checks are answered from outside. */
  datatype CardRequest = Attach(assetFound: bool, kindMatches: bool) | Validate(defective: bool) | Waive(reason: string)

  function CardVerdict(r: CardRequest): Result<MaterialStatus> {
    match r
    case Attach(found, matches) => if !found then Err(NotFound) else if !matches then Err(ValidationFailed) else Ok(CardUploaded)
    case Validate(defective) => Ok(if defective then CardInvalid else CardValid)
    case Waive(_) => Ok(CardWaived)
  }

  /** A waiver without a reason is refused before the cards are read; everything else materialises them first. */
  function TouchMaterial(w: Workspace, id: string, r: CardRequest, env: Env): Outcome {
    if r.Waive? && Strip(r.reason) == "" then Refused(w, ValidationFailed)
    else
      var m := ReadCards(w, env);
      var seen := w.(cards := m.stored);
      var i := Find(m.cards, CardId, id);
      if i == |m.cards| then Refused(seen, NotFound)
      else match CardVerdict(r)
        case Err(e) => Refused(seen, e)
        case Ok(status) => Fine(seen.(cards := PutById(m.stored, CardId, m.cards[i].(status := status))))
  }

  /** An open report moves a project that is ready, and leaves one that has passed. */
  function EnterGate(w: Workspace, env: Env): Outcome {
    if w.project.state == GATE_D3_PASSED then Fine(w)
    else if w.project.state !in GATE_READY then Refused(w, StateInvalid)
    else Transition(w, w.project, GATE_D3_PASSED, "gate.d3_passed", env)
  }

  function PassGate(w: Workspace, env: Env): Outcome {
    var m := ReadCards(w, env);
    var seen := w.(cards := m.stored);
    if Gaps(w, w.project, m.cards, env) != [] then Refused(seen, GateBlocked) else EnterGate(seen, env)
  }

  // ---------------------------------------------------------------------- forms

  function Latest(forms: seq<FormDraft>): Option<FormDraft> {
    if forms == [] then None else Some(forms[|forms| - 1])
  }

  /** The unfrozen draft, rebuilt from the facts under the id and parent it already had. */
  function Rebuilt(w: Workspace, freshId: string, env: Env): FormDraft {
    var version := Pinned(w.project, env);
    var keys := env.required(version);
    var prior := Latest(w.forms);
    FormDraft(if prior.Some? then prior.value.draftId else freshId, FORM_TYPE, false,
              Fields(keys, w.facts), ConflictKeys(keys, w.facts), None, version,
              if prior.Some? then prior.value.parentDraft else None)
  }

  function FormDraftOf(w: Workspace, freshId: string, env: Env): Outcome {
    if LatestFrozen(w.forms) then Fine(w)
    else if !Buildable(env.required(Pinned(w.project, env)), w.facts) then Refused(w, ValidationFailed)
    else Fine(w.(forms := PutById(w.forms, DraftId, Rebuilt(w, freshId, env))))
  }

  /** The draft `form_draft` answers with when it does not raise. */
  function DraftRead(w: Workspace, freshId: string, env: Env): FormDraft {
    if LatestFrozen(w.forms) then w.forms[|w.forms| - 1] else Rebuilt(w, freshId, env)
  }

  /** Both field edits read the draft first, and refuse a frozen form or an unknown key. */
  function OpenField(w: Workspace, key: string, freshId: string, env: Env): Outcome {
    var drawn := FormDraftOf(w, freshId, env);
    var draft := DraftRead(w, freshId, env);
    if drawn.error.Some? then drawn
    else if draft.frozen then Refused(drawn.after, Conflict)
    else if key !in draft.fields then Refused(drawn.after, NotFound)
    else drawn
  }

  function ConfirmField(w: Workspace, key: string, value: Option<Value>, factId: string, answerId: string,
                        freshId: string, env: Env): Outcome
  {
    var open := OpenField(w, key, freshId, env);
    if open.error.Some? then open
    else if Blank(value) then Refused(open.after, ValidationFailed)
    else
      var facts := UpsertFact(open.after.facts, factId, key, value.value, SourceRef(FromAnswer, answerId, None));
      FormDraftOf(open.after.(facts := facts), freshId, env)
  }

  function DeferOpened(w: Workspace, key: string, factId: string, answerId: string, freshId: string, env: Env): Outcome {
    if !CanDefer(w.facts, key) then Refused(w, ValidationFailed)
    else FormDraftOf(w.(facts := DeferFact(w.facts, factId, key, SourceRef(FromAnswer, answerId, None))), freshId, env)
  }

  function DeferField(w: Workspace, key: string, factId: string, answerId: string, freshId: string, env: Env): Outcome {
    var open := OpenField(w, key, freshId, env);
    if open.error.Some? then open else DeferOpened(open.after, key, factId, answerId, freshId, env)
  }

  function Frozen(d: FormDraft, env: Env): FormDraft {
    d.(frozen := true, hash := Some(env.digest(d.formType, d.snapshotVersion, d.fields)))
  }

  function FreezeForm(w: Workspace, freshId: string, env: Env): Outcome {
    if LatestFrozen(w.forms) then Fine(w)
    else if w.project.state != GATE_D3_PASSED then Refused(w, StateInvalid)
    else
      var drawn := FormDraftOf(w, freshId, env);
      if drawn.error.Some? then drawn
      else
        var draft := DraftRead(w, freshId, env);
        if PendingKeys(draft.fields) != {} then Refused(drawn.after, GateBlocked)
        else
          var saved := drawn.after.(forms := PutById(drawn.after.forms, DraftId, Frozen(draft, env)));
          Transition(saved, w.project, FORM_FROZEN, "form.frozen", env)
  }

  // --------------------------------------------------------- institution and filing

  function SubmitToInstitution(w: Workspace, reviewId: string, licenseValid: bool, env: Env): Outcome {
    if w.project.state != FORM_FROZEN && w.project.state != INSTITUTION_REVIEW then Refused(w, StateInvalid)
    else
      var review := InstitutionReview(reviewId, licenseValid, None, "", "");
      var saved := w.(reviews := PutById(w.reviews, ReviewId, review));
      Transition(saved, w.project, INSTITUTION_REVIEW, "institution.submitted", env)
  }

  function Target(verdict: Verdict): Option<ProjectState> {
    match verdict
    case AcceptVerdict => Some(READY_FOR_EXTERNAL_FILING)
    case ReturnVerdict => Some(INSTITUTION_RETURNED)
    case _ => None
  }

  /** The verdict on the latest review. */
  function Judge(reviews: seq<InstitutionReview>, verdict: Verdict, comments: string, agreement: string): seq<InstitutionReview>
    requires reviews != []
  {
    PutById(reviews, ReviewId,
            reviews[|reviews| - 1].(decision := Some(verdict), comments := comments, agreement := agreement))
  }

  /** Why a verdict is refused before anything is stored. */
  function VerdictError(reviews: seq<InstitutionReview>, verdict: Verdict, comments: string, agreement: string): Option<Error> {
    if reviews == [] then Some(NotFound)
    else if verdict.AcceptVerdict? && (Strip(agreement) == "" || !reviews[|reviews| - 1].licenseValid) then Some(ValidationFailed)
    else if verdict.ReturnVerdict? && Strip(comments) == "" then Some(ValidationFailed)
    else None
  }

  /** A verdict with a state of its own moves the project there, if the table allows it. */
  function ActOnVerdict(w: Workspace, verdict: Verdict, env: Env): Outcome {
    if Target(verdict).None? then Fine(w)
    else Transition(w, w.project, Target(verdict).value, "institution.decided", env)
  }

  /** The verdict is stored before the state table is asked. */
  function Decide(w: Workspace, verdict: Verdict, comments: string, agreement: string, env: Env): Outcome {
    var error := VerdictError(w.reviews, verdict, comments, agreement);
    if error.Some? then Refused(w, error.value)
    else ActOnVerdict(w.(reviews := Judge(w.reviews, verdict, comments, agreement)), verdict, env)
  }

  function Successor(d: FormDraft, freshId: string): FormDraft {
    FormDraft(freshId, d.formType, false, map[], [], None, d.snapshotVersion, Some(d.draftId))
  }

  function ResumeAfterReturn(w: Workspace, freshId: string, env: Env): Outcome {
    if w.project.state != INSTITUTION_RETURNED then Refused(w, StateInvalid)
    else
      var saved := if LatestFrozen(w.forms)
                   then w.(forms := PutById(w.forms, DraftId, Successor(w.forms[|w.forms| - 1], freshId))) else w;
      Transition(saved, w.project, REVISION_LOOP, "institution.returned_for_revision", env)
  }

  /** The number is stored before the state table is asked. */
  function RecordFiling(w: Workspace, number: string, env: Env): Outcome {
    if Strip(number) == "" then Refused(w, ValidationFailed)
    else
      var saved := w.(project := w.project.(registrationNumber := Some(Strip(number)), updatedAt := env.now));
      Transition(saved, saved.project, FILED, "filing.recorded", env)
  }

  // --------------------------------------------------------------- policy changes

  datatype TierDecision = TierDecision(tier: Tier, provisional: bool, clause: Option<string>)

  predicate Recalculates(p: Project) {
    && p.classification.Some? && p.state !in RECALC_FROZEN && !NonEmpty(p.registrationNumber)
    && p.classification.value.provisional
  }

  function Recalculated(p: Project, version: string, d: TierDecision, now: int): Project
    requires p.classification.Some?
  {
    var c := p.classification.value;
    p.(classification := Some(Classification(d.tier, d.provisional, version,
                                             if d.clause.Some? then [d.clause.value] else c.evidence)),
       policyStale := false, updatedAt := now)
  }

  predicate TierChanged(p: Project, d: TierDecision)
    requires p.classification.Some?
  {
    d.tier != p.classification.value.tier || d.provisional != p.classification.value.provisional
  }

  function RecalcTier(w: Workspace, version: string, d: TierDecision, env: Env): Outcome {
    if Recalculates(w.project) then Fine(w.(project := Recalculated(w.project, version, d, env.now))) else Fine(w)
  }

  function MarkStale(w: Workspace, env: Env): Outcome {
    Fine(w.(project := w.project.(policyStale := true, updatedAt := env.now)))
  }
}
