/** The documents the product stores, reduced to the fields its decisions read. */
module Entities {

  datatype Option<+T> = None | Some(value: T)

  datatype Error = NotFound | Forbidden | Conflict | GateBlocked | StateInvalid | ValidationFailed

  datatype Result<+T> = Ok(value: T) | Err(error: Error)

  datatype ProjectState =
    | DRAFT | INTAKE_DONE | FORM_JUDGED | CLASSIFIED | ROADMAP_CONFIRMED
    | COLLECTING_MATERIALS | REVIEW_RUNNING | REVISION_LOOP | GATE_D3_PASSED
    | FORM_FROZEN | INSTITUTION_REVIEW | INSTITUTION_RETURNED
    | READY_FOR_EXTERNAL_FILING | FILED | PRODUCTION
    | NEEDS_HUMAN_FORMTYPE | NEEDS_HUMAN_SUBJECT
    | EXIT_NON_DRAMA | EXIT_T2 | EXIT_T3 | EXIT_SISTER_PATH

  datatype Tier = T1 | T2 | T3 | TierUndetermined

  datatype AmountBracket = BelowLower | Between | AtOrAboveUpper | BracketUnknown

  datatype Classification = Classification(
    tier: Tier, provisional: bool, snapshotVersion: string, evidence: seq<string>)

  datatype Project = Project(
    projectId: string,
    ownerUid: string,
    title: Option<string>,
    state: ProjectState,
    bracket: AmountBracket,
    amount: Option<real>,
    classification: Option<Classification>,
    roadmapConfirmed: Option<bool>,
    registrationNumber: Option<string>,
    policyStale: bool,
    updatedAt: int)

  // ------------------------------------------------------------ facts and forms

  datatype Value = Text(text: string) | Number(number: real)

  datatype SourceType = FromAsset | FromAnswer | FromInstitution

  datatype SourceRef = SourceRef(kind: SourceType, reference: string, locator: Option<string>)

  datatype FactStatus = FactConfirmed | FactConflict | FactDeferred

  datatype Fact = Fact(
    factId: string, key: string, value: Option<Value>, source: SourceRef,
    status: FactStatus, conflictsWith: Option<string>)

  datatype FieldStatus = Filled | Pending | Conflicting | PendingInstitution

  datatype FormField = FormField(value: Option<Value>, source: Option<SourceRef>, status: FieldStatus)

  datatype FormDraft = FormDraft(
    draftId: string, formType: string, frozen: bool, fields: map<string, FormField>,
    conflicts: seq<string>, hash: Option<string>, snapshotVersion: string,
    parentDraft: Option<string>)

  // ------------------------------------------------------------------- findings

  datatype Severity = Block | CoReviewRequired | Caution | Pass | NeedsHuman

  datatype FindingStatus = Open | Accepted | Rejected | SelfFixed | Resolved | Waived

  datatype Alert = Alert(options: set<string>, chosen: Option<string>)

  datatype Finding = Finding(
    findingId: string, assetVersion: string, category: string, quote: string,
    episode: Option<nat>, scene: Option<nat>, lines: set<nat>,
    severity: Severity, alert: Option<Alert>, status: FindingStatus,
    generation: Option<nat>, active: bool)

  // ----------------------------------------------------------- tasks and records

  datatype TaskStatus = Queued | Running | Succeeded | Failed | TaskNeedsHuman

  datatype TaskType = FactExtract | ReviewFull | ReviewIncremental | Teaser | OtherTask

  datatype WorkflowTask = WorkflowTask(
    taskId: string, projectId: string, kind: TaskType, status: TaskStatus,
    idempotencyKey: string, assetVersion: string, error: Option<string>)

  datatype AuditEntry = AuditEntry(fromState: ProjectState, toState: ProjectState, reason: string)

  datatype TimelineEvent = TimelineEvent(eventId: string, event: string)

  // ------------------------------------------------------------- review sessions

  datatype ReviewState =
    Uploading | Extracting | AwaitingConfirmation | Analyzing | Complete | SessionFailed

  datatype ConfirmedDetails = ConfirmedDetails(
    title: string, tags: seq<string>, synopsis: string,
    episodeCount: nat, episodeMinutes: real, bracket: AmountBracket)

  datatype IntakeStatus = NotStarted | IntakeRunning | IntakeComplete | Partial | Unavailable

  datatype SemanticStatus = SemanticComplete | SemanticPending

  datatype ReviewSession = ReviewSession(
    reviewId: string, generation: nat, ownerUid: string, scriptMode: bool,
    state: ReviewState, projectId: string, candidates: Option<string>,
    confirmed: Option<ConfirmedDetails>, intake: IntakeStatus,
    semantic: Option<SemanticStatus>, error: Option<string>)

  /** One project's seven live collections: what an analysis stages and publishes. */
  datatype Aggregate = Aggregate(
    project: Project,
    facts: seq<Fact>,
    findings: seq<Finding>,
    forms: seq<FormDraft>,
    tasks: seq<WorkflowTask>,
    timeline: seq<TimelineEvent>,
    audit: seq<AuditEntry>)

  // ------------------------------------------------------------------------ text

  predicate Space(c: char) { c == ' ' || c == '\t' || c == '\n' || c == '\r' }

  function TrimLeft(s: string): string { if s != "" && Space(s[0]) then TrimLeft(s[1..]) else s }

  function TrimRight(s: string): string {
    if s != "" && Space(s[|s| - 1]) then TrimRight(s[..|s| - 1]) else s
  }

  function Strip(s: string): string { TrimRight(TrimLeft(s)) }

  predicate AllSpace(s: string) { forall c | c in s :: c in " \t\n\r" }

  lemma {:induction false} TrimsLeft(s: string) returns (before: string)
    ensures s == before + TrimLeft(s) && AllSpace(before)
    ensures TrimLeft(s) != "" ==> TrimLeft(s)[0] !in " \t\n\r"
  {
    before := "";
    if s != "" && Space(s[0]) {
      var rest := TrimsLeft(s[1..]);
      before := [s[0]] + rest;
      assert s == [s[0]] + s[1..];
    }
  }

  lemma {:induction false} TrimsRight(s: string) returns (after: string)
    ensures s == TrimRight(s) + after && AllSpace(after) && TrimRight(s) <= s
    ensures TrimRight(s) != "" ==> TrimRight(s)[|TrimRight(s)| - 1] !in " \t\n\r"
  {
    after := "";
    if s != "" && Space(s[|s| - 1]) {
      var n := |s| - 1;
      var rest := TrimsRight(s[..n]);
      after := rest + [s[n]];
      assert s == s[..n] + [s[n]];
    }
  }

  /** Stripping takes the white space off both ends and nothing else. */
  lemma StripExactly(s: string) returns (before: string, after: string)
    ensures s == before + Strip(s) + after && AllSpace(before) && AllSpace(after)
    ensures Strip(s) != "" ==> Strip(s)[0] !in " \t\n\r" && Strip(s)[|Strip(s)| - 1] !in " \t\n\r"
  {
    before := TrimsLeft(s);
    after := TrimsRight(TrimLeft(s));
    assert s == before + (Strip(s) + after);
  }

  function DigitOf(c: char): nat { if '0' <= c <= '9' then (c - '0') as nat else 0 }

  function DigitsValue(s: string): nat {
    if s == "" then 0 else 10 * DigitsValue(s[..|s| - 1]) + DigitOf(s[|s| - 1])
  }
}
