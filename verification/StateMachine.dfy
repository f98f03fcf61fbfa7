/** The project state table, and what any audit log that follows it must look like. */
module StateMachine {
  import opened Entities

  const REANALYZABLE: set<ProjectState> := {
    CLASSIFIED, ROADMAP_CONFIRMED, COLLECTING_MATERIALS, REVIEW_RUNNING, REVISION_LOOP,
    GATE_D3_PASSED, NEEDS_HUMAN_SUBJECT, NEEDS_HUMAN_FORMTYPE,
    EXIT_NON_DRAMA, EXIT_T2, EXIT_T3, EXIT_SISTER_PATH }

  const RESET := "review.reanalysis_reset"

  function Allowed(from: ProjectState): set<ProjectState> {
    match from
    case DRAFT => {INTAKE_DONE}
    case INTAKE_DONE => {INTAKE_DONE, FORM_JUDGED, NEEDS_HUMAN_FORMTYPE, EXIT_NON_DRAMA, EXIT_SISTER_PATH}
    case FORM_JUDGED => {CLASSIFIED, NEEDS_HUMAN_SUBJECT, NEEDS_HUMAN_FORMTYPE, EXIT_T2, EXIT_T3, EXIT_NON_DRAMA, EXIT_SISTER_PATH}
    case CLASSIFIED => {CLASSIFIED, ROADMAP_CONFIRMED, INTAKE_DONE, NEEDS_HUMAN_SUBJECT, EXIT_T2, EXIT_T3}
    case ROADMAP_CONFIRMED => {COLLECTING_MATERIALS, CLASSIFIED}
    case COLLECTING_MATERIALS => {COLLECTING_MATERIALS, REVIEW_RUNNING, CLASSIFIED}
    case REVIEW_RUNNING => {REVISION_LOOP, GATE_D3_PASSED, COLLECTING_MATERIALS, CLASSIFIED}
    case REVISION_LOOP => {REVIEW_RUNNING, REVISION_LOOP, GATE_D3_PASSED, CLASSIFIED}
    case GATE_D3_PASSED => {FORM_FROZEN, REVISION_LOOP}
    case FORM_FROZEN => {INSTITUTION_REVIEW, REVISION_LOOP}
    case INSTITUTION_REVIEW => {READY_FOR_EXTERNAL_FILING, INSTITUTION_RETURNED, INSTITUTION_REVIEW}
    case INSTITUTION_RETURNED => {REVISION_LOOP, COLLECTING_MATERIALS}
    case READY_FOR_EXTERNAL_FILING => {FILED}
    case FILED => {PRODUCTION}
    case PRODUCTION => {}
    case NEEDS_HUMAN_FORMTYPE => {FORM_JUDGED, EXIT_NON_DRAMA, EXIT_SISTER_PATH, INTAKE_DONE}
    case NEEDS_HUMAN_SUBJECT => {CLASSIFIED, EXIT_T2, EXIT_T3}
    case EXIT_NON_DRAMA => {}
    case EXIT_T2 => {}
    case EXIT_T3 => {}
    case EXIT_SISTER_PATH => {}
  }

  /** The table read from its other end: the states each state is entered from. */
  function EnteredFrom(to: ProjectState): set<ProjectState> {
    match to
    case DRAFT => {}
    case INTAKE_DONE => {DRAFT, INTAKE_DONE, CLASSIFIED, NEEDS_HUMAN_FORMTYPE}
    case FORM_JUDGED => {INTAKE_DONE, NEEDS_HUMAN_FORMTYPE}
    case CLASSIFIED => {FORM_JUDGED, NEEDS_HUMAN_SUBJECT, CLASSIFIED, ROADMAP_CONFIRMED, COLLECTING_MATERIALS, REVIEW_RUNNING, REVISION_LOOP}
    case NEEDS_HUMAN_FORMTYPE => {INTAKE_DONE, FORM_JUDGED}
    case NEEDS_HUMAN_SUBJECT => {FORM_JUDGED, CLASSIFIED}
    case ROADMAP_CONFIRMED => {CLASSIFIED}
    case COLLECTING_MATERIALS => {ROADMAP_CONFIRMED, COLLECTING_MATERIALS, REVIEW_RUNNING, INSTITUTION_RETURNED}
    case REVIEW_RUNNING => {COLLECTING_MATERIALS, REVISION_LOOP}
    case REVISION_LOOP => {REVIEW_RUNNING, REVISION_LOOP, GATE_D3_PASSED, FORM_FROZEN, INSTITUTION_RETURNED}
    case GATE_D3_PASSED => {REVIEW_RUNNING, REVISION_LOOP}
    case FORM_FROZEN => {GATE_D3_PASSED}
    case INSTITUTION_REVIEW => {FORM_FROZEN, INSTITUTION_REVIEW}
    case INSTITUTION_RETURNED => {INSTITUTION_REVIEW}
    case READY_FOR_EXTERNAL_FILING => {INSTITUTION_REVIEW}
    case FILED => {READY_FOR_EXTERNAL_FILING}
    case PRODUCTION => {FILED}
    case EXIT_NON_DRAMA => {INTAKE_DONE, FORM_JUDGED, NEEDS_HUMAN_FORMTYPE}
    case EXIT_SISTER_PATH => {INTAKE_DONE, FORM_JUDGED, NEEDS_HUMAN_FORMTYPE}
    case EXIT_T2 => {FORM_JUDGED, CLASSIFIED, NEEDS_HUMAN_SUBJECT}
    case EXIT_T3 => {FORM_JUDGED, CLASSIFIED, NEEDS_HUMAN_SUBJECT}
  }

  /** Before the materials are collected; the other states' rows are read apart. */
  predicate EarlyRow(s: ProjectState) {
    || s.DRAFT? || s.INTAKE_DONE? || s.FORM_JUDGED? || s.CLASSIFIED? || s.ROADMAP_CONFIRMED?
    || s.NEEDS_HUMAN_FORMTYPE? || s.NEEDS_HUMAN_SUBJECT?
  }

  lemma EarlyRows(from: ProjectState, to: ProjectState)
    requires EarlyRow(from)
    ensures to in Allowed(from) <==> from in EnteredFrom(to)
  {
  }

  lemma LateRows(from: ProjectState, to: ProjectState)
    requires !EarlyRow(from)
    ensures to in Allowed(from) <==> from in EnteredFrom(to)
  {
  }

  /** Both readings are one table, and nothing leaves a terminal state. */
  lemma TableBothWays(from: ProjectState, to: ProjectState)
    ensures to in Allowed(from) <==> from in EnteredFrom(to)
    ensures Terminal(from) ==> to !in Allowed(from)
  {
    if EarlyRow(from) { EarlyRows(from, to); } else { LateRows(from, to); }
  }

  predicate Terminal(s: ProjectState) { s.EXIT_NON_DRAMA? || s.EXIT_T2? || s.EXIT_T3? || s.EXIT_SISTER_PATH? }

  /** A recorded step: an edge of the table, or the reanalysis reset. */
  predicate Edge(e: AuditEntry) {
    || e.toState in Allowed(e.fromState)
    || (e.reason == RESET && e.toState == DRAFT && e.fromState in REANALYZABLE)
  }

  function StateAfter(audit: seq<AuditEntry>): ProjectState {
    if audit == [] then DRAFT else audit[|audit| - 1].toState
  }

  /** A connected walk from DRAFT. */
  ghost predicate Path(audit: seq<AuditEntry>) {
    audit == [] || (
      var n := |audit| - 1;
      Path(audit[..n]) && Edge(audit[n]) && audit[n].fromState == StateAfter(audit[..n]))
  }

  lemma PathExtends(audit: seq<AuditEntry>, e: AuditEntry)
    requires Path(audit) && Edge(e) && e.fromState == StateAfter(audit)
    ensures Path(audit + [e]) && StateAfter(audit + [e]) == e.toState
  {
    assert (audit + [e])[..|audit|] == audit;
  }

  lemma EdgeExactly(e: AuditEntry)
    ensures Edge(e) <==>
            || e.fromState in EnteredFrom(e.toState)
            || (e.reason == "review.reanalysis_reset" && e.toState == DRAFT
                && e.fromState !in {DRAFT, INTAKE_DONE, FORM_JUDGED, FORM_FROZEN, INSTITUTION_REVIEW, INSTITUTION_RETURNED,
                                    READY_FOR_EXTERNAL_FILING, FILED, PRODUCTION})
  {
    TableBothWays(e.fromState, e.toState);
  }

  /** Every entry of a path is a legal edge leaving the state the one before it entered. */
  lemma {:induction false} PathEntry(audit: seq<AuditEntry>, i: nat)
    requires Path(audit) && i < |audit|
    ensures Edge(audit[i])
    ensures audit[i].fromState in EnteredFrom(audit[i].toState)
            || (audit[i].reason == "review.reanalysis_reset" && audit[i].toState == DRAFT
                && audit[i].fromState !in {DRAFT, INTAKE_DONE, FORM_JUDGED, FORM_FROZEN, INSTITUTION_REVIEW, INSTITUTION_RETURNED,
                                           READY_FOR_EXTERNAL_FILING, FILED, PRODUCTION})
    ensures audit[i].fromState == (if i == 0 then DRAFT else audit[i - 1].toState)
    decreases |audit|
  {
    EdgeExactly(audit[i]);
    var before := audit[..|audit| - 1];
    if i < |before| {
      PathEntry(before, i);
    }
  }

  ghost predicate InReview(audit: seq<AuditEntry>, from: nat, to: nat)
    requires to <= |audit|
  {
    forall i | from <= i < to :: audit[i].toState == INSTITUTION_REVIEW
  }

  /** The only ways into the last five states of a filing. */
  lemma WaysIn(e: AuditEntry)
    requires Edge(e)
    ensures e.toState == INSTITUTION_REVIEW ==> e.fromState == FORM_FROZEN || e.fromState == INSTITUTION_REVIEW
    ensures e.toState == FORM_FROZEN ==> e.fromState == GATE_D3_PASSED
    ensures e.toState == READY_FOR_EXTERNAL_FILING ==> e.fromState == INSTITUTION_REVIEW
    ensures e.toState == FILED ==> e.fromState == READY_FOR_EXTERNAL_FILING
  {
  }

  /** What the last entry of a path says, without opening the table. */
  lemma LastStep(audit: seq<AuditEntry>) returns (before: seq<AuditEntry>, last: AuditEntry)
    requires Path(audit) && StateAfter(audit) != DRAFT
    ensures audit == before + [last] && Path(before)
    ensures last.fromState == StateAfter(before) && last.toState == StateAfter(audit)
    ensures StateAfter(audit) == INSTITUTION_REVIEW ==>
              StateAfter(before) == FORM_FROZEN || StateAfter(before) == INSTITUTION_REVIEW
    ensures StateAfter(audit) == FORM_FROZEN ==> StateAfter(before) == GATE_D3_PASSED
    ensures StateAfter(audit) == READY_FOR_EXTERNAL_FILING ==> StateAfter(before) == INSTITUTION_REVIEW
    ensures StateAfter(audit) == FILED ==> StateAfter(before) == READY_FOR_EXTERNAL_FILING
  {
    var n := |audit| - 1;
    before, last := audit[..n], audit[n];
    WaysIn(last);
  }

  /** A frozen form was frozen straight after the gate. */
  lemma FrozenHistory(audit: seq<AuditEntry>)
    requires Path(audit) && StateAfter(audit) == FORM_FROZEN
    ensures |audit| >= 2 && audit[|audit| - 2].toState == GATE_D3_PASSED
  {
    var before, last := LastStep(audit);
    assert before != [];
    assert audit[|audit| - 2] == before[|before| - 1];
  }

  /** Before an institution's verdict: gate, freeze, then one or more submissions, back to back. */
  lemma {:induction false} SubmittedHistory(audit: seq<AuditEntry>) returns (gate: nat)
    requires Path(audit) && StateAfter(audit) == INSTITUTION_REVIEW
    ensures Submitted(audit, gate)
    decreases |audit|
  {
    var before, last := LastStep(audit);
    if StateAfter(before) == INSTITUTION_REVIEW {
      gate := SubmittedHistory(before);
      SubmittedAgain(before, last, gate);
    } else {
      FrozenHistory(before);
      gate := |before| - 2;
      FirstSubmission(before, last);
    }
  }

  ghost predicate Submitted(audit: seq<AuditEntry>, gate: nat) {
    && gate + 2 < |audit|
    && audit[gate].toState == GATE_D3_PASSED && audit[gate + 1].toState == FORM_FROZEN
    && InReview(audit, gate + 2, |audit|)
  }

  lemma SubmittedAgain(before: seq<AuditEntry>, last: AuditEntry, gate: nat)
    requires Submitted(before, gate) && last.toState == INSTITUTION_REVIEW
    ensures Submitted(before + [last], gate)
  {
  }

  lemma FirstSubmission(before: seq<AuditEntry>, last: AuditEntry)
    requires |before| >= 2 && before[|before| - 2].toState == GATE_D3_PASSED
    requires before[|before| - 1].toState == FORM_FROZEN && last.toState == INSTITUTION_REVIEW
    ensures Submitted(before + [last], |before| - 2)
  {
  }

  /**
   A filed project's log ends, with no reset in between, in: gate passed, form
   frozen, one or more submissions, accepted, filed.
   */
  ghost predicate FiledAfter(audit: seq<AuditEntry>, gate: nat) {
    && gate < |audit| && audit[gate].toState == GATE_D3_PASSED
    && |audit| >= 2 && Submitted(audit[..|audit| - 2], gate)
    && audit[|audit| - 2].toState == READY_FOR_EXTERNAL_FILING && audit[|audit| - 1].toState == FILED
    && forall i | gate <= i < |audit| :: audit[i].toState != DRAFT
  }

  lemma FiledHistory(audit: seq<AuditEntry>) returns (gate: nat)
    requires Path(audit) && StateAfter(audit) == FILED
    ensures FiledAfter(audit, gate)
  {
    var accepted, filing := LastStep(audit);
    var before, acceptance := LastStep(accepted);
    gate := SubmittedHistory(before);
    assert audit == before + [acceptance, filing];
    assert before == audit[..|audit| - 2];
    assert forall i | gate + 2 <= i < |before| :: before[i].toState == INSTITUTION_REVIEW;
  }
}
