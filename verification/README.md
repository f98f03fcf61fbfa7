# Shared state of the filing product, verified

A Dafny 4.11 model of the parts of the product that keep shared state consistent, with
proofs over whole runs. `dafny verify dfyconfig.toml` checks it.

- **Review generation** (`MemoryStore`, `InMemoryStores`, `ReviewProtocol`, `ReviewFacade`,
  `StagedAnalysis`, `StagedResults`, `Conclusions`, `Generations`, `SecondReview`, `Ownership`,
  `IntakeRetry`, `ReviewedHistory`). A client stages a copy of a project,
  claims the session by compare-and-put on state and generation, analyses the copy, and
  publishes only if the session is still its own and all seven live collections still equal
  what it staged; otherwise it restores or fails. The protocol is a transition system with
  any number of clients, ordinary writers, retries and crashes; the facade's calls are
  imperative and shown to be sequences of its steps. `StagedAnalysis` is the analysis the
  service runs, made of the workflow's own calls and the review job; `Generations` runs the
  protocol with it, and `ReviewedHistory` carries the history of a filed project over it.
  `SecondReview` joins a confirmation with the reanalysis that may follow it, and `Ownership`
  and `IntakeRetry` say who may move a session and that a retried intake is single-flight.
- **Two stores** (`SqliteTable`, `SqliteRefinement`, `SqliteStores`). Rows with a monotonic
  ordinal refine insertion-ordered sequences and the memory store's key index, operation by
  operation and run by run, rollback included.
- **The workflow** (`StateMachine`, `GateAndForms`, `Findings`, `Workflow`,
  `WorkflowService`, `WorkflowRuns`, `WorkflowHistory`, `GatePassing`, `Decisions`, `FormFields`,
  `Outcomes`, `Filing`, `Walkthrough`). Each service call is a function giving what it wrote and what it raised,
  writes before a raise included; the class `WorkflowService` makes the same writes one at a
  time, finds and leaves the invariant of the runs and distinct finding ids in every call, and
  says what each call is for; histories are proved over any run of calls. `Decisions` and
  `Outcomes` give every call's errors and writes in the caller's terms.
- **The policy loop** (`Snapshots`, `Tiers`, `Publication`, `Refresh`, `Consumer`,
  `PolicyReach`, `PolicyConsumer`, `PolicyWorkers`). Publishing with reads and commits interleaved, refreshing a source, and
  delivering an event that may be cut off after any repository call.
- **Jobs and review kernels** (`Jobs`, `JobWorker`, `Scenes`, `ScriptReview`).

What comes from outside is a parameter: the clock, new ids (fresh where a caller relies on
it), the classification chain's answer, the script and what its review proposes, a model's
hits, what each heading pattern says of a line, the hash of a form (one function of form
type, snapshot version and fields), the hash of a fetched page.

Five properties a reader might expect fail. Each is stated exactly, with an input that shows it:

- A confirmed empty text passes the gate and cannot be rendered (`BuildableExactly`,
  `GatePassesButFormRaises`). The service's own calls do not store one: `confirm_form_field`
  refuses blanks, which the model does too, while non-blank titles and extracted values are
  what the request schemas and the extraction check, so runs take them as given
  (`WorkflowRuns.Legal`, `WorkflowRuns.ChainAnswer`).
- Saving a task the memory store has never seen leaves its key index behind
  (`SaveIndexExactly`), and then the two stores can be told apart (`SaveOfUnseenTellsThemApart`).
- A finished task record can be replaced by another terminal one when a worker raises outside
  the work: it stands for good exactly while no worker may still write it
  (`RecordStandsExactly`, `SuccessOverwritten`, `FailureOverwritten`). That a finished task
  stays finished holds always (`TerminalStays`).
- Fractional thresholds pass validation out of order (`BracketsAgreeExactly`,
  `FractionsSlipThrough`).
- A finding is doubled by a proposal that repeats a key whose quote the document lost
  (`UniqueExactly`, `UnquotedProposalDoubles`); the script review proposes none (`ProposalsQuote`).
  A reanalysis of an older script doubles one that was carried to a newer upload
  (`GenerationUniqueExactly`, `ReanalysisOfOlderDoubles`).

Comments in the consumer's live adapter call a repeated delivery harmless; it is, except that
a recalculation effect may appear for a tier that did not change, which is why
`CrashesDoNotMatter` says superset.

## Model

| member | source | states |
|---|---|---|
| `ReviewProtocol.Serializable` | core/review_facade.py:320-412 | In every interleaving of reviews, retries, crashes and ordinary writes, every project's aggregate equals a one-by-one replay of the committed events, each published analysis run atomically on the aggregate it meets: no write is lost |
| `ReviewProtocol.PublishIsAtomicAnalysis` | store/memory.py:546-609 | A publish leaves the project equal to the analysis of the aggregate live at that moment, no other project moves, and only the claimed session changes |
| `ReviewProtocol.RefusedExactlyOnChange` | store/memory.py:546-580 | A finished analysis is published if and only if the live aggregate still equals the staged one; each (session, generation) publishes at most once; a refusal writes nothing |
| `ReviewProtocol.ReachableSessions` | core/review_facade.py:232-256 | In every reachable world a generation counts the claims won, early states have generation 0, a COMPLETE session shows the details of its last publication, an ANALYZING generation is unpublished |
| `ReviewProtocol.OnlyTheClaimantMoves` | core/review_facade.py:385-411 | While a session is ANALYZING at generation g, exactly one client holds (session, g) and only its steps can change the session |
| `ReviewProtocol.NobodyMoves` | core/review_facade.py:103-204 | Starting sessions, creating projects and ordinary writes leave an ANALYZING session alone |
| `ReviewProtocol.FailedIsAbsorbing` | core/review_facade.py:398-411 | From FAILED no run of any steps changes the session again |
| `ReviewProtocol.FailedStays` | core/review_facade.py:398-411 | No single step changes a FAILED session |
| `ReviewProtocol.RaisingChangesNothing` | core/review_facade.py:328-381 | A call whose analysis raises, or whose publish is refused or invalid, leaves every store and the event log as they were: the session is ANALYZING under its claim still, and this client is the only one that holds it |
| `ReviewProtocol.RefusedReanalysisRestores` | core/review_facade.py:385-395 | A refused reanalysis returns the session to COMPLETE with the details of its last publication and the bumped generation, and changes nothing else |
| `ReviewProtocol.LateFailureIsHarmless` | core/review_facade.py:398-411 | A failure handler whose claim is out of date changes no session |
| `ReviewProtocol.StepKeepsInv` | core/review_facade.py:209-464 | Every step of any client keeps the protocol invariant behind the theorems above |
| `ReviewProtocol.OrdinaryListWrites` | store/memory.py:89-123 | Adding a fact, event or audit entry and saving a finding or draft are single-project writes, as the interleaving assumes |
| `ReviewProtocol.OrdinaryProjectWrite` | store/memory.py:48-50 | Saving a project changes that project's aggregate only |
| `ReviewProtocol.OrdinaryTaskWrite` | store/memory.py:166-199 | Saving a task changes its own project's tasks only |
| `Generations.EveryReanalysisConcludesAfresh` | core/review_facade.py:320-412 | In every interleaving, when a reanalysis claimed as generation g publishes: the current script findings on its script are exactly those of generation g and say what its review proposed, one per category and quote; every earlier script finding is still stored in place, inactive on that script and otherwise unchanged; at most one alert is active and it is generation g's; one task was added under generation g's own key, so the review ran and was not replayed |
| `Generations.ReviewsKeepTheWorkflow` | core/review_facade.py:328-381 | In every interleaving with whole service calls, every reviewed project's audit log is a path of the state table ending in its state, its drafts are chained and sealed and its asset rule holds, published analyses and their resets included |
| `Generations.PublishConcludes` | core/review_facade.py:366-381 | From any world of the invariant, the publish of a forced claim concludes afresh on the aggregate that was live, and the claim's generation counts the claims won |
| `Generations.UndisturbedReanalysisConcludes` | core/review_facade.py:257-412 | Left alone, a reanalysis of a completed review whose project was judged and has no frozen form publishes: the session ends COMPLETE one generation on and the project is concluded afresh under that generation |
| `SecondReview.ConfirmedMayBeReanalysed` | core/review_facade.py:209-309 | Confirm, then reanalyse: left alone, a confirmation that goes through publishes and leaves the project in the state the chain answered with, whichever that is; and a following reanalysis with other details, nothing being asked of the state, publishes one generation on and concludes afresh |
| `SecondReview.FirstReviewGoesThroughExactly` | core/review_facade.py:328-366 | The first review of a project in DRAFT raises nowhere if and only if the chain asks nothing back and the review job does not raise |
| `SecondReview.EndsAsAnswered` | core/review_facade.py:328-366 | Neither the script review nor the form draft moves an analysed project on from the state the chain answered with |
| `SecondReview.AnsweredAsItIs` | core/review_facade.py:209-309 | What the owner is told without an analysis: a repeated confirmation and a reanalysis with the stored details are answered as done, a request on a review or project that is not ready for it is refused, and nothing is written |
| `Ownership.StrangersMoveNothing` | core/review_facade.py:209-300 | In any run in which every request on a started, unattended review comes from somebody else than its owner, the session never changes: not claimed, retried, published or failed |
| `Ownership.StrangerIsRefused` | core/review_facade.py:209-300 | Somebody else is answered FORBIDDEN, an unknown review NOT_FOUND, and the store is as it was |
| `StagedResults.ReplayedReview` | core/workflow_service.py:1657-1716 | A review whose key is held is not run again: the analysis goes on without it, or stops if the one recorded had failed |
| `IntakeRetry.OneRetryEach` | core/review_facade.py:414-466 | In every run at most one client is retrying a review's intake, and until it is done the session is EXTRACTING exactly as that client claimed it |
| `IntakeRetry.RetriesAreSingleFlight` | core/review_facade.py:414-466 | Every step of any client, start or write keeps that |
| `IntakeRetry.RetryEnds` | core/review_facade.py:438-466 | So the retrying client's own last write always lands: what was read is stored and the session waits again, or the session fails |
| `Ownership.UndisturbedRetry` | core/review_facade.py:414-466 | The owner, and nobody else, may retry the reading of a script waiting for confirmation after a missing or partial intake; left alone the session passes through EXTRACTING and waits again with what was read, its generation unmoved |
| `StagedResults.AnalysisDraftsForm` | core/review_facade.py:352-366 | An analysis leaves a draft of the pinned pack's required fields over its own facts, in which the applicant is answered, disputed or left to the filing institution, never just missing |
| `StagedResults.ReviewIsRecorded` | core/workflow_service.py:695-746 | A script review that ran adds one task: full if no other script was reviewed before, else incremental, keyed by project, kind and script, and by the generation when forced, with the verdict it ended in |
| `ReviewedHistory.FiledThroughReviews` | core/review_facade.py:320-412 | In any interleaving, a FILED project whose other writes are service calls passed an open gate on what was stored after its last reset, then froze, submitted, was accepted and carries a number, published analyses included |
| `ReviewedHistory.LogIsRun` | core/review_facade.py:320-412 | Whatever the committed events of a project replay to was reached by one legal run of workflow calls from a new project |
| `ReviewedHistory.AnalysisIsRun` | core/review_facade.py:328-366 | A staged analysis that goes through continues a run of calls by calls of its own, and leaves cards and institution reviews as they were |
| `Generations.StepKeepsGenInv` | core/review_facade.py:209-464 | Every step keeps, for each project, that findings and task keys are numbered below the first unused generation, and that each session stays on its own project |
| `Generations.OrdinaryCallIsOrderly` | core/workflow_service.py:211-2421 | Every other service call is a write of the kind the two run theorems admit |
| `Generations.EachWriteIsOrderly` | core/workflow_service.py:2261-2421 | So is each single write such a call makes (a finding without a new generation, a task under its own key, the project, any other collection), so the fresh-conclusion theorem lets a review land between any two of them |
| `StagedAnalysis.StagedKeepsInv` | core/review_facade.py:328-366 | The staged analysis (reset, confirmed details, classification, review job, draft, deferral) keeps the workflow invariant and undoes no fact, audit entry or frozen draft |
| `StagedAnalysis.ResetComesFirst` | core/workflow_service.py:294-343 | A forced analysis goes through only on a project that was judged and has no frozen form, and its log continues the old one with the reset entry |
| `Conclusions.ReanalysisIsFresh` | core/workflow_service.py:742-840 | The whole staged reanalysis, from a numbered copy, ends in a fresh conclusion of its generation |
| `Conclusions.ReanalysisGoesThroughExactly` | core/review_facade.py:328-366 | A staged reanalysis raises nowhere if and only if the project is past DRAFT, INTAKE_DONE and FORM_JUDGED and has no frozen form, the chain asks nothing back and the review job does not raise: the table allows every later transition, the draft can always be built, and the applicant can always be deferred |
| `Conclusions.StagedKeepsNumbers` | core/workflow_service.py:637-840 | An analysis under generation g keeps finding and task ids distinct and leaves every number and key below g + 1 |
| `Conclusions.SaysProposals` | core/workflow_service.py:799-825 | The current findings on the script are the proposals: each has one, none is extra, no two share category and quote |
| `Conclusions.EarlierStay` | core/workflow_service.py:783-797 | Every earlier script finding keeps its place and content; on the script it becomes inactive |
| `Conclusions.OneAlertLeft` | core/workflow_service.py:2261-2311 | After an analysis at most one classification alert is active, and it is of its generation |
| `Conclusions.JobKeepsTasks` | core/workflow_service.py:695-746 | The review job keeps task ids and keys in order, and under a forced generation it always runs |
| `Conclusions.OrdinaryCallKeeps` | core/workflow_service.py:211-2421 | Every other call keeps ids distinct, numbers below the first unused generation, and the workflow invariant |
| `Facade.CallIsSteps` | core/review_facade.py:209-412 | A confirm or reanalyze that runs alone leaves the store its protocol steps (open, stage, claim, finish, restore, fail) leave |
| `Facade.UndisturbedCallPublishes` | core/review_facade.py:209-381 | Undisturbed, a call whose analysis yields a result ends COMPLETE one generation on with the requested details, and the project holds the analysis of what it held at the start |
| `Facade.UndisturbedFailure` | core/review_facade.py:398-412 | Undisturbed, an analysis that raises ends in FAILED and touches nothing but the session |
| `Facade.ReviewFacade.Confirm` | core/review_facade.py:209-255 | The imperative confirm computes the specified call (checks in order, stage, claim by compare-and-put, analyse; a repeated confirmation is answered from the store) and leaves the task store and its key index in order |
| `Facade.ReviewFacade.Reanalyze` | core/review_facade.py:257-309 | The imperative reanalyze computes the forced call, whose answers `SecondReview.AnsweredAsItIs` and `SecondReview.ConfirmedMayBeReanalysed` give, and leaves the task store in order |
| `Facade.ReviewFacade.AnalyzeClaimed` | core/review_facade.py:320-412 | Publishes, or restores then fails, or fails, in the order and under the guards of the claimed analysis, leaving the task store in order |
| `Facade.UnchangedMints` | core/review_facade.py:320-360 | What the three calls ask of an analysis, namely ids unused elsewhere, is met by one that returns its copy, so the condition excludes no analysis that mints new ids |
| `MemoryStore.PublishAnswers` | store/memory.py:546-580 | A publish raises if and only if the bundle is not of one project, one session and the next generation; else it is refused if and only if the session is not ANALYZING under that generation or a live collection differs from the baseline; only a publish that is neither writes |
| `MemoryStore.PublishEffect` | store/memory.py:546-609 | After a successful publish the project's seven collections are the bundle's and every other project's are unchanged |
| `MemoryStore.SaveIndexExactly` | store/memory.py:166-168 | Saving a task without touching the key index keeps it a first-match scan if and only if the save meets the stated condition; a save of an unseen task with a new key breaks it |
| `MemoryStore.IndexAfterPublish` | store/memory.py:591-603 | After a publish removes and reinserts a project's tasks the key index is again a first-match scan |
| `MemoryStore.IndexAdd` | store/memory.py:161-164 | Adding a task with setdefault on its key keeps the index a first-match scan |
| `MemoryStore.IndexRemove` | store/memory.py:591-596 | Removing one project's tasks and the index entries pointing at them keeps the index right |
| `MemoryStore.PublishKeepsOrder` | store/memory.py:585-603 | A publish keeps one record per id, keys that name their project, and the index a first-match scan |
| `MemoryStore.SaveKeepsOrder` | store/memory.py:166-168 | A save keeps the task store in order if and only if it keeps the index |
| `InMemory.InMemoryStores.ComparePut` | store/memory.py:68-86 | Swaps exactly when state and expected generation match, and changes one session only |
| `InMemory.InMemoryStores.PutFormDraft` | store/memory.py:230-237 | Replaces the draft of that id in place or appends |
| `InMemory.InMemoryStores.SaveTask` | store/memory.py:166-168 | Stores the task without touching the index; the store stays in order if and only if the save meets the stated condition |
| `InMemory.InMemoryStores.FindByIdempotencyKey` | store/memory.py:176-178 | The index answers with the first task carrying the key |
| `InMemory.InMemoryStores.GetOrCreateByIdempotencyKey` | store/memory.py:180-187 | Returns the first holder of the key or stores the candidate, never both |
| `InMemory.InMemoryStores.ClaimQueuedTask` | store/memory.py:189-199 | Moves a QUEUED task to RUNNING and nothing else; any other status is refused |
| `InMemory.InMemoryStores.StageReviewAnalysis` | store/memory.py:472-525 | Copies the session and exactly the project's own collections, in order |
| `InMemory.InMemoryStores.PublishReviewAnalysis` | store/memory.py:546-609 | Validates, compares session and all seven live collections with the baseline, then replaces them; the key index is valid again afterwards |
| `SqliteRefinement.RunSimulates` | store/sqlite.py:80-213 | For any legal sequence of operations from related states, the SQL store answers exactly as the memory store with its own key index; the relation keeps that index a first-match scan |
| `SqliteRefinement.StepSimulates` | store/sqlite.py:80-213 | Every put, append, get, list, list_all, compare-and-put, get-or-create through the index, claim and publish gives equal answers and related states |
| `SqliteRefinement.EmptyStoresRelated` | store/sqlite.py:80-130 | Freshly created stores are related |
| `SqliteRefinement.PublishSim` | store/sqlite.py:738-839 | The transaction of deletes and inserts is the in-memory whole-aggregate publish, including what it refuses |
| `SqliteRefinement.PublishableSim` | store/sqlite.py:738-807 | The SQL comparison of live rows with the baseline decides exactly as the memory comparison |
| `SqliteRefinement.ComparePutSim` | store/sqlite.py:248-285 | The transactional compare-and-put wins exactly when the memory one does |
| `SqliteRefinement.GetOrCreateSim` | store/sqlite.py:382-404 | Get-or-create answers with the same task as the memory store's index does |
| `SqliteRefinement.ClaimSim` | store/sqlite.py:406-433 | Claims succeed on the same tasks |
| `SqliteRefinement.SlashInParentCollides` | store/sqlite.py:143-144 | With a slash in a project id two projects share a row key: why parents without "/" are required |
| `SqliteRefinement.SaveOfUnseenTellsThemApart` | store/memory.py:166-187 | Outside the legal runs: a task saved without being added, then a get-or-create of its key, is answered differently by the two stores, for all such pairs of tasks |
| `SqliteTable.ScanIsOrderBy` | store/sqlite.py:192-205 | The listing is the matching rows in strictly increasing ordinal order, each once |
| `SqliteTable.PutView` | store/sqlite.py:146-165 | A put replaces in place, keeping the ordinal, or goes last; no other list changes |
| `SqliteTable.AppendView` | store/sqlite.py:167-183 | An append goes last in its own list; no other list changes |
| `SqliteTable.GetView` | store/sqlite.py:185-190 | A lookup by key finds what the list holds under that id |
| `SqliteTable.KeyInjective` | store/sqlite.py:143-144 | Row keys determine parent and id when parents carry no "/" |
| `Sqlite.SqliteStores.NextOrdinal` | store/sqlite.py:112-128 | Hands out an ordinal above every stored one and leaves the table in order |
| `Sqlite.SqliteStores.Put` | store/sqlite.py:146-165 | Upserts one row, keeping an existing ordinal |
| `Sqlite.SqliteStores.Append` | store/sqlite.py:167-183 | Inserts one row under the next ordinal |
| `Sqlite.SqliteStores.ComparePut` | store/sqlite.py:248-285 | Begin, read, then update and commit or roll back |
| `Sqlite.SqliteStores.GetOrCreateByIdempotencyKey` | store/sqlite.py:382-404 | One transaction around lookup and insert |
| `Sqlite.SqliteStores.ClaimQueuedTask` | store/sqlite.py:406-433 | One transaction around read and update |
| `Sqlite.SqliteStores.PublishReviewAnalysis` | store/sqlite.py:738-839 | Publishes, refuses, or on an engine error rolls back: a raised publish leaves rows and counter as they were |
| `StateMachine.TableBothWays` | core/state_machine.py:24-82 | The table of what each state leads to and the table of what each state is entered from are one relation, and nothing leaves a terminal state |
| `StateMachine.FiledHistory` | core/state_machine.py:24-82 | Any audit path ending FILED ends, with no reset between, in: gate passed, form frozen, one or more submissions, accepted, filed |
| `StateMachine.SubmittedHistory` | core/state_machine.py:24-82 | Any audit path ending in INSTITUTION_REVIEW ends in gate, freeze, then submissions back to back |
| `StateMachine.PathEntry` | core/state_machine.py:108-150 | Every audit entry is an edge of the table, or the reanalysis reset of a judged project not under filing to DRAFT, and leaves the state the entry before it entered |
| `WorkflowRuns.StepKeeps` | core/workflow_service.py:211-2421 | Every service call, raised or not, keeps: audit path to the current state, draft chain, latest draft frozen exactly in filing states, number on FILED, asset rule; and undoes no fact, audit entry or frozen draft |
| `WorkflowRuns.FindingIdsKeep` | core/workflow_service.py:742-905 | No call gives two findings one id |
| `WorkflowHistory.FiledProject` | core/workflow_service.py:909-930 | For every run from creation that ends FILED: since the last reset the gate was passed by a call that found nothing open, missing, conflicting or unvalidated in what was stored, then froze, submitted, accepted; and it carries a number |
| `WorkflowHistory.DraftChain` | core/workflow_service.py:932-1090 | After every run: each draft names its predecessor, all but possibly the last are frozen, a frozen draft's hash is that of its own content, its content is complete and backed by confirmed facts, and there is a latest draft that is frozen exactly while the project is in filing; with no draft it is not in filing |
| `WorkflowHistory.NothingIsUndone` | core/workflow_service.py:1373-1433 | Between any two moments of a run no stored fact, audit entry or frozen draft changes |
| `WorkflowHistory.AssetPrecedence` | core/workflow_service.py:2361-2385 | After every run, whenever the gate is open each required key an asset backs is rendered with that asset's value and source |
| `WorkflowHistory.GateEntryIsOpen` | core/workflow_service.py:2395-2417 | Whichever call enters GATE_D3_PASSED, the stored findings, facts and cards satisfy the gate |
| `WorkflowHistory.OnlyPassGate` | core/workflow_service.py:909-930 | No call but pass_gate ever records a passed gate |
| `WorkflowHistory.WrittenBy` | core/workflow_service.py:2387-2421 | Every audit entry was written by one identifiable call of the run |
| `WorkflowRuns.FreezeFormKeeps` | core/workflow_service.py:1045-1090 | Storing the frozen draft before moving the state still leaves them in step |
| `WorkflowRuns.ResumeKeeps` | core/workflow_service.py:1373-1433 | A returned project leaves filing and gains exactly one unfrozen successor naming the frozen draft, in one call |
| `WorkflowRuns.DeferFieldKeeps` | core/workflow_service.py:991-1043 | Deferring keeps the invariant, the asset rule included |
| `WorkflowRuns.ConfirmFieldKeeps` | core/workflow_service.py:955-989 | Confirming a field keeps the invariant, partial writes included |
| `WorkflowRuns.RunClassificationKeeps` | core/workflow_service.py:379-411 | Classification keeps the invariant even when its last transition raises after the save |
| `WorkflowRuns.ResetByState` | core/workflow_service.py:116-136 | In every state: the reset is accepted exactly when the project was judged (not DRAFT, INTAKE_DONE, FORM_JUDGED) and is not at or past its frozen form, and then clears class, roadmap answer, stale flag and number and logs the step to DRAFT |
| `WorkflowRuns.ResetExactly` | core/workflow_service.py:294-343 | Over the invariant of the runs: the reset is accepted exactly when the project was judged and its latest draft is not frozen |
| `WorkflowRuns.BeginReanalysisKeeps` | core/workflow_service.py:294-343 | The reset to DRAFT keeps the audit path and is never available in filing |
| `WorkflowRuns.TransitionShape` | core/state_machine.py:108-185 | A transition either changes nothing or follows a table edge, appends that edge, and needs a number to file |
| `GateAndForms.GateOpensExactly` | core/gate.py:50-113 | The gap report is empty if and only if every active finding that is a block, needs a human, or is an alert without a choice was resolved, waived or rejected; every required key has a confirmed or deferred fact; no fact conflicts; and every required card is valid or waived |
| `GateAndForms.ReportNamesFinding` | schemas/findings.py:92-107 | The report names a finding if and only if it is active, is a block, needs a human or is an undispatched alert, and was not resolved, waived or rejected |
| `GateAndForms.ReportHeadings` | core/gate.py:60-90 | Under which heading a held finding stands: open blocks by severity, alerts by the missing choice, needs-human by severity, each exactly |
| `GateAndForms.ReportNamesCard` | core/gate.py:50-113 | The report names a card if and only if it is required and neither validated nor waived |
| `GateAndForms.ReportNamesKeys` | core/gate.py:50-113 | The report names a key as missing if and only if it is required and no fact of it is confirmed or deferred, and as conflicting if and only if a fact of it is in conflict |
| `Decisions.DecisionAtGate` | core/workflow_service.py:1478-1555 | act_on_finding joined with pass_gate: after a permitted decision the report names the finding if and only if it is active, was accepted or had its alert answered while not yet released, and its severity holds the gate or it is an alert still without a choice; and then the gate is blocked |
| `Decisions.AcceptingDoesNotRelease` | core/workflow_service.py:1488-1535 | Accepting an active Block or NeedsHuman finding succeeds and leaves pass_gate blocked; resolving, or waiving or rejecting with a reason, takes it out of every gap; choosing an offered option releases a finding that blocked only as an alert |
| `Decisions.DecidedExactly` | core/workflow_service.py:1522-1555 | Which decisions are permitted (a reason for waiving and rejecting, an offered option for choosing), the status or choice each one stores, and that nothing else changes |
| `Decisions.DecisionOnNothing` | core/workflow_service.py:1478-1520 | A decision on a finding that is not stored is NOT_FOUND and writes nothing |
| `Entities.StripExactly` | core/workflow_service.py:2039-2045 | Stripping takes the white space off both ends of a reason or number and nothing else |
| `Decisions.CardAtGate` | core/workflow_service.py:1981-2061 | validate, attach and waive joined with the gate: the touched card is named exactly when it is required and was attached or found defective, and then the gate is blocked |
| `Decisions.TouchedExactly` | core/workflow_service.py:1973-2061 | Which material calls are taken: the waiver has a reason, the card is known, the attached asset exists and is of its kind; and which error each failure gives |
| `GateAndForms.GateAndFormAgree` | core/forms.py:112-128 | The built draft has nothing outstanding if and only if no required fact is missing and no required key is in conflict |
| `GateAndForms.BuildableExactly` | core/forms.py:26-78 | A draft can be built exactly when no unconflicted key's latest confirmed value is the empty text |
| `GateAndForms.GatePassesButFormRaises` | core/forms.py:26-78 | Counterexample: one confirmed empty text passes the gate while the form model refuses it |
| `GateAndForms.AssetValueIsRendered` | core/forms.py:26-78 | Under the asset rule an open gate renders the asset's own value |
| `GateAndForms.UpsertKeepsRule` | core/workflow_service.py:2361-2385 | An upsert keeps: anything stored after an asset's fact on a key leaves a conflict on record |
| `GateAndForms.DeferKeepsRule` | core/workflow_service.py:1018-1035 | A permitted deferral keeps the asset rule |
| `GateAndForms.BuildFields` | core/forms.py:26-78 | The grouping and field loops give one field per key by the conflict, confirmed, deferred, pending precedence, and the conflict keys in order, or raise |
| `GateAndForms.GroupByKey` | core/forms.py:30-36 | Groups facts by key, each group in log order |
| `GatePassing.GuardAcceptsReport` | core/workflow_service.py:909-930 | What the report over the returned cards accepts, the guard over the stored cards accepts, even if the pack repeats a card |
| `GatePassing.GuardIsReport` | core/workflow_service.py:1947-1971 | For a pack defining each card once, guard and report agree both ways |
| `GatePassing.StoredIsReturned` | core/workflow_service.py:1947-1971 | Card materialisation returns every stored card |
| `GatePassing.ReturnedIsStored` | core/workflow_service.py:1947-1971 | Without repeated ids every returned card is stored |
| `GatePassing.PassGateExactly` | core/workflow_service.py:909-930 | Passing succeeds if and only if the report is empty and the project is in REVIEW_RUNNING, REVISION_LOOP or GATE_D3_PASSED; GATE_BLOCKED if and only if the report is not empty |
| `GatePassing.PassGateMeans` | core/workflow_service.py:909-930 | A pass leaves the stored findings, facts and cards meeting the gate; a refusal moves nothing and names the gate or the state |
| `GatePassing.GateThenFreeze` | core/workflow_service.py:909-1090 | A gate just passed is followed by a freeze that succeeds |
| `FormFields.UpsertExactly` | core/workflow_service.py:2361-2385 | An upsert leaves the log alone when the key's latest fact says the value, else adds one fact: a conflict naming that fact if it came from an asset, else confirmed |
| `FormFields.FieldExactly` | core/forms.py:38-78 | A field is in conflict if any fact of its key is; else shows value and source of the last confirmed fact; else is left to the institution by the last deferral; else is pending |
| `FormFields.FormExactly` | core/forms.py:26-78 | A form has exactly the required keys, each shown so, and lists its conflicting keys in form order |
| `FormFields.NothingOutstandingExactly` | core/forms.py:112-128 | Nothing is outstanding if and only if every required key has a confirmed or deferred fact and none in conflict |
| `Outcomes.StepExactly` | core/state_machine.py:108-185 | A step is taken if and only if the table enters its target from here and its guard holds; GATE_BLOCKED exactly for an unmet gate; not taken, it leaves everything |
| `Outcomes.IntentExactly` | core/workflow_service.py:211-229 | Submitting intent never raises, stores bracket and amount, and moves a DRAFT project, only, to INTAKE_DONE |
| `Outcomes.ConfirmationExactly` | core/workflow_service.py:231-292 | A confirmation never raises: title and bracket become the intake, an earlier amount is dropped, four answers are logged as answers of this confirmation |
| `Outcomes.ClassifyExactly` | core/workflow_service.py:379-431 | A classification is refused of DRAFT and when the chain asks back, with nothing written; else class, facts and alert are stored, and the state is entered if and only if the table has each step, through FORM_JUDGED from intake to a subject's answer |
| `Outcomes.ReclassifyExactly` | core/workflow_service.py:432-514 | When a class is replaced, state by state, and that nothing but class, flag and facts moves |
| `Outcomes.RoadmapExactly` | core/workflow_service.py:1595-1642 | Both transitions, or the answer stored and an error, exactly by class and state |
| `Outcomes.RecalcExactly` | core/workflow_service.py:522-608 | Which projects are judged again, and every field the new tier writes |
| `Outcomes.AdvanceExactly` | core/workflow_service.py:842-870 | A project collecting materials or in review ends in REVISION_LOOP if and only if an active finding that holds the gate is unreleased, else in REVIEW_RUNNING; any other stays |
| `Outcomes.JudgedByItsOwnVersion` | core/workflow_service.py:2073-2080 | A classified project is judged by the snapshot it is pinned to: publishing a newer one changes the answer of no gate, draft or freeze; an unclassified one is judged by the latest |
| `Outcomes.DraftExactly` | core/workflow_service.py:932-953 | An unfrozen form is rebuilt in the place, id and parent of the last draft, or started; version, fields and conflicts are those of the pinned pack and the log |
| `Outcomes.UnbuildableIsRefused` | core/workflow_service.py:932-1090 | A log no draft can be built from is VALIDATION_FAILED wherever the draft is read, with nothing written |
| `Outcomes.ConfirmFieldExactly` | core/workflow_service.py:955-989 | CONFLICT exactly for a frozen form, NOT_FOUND for a key it lacks, VALIDATION_FAILED for an empty value; else the value is upserted as an answer |
| `Outcomes.DeferFieldExactly` | core/workflow_service.py:991-1043 | CONFLICT exactly for a frozen form, NOT_FOUND for a key it lacks, VALIDATION_FAILED for a key whose latest fact is confirmed; else one declared gap is logged |
| `Outcomes.FreezeExactly` | core/workflow_service.py:1045-1090 | A frozen form stays; away from the gate STATE_INVALID; with a field pending or in conflict GATE_BLOCKED; else the draft just built is stored frozen under the hash of its own type, version and fields |
| `Outcomes.SubmitExactly` | core/workflow_service.py:1262-1303 | A form is submitted exactly from FORM_FROZEN or INSTITUTION_REVIEW, by one new review without a verdict |
| `Outcomes.VerdictExactly` | core/workflow_service.py:1305-1371 | Each error of a verdict with its condition; a verdict that passes the checks is stored on the last review even if the state then refuses it; only an acceptance or a return moves the project |
| `Outcomes.ResumeExactly` | core/workflow_service.py:1373-1433 | A return is resumed on one new, empty, unfrozen draft of the frozen one's type and version that names it |
| `Outcomes.FilingExactly` | core/workflow_service.py:1445-1474 | VALIDATION_FAILED exactly for a blank number; any other is stored, stripped, and files a project that is ready, else STATE_INVALID |
| `Filing.FrozenExactly` | core/workflow_service.py:1045-1090 | A freeze succeeds exactly at the gate with buildable, outstanding-free fields, and freezes that very draft |
| `Filing.AcceptedExactly` | core/workflow_service.py:1305-1371 | A project becomes ready for filing exactly on an accept from review with a signed agreement and a valid licence check |
| `Filing.DecideMeans` | core/workflow_service.py:1305-1371 | A verdict accepts, returns, or leaves the state, by exactly the two conditions |
| `Filing.ReturnedExactly` | core/workflow_service.py:1305-1371 | A project is returned exactly on a return from review with comments |
| `Filing.RefusedVerdictIsStored` | core/workflow_service.py:1346-1371 | A verdict given in the wrong state raises and is stored all the same |
| `Filing.FiledExactly` | core/workflow_service.py:1445-1474 | A project becomes FILED exactly from READY_FOR_EXTERNAL_FILING with a number; a refused filing still keeps the number |
| `Filing.RoadmapExactly` | core/workflow_service.py:1595-1642 | When confirming a roadmap succeeds, when it is a repeat, and what it stores when it raises |
| `Filing.DeferredExactly` | core/workflow_service.py:991-1043 | A deferral is stored exactly for a required key whose latest fact is not confirmed |
| `Filing.ConfirmedValuesAreLatest` | core/workflow_service.py:231-292 | After a confirmation the latest fact of each of the four keys carries the confirmed value |
| `Walkthrough.AProjectCanBeFiled` | core/state_machine.py:24-82 | Under any policy whose version has distinct card ids, any new project reaches FILED: by the intake calls, one extraction of every required key, a waiver for each card, and the calls from review to filing |
| `Findings.ReviewCarries` | core/workflow_service.py:872-905 | What an ordinary review does to each stored finding: an active script finding of another version whose non-empty quote is text of the document moves to the new version with its status; one whose quote is empty or gone is SELF_FIXED if OPEN and unchanged otherwise; inactive findings and alerts are unchanged; whatever is new is an open script finding of this version |
| `Findings.ReviewRecords` | core/workflow_service.py:799-825 | What an ordinary review stores: one finding for the first proposal of each category and quote that was not on record for this version, saying what that proposal said, and no other |
| `Findings.GenerationRecords` | core/workflow_service.py:783-825 | What a generation's review does: current script findings on the asset go inactive, nothing else moves, and the first proposal of each category and quote is recorded under the generation |
| `Findings.SyncExactly` | core/workflow_service.py:2261-2311 | What a classification does to each stored finding: the fixed alert is replaced by the one just raised or closed, other active intent alerts are closed, the rest stays; a raised alert is appended if its id is new |
| `Findings.KeptExactly` | core/workflow_service.py:799-806 | A proposal is kept if and only if it is the first of its category and quote and was not seen before |
| `Findings.FindingsOverVersions` | core/workflow_service.py:742-905 | For any sequence of quoting reviews and creator decisions: no two active script findings share category and quote, and none is lost, moved or renamed |
| `Findings.ReviewKeepsOnePerQuote` | core/workflow_service.py:774-825 | One review keeps uniqueness and changes a status only from OPEN to SELF_FIXED |
| `Findings.UniqueExactly` | core/workflow_service.py:774-825 | From one active script finding per category and quote, a review keeps that if and only if no proposal repeats the key of a current finding whose quote the document has lost |
| `Findings.GenerationUniqueExactly` | core/workflow_service.py:783-825 | From one active script finding per category and quote, a generation's review keeps that if and only if no proposal repeats the key of a current finding on another script |
| `Findings.ReanalysisOfOlderDoubles` | core/workflow_service.py:783-825 | The input: a finding carried to a newer upload, then the older script reviewed again under a generation, leaves two current findings of one category and quote |
| `Findings.UnquotedProposalDoubles` | core/workflow_service.py:799-806 | A concrete input: a proposal whose quote is not in the document doubles a decided finding |
| `Findings.EveryProposalIsRecorded` | core/workflow_service.py:799-825 | Every proposed key has a finding afterwards |
| `Findings.KeptIsNew` | core/workflow_service.py:799-806 | The proposals kept are unseen and pairwise different |
| `Findings.ActKeeps` | core/workflow_service.py:1478-1555 | A creator's decision touches one finding and keeps uniqueness |
| `Findings.OneActiveAlert` | core/workflow_service.py:2261-2311 | Where ids are distinct, as `Generations.StepKeepsGenInv` keeps them, an active alert after a classification carries the project's fixed alert id and exists only if the chain raised one |
| `Findings.SyncTouchesOnlyAlerts` | core/workflow_service.py:2261-2311 | Everything else passes through untouched |
| `Service.WorkflowService.Transition` | core/workflow_service.py:2387-2421 | Goes through only along an edge of the table with the gate open where it leads there, and then appends exactly that edge; refused, it changes nothing |
| `Service.WorkflowService.Refusal` | core/workflow_service.py:2395-2417 | GATE_BLOCKED if and only if the edge leads to the gate and the stored documents do not meet it; no refusal if and only if the edge is in the table, the gate is open for GATE_D3_PASSED, a number is there for FILED, and the roadmap question is answered for the two roadmap states |
| `Service.WorkflowService.BeginReviewReanalysis` | core/workflow_service.py:294-343 | Succeeds exactly on a project past DRAFT, INTAKE_DONE and FORM_JUDGED whose latest draft is not frozen, ends in DRAFT without class or number, keeps the invariant and undoes nothing |
| `Service.WorkflowService.GetByKey` | core/workflow_service.py:2364-2364 | The reversed scan finds the latest fact of the key |
| `Service.WorkflowService.UpsertFact` | core/workflow_service.py:2361-2385 | Stores nothing for an equal value, a conflict after an asset fact, a confirmed fact otherwise |
| `Service.WorkflowService.UpsertFacts` | core/workflow_service.py:1917-1926 | Upserts a list in order |
| `Service.WorkflowService.SaveIntent` | core/workflow_service.py:211-229 | Never raises; leaves the given project, in INTAKE_DONE if it was a draft; keeps the invariant |
| `Service.WorkflowService.ApplyReviewConfirmation` | core/workflow_service.py:231-292 | Afterwards the latest fact of each of the four keys says what was confirmed; keeps the invariant and undoes nothing |
| `Service.WorkflowService.ConfirmRoadmap` | core/workflow_service.py:1595-1642 | Succeeds exactly for a classified project that is confirmed already or in CLASSIFIED, and stores the confirmation even when it raises; keeps the invariant |
| `Service.WorkflowService.CarryFindingsForward` | core/workflow_service.py:872-905 | Finding by finding: an active script finding of another version whose quote stands in the document names the new version with its status; one whose quote is empty or gone is SELF_FIXED if it was OPEN; everything else stays |
| `Service.WorkflowService.RetireConclusions` | core/workflow_service.py:783-797 | The deactivation loop retires exactly the asset's current script findings |
| `Service.WorkflowService.WriteProposals` | core/workflow_service.py:799-825 | The write loop stores each new key once, in order |
| `Service.WorkflowService.AdvanceAfterReview` | core/workflow_service.py:842-870 | Ends in REVISION_LOOP exactly if something blocks, else in REVIEW_RUNNING, and leaves projects in other states alone; keeps the invariant |
| `Service.WorkflowService.ReviewNow` | core/workflow_service.py:742-840 | Without a generation every stored finding is carried as above; under a generation every current script finding on the asset is of that generation; keeps the invariant, distinct finding ids, and undoes nothing |
| `Service.WorkflowService.DeactivateOtherAlerts` | core/workflow_service.py:2268-2284 | Deactivates active alerts under other ids |
| `Service.WorkflowService.SyncClassificationAlert` | core/workflow_service.py:2261-2311 | Leaves at most the fixed-id alert active |
| `Service.WorkflowService.ActOnFinding` | core/workflow_service.py:1478-1520 | Succeeds on a stored finding exactly when the decision is permitted, stores the status or choice it names there, and touches no other finding; keeps the invariant and distinct ids |
| `Service.WorkflowService.PersistClassification` | core/workflow_service.py:2210-2259 | Raised or not, an active alert afterwards carries the project's alert id and exists only if the chain raised one; keeps the invariant and distinct ids |
| `Service.WorkflowService.RunClassification` | core/workflow_service.py:379-411 | Writes nothing before intent or when answers are missing; otherwise as above |
| `Service.WorkflowService.Reclassify` | core/workflow_service.py:432-514 | Succeeds exactly on a stale project that was judged, has not left the product and is not under filing, with a class answered; then replaces the class and clears the flag, else changes nothing; never moves the state |
| `Service.WorkflowService.RecalcTier` | core/workflow_service.py:522-608 | Writes class, flag and stamp only, and reports a change exactly when the stored tier or its provisional flag came to differ; never in filing |
| `Service.WorkflowService.MarkPolicyStale` | core/workflow_service.py:610-633 | Sets the flag and the stamp and nothing else; notifies exactly when the flag was down; keeps the invariant |
| `Service.WorkflowService.MaterialCards` | core/workflow_service.py:1947-1971 | The materialisation loop over the pack and the stored cards |
| `Service.WorkflowService.TouchMaterial` | core/workflow_service.py:1981-2061 | On success a stored card of that id is UPLOADED after attaching, VALID or INVALID after validation, WAIVED after a waiver; keeps the invariant |
| `Service.WorkflowService.PassGate` | core/workflow_service.py:909-930 | On success the project is in GATE_D3_PASSED and the stored findings, facts and cards meet the gate; refused, project and log are unchanged and the error names the gate or the state |
| `Service.WorkflowService.FormDraft` | core/workflow_service.py:932-953 | Returns a frozen draft as is, else rebuilds under the same id and parent |
| `Service.WorkflowService.ConfirmFormField` | core/workflow_service.py:955-989 | On success the latest fact of the key carries the confirmed value; keeps the invariant, partial writes included |
| `Service.WorkflowService.DeferFormField` | core/workflow_service.py:991-1043 | On success one fact was added to a key whose latest fact was not confirmed; keeps the invariant, partial writes included |
| `Service.WorkflowService.FreezeForm` | core/workflow_service.py:1045-1090 | An unfrozen form freezes exactly at the gate with every field buildable and none outstanding; keeps the invariant |
| `Service.WorkflowService.SubmitToInstitution` | core/workflow_service.py:1262-1303 | Succeeds exactly from FORM_FROZEN or INSTITUTION_REVIEW, ends in review, and touches no draft; keeps the invariant |
| `Service.WorkflowService.DecideInstitutionReview` | core/workflow_service.py:1305-1371 | Ends READY_FOR_EXTERNAL_FILING exactly on a licensed signed accept from review, INSTITUTION_RETURNED exactly on a commented return from review, and else where it was; keeps the invariant |
| `Service.WorkflowService.ResumeAfterReturn` | core/workflow_service.py:1373-1433 | From a return: REVISION_LOOP with exactly one new unfrozen successor of the last draft; otherwise raises and changes nothing; keeps the invariant |
| `Service.WorkflowService.RecordFiling` | core/workflow_service.py:1445-1474 | Becomes FILED exactly with a number from READY_FOR_EXTERNAL_FILING; a number given is stored in any case; keeps the invariant |
| `Publication.PublicationChain` | workers/policy/repository.py:232-262 | In every interleaving of publishers, discards and refreshes: versions are contiguous from the seed; each later snapshot follows its predecessor by exactly one published proposal: each of the six packs is the content of the proposal's last update naming it, or the predecessor's when none does, and the whole is coherent; published proposals, those snapshots and outbox rows correspond one to one |
| `Snapshots.OverrideAllIs` | workers/policy/publish.py:64-67 | Applying updates leaves each pack at the last update naming it, or as it was |
| `Publication.SmallWritesExactly` | workers/policy/repository.py:215-270 | Marking a row sent and discarding a proposal change that row, or that pending proposal, and nothing else |
| `Publication.CommitExtends` | workers/policy/publish.py:61-105 | A commit that goes through was prepared from the newest snapshot, however long ago it was read |
| `Publication.StepKeeps` | workers/policy/publish.py:42-116 | Every step keeps the chain and rewrites no snapshot, proposal content or publication |
| `PolicyWorkers.PolicyRepository.CommitPublication` | workers/policy/repository.py:232-262 | Commits all three records exactly when the proposal is pending and version and outbox id are new, else nothing |
| `PolicyWorkers.PolicyRepository.LatestSnapshot` | workers/policy/repository.py:177-181 | Finds the greatest version |
| `PolicyWorkers.PolicyRepository.DiscardProposal` | workers/policy/repository.py:264-270 | Discards a pending proposal, else raises |
| `PolicyWorkers.PolicyRepository.MarkOutboxSent` | workers/policy/repository.py:215-230 | Marks a pending row sent, once |
| `PolicyWorkers.PolicyRepository.CommitRefreshProposal` | workers/policy/repository.py:87-124 | Records run, source state and proposal together, only for a running run |
| `PolicyWorkers.PolicyRepository.CommitRefreshNoChange` | workers/policy/repository.py:126-156 | Records run and source state together, only for a running run |
| `PolicyWorkers.PolicyRepository.FailRun` | workers/policy/repository.py:68-72 | Marks the run failed and nothing else |
| `PolicyWorkers.PolicyPublisher.Publish` | workers/policy/publish.py:42-116 | Refuses for each reason in order, else publishes the next version: each pack as the proposal's last update naming it says, or as the latest snapshot has it; a refusal writes nothing |
| `PolicyWorkers.PolicyPublisher.DraftPacks` | workers/policy/publish.py:65-68 | Each of the six drafted packs is the content of the last update naming it, or the previous pack |
| `PolicyWorkers.PublishesExactly` | workers/policy/publish.py:42-116 | Over the newest version n: n + 1 is published if and only if the proposal is pending and due and its packs, put together pack by pack, are coherent; conflict, not effective and invalid are each answered exactly when they hold |
| `PolicyWorkers.PolicyRefresh.Run` | workers/policy/refresh.py:70-176 | Succeeds exactly on a running run whose fetch, and draft if needed, succeed; otherwise only marks the run failed |
| `Refresh.EveryRunRecorded` | workers/policy/refresh.py:70-176 | For runs made one after another, each once, over any sources: each record's previous hash is that of the source's last successful run, failed runs record none, proposals are numbered by count |
| `Refresh.StoreFollows` | workers/policy/refresh.py:70-176 | Source states are the last successful hashes, and a proposal exists exactly for each successful run after the first whose hash changed |
| `Refresh.HashesChain` | workers/policy/refresh.py:84-147 | Of two consecutive successful runs of a source the later starts where the earlier ended: no change is lost |
| `Refresh.ChainEndsAtStore` | workers/policy/refresh.py:128-142 | The chain ends at the stored source state |
| `Refresh.CreateRunExactly` | workers/policy/repository.py:27-35 | Creating a run leaves every existing record, its own included, and starts a new one in progress |
| `Refresh.RerunOfFinished` | workers/policy/repository.py:97-99 | Running a finished run again only marks it failed |
| `Refresh.NewProposalIsNew` | workers/policy/repository.py:101-101 | A new proposal id never replaces an old one |
| `Consumer.CrashesDoNotMatter` | workers/policy/consumer.py:49-109 | However often and wherever deliveries are cut off, the one that completes leaves every project's stale flag, classification, notices, stale effect and recalculation status as one uninterrupted delivery does, with recalculation effects a superset |
| `Consumer.CutThenRedelivered` | workers/policy/consumer.py:58-104 | The same for one project and one cut |
| `PolicyReach.DeliveryReaches` | workers/policy/consumer.py:58-136 | What one delivery leaves on each project: nothing beyond the first hundred classified ones; one of those pinned below the event's version is told if and only if the impact holds D1B or D1C, or C1A and it is past DRAFT and INTAKE_DONE; it is judged again if and only if, besides, the figures are published, the impact holds D1C and its tier is provisional, and then changes unless its form is frozen or its number given; a recalculation left half done is only reported and closed |
| `PolicyReach.NoticesOfOneDelivery` | core/workflow_service.py:522-633 | One notice when the project is told and its flag was down, one more for a tier that changed; told but not moved it is stale under its old class, moved it is pinned to the event's version and no longer stale |
| `PolicyReach.StaleMarkedCounts` | workers/policy/consumer.py:58-109 | The result's first count is the number of projects told |
| `PolicyReach.RecalculatedCounts` | workers/policy/consumer.py:58-109 | The result's second count is the number of tiers that changed, plus the half-done recalculations closed |
| `PolicyConsumer.PolicyUpdatedConsumer.Handle` | workers/policy/consumer.py:49-109 | The loop with any budget of repository calls: completes with every project left as `PolicyReach.DeliveryReaches` says and exact counters, or stops as a described cut without the receipt; after the receipt nothing happens |
| `PolicyConsumer.PolicyUpdatedConsumer.HandleRow` | workers/policy/consumer.py:58-104 | One row makes exactly its plan of calls, in order, or a prefix of it, and when done leaves the project told and judged as its state, class and pin decide |
| `Consumer.FullIs` | workers/policy/consumer.py:58-104 | The calls of a whole delivery to one project, made one after another, come to one update of it |
| `Snapshots.ValidateSnapshot` | policy/validation.py:26-98 | Accepts exactly the coherent snapshots: card ids distinct and kinds supported, figures ordered by whole part and complete when published, every clause named anywhere defined, every step reference naming one card, and from version 2 all three roadmaps, required facts, a required card, and threshold sets when published |
| `Snapshots.ValidExactly` | policy/validation.py:26-98 | The rules as the code checks them hold if and only if the snapshot is coherent, read off its packs as a whole |
| `Snapshots.TruncatedExactly` | policy/validation.py:68-73 | Figures are compared by their whole part, taken towards zero |
| `Snapshots.CollectReferences` | policy/validation.py:48-78 | The gathered references are all cited exactly when every rule, set and card clause is, and a wrong threshold set raises |
| `Snapshots.CheckCards` | policy/validation.py:37-46 | Card ids distinct and kinds supported |
| `Snapshots.CheckTemplates` | policy/validation.py:80-87 | Every step refers to known cards |
| `Jobs.AtMostOnce` | core/workflow_service.py:1657-1802 | Under any resubmission, redelivery, race and raise: one task per idempotency key, the key index answers as a scan, each task's work started at most once |
| `Jobs.RecordStandsExactly` | workers/jobs.py:56-96 | From any state of the invariant, a finished task record is the record of every state that can follow if and only if no worker may still write it: none holds it unclaimed, works on it, has its event still to record, or is about to save a failure that is not the stored one |
| `Jobs.QuietRecordStays` | workers/jobs.py:56-96 | In any run, from the moment a record is finished with nobody left to write it, it never changes and nobody comes to write it |
| `Jobs.TerminalStays` | core/workflow_service.py:1748-1802 | In any run, whoever raises where, a task that is finished stays finished: only another terminal status can replace one |
| `Jobs.FinishedStands` | workers/jobs.py:56-96 | What those raises are needed for: over any run in which no worker raises outside the work of a task, its finished record stands |
| `Jobs.SuccessOverwritten` | workers/jobs.py:74-83 | A run in which the event recorded after the save raises, and FAILED is written over SUCCEEDED, for every handled queued task |
| `Jobs.FailureOverwritten` | workers/jobs.py:74-83 | A run in which a second delivery's claim raises, writes FAILED over a running task, and a success then overwrites that failure |
| `Jobs.DeliveredExactly` | workers/jobs.py:56-66 | A delivery of a finished task starts nothing; of any other it starts one worker, which refuses a type nobody handles |
| `Jobs.SubmittedExactly` | core/workflow_service.py:1672-1700 | A submission publishes a new task, or the holder of its key while that is still queued, and nothing else |
| `Jobs.StepKeeps` | workers/jobs.py:56-96 | Every step of submitters and workers, raises before a claim and after a save included, keeps the invariant behind these |
| `Worker.DeliveredExactly` | workers/jobs.py:56-96 | One delivery of a stored task, case by case: dropped when the task is over or somebody else's, FAILED when nobody handles its type or when the claim, the work or the record after it raises, else the work's own verdict; no other task changes |
| `Worker.ExecutedExactly` | core/workflow_service.py:1748-1802 | execute_task by itself: a type nobody handles, a raising claim and a task that is not queued run and write nothing; else the work decides |
| `Worker.RunExactly` | core/workflow_service.py:1657-1746 | One job: a held key is answered with its holder and writes nothing, a new one is stored, and published or run at once |
| `Worker.RedeliveryIsDropped` | workers/jobs.py:56-83 | A second delivery of a handled message writes nothing if and only if its claim does not raise or the task is finished, and runs nothing in the same cases |
| `Worker.JobWorker.Handle` | workers/jobs.py:56-96 | The worker's branches, with raises in the claim, the work or the event, compute the specified delivery; a message of a stored task leaves the task store in order |
| `Worker.JobWorker.ExecuteTask` | core/workflow_service.py:1748-1802 | Refuses a type no worker handles, claims, works, saves, records; a raise leaves what was written before it, and the task store stays in order |
| `Worker.ReplayReturnsTheFirst` | core/workflow_service.py:1657-1716 | A second job under the same key answers with the first task, runs nothing and writes nothing, and is published again exactly if queued on a queued runner |
| `Worker.JobRunner.Run` | core/workflow_service.py:1657-1746 | Get-or-create, then run once and record inline, or publish for a worker; the task store stays in order |
| `Worker.ForcedReviewIsNew` | core/workflow_service.py:695-714 | Where task keys are numbered below g, as `Generations.StepKeepsGenInv` keeps them, a review forced by generation g finds its key held by nobody |
| `Worker.KeyInjective` | core/jobs.py:33-36 | A job key determines project, type, asset and generation when ids carry no colon |
| `Scenes.SplitScenes` | core/review.py:113-190 | The loop emits exactly the specified lines with the specified places |
| `Scenes.Attribution` | core/review.py:113-190 | An emitted line's episode is that of the nearest episode heading at or above it with no other section heading between |
| `Scenes.NotReviewed` | core/review.py:161-167 | Nothing after a closing section heading is emitted until the next episode |
| `Scenes.FrontMatterNotReviewed` | core/review.py:123-128 | In a document with episodes nothing above the first heading is emitted |
| `Scenes.EmittedExactly` | core/review.py:181-190 | A scene is emitted if and only if it is a reviewed line with its own place |
| `Scenes.HasEpisodesExactly` | core/review.py:124-131 | A document has episodes if and only if some line heads one; a one-line Chinese heading alone does not count |
| `Scenes.ReviewedExactly` | core/review.py:133-190 | A line is reviewed if and only if it is not blank, quoted, or the heading of an episode or another section, and the nearest heading at or above it opens an episode, or there is none and the document has no episodes |
| `Scenes.SceneExactly` | core/review.py:133-190 | A line's scene is the number last fixed at or above it, and one more for every slug line since |
| `Scenes.RoleExactly` | core/review.py:133-180 | What each line is taken for when several patterns match, and the numbers it carries |
| `Scenes.LinesIncrease` | core/review.py:140-190 | Line numbers strictly increase |
| `ScriptReview.ReviewPatterns` | core/review.py:193-224 | One finding per (category, episode, scene), whose set of match lines is exactly the lines of that group some rule of the category matches, and which says what one such rule says of a line it matches |
| `ScriptReview.MatchesExactly` | core/review.py:203-208 | A rule matches a line if and only if one of its patterns is part of it |
| `ScriptReview.SemanticPass` | core/review.py:236-276 | Every hit that can be placed (known category, quote in the script, a scene that has it) has a finding at its place, every new finding stands for such a hit, one finding per place, and the discarded categories are exactly those of the other hits |
| `ScriptReview.PlacedExactly` | core/review.py:252-276 | A hit stands for a finding if and only if its category has a rule, its quote is text of the script and some line has the quote; the finding is that rule's, on the first such line |
| `ScriptReview.HitFate` | core/review.py:252-276 | Every hit is placed, discarded under its category, or forgotten because it names none, by exact conditions |
| `ScriptReview.ProposalsQuote` | core/review.py:181-190 | Every proposed quote is non-empty text of the document |
| `Tiers.AmountDecides` | core/classify/d1c.py:47-84 | A published figure alone decides: T1 from the upper line on, T2 from the lower, T3 below both, provisional exactly on a line the pack calls disputed |
| `Tiers.BracketDecides` | core/classify/d1c.py:86-125 | Without such a figure the bracket decides, an unknown one as T2; final, and citing the set's clause, exactly when the pack is published, the figure is missing and the bracket is known |
| `Tiers.PromotionDecides` | core/classify/d1c.py:145-194 | Promotion or a declaration alone makes a final T1 under the AI set's clause |
| `Tiers.NothingToJudgeBy` | core/classify/d1c.py:136-142 | A pack without an AI set never makes a tier final |
| `Tiers.Monotone` | core/classify/d1c.py:74-84 | A larger amount never gives a lighter tier, for every pack |
| `Tiers.BracketsAgreeExactly` | core/classify/d1c.py:74-125 | The tier from an amount equals the tier from the bracket it falls in if and only if the upper figure is not below the lower |
| `Tiers.ValidatedWholeFiguresAgree` | policy/validation.py:53-70 | For validated, published packs with whole figures they agree |
| `Tiers.FractionsSlipThrough` | policy/validation.py:53-70 | Whole packs with fractional figures that a publisher accepts at every version, and an amount they answer as T1 from the figure and T3 from its bracket |
| `Tiers.ValidatedIsUsable` | policy/validation.py:53-70 | A validated published pack with an AI set has both figures, ordered by whole part |
| `Tiers.SettledExactly` | core/classify/d1c.py:166-239 | Exactly when a tier is final rather than provisional |
| `Tiers.RecalculationJudges` | core/workflow_service.py:543-549 | A recalculation judges by the amount, or by the bracket when there is none, and knows of no promotion |
| `Tiers.SecondRecalculationIsNoNews` | core/workflow_service.py:543-608 | Recalculating twice against one snapshot reports no second change |

## Left out

- HTTP routers, view building, the web client, PDF, DOCX and ZIP handling, page fetching, HTML normalisation, language models, video, cloud storage and queues: input and output, or foreign code.
- `store/firestore.py`: it has no review sessions, staging, publish or task claim.
- Materials' files, assets, notifications' read state, upload tickets and blobs: the same collection code, easy members only.
- Document JSON and the SQL text: rows hold documents as values, so their encoding is not modelled.
- Timestamps, except a project's `updated_at`: nothing modelled decides on them; `CrashesDoNotMatter` compares everything but that stamp.
- The timeline inside workflow calls: append-only notes nothing reads; in the stores and the protocol it is one of the seven collections.
- `core/jobs.py` QueuedRunner and publishers: publishing a task is membership in the set of messages that may be delivered any number of times, in any order.
- `workers/policy/outbox.py`: its dispatch loop marks rows sent one by one through `MarkOutboxSent`; the ordering of the pending list is not modelled.
- Heading regular expressions and Chinese numerals: each line carries the outcome of every pattern.
- A crash inside `recalc_tier`, between its save and its notice: a delivery is cut between repository calls only, so a notice lost there is not modelled.
- The consumer's typed recalculation result, which cannot carry an undetermined tier: a locked project with such a tier makes the delivery raise each time.
- A task key that names another project: keys start with the project id, as `idempotency_key` makes them.
- Liveness: a claimant that stops leaves ANALYZING, and a worker that stops leaves RUNNING, by design.
- Interleaving inside one `WorkflowService` call: only the review protocol, task claims and policy commits are written to tolerate it. `Generations.ReviewsKeepTheWorkflow` and `ReviewedHistory.FiledThroughReviews` take every other call whole; `Generations.EveryReanalysisConcludesAfresh` does not need to (`EachWriteIsOrderly`).
- Facade.ReviewFacade.Confirm: takes the ids minted by this call's analysis to be unused elsewhere in the store, as random ids are, and reports a raised analysis as one error kind.
- ReviewProtocol.Serializable: holds for any analysis, taken as one function of the staged aggregate, the details, the generation and fresh ids; `StagedAnalysis.Analysis` is the one the service runs.
- SqliteRefinement.RunSimulates: appends and new tasks carry fresh ids, task keys name their project, a save keeps the key index, and parents carry no "/"; `SaveOfUnseenTellsThemApart` and `SlashInParentCollides` show why.
- Findings.FindingsOverVersions: covers uploads, pre-checks and creator decisions, not forced generations, which `Generations.EveryReanalysisConcludesAfresh` states.
- Refresh.EveryRunRecorded: runs of one source follow one another; two refreshes of one source at once are not modelled.
- Generations.EveryReanalysisConcludesAfresh: the script a session is bound to comes with the analysis, ids minted for it are new to the project, and asset and project ids carry no colon, as minted ids do not.
- The response a published review returns, built from the staged copy: view building only reads.
