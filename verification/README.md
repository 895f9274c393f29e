# Verification of the Studio assistant's durable protocols

A Dafny 4.11 model of the parts of the service where several workers share durable rows and a crash
may fall anywhere: approval-gated scheduling, assistant runs with resume, recurring automations, AI
runs for inbox candidates with retention, the delivery action ledger; and of the pure algorithms they
rest on: cadence arithmetic, strict wall clocks, keyset paging, checkpoints and the nested document
validator. `dafny verify dfyconfig.toml` checks everything.

## How it is organised

| files | component |
|---|---|
| `Wrappers`, `Numbers`, `Sets`, `Text` | result types, clamping, sizes of finite sets, decimal numbers, stripping, bounding, joining |
| `ScheduleStore`, `ScheduleProtocol` | rows, row locks and claim tokens of both approval executors; every request as a process that advances one step at a time, with fence, target fence, recheck and queue-and-commit as separate steps |
| `ScheduleInvariant`, `ScheduleSteps`, `ScheduleSafety` | invariant of the tables and of each process, what each step guarantees to the others, and the safety theorems over all runs |
| `ExecutedOwners`, `ExecutedRace` | when an executed approval or batch stays executed, and a run in which one does not |
| `SeriesCompletion`, `SeriesRecovery` | the service code itself, for one request that nothing disturbs: what `approve` and `reject` achieve, and crash recovery from any reachable state |
| `ExecutionKeys` | the texts behind the execution keys |
| `AgentRuns`, `AgentRunProtocol`, `AgentRunSafety`, `AgentRunner`, `AgentRunFailures`, `AgentRunCompletion`, `AgentRunRace` | assistant runs: tables and transactions, the interleaved protocol, its invariant, the service code of a resume, what failing workers record, when a completed run stays completed, and three runs in which one does not |
| `Cadence`, `Automations`, `AutomationTick` | next occurrences, the interleaved automation system, the tick and `set_enabled` code |
| `CandidateRuns`, `CandidateRunSafety`, `CandidateRunService`, `CandidatePointerRace`, `CandidateForeignVariant`, `RunRetention` | rewrite and enrichment runs: input hash, interleaved protocol with edits and cleanups, the service code, one race, one completed rewrite that is not current, and the cleanup code |
| `ActionLedger`, `ActionLedgerSafety` | delivery action reservations: the service code and the interleaved protocol |
| `WallClock`, `SeriesSlots`, `Paging`, `StructuredBlocks`, `SeriesCheckpoints` | the pure algorithms: strict wall clocks and the slots resolved with them, keyset paging, the document validator, checkpoints |

Concurrent components are state machines: an action is one transaction, or one step inside a
transaction where locks are held between steps, or a crash. A run is any sequence of actions from an
empty database, so a statement about every state of every run covers all interleavings. Service code
that changes rows in place is a class with those rows as fields; its methods are specified by the same
table functions that the state machines use, and beside them in fields, literals and arithmetic that do not
occur in the code's helpers. Database uniqueness constraints are guards of the insert.

Conventions: instants and durations are microseconds; row ids are naturals handed out in order; claim
tokens are fresh values; sha256 is never taken to be injective on all strings, only the hashed text is
compared, or a lemma assumes that the texts in question do not collide. What cannot be seen
(`LegacyPublicationBridge.queue`, `PostDocument`, the no-replay barrier, source and ownership checks,
the providers) is a parameter, an arbitrary result, or the contract its callers state.

## What the code does not keep

These hold of the code as it is; each has a witness and a result with the exact condition.

- A cleanup reads candidate metadata first and deletes later. A candidate that is reactivated in
  between and adopts an older completed run can lose it, so its current-run pointer names no run
  (`CandidatePointerRace.PointerCanDangle`); the class comment promises that current runs are always
  preserved (app/services/ai_run_retention.py:45-53). `CandidateRunSafety.DeletionKeepsPointerIff` says
  exactly which deletions keep the pointer; all pointers are valid in every state of a run if and only if
  every deletion in it is of that kind (`CandidateRunSafety.PointersValidIff`).
- A completed assistant run can be overwritten as failed: by a resume that claimed it while the original
  runner was still persisting (`AgentRunRace.CompletedRunCanFail`), and by the one worker that completed
  it, when the refresh after the completing commit fails (`AgentRunRace.CompletedRunFailsAlone`) or, for an
  attention brief, the audit event after it (`AgentRunRace.CompletedBriefFailsAlone`). These statements are
  inside the `try` whose handlers fail the run without a look at its status; a comment wants completed runs
  never to go back (app/services/admin_agent.py:1914-1916). From any reachable state, a completed run stays
  completed for ever if and only if no worker past its claim still works on it, returns from it, or is about
  to write a failure from a row it did not load as failed (`AgentRunCompletion.CompletedForeverIff`). The
  drafts themselves stay complete.
- An executed approval can be overwritten as stale by the process that first won its claim, paused beyond
  the lease, and then finds the pair of its successor in its way (`ExecutedRace.ExecutedCanGoStale`):
  `_mark_stale` and `_terminal_failure` are not fenced by the claim token. From any reachable state, an
  executed owner stays executed for ever if and only if no process of it is at one of these writes or at a
  point from which it can still reach one: for a single approval the second check after the claim; for a
  series also the item loop before it has passed its last item, the marking of an item, the commit before
  the fence, the finalisation and the refresh after it as far as they lie inside the `try` around an item,
  and the recovery after an exception (`ExecutedOwners.ExecutedForeverIff`). The pair itself stays.
- A rewrite without a requested variant whose provider metadata carries the variant key is stored as
  completed but is not the current run (`CandidateForeignVariant.ForeignVariantKeyLosesTheRun`): a
  completed rewrite is current if and only if a variant was requested, or the metadata has no variant key,
  or one that normalises to nothing (`CandidateRunSafety.CompletionIsCurrentIff`). Only the `RewriteOutput`
  type admits such metadata; none of the repository's providers writes the key
  (app/services/candidate_rewrite_ai.py:50, app/services/candidate_structured_rewrite_ai.py:262,
  app/services/candidate_structured_edit_ai.py:112, app/services/candidate_prompt_structured_rewrite_ai.py:78).
- The NUL-joined input hash does not separate all inputs. An input is the only one with its hash text if
  and only if it has no variant and no NUL in any part (`CandidateRuns.HashIsUniqueIff`, whose other half
  builds the second input). Among inputs without NUL it is injective (`CandidateRuns.InputHashInjective`),
  and inputs that differ in the variant alone are always told apart (`CandidateRuns.HashSeparatesVariants`).
- The attribution block's id is fresh among the top-level blocks only. Appending it keeps all ids of an
  accepted document distinct if and only if no nested block uses the id that the search finds
  (`StructuredBlocks.AppendAttribution`), and on one accepted document it does not
  (`StructuredBlocks.AppendToClashing`).

## Model

| member | source | states |
|---|---|---|
| `ScheduleSafety.AtMostOneLiveEntry` | app/services/admin_agent_execution_fence.py:39-64 | in every reachable state, two entries made by these executors on the same content item and revision that are not cancelled are the same entry, across single and series executors, takeovers and crashes |
| `ScheduleSafety.MadeMeansOnePair` | app/services/admin_agent_series_approvals.py:1275-1335 | every created pair is linked to each other, carries its item's key and intent, and is the only pair with that key |
| `ScheduleSafety.PairIffMade` | app/services/admin_agent_series_approvals.py:1137-1214 | an item has exactly one linked pair under its key, or none at all, and which of the two is known from the history |
| `ScheduleSafety.PairsFormPrefix` | app/services/admin_agent_series_approvals.py:1356-1488 | in every reachable state, the ordinals of a batch that have a pair form a prefix 1..k |
| `ScheduleSafety.ExecutedMeansOnePairEach` | app/services/admin_agent_series_approvals.py:1548-1589 | an executed batch or approval has exactly one mutually linked pair for each of its items, and a single approval's stored ids name it |
| `ScheduleSafety.SupersededExecutorIsFenced` | app/services/admin_agent_execution_fence.py:39-50 | once another process holds a newer token, no later step of the superseded executor creates a pair, finalises an item or records executed |
| `ExecutedOwners.ExecutedForeverIff` | app/services/admin_agent_series_approvals.py:1088-1546 | from a reachable state, an executed approval or batch stays executed along every further sequence of actions, exceptions and crashes included, exactly when no process of it is at an unfenced write or can still reach one |
| `ExecutedOwners.TryHasOneEntry` | app/services/admin_agent_series_approvals.py:1475-1546 | the steps whose exceptions start a recovery are entered at the commit before the fence only and left for the next item only |
| `ExecutedRace.ExecutedCanGoStale` | app/services/admin_agent_approvals.py:883-892 | a reachable executed approval that two steps of a superseded process turn into a stale one, its pair still scheduled |
| `ScheduleSafety.RunInv` | app/services/admin_agent_approvals.py:657-731 | the tables and every process satisfy their invariants in every reachable state |
| `ScheduleInvariant.RecoverExact` | app/services/admin_agent_approvals.py:545-600 | recovery by execution key reports a match exactly for an item whose pair was created and is intact, with that pair |
| `ScheduleInvariant.ProcInvStable` | app/services/admin_agent_execution_fence.py:11-64 | what a process relies on between its steps survives any step of another process, because of row locks and tokens |
| `ScheduleSteps.AdvanceKeeps` | app/services/admin_agent_series_approvals.py:1337-1589 | every step of either executor keeps the table invariant, keeps its own process invariant, and gives the others their guarantee |
| `SeriesCompletion.SoloExtendsRun` | app/services/admin_agent_series_approvals.py:1591-1739 | the steps of one undisturbed request extend any run of the system |
| `SeriesCompletion.CompletionCreatesMissingPairs` | app/services/admin_agent_series_approvals.py:1356-1488 | completing a batch creates one pair for each item without a pair and none for the others |
| `SeriesCompletion.PendingCompletable` | app/services/admin_agent_series_approvals.py:1062-1086 | for a pending batch, passing the preflight is the same as being completable |
| `SeriesCompletion.RefusedByPreflight` | app/services/admin_agent_series_approvals.py:1062-1112 | a pending batch that fails its preflight becomes stale with all its items when the source contract is broken, and otherwise with exactly the first item that cannot be completed |
| `SeriesRecovery.ApprovalService.RecoverExisting` | app/services/admin_agent_series_approvals.py:1137-1214 | the two scans and the comparison give the specified recovery: nothing, conflict, or the one matching pair |
| `SeriesRecovery.ApprovalService.FenceExecutionClaim` | app/services/admin_agent_execution_fence.py:11-64 | succeeds exactly when the claim is still the owner's and the target revision exists, and then holds both locks |
| `SeriesRecovery.ApprovalService.QueueItem` | app/services/admin_agent_series_approvals.py:1275-1335 | queues the pair exactly when fenced and no other live schedule is on the target, otherwise says which check failed |
| `SeriesRecovery.ApprovalService.FinalizeItem` | app/services/admin_agent_series_approvals.py:1216-1256 | records the pair on the item exactly when the claim is still held, and changes nothing otherwise |
| `SeriesRecovery.ApprovalService.TerminalFailure` | app/services/admin_agent_series_approvals.py:1114-1135 | the whole row after a terminal failure, claim cleared |
| `SeriesRecovery.ApprovalService.SettleItem` | app/services/admin_agent_series_approvals.py:1390-1546 | one pass of the item loop settles the item exactly when it is completable, and otherwise ends the request without a pair, the item marked failed when its pair is spoiled and stale when it has none |
| `SeriesRecovery.ApprovalService.ExecuteClaimed` | app/services/admin_agent_series_approvals.py:1337-1589 | ends executed exactly when every item is completable; in any case it has created the missing pairs up to the first item that is not, and no others, and an unfinished batch has the whole row that says so |
| `SeriesRecovery.ApprovalService.Approve` | app/services/admin_agent_series_approvals.py:1591-1739 | what one undisturbed `approve` of a batch does: within 30 seconds of an executing row's claim it changes nothing, afterwards it always acts; it ends executed exactly when every item is completable, and otherwise the whole row is given: partial failure exactly when some item was completed before, which item is marked stale or failed, and that the others are as they were |
| `SeriesRecovery.RecoverAfterCrash` | app/services/admin_agent_series_approvals.py:1616-1672 | from any reachable state without locks, an `approve` 30 seconds or more after the claim, or of a row without claim, ends executed exactly when the batch is completable, every item then naming its one pair, and creates only what was missing; otherwise it leaves the row that names where it stopped |
| `SeriesRecovery.RecoverSingleAfterCrash` | app/services/admin_agent_approvals.py:782-829 | from any reachable state without locks, an `approve` of a single approval 30 seconds or more after the claim, or without claim, ends executed exactly when it is completable, creates an entry only if none was created before, and then has exactly one linked pair |
| `SeriesRecovery.ApprovalService.FinalizeExecuted` | app/services/admin_agent_approvals.py:602-655 | records executed with the pair's ids exactly when the claim is still held |
| `SeriesRecovery.ApprovalService.ExecuteClaimedSingle` | app/services/admin_agent_approvals.py:657-761 | the whole tables afterwards: unchanged when the revision is gone, marked stale without a pair when another live schedule is on the target, otherwise executed with one new pair |
| `SeriesRecovery.ApprovalService.DecideSingle` | app/services/admin_agent_approvals.py:776-851 | the branch taken under the row lock, by state, recovery result, the 30 seconds after the claim and staleness, and the row it leaves |
| `SeriesRecovery.ApprovalService.ApproveSingle` | app/services/admin_agent_approvals.py:763-896 | what one undisturbed `approve` of a single approval does: finalises the pair a crashed attempt left, fails on a conflict, waits for 30 seconds after a claim and no longer when nothing is found, or creates exactly one pair unless stale |
| `SeriesRecovery.RejectRequest` | app/services/admin_agent_approvals.py:898-926 | a request is rejected exactly while pending, so a rejected request has no pair; which other states are returned and which are conflicts, for both kinds |
| `ExecutionKeys.BatchTextInjective` | app/services/admin_agent_series_approvals.py:184-196 | the text hashed into a batch key determines its fields, even when the request id contains colons |
| `ExecutionKeys.ItemTextInjective` | app/services/admin_agent_series_approvals.py:199-209 | the text hashed into an item key determines batch key and item fields |
| `ExecutionKeys.SingleTextInjective` | app/services/admin_agent_approvals.py:99-104 | the text hashed into a single approval's key determines its fields |
| `ExecutionKeys.KindsDiffer` | app/services/admin_agent_approvals.py:99-104 | batch, item and single key texts are never equal |
| `ExecutionKeys.VariableLengthWouldCollide` | app/services/admin_agent_series_approvals.py:184-196 | the fixed length of the fingerprint field is needed: without it two different requests share a text |
| `ExecutionKeys.ItemKeysIdentifyIntents` | app/services/admin_agent_series_approvals.py:184-209 | without a hash collision, equal item keys mean equal batch and item intents |
| `AgentRunSafety.ReachableInv` | app/services/admin_agent.py:1954-1976 | the invariant of runs, artifacts and workers in every reachable state |
| `AgentRunSafety.ProviderAskedAtMostOnce` | app/services/admin_agent.py:1999-2055 | over all interleavings of workers, duplicates, crashes and resumes, the provider is asked at most once for a run, for a request identity and for an (automation, scheduled time) |
| `AgentRunSafety.OnlyTheMakerAsks` | app/services/admin_agent.py:2442-2461 | only the worker that inserted the run asks, before any answer; a resume never does |
| `AgentRunSafety.AskingIsRecorded` | app/services/admin_agent.py:1999-2055 | a drafting run whose provider was asked has left the phase in which it was created, so a crash during the call stays visible |
| `AgentRunSafety.AllDraftsOrNone` | app/services/admin_agent.py:1393-1506 | a run has no artifacts or exactly ordinals 1..n with distinct items, every draft of the run is linked, a completed drafting run has the full set, and drafts exist only after the provider was asked |
| `AgentRunSafety.PersistIsComplete` | app/services/admin_agent.py:1090-1188 | the one commit of items and artifacts makes an empty set complete, every new draft linked |
| `AgentRunSafety.FitIffNone` | app/domain/admin_agent.py:166-178 | the unique constraint lets an insert through exactly when the run has no artifacts yet |
| `AgentRunSafety.DraftsAreFinal` | app/services/admin_agent.py:1397-1409 | once a run has drafts, no step changes which they are |
| `AgentRunCompletion.CompletedForeverIff` | app/services/admin_agent.py:1881-1952 | from a reachable state, a completed run stays completed along every further sequence of steps exactly when no worker past its claim is at work on it, returning from its last commit included |
| `AgentRunRace.CompletedRunCanFail` | app/services/admin_agent.py:2462-2490 | a reachable completed run with all its drafts, only a resume being left, that the resume's next three steps turn into failed closed |
| `AgentRunRace.CompletedRunFailsAlone` | app/services/admin_agent.py:1899-1923 | a reachable completed run with all its drafts that its only worker fails after the completing commit |
| `AgentRunRace.CompletedBriefFailsAlone` | app/services/admin_agent.py:1829-1876 | the same of an attention brief |
| `AgentRunner.AdminAgentRunner.AcquireResumeClaim` | app/services/admin_agent.py:1954-1976 | claims exactly when the run is not completed and has no claim or one made more than 90 seconds ago, and then stores token and time |
| `AgentRunner.AcquireTwice` | app/services/admin_agent.py:1954-1976 | of two claims of an unclaimed run the second succeeds exactly when it comes more than 90 seconds after the first |
| `AgentRunner.AdminAgentRunner.PersistValidated` | app/services/admin_agent.py:1393-1497 | refuses when artifacts exist, otherwise the item loop builds the complete set and commits it with the phase |
| `AgentRunner.AdminAgentRunner.ResultFromArtifacts` | app/services/admin_agent.py:1190-1250 | accepts exactly a complete artifact set |
| `AgentRunner.AdminAgentRunner.Resume` | app/services/admin_agent.py:2385-2497 | busy exactly when the run is completed or was claimed in the last 90 seconds; otherwise the tables after an undisturbed resume, for every phase; the provider log is untouched |
| `AgentRunner.ResumeCompletes` | app/services/admin_agent.py:2442-2475 | from any reachable state, a resume completes an accepted run: n new drafts if they were missing, none if they were there |
| `AgentRunner.FailureLosesNoAcceptedRun` | app/services/admin_agent.py:2300-2322 | whatever a failure handler writes for a run that is validated or persisted when it looks, a later resume completes the run |
| `AgentRunner.ResumeCompletesIff` | app/services/admin_agent.py:2440-2475 | an undisturbed resume ends completed exactly when an answer was accepted before; otherwise the run is failed and no draft is added |
| `AgentRunner.ResumeIsARunOfTheProtocol` | app/services/admin_agent.py:2499-2610 | that outcome is reached by the protocol's own steps taken by one worker |
| `AgentRunFailures.ExceptionRecords` | app/services/admin_agent.py:2072-2138 | the row an exception leaves, by phase, limit and kind of worker: an accepted generation keeps its phase, an ambiguous one needs a new request, and anything else is failed or failed closed; no other table and no draft changes |
| `AgentRunFailures.BadAnswerRecords` | app/services/admin_agent.py:1350-1370 | an answer that is not accepted leaves the run failed, whatever limit was hit |
| `AgentRunFailures.RefusalRecords` | app/services/admin_agent.py:2462-2497 | drafts that are already there make a resume fail closed and the original runner fail as after an exception |
| `AgentRunFailures.ResumeRecords` | app/services/admin_agent.py:2440-2475 | a resume records restart required for an ambiguous generation, with the worker still inside the `try`, and fails closed for any other phase without an accepted answer |
| `AgentRunFailures.NotCaught` | app/services/admin_agent.py:2410-2431 | no handler catches an exception before a resume has read its row, or in a handler itself |
| `Cadence.Normalize` | app/services/admin_agent_automations.py:115-133 | accepts exactly a daily kind without weekday or a weekly kind with one from 0 to 6, and a strict HH:MM time of the day, and keeps kind, weekday, time and offset |
| `Cadence.ParseInvertsFormat` | app/services/admin_agent_automations.py:61-62 | every time of day has a strict HH:MM text that parses back to it |
| `Cadence.ParsesIff` | app/services/admin_agent_automations.py:61-62 | the accepted texts are exactly the strict HH:MM texts of the times of day |
| `Cadence.NextIsLeast` | app/services/admin_agent_automations.py:136-180 | the next occurrence is the least instant strictly after the given one at which the local clock shows the cadence's time, on a local day that is the cadence's number of days after a Monday (1970-01-05 was one) |
| `Cadence.NextIsMonotone` | app/services/admin_agent_automations.py:136-180 | a later start never gives an earlier occurrence |
| `Cadence.NextAfterOccurrence` | app/services/admin_agent_automations.py:811-844 | from one occurrence to the next is exactly one day or one week |
| `Automations.LastBeforeNext` | app/services/admin_agent_automations.py:811-873 | in every reachable state the next run is an occurrence later than the last one handled, and a recorded outcome has its run |
| `Automations.NeverBack` | app/services/admin_agent_automations.py:633-702 | over every interleaving of ticks, crashes, misfires, pauses and re-enables, next run and last handled never move back |
| `Automations.HandledOnce` | app/services/admin_agent_automations.py:942-981 | two different steps never handle the same occurrence |
| `AutomationTick.AutomationService.SetEnabled` | app/services/admin_agent_automations.py:633-702 | every field of the row after pause, refusal and re-enable; a paused or refused row is never due, a re-enabled one is next due at the least occurrence after now, so what was missed while paused is not made up for |
| `AutomationTick.AutomationService.ClaimOne` | app/services/admin_agent_automations.py:717-766 | claims the enabled row whose time has come and that nobody claimed in the last two minutes, with the least next run and id, and returns nothing exactly when there is none |
| `AutomationTick.AutomationService.ProcessClaim` | app/services/admin_agent_automations.py:846-981 | an occurrence more than 15 minutes late is skipped; otherwise refusal, reconciliation without replay, crash and success, each with the whole row; the runner is called only for a fresh occurrence without a run |
| `AutomationTick.AutomationService.Tick` | app/services/admin_agent_automations.py:983-1006 | a heartbeat handles the foremost due rows, as many as the limit (1 to 5) or all, each once and to its exact row, calls the runner once for exactly the occurrences that ask it, and adds exactly their runs |
| `AutomationTick.HandledIsNotDue` | app/services/admin_agent_automations.py:846-873 | a handled row is not due again in the same heartbeat, whatever happened to it |
| `AutomationTick.HandledMovesForward` | app/services/admin_agent_automations.py:811-844 | a heartbeat never moves a schedule back |
| `CandidateRuns.InputHashInjective` | app/services/candidate_rewrite.py:110-126 | the NUL join of storable inputs determines all of them, variant included |
| `CandidateRuns.HashIsUniqueIff` | app/services/candidate_rewrite.py:110-126 | an input shares its hash text with no other input exactly when it has no variant and no part contains a NUL |
| `CandidateRuns.HashSeparatesVariants` | app/services/candidate_rewrite.py:110-126 | two inputs that differ in the variant alone never share a hash text, whatever their parts contain |
| `CandidateRuns.VariantRoundTrip` | app/services/candidate_rewrite.py:129-135 | a stored variant reads back as itself |
| `Text.BoundedIdempotent` | app/services/candidate_rewrite.py:61-65 | bounding is idempotent for every limit and respects every positive limit |
| `Text.BoundedIs` | app/services/candidate_rewrite.py:61-65 | a text that fits is kept, another one is cut before the limit and ends in an ellipsis without white space before it |
| `Text.StripIs` | app/services/candidate_rewrite.py:62 | stripping cuts off white space on both sides, all of it, and nothing else |
| `CandidateRunSafety.AtMostOneRunning` | app/services/candidate_rewrite.py:275-325 | in every reachable state at most one run is running for a candidate, provider, model and input hash |
| `CandidateRunSafety.TerminalRunsNeverChange` | app/services/candidate_rewrite.py:351-376 | a run that is not running any more keeps its whole row while it exists, and its id is never used again |
| `CandidateRunSafety.PointersKept` | app/services/candidate_rewrite.py:394-408 | every step but a deletion keeps all current-run pointers on existing completed runs of their candidate |
| `CandidateRunSafety.PointersAlwaysValid` | app/services/ai_run_retention.py:89-113 | pointers are valid in every state of every run in which no candidate is reactivated between a cleanup's reading and its deletion |
| `CandidateRunSafety.DeletionKeepsPointerIff` | app/services/ai_run_retention.py:58-113 | one deletion keeps the candidate's pointer exactly when the pointer is the one read, or its run is recent, or among the newest kept |
| `CandidateRunSafety.PointersValidIff` | app/services/ai_run_retention.py:89-160 | all pointers are valid in every state of a run up to a point exactly when every deletion before it spares the run its candidate points to then |
| `CandidatePointerRace.PointerCanDangle` | app/services/ai_run_retention.py:134-160 | a reachable state in which a current-run pointer names no run |
| `CandidateRunSafety.CurrentRunMatchesInputs` | app/services/candidate_rewrite.py:138-162 | in every reachable state, the current run is a completed rewrite of the candidate whose recorded content hash, title, URL, action, policy and variant are those of now, field by field, when no part contains a NUL |
| `CandidateRunSafety.ReuseMatchesInputs` | app/services/candidate_rewrite.py:249-273 | in every reachable state, an adopted run was completed for the same candidate, kind, provider and model, and its recorded inputs are those requested, field by field, with the policy of its kind, when no part contains a NUL |
| `CandidateRunSafety.EditKeepsCurrentIff` | app/services/candidate_rewrite.py:138-162 | after an edit the current run is still current exactly when content hash, title, URL, reuse policy and action are all as before, and otherwise there is none |
| `CandidateRunSafety.CompletionIsCurrentIff` | app/services/candidate_rewrite.py:378-412 | a rewrite that completes is current exactly when a variant was requested, or the provider's metadata has no variant key, or one that normalises to nothing |
| `CandidateRunSafety.ReadsBackIff` | app/services/candidate_rewrite.py:348-350 | the stored variant reads back as the requested one under exactly that condition |
| `CandidateForeignVariant.ForeignVariantKeyLosesTheRun` | app/services/candidate_rewrite.py:378-412 | a reachable state and a step that completes a rewrite which is then not current |
| `CandidateRunSafety.CurrentUntilChanged` | app/services/candidate_rewrite.py:138-162 | a current run stays current until source, action, policy, pointer or the run itself change |
| `CandidateRunService.CandidateAIService.FirstSection` | app/services/candidate_rewrite.py:212-340 | refuses exactly what is not permitted, adopts the newest completed run with the same text, reports a run started less than 15 minutes ago, or abandons the older ones and starts exactly one, with every field of its row |
| `CandidateRunService.CandidateAIService.SecondSection` | app/services/candidate_rewrite.py:351-412 | records the outcome on the run only while it is running: failed, or discarded, outdated or completed by the candidate as it is now, with text, variant and pointer |
| `CandidateRunService.CandidateAIService.Rewrite` | app/services/candidate_enrichment.py:226-393 | an undisturbed call with a usable answer ends completed and current, and the same request afterwards adopts that run without asking again |
| `RunRetention.SelectedIsTheScan` | app/services/ai_run_retention.py:134-144 | the scan takes inactive candidates in id order, all of them or the first up to the limit |
| `RunRetention.InactiveInOrder` | app/services/ai_run_retention.py:134-144 | the inactive rows are in strict id order |
| `RunRetention.NewestIsTheFirstRows` | app/services/ai_run_retention.py:70-87 | the protected rows are as many as the limit allows, each newer than every row left out |
| `RunRetention.AIRunRetentionService.DeleteOldTerminal` | app/services/ai_run_retention.py:89-113 | a run is gone exactly when it is completed, failed, outdated, discarded or abandoned, created before the cutoff, not the current one, and at least as many such runs of the candidate and kind are newer as are to be kept; counts them |
| `RunRetention.AIRunRetentionService.Cleanup` | app/services/ai_run_retention.py:115-169 | exactly such runs of the first inactive candidates are gone, judged on the table as it was, with the clamped settings, and each kind is counted |
| `RunRetention.SecondCleanupDeletesNothing` | app/services/ai_run_retention.py:115-169 | a second cleanup at the same time deletes nothing |
| `RunRetention.AIRunRetentionService.CleanupTwice` | app/services/ai_run_retention.py:115-169 | two cleanups in a row with the same clock and settings: the second scans as many candidates, deletes nothing and reports that |
| `RunRetention.CleanupKeeps` | app/services/ai_run_retention.py:45-53 | running, recent and current runs survive, and as many old ones as asked for if there were that many |
| `ActionLedger.NormalIsFixed` | app/services/canonical_publication_delivery_action_ledger.py:68-85 | the stored identities, described character by character, are exactly the fixed points of normalisation |
| `ActionLedger.NormalizedTwice` | app/services/canonical_publication_delivery_action_ledger.py:68-85 | a stored identity is read back as itself |
| `ActionLedger.KeyNamesAction` | app/services/canonical_publication_delivery_action_ledger.py:79-82 | the key determines the action type |
| `ActionLedger.CanonicalPublicationDeliveryActionLedger.Reserve` | app/services/canonical_publication_delivery_action_ledger.py:170-272 | a new reservation exactly for a live, unbarred, well-formed request whose key has no row; what is answered otherwise |
| `ActionLedger.CanonicalPublicationDeliveryActionLedger.Finish` | app/services/canonical_publication_delivery_action_ledger.py:274-327 | true exactly when the reservation's own row now holds the requested state; no other row changes |
| `ActionLedgerSafety.ReservedAtMostOnce` | app/services/canonical_publication_delivery_action_ledger.py:205-272 | over all concurrent callers and crashes, a new reservation is issued at most once for a publication and normalised key |
| `ActionLedgerSafety.RowsAreIssued` | app/services/canonical_publication_delivery_action_ledger.py:229-250 | every row belongs to an issued reservation, with its token and intent |
| `ActionLedgerSafety.StateChangesOnce` | app/services/canonical_publication_delivery_action_ledger.py:290-306 | a row is never deleted and changes at most once, from reserved to a terminal state |
| `ActionLedgerSafety.FinishTellsTheTruth` | app/services/canonical_publication_delivery_action_ledger.py:274-327 | once a finish returned true, the stored state is the one requested, then and ever after |
| `WallClock.LocalizeWallClockStrict` | app/core/timezone.py:104-122 | succeeds exactly when one instant shows the wall clock, by the offset of the last transition not after it, and returns it; the two errors mean none and several |
| `WallClock.NowhereIffSkipped` | app/core/timezone.py:118-119 | a wall clock exists nowhere exactly when some transition skips it |
| `WallClock.TwiceIffRepeated` | app/core/timezone.py:120-121 | a wall clock is ambiguous exactly when some transition repeats it |
| `WallClock.FoundByAFold` | app/core/timezone.py:111-116 | every instant that shows the wall clock is found through one of the two folds |
| `SeriesSlots.NormalizeSlots` | app/services/admin_agent_series_approvals.py:536-600 | accepts exactly the slots that give every ordinal one future instant of its own, each at a wall clock that exists exactly once, and returns those instants |
| `SeriesSlots.ResolveFuture` | app/services/admin_agent_series_approvals.py:574-584 | resolves exactly the wall clocks that exist once and lie in the future |
| `SeriesSlots.OrdinalsCover` | app/services/admin_agent_series_approvals.py:597-600 | the final comparison of ordinals can never fail |
| `SeriesSlots.OrderDoesNotMatter` | app/services/admin_agent_series_approvals.py:552-595 | the resolved slots do not depend on the order in which they were sent |
| `Paging.CandidatePagesContinue` | app/repositories/sources_v2.py:255-296 | a candidate page is the next stretch of the whole ordered list after its cursor, null publication times included |
| `Paging.ContentPagesContinue` | app/repositories/content.py:175-204 | the same of a content page |
| `Paging.ListingContents` | app/repositories/sources_v2.py:289-293 | the whole list holds exactly the wanted rows, in order, nulls last |
| `Paging.CandidatePagesAreTheListing` | app/repositories/sources_v2.py:255-296 | following the cursors over fixed data gives the whole list once, for every limit |
| `Paging.ContentPagesAreTheListing` | app/repositories/content.py:175-204 | the same for content |
| `StructuredBlocks.ValidateGeneratedBlocks` | app/services/candidate_structured_rewrite_ai.py:108-172 | accepts exactly the well-formed forests with globally distinct nonblank ids, also distinct from those seen before, returns the number of blocks and adds their ids |
| `StructuredBlocks.ValidateBlock` | app/services/candidate_structured_rewrite_ai.py:118-171 | the same for one block with everything below it |
| `StructuredBlocks.ValidateRichText` | app/services/candidate_structured_rewrite_ai.py:60-74 | accepts exactly rich text whose marks are all allowed |
| `StructuredBlocks.ValidateTexts` | app/services/candidate_structured_rewrite_ai.py:134-154 | accepts exactly the texts each block type may hold |
| `StructuredBlocks.CountBlocks` | app/services/candidate_structured_rewrite_ai.py:191-193 | a document is accepted from an empty id set and its blocks are counted |
| `StructuredBlocks.AcceptedNesting` | app/services/candidate_structured_rewrite_ai.py:114-116 | in an accepted document no block has a child list, not even an empty one, two child lists deep |
| `StructuredBlocks.AttributionBlockId` | app/services/candidate_drafts.py:113-120 | ends, with the first candidate id that no top-level block uses, all earlier candidates being used, after at most as many attempts as there are blocks |
| `Text.DecimalReadsBack` | app/services/candidate_drafts.py:119 | the decimal suffix of an id reads back as its number |
| `StructuredBlocks.AppendAttribution` | app/services/candidate_drafts.py:123-149 | appends the attribution block under the id the search finds; all ids stay distinct exactly when no block below the top level uses it |
| `StructuredBlocks.AppendToClashing` | app/services/candidate_drafts.py:113-149 | an accepted document on which the search returns an id that a nested block uses, so two blocks of the result share it |
| `SeriesCheckpoints.SafeContentSeriesPayload` | app/services/admin_agent.py:576-670 | accepts exactly the payloads of the declared shape, limits and pairwise different folded titles, angles and texts, and returns every field without its margins, the ordinals and the plan's hash |
| `SeriesCheckpoints.ValidatedSeriesCheckpoint` | app/services/admin_agent.py:673-724 | accepts exactly well-formed checkpoints whose posts would be accepted again with the stored fingerprint |
| `SeriesCheckpoints.PersistedSeriesCheckpoint` | app/services/admin_agent.py:727-806 | the same for the checkpoint without texts |
| `SeriesCheckpoints.ValidatedRoundTrip` | app/services/admin_agent.py:1710-1720 | for every accepted payload the validated checkpoint is accepted and gives back series, posts and fingerprint |
| `SeriesCheckpoints.PersistedRoundTrip` | app/services/admin_agent.py:1477-1493 | the persisted checkpoint derived from it is accepted with the same plan and fingerprint |
| `SeriesCheckpoints.ReadBackIsStable` | app/services/admin_agent.py:673-724 | what a checkpoint reads as can be written and read again |

## Left out

- Deletion of owners, runs, artifacts, content and automations by cascades: rows stay in the model, except AI runs removed by retention.
- ExecutedMeansOnePairEach: speaks of pairs, not of `item.state`; the item write to `executing` and the post-claim stale write do not check the token, so item states need executors that stay inside their lease; for the owner's own state `ExecutedOwners.ExecutedForeverIff` gives the exact condition.
- Owner rows hold state, claim and items; failure texts, review times and other provenance of approvals are not modelled, and the metadata that schedule rows carry is one `maker` value.
- The checks on source run, artifacts, drafts, documents and time zones of approvals are sets of owners and items for which they hold, changing arbitrarily over time; the `create` methods of both services are an insert with their uniqueness guards.
- RecoverAfterCrash: requires that no row lock is left, as after every other process has finished or died.
- RecoverSingleAfterCrash: requires the same.
- AgentRuns: drafts are content ids with their run; titles, texts, provenance comparison and model or token columns are left out, and any of their failures is an exception that may be raised at every step.
- AgentRunProtocol: an ORM write that leaves out an unchanged column is modelled wherever it can leave out the status, the phase, or the claim in a failure write; a completing resume always clears the claim.
- ScheduleProtocol: a rollback expires what the session had loaded, and reading an expired item outside a query raises; the model lets the item loop go on with the states it had loaded.
- The brief scenario `attention_today`: only its insert, its one provider call and its completion; its facts and ordering of facts are not modelled.
- Cadence: fixed offsets only, no daylight saving; ASCII digits in local times, although the pattern also admits other decimal digits.
- Automations: definition fingerprints and skill policies are an arbitrary refusal reason; idempotent creation is not modelled.
- CandidateRunSafety: the enrichment payload fields and the similarity check of rewrites are left out; a refused output is a failed run.
- CandidateRunSafety.Delete: the protected-id query and the delete statement of one call are one step.
- RunRetention: `_meta_run_id` parsing; a candidate's pointers are already integers.
- ActionLedger: the lifecycle rows and their locks are one answer, and `str.lower` is a parameter that must leave key characters alone; only the row and its unique key are used for the at-most-once property.
- WallClock.LocalizeWallClockStrict: zones are finite lists of well-separated transitions; IANA rules and parsing of zone codes are not modelled.
- SeriesSlots: dates and times are already parsed; a text that is not strict is an absent wall clock.
- SeriesCheckpoints: works on parsed JSON; text-level parsing, fence stripping, NaN and encoding errors are left out, as is the analogous three-draft checkpoint.
- StructuredBlocks: text extraction, renderer checks and the limits on blocks and text of `parse_structured_rewrite_document`.
- `CandidateDraftService.create`, `append_revision` and `set_status`: single guarded writes that would add only easy members.
- Telegram delivery, HTTP and LLM calls, settings, migrations, display text and audit events.
