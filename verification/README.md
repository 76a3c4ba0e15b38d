# Verification of the job status service

This project models the durable state machines of the service: the tables its transactions change,
the workers that interleave, the crashes between two transactions, and the outside world (LLM, mail
server, QQ, vector store) as arbitrary answers. The properties are proved for every run, not for
sampled ones.

How it is built:

- Each `with transaction(...)` block is one function from the tables before to the tables after
  (`...Tx`). A run is any sequence of such steps; a crash is a run that stops between two of them.
- Each component also has a class that holds the tables as fields and whose methods follow the
  service's functions, loops included. The contract of a method ties the new tables to the step
  functions, so what is proved about runs holds for the methods.
- The workers are also modelled as state machines whose moves interleave with users, other workers
  and crashes. The `...Rounds` files show that a worker's moves, when nothing comes between them, do
  what the method does in one go.
- Short lemmas beside the transactions write out in states and times what one of them does to its
  rows; the table lists the main ones.
- Unique keys are part of the state: a violation rolls the transaction back. Row ids are positions
  or counters, which stand for the service's generated ids.

| file | component |
|---|---|
| StatusWrites, StatusStore, RecoveryWorker, WorkerRounds | confirmed status writes, their store, the bound on attempts, the worker's rounds |
| ConfirmationCodes, Text | confirmation codes and the command router |
| CursorCodec, MailPolling | the IMAP cursor and the poller over a changing mailbox |
| MailEvents, MailPublisher, PublisherRounds | ingestion, outbox, consumers, one notification per mail |
| ToolState, ToolRun, ToolWorld, ToolBatches, ToolMessages, ToolChecks, ToolSteps, ToolLoop | the durable tool loop, restarts, malformed batches, adapter messages |
| VectorIndex, KnowledgeIndex, IndexRounds | vector index, rebuild, search |
| Chunking, Normalizing | text chunks and the normalization before them |
| RunQueue, RunEffects, RunRounds, RunExclusion, RunOrder, QueueStore | agent runs and the session queue, what each transaction does, mutual exclusion, order of arrival, the store |
| Notifications, DispatchRounds | the notification ledger |

Names that differ from the service: a status `REJECTED` of an application is `StatusRejected`, a
pending or due outbox event is `Waiting`, an analysis state `FAILED` is `AnalysisFailed`, a
notification attempt that succeeded is `Delivered`, a prompt delivery `PERMANENT` is
`Undeliverable`, an `AMBIGUOUS` delivery is `Unclear`.

Where the code and its own description disagree, the code is modelled:

- `finalize_rejected_action` sets its run RUNNING in any state. Repeating a rejection therefore can
  start a finished run beside another one. `RunExclusion.RepeatedRejectionBreaksExclusion` is such a
  run; `RunExclusion.SessionMutualExclusion` gives the exact condition over whole runs, and
  `RunExclusion.FinalizeKeepsExclusionIff` that of one call.
- The agent cycle's fallback pick of a queued run can never find one
  (`RunQueue.FallbackNeverFindsARun`), so a run queued behind a run that ended without promotion
  waits for a later promotion.
- The consumer of action events refuses status actions that an agent created, and exactly those
  (`MailPublisher.RaisesIffAgentStatus`). Their events are never PUBLISHED and end FAILED
  (`MailPublisher.AgentStatusEndsFailed`, `MailPublisher.ThreeRoundsFailAgentStatus`).
- A search may return a document that is removed while the search runs
  (`KnowledgeIndex.RemovedDuringSearchIsReturned`); `KnowledgeIndex.ReturnsNoRemovedIff` says
  exactly when it does not.

Assumptions about callers and providers, where a result needs them: one mail poller, one outbox
publisher, one notification dispatcher and one agent worker, as the lifecycle starts them (several
index workers are allowed, and the exactly-once results of MailEvents need no single worker); the
LLM does not reuse a provider call id within a run; the LLM adapter's response parser hands over
well-formed batches; a rebuild runs only while the index workers are stopped.

`dafny verify dfyconfig.toml` checks the whole project.

## Model

| member | source | states |
|---|---|---|
| StatusWrites.TablesEqualFold | src/jobs_status_manager/application_core/execution.py:186-261 | after any interleaving of any workers, cut off anywhere, the Application rows are the left fold of the completed actions' frozen writes in commit order, and the job events are exactly the writes of that fold that changed something |
| StatusWrites.HistoryEndsAtRow | src/jobs_status_manager/application_core/execution.py:197-247 | per application: the history starts with no previous stage, every previous stage is the one before it, consecutive stages differ, the last equals the row and its latest event id |
| StatusWrites.EventsAreConfirmedWrites | src/jobs_status_manager/application_core/execution.py:228-254 | every job event belongs to one action, which is COMPLETED, was confirmed strictly before its expiry and carries the event's stage; status-change outbox rows mirror the events one to one |
| StatusWrites.TerminalIsAbsorbing | src/jobs_status_manager/application_core/execution.py:60-78 | COMPLETED, REJECTED and EXPIRED actions never change again |
| StatusWrites.RefusedWritesNothing | src/jobs_status_manager/application_core/service.py:101-124 | a rejected or expired action never produces an event, whatever runs afterwards |
| StatusWrites.HistoryIsAppendOnly | src/jobs_status_manager/application_core/execution.py:226-252 | no transaction rewrites a committed event |
| StatusWrites.StepKeepsInv | src/jobs_status_manager/application_core/execution.py:122-261 | each transaction keeps the agreement of actions, applications, events and outbox |
| StatusWrites.RunKeepsUnique | src/jobs_status_manager/application_core/models.py:54-55 | confirmation codes and proposals stay unique over every run |
| StatusWrites.CodeHasOneTarget | src/jobs_status_manager/application_core/service.py:97-100 | a confirmation code selects at most one action |
| StatusWrites.AnswerDecides | src/jobs_status_manager/application_core/service.py:101-124 | a pending action answered in time goes where the answer says, with one outbox row that repeats it; answered too late it expires silently; any other action stays as it is |
| StatusWrites.EventsAreAnswered | src/jobs_status_manager/application_core/service.py:101-124 | over every run: the action of a job event has a confirmation row in the outbox and no rejection row |
| StatusWrites.StatesFollowAnswers | src/jobs_status_manager/application_core/service.py:101-124 | over every run: an action has a confirmation row iff it is CONFIRMED, EXECUTING, FAILED or COMPLETED, and a rejection row iff it is REJECTED |
| StatusWrites.ProposalIsFrozen | src/jobs_status_manager/application_core/proposals.py:100-136 | a new proposal keeps what was asked, pending for seven days, and announces its code |
| StatusWrites.ExecutionWrites | src/jobs_status_manager/application_core/execution.py:186-261 | executing writes the confirmed stage under the confirmed company, department and position and no other row, with an event that continues from the old stage; an unchanged stage adds none |
| StatusWrites.FailureSchedules | src/jobs_status_manager/application_core/execution.py:153-169 | a failed write is due again five minutes later, while fewer than three attempts are used |
| StatusWrites.SweepGivesUp | src/jobs_status_manager/application_core/action_recovery.py:32-66 | the sweep gives up exactly the stale executions, which are due again five minutes later while attempts remain |
| StatusStore.Store.ProposeStatus | src/jobs_status_manager/application_core/proposals.py:68-136 | creates one PENDING action with its outbox row under the first drawn code that is free, or returns the existing equal proposal unchanged; with every drawn code taken it is still drawing; the unique constraints and the invariant survive |
| StatusStore.Store.ResolveConfirmation | src/jobs_status_manager/application_core/service.py:81-157 | resolves exactly the one action the command can mean; a pending action answered in time becomes CONFIRMED at that time or REJECTED, as the answer says, with one outbox row that repeats it; a late answer finds it EXPIRED and adds no row; repetition, ambiguity and unknown codes change nothing |
| StatusStore.Store.ClaimStatusUpdate | src/jobs_status_manager/application_core/execution.py:122-150 | claims CONFIRMED and FAILED actions only and counts the attempt; otherwise reports why not and changes nothing |
| StatusStore.Store.ExecuteClaimed | src/jobs_status_manager/application_core/execution.py:186-261 | writes row, event, outbox and completion in one step, or nothing; changed iff an event was added |
| StatusStore.Store.RecordFailure | src/jobs_status_manager/application_core/execution.py:153-169 | keeps the invariant and every other action; a failed EXECUTING action is due again exactly when attempts remain and the retry delay has passed |
| StatusStore.Store.ExecuteStatusUpdate | src/jobs_status_manager/application_core/execution.py:172-183 | is a run of claim then write or failure; raises exactly when the write cannot commit |
| StatusStore.Store.RecoverPendingActions | src/jobs_status_manager/application_core/action_recovery.py:32-93 | is a run; every stale execution is FAILED and due after five minutes, every confirmed or due failed action is attempted once more and ends COMPLETED or FAILED, and no other action changes |
| StatusStore.Store.ExecuteAll | src/jobs_status_manager/application_core/action_recovery.py:68-93 | the executing loop: every selected action is attempted once and no other action changes |
| StatusStore.Store.RetryPendingAction | src/jobs_status_manager/application_core/action_recovery.py:96-106 | requeues a FAILED action as CONFIRMED, due at once and with its attempts kept, and nothing else |
| StatusStore.AttemptIsRun | src/jobs_status_manager/application_core/execution.py:172-183 | an attempt is the run claim, then write or failure |
| RecoveryWorker.AttemptsAreBounded | src/jobs_status_manager/application_core/action_recovery.py:32-106 | with one recovery worker attempt_count never exceeds 3 plus the manual retries, and is at most 2 plus them while CONFIRMED, stale recoveries included |
| RecoveryWorker.MovesAreRuns | src/jobs_status_manager/application/lifecycle.py:295-317 | every move of worker and users is at most one transaction, so all results about runs apply |
| RecoveryWorker.TwoWorkersExceedTheBound | src/jobs_status_manager/application_core/execution.py:136-149 | the bound needs the single worker: a run from the empty tables in which two workers both select an action and it reaches four attempts without a retry |
| WorkerRounds.RoundSettlesAll | src/jobs_status_manager/application_core/action_recovery.py:32-93 | the worker's sweep, selection, claims and writes, when nothing comes between them, settle every action as the one method does: due actions COMPLETED or FAILED with one attempt more, stale ones FAILED, all else unchanged |
| WorkerRounds.DrainTriesAll | src/jobs_status_manager/application_core/action_recovery.py:68-93 | claiming and finishing the selected actions one by one tries each of them once and no other |
| WorkerRounds.ResumedIsWritten | src/jobs_status_manager/agent/write_runtime.py:89-157 | a confirmed action that is resumed is written by the next claim and write |
| ConfirmationCodes.ConfirmationCode | src/jobs_status_manager/application_core/proposals.py:30-37 | the divmod loop spells the four base-32 digits of the hash, most significant first |
| ConfirmationCodes.CodeSpells | src/jobs_status_manager/application_core/proposals.py:30-37 | the four letters read back to the hash value modulo 32^4 |
| ConfirmationCodes.EqualCodesAreEqualResidues | src/jobs_status_manager/application_core/proposals.py:30-37 | two hashes have the same code iff they are equal modulo 32^4 |
| ConfirmationCodes.RouteReadsGeneratedCode | src/jobs_status_manager/application_core/router.py:30-44 | a confirm or reject word followed by a generated code, in any spacing, routes to that resolution and code |
| ConfirmationCodes.RouteReadsBareVerb | src/jobs_status_manager/application_core/router.py:30-44 | the bare verb routes to its resolution without a code |
| ConfirmationCodes.RouteMeans | src/jobs_status_manager/application_core/router.py:30-44 | a text is a command iff its words are a verb alone, or a verb and one word that is PA- and four capitals or digits once upper-cased; it then says exactly that resolution and code, and every other text is no command |
| CursorCodec.DecodeReadsEncode | src/jobs_status_manager/infrastructure/adapters/qq_imap_cursor.py:104-143 | decode(encode(c)) == c for every encodable cursor |
| CursorCodec.AcceptsExactlyEncodings | src/jobs_status_manager/infrastructure/adapters/qq_imap_cursor.py:118-143 | the accepted strings are exactly the image of encode |
| CursorCodec.ProtocolCursorsFit | src/jobs_status_manager/infrastructure/adapters/qq_imap_cursor.py:104-115 | 32-bit UIDVALIDITY and UID encode to at most 74 characters, so the length guard never fires |
| CursorCodec.ResumesExactlyOwnCursors | src/jobs_status_manager/infrastructure/adapters/qq_imap_cursor.py:146-172 | a poll resumes iff the stored text encodes a cursor of this UIDVALIDITY not above the greatest uid, and otherwise starts at the end of the mailbox |
| CursorCodec.ReasonMeans | src/jobs_status_manager/infrastructure/adapters/qq_imap_cursor.py:146-172 | the reset reason tells why: no value, an older format, no cursor, another mailbox, or a cursor ahead of it |
| CursorCodec.Base64RoundTrip | src/jobs_status_manager/infrastructure/adapters/qq_imap_cursor.py:112 | unpadded base64url decodes back to the bytes, with the length of section 5 of RFC 4648 |
| Chunking.ChunkText | src/jobs_status_manager/knowledge/chunking.py:19-49 | the whole function: a blank content gives no chunk; any other is refused exactly when the size does not exceed a non-negative overlap, and otherwise every character of the content that is not white space lies in a chunk; chunks are sound and carry the first heading of their text |
| Normalizing.NormalizedKeepsText | src/jobs_status_manager/knowledge/chunking.py:25 | the characters of the content that are not white space are, in order, those of the normalized text |
| Normalizing.NormalizedLines | src/jobs_status_manager/knowledge/chunking.py:25 | the normalized text joins a stretch of consecutive right-stripped lines of the content, the lines before and behind it being blank, the first stripped on the left too |
| Normalizing.NormalizedIsStripped | src/jobs_status_manager/knowledge/chunking.py:25 | the normalized text neither starts nor ends with white space |
| Normalizing.NormalizedLinesAreTrimmed | src/jobs_status_manager/knowledge/chunking.py:25 | no line of the normalized text ends in white space, and its only line break is the line feed |
| Normalizing.LinesAreCut | src/jobs_status_manager/knowledge/chunking.py:25 | the lines and the line breaks between them rebuild the content, and no line holds a break |
| Chunking.ContentInChunks | src/jobs_status_manager/knowledge/chunking.py:19-49 | every character of the content that is not white space lies in a chunk, for all sizes that are not refused |
| Chunking.HeadingIsFirst | src/jobs_status_manager/knowledge/chunking.py:42-45 | the section title is that of the first line that starts with a hash mark |
| Chunking.CutText | src/jobs_status_manager/knowledge/chunking.py:32-49 | the overlapping-window loop terminates and yields the chunks of the windows, numbered from 0 |
| Chunking.FindEnd | src/jobs_status_manager/knowledge/chunking.py:35-39 | the text ends the window when it fits; otherwise the window ends at the last line break past start + overlap, or at full size when there is none |
| Chunking.WindowsTileText | src/jobs_status_manager/knowledge/chunking.py:32-49 | windows cover the text without a gap, overlap by at most overlap_chars, and rebuild it when overlaps are cut |
| Chunking.WindowsAreLinked | src/jobs_status_manager/knowledge/chunking.py:48 | consecutive windows leave no gap and overlap by at most overlap_chars |
| Chunking.WindowsRebuildText | src/jobs_status_manager/knowledge/chunking.py:34-48 | stitching the windows without their overlaps gives the text back |
| Chunking.EndsAdvance | src/jobs_status_manager/knowledge/chunking.py:34-48 | window ends never move back and never stall twice in a row |
| Chunking.NoDoubleStall | src/jobs_status_manager/knowledge/chunking.py:34-48 | after a stalled end the next one advances |
| Chunking.ChunksAreSound | src/jobs_status_manager/knowledge/chunking.py:40-46 | chunks are non-empty, stripped, at most chunk_chars long and indexed 0..k-1 |
| Chunking.ChunksCoverText | src/jobs_status_manager/knowledge/chunking.py:40-46 | every non-whitespace character lies in a chunk |
| MailPolling.NoMailLostOrDoubled | src/jobs_status_manager/mail_poller.py:46-91 | over deliveries, expunges, new epochs, polls, crashes inside a batch and regression resets: every message still in the mailbox above the epoch's baseline and up to the cursor is stored, none twice, each with its one event |
| MailPolling.StepKeepsInv | src/jobs_status_manager/infrastructure/adapters/_qq_imap_gateway.py:118-160 | each server change and each transaction of a poll keeps that coverage |
| MailPolling.RegressionKeepsBaseline | src/jobs_status_manager/infrastructure/adapters/qq_imap_cursor.py:168-172 | a regression reset does not move the baseline of the epoch |
| MailPolling.MovesBackIff | src/jobs_status_manager/infrastructure/adapters/_qq_imap_gateway.py:149-160 | with the `n:*` search the cursor moves back iff the mailbox is not empty and all of it lies below the cursor |
| MailPolling.StableMailboxNeverMovesBack | src/jobs_status_manager/infrastructure/adapters/_qq_imap_gateway.py:138-160 | a mailbox that stands still during the poll never moves the cursor back |
| MailPolling.PollTakesBatch | src/jobs_status_manager/infrastructure/adapters/_qq_imap_gateway.py:149-160 | one poll of a quiet mailbox shrinks the backlog by batch_size, or to nothing |
| MailPolling.BacklogIsStored | src/jobs_status_manager/mail_poller.py:80-91 | k waiting messages in a quiet mailbox are all stored after ceil(k / batch_size) uninterrupted polls |
| MailPolling.BeginIsClassify | src/jobs_status_manager/infrastructure/adapters/_qq_imap_gateway.py:136-148 | the start of a poll is classify_cursor read through the decoder |
| MailPolling.PollTakes | src/jobs_status_manager/infrastructure/adapters/_qq_imap_gateway.py:118-160 | a poll resumes iff the cursor is of this mailbox and not ahead of it; it then takes the lowest uids found, at most a batch, and stops at the last; otherwise it takes nothing and stops at the greatest uid |
| MailPolling.ProviderIdsAreDistinct | src/jobs_status_manager/infrastructure/adapters/_qq_imap_gateway.py:237-241 | different (UIDVALIDITY, UID) pairs have different provider ids |
| MailPolling.PollIsPollTables | src/jobs_status_manager/mail_poller.py:55-91 | the step-by-step poll and the poll as one function of tables and replies agree |
| MailPolling.MailPoller.IngestMail | src/jobs_status_manager/mail_service.py:90-124 | stores a new message with its MAIL_RECEIVED event, or changes nothing |
| MailPolling.MailPoller.PollOnce | src/jobs_status_manager/mail_poller.py:46-91 | a failed poll only counts; a good one takes the lowest uids of the search up to the batch size, or starts over at the greatest uid with none, stores exactly the new ones of them with their events, and then stores the cursor at the last one taken |
| MailEvents.StepKeepsInv | src/jobs_status_manager/mail_service.py:90-243 | no transaction of any number of workers breaks the correspondence of mails, analyses, actions, notifications, events and markers |
| MailEvents.OneEventEach | src/jobs_status_manager/mail_service.py:103-124 | every mail has exactly one MAIL_RECEIVED event, every analysis one JOB_MAIL_ANALYZED, every action one PENDING_ACTION_CREATED |
| MailEvents.OneAnalysisPerMail | src/jobs_status_manager/mail_service.py:161-212 | a mail is analysed at most once, and only when it is a job mail |
| MailEvents.ActionOrNotice | src/jobs_status_manager/event_consumers.py:59-118 | a routed analysis has its action or its notification, never both; an unrouted one has neither |
| MailEvents.NoticeOrigin | src/jobs_status_manager/event_consumers.py:59-219 | a notification about a mail comes from that mail's one analysis, directly or through its action |
| MailEvents.OneNotificationPerMail | src/jobs_status_manager/event_consumers.py:59-219 | at most one notification row per mail, for any interleaving of any workers |
| MailEvents.OneMailPerProviderId | src/jobs_status_manager/mail_service.py:97-104 | a provider message is stored at most once, for any interleaving |
| MailEvents.PersistStores | src/jobs_status_manager/mail_service.py:161-212 | persisting the LLM's answer leaves exactly one analysis of the mail, with that answer as its verdict, and its event |
| MailEvents.AnswerDecidesRoute | src/jobs_status_manager/event_consumers.py:41-118 | end to end, whatever other workers do in between: the analysis of an answered job mail, once routed, has its proposal iff the answer asked for an update, and otherwise its notification |
| MailPublisher.PublishedExactlyWhenProcessed | src/jobs_status_manager/event_pipeline.py:59-83 | with one publisher: PUBLISHED implies the consumer's marker, FAILED implies none, attempts are at most 3 plus manual retries |
| PublisherRounds.RoundPublishesAll | src/jobs_status_manager/event_pipeline.py:44-83 | the publisher's moves, when nothing comes between them, publish as the one method does |
| MailPublisher.ProcessingTellsOutcome | src/jobs_status_manager/mail_service.py:132-243 | the mail's own state says SUCCEEDED iff its analysis exists |
| MailPublisher.OneNotificationUnderCrashes | src/jobs_status_manager/event_pipeline.py:44-94 | one notification per mail over publishes, LLM failures, crashes between effect and PUBLISHED and manual retries |
| MailPublisher.DeliveryOutcome | src/jobs_status_manager/event_pipeline.py:97-120 | a delivery returns normally exactly when the event ends up processed, and touches no other event's processing |
| MailPublisher.DeliverIsRun | src/jobs_status_manager/event_pipeline.py:97-120 | a delivery is at most one effect transaction |
| MailPublisher.DeliverHandlesReceipt | src/jobs_status_manager/event_consumers.py:41-56 | delivering an unprocessed receipt: no job mail is set aside, job mail with an answer gets one analysis with that answer, an LLM error is recorded as terminal or not |
| MailPublisher.LlmErrorsSettle | src/jobs_status_manager/event_pipeline.py:59-83 | after an LLM error the event waits for its retry, or is FAILED at once when the error is not retryable or no attempt is left |
| MailPublisher.RoundTriesEveryDueEvent | src/jobs_status_manager/event_pipeline.py:44-83 | one call tries every due event once and no other, and publishes exactly those whose effect is in place |
| MailPublisher.RaisesIffAgentStatus | src/jobs_status_manager/event_consumers.py:135-211 | an unprocessed action event raises iff its action is an agent's status action |
| MailPublisher.AgentStatusEndsFailed | src/jobs_status_manager/event_pipeline.py:59-83 | in every occurring state such an event is unprocessed and never PUBLISHED, and FAILED once its tries are used up |
| MailPublisher.ThreeRoundsFailAgentStatus | src/jobs_status_manager/event_pipeline.py:44-83 | three due rounds leave a new such event FAILED after three attempts, whatever the LLM answers in each, whatever else is published and whatever other workers do in between |
| MailPublisher.Pipeline.IngestMail | src/jobs_status_manager/mail_service.py:90-124 | inserts mail and event, or recognises the provider id |
| MailPublisher.Pipeline.ConsumeMailReceived | src/jobs_status_manager/event_consumers.py:41-56 | skips a processed event, sets non-job mail aside, stores for job mail one analysis whose verdict is the LLM's answer, or records the LLM failure; other analyses, mails and markers stay |
| MailPublisher.Pipeline.ConsumeJobAnalyzed | src/jobs_status_manager/event_consumers.py:59-118 | routes an analysis to a proposal or a notification together with its marker |
| MailPublisher.Pipeline.ConsumeActionCreated | src/jobs_status_manager/event_consumers.py:135-219 | one confirmation notification per action together with its marker; agent status actions are refused |
| MailPublisher.Pipeline.DeliverEvent | src/jobs_status_manager/event_pipeline.py:97-120 | dispatches on the event type; types without consumer succeed at once |
| MailPublisher.Pipeline.SettleEvent | src/jobs_status_manager/event_pipeline.py:61-82 | keeps both invariants; a waiting event becomes PUBLISHED iff the delivery succeeded, and is due again exactly after the retry delay while attempts remain; other deliveries stay |
| MailPublisher.Pipeline.PublishOnce | src/jobs_status_manager/event_pipeline.py:44-83 | the loop over the due events, oldest first |
| MailPublisher.Pipeline.RetryOutboxEvent | src/jobs_status_manager/event_pipeline.py:86-94 | only a FAILED event becomes due again |
| ToolState.BatchCheckMeans | src/jobs_status_manager/agent/continuation_state.py:74-81 | the check on assistant sequences holds iff they start at 1 and each stays or grows by one |
| ToolWorld.RestartEquivalence | src/jobs_status_manager/agent/continuation_state.py:39-115 | at every transaction boundary load_tool_state returns exactly the live calls, results, pending suffix and both counters |
| ToolChecks.RestartMeans | src/jobs_status_manager/agent/continuation_state.py:39-115 | a restart refuses the rows as incomplete iff a column is missing or out of bounds, as invalid iff they are not registered calls numbered on in batches without a gap with equal arguments; otherwise it raises the first failed call's error, or loads the calls as stored |
| ToolChecks.ResolutionRestarts | src/jobs_status_manager/agent/write_runtime.py:89-157 | after a confirmation or rejection a restart finds the resolution's data in place of the proposal's result and everything else as before |
| ToolChecks.AdapterSendsIff | src/jobs_status_manager/infrastructure/adapters/openai_compatible_llm.py:125-167 | the adapter sends a transcript iff calls and results pair off one to one, the calls are numbered on, batch numbers first appear in counting order, provider ids differ and every call is usable |
| ToolWorld.ChecksAlwaysPass | src/jobs_status_manager/agent/continuation_state.py:71-95 | the structural checks always pass: a restart fails only with the error of a failed tool |
| ToolSteps.CrashLosesNothing | src/jobs_status_manager/agent/continuation_state.py:39-115 | a process that dies between two transactions loses nothing: the restart is in the same state, live context included |
| ToolSteps.PostponedComesBack | src/jobs_status_manager/agent/runtime.py:159-166 | after a retryable LLM failure the run waits and is taken up again with the same context |
| ToolSteps.AnsweredIsFinal | src/jobs_status_manager/agent/delivery.py:55-78 | an answer is stored as the run's message, and the run is not taken up again |
| ToolSteps.FailedToolEndsRun | src/jobs_status_manager/agent/continuation_state.py:93-95 | a tool that fails stores its error, and the next process to take the run up ends it with that error |
| ToolSteps.ResolvedGoesOn | src/jobs_status_manager/agent/write_runtime.py:89-157 | a user's answer stores the resolution as the call's result and sets the run going, and the next process takes it up unless a tool has failed |
| ToolSteps.ParsedIffStorable | src/jobs_status_manager/agent/tool_runtime.py:36-72 | the batches the adapter lets through are exactly those whose rows a restart accepts, with provider ids that are not blank |
| ToolWorld.CallsStayInBudget | src/jobs_status_manager/agent/turn_runtime.py:239-240 | the persisted calls of a run never exceed max_tool_calls over any crashes and resumes |
| ToolWorld.ActionsComeFromValidWrites | src/jobs_status_manager/agent/turn_runtime.py:128-149 | an action exists only for a valid write whose earlier calls all have results |
| ToolWorld.PromptIsAccepted | src/jobs_status_manager/infrastructure/adapters/openai_compatible_llm.py:125-167 | whenever the loop calls the LLM the adapter accepts the context, and its i-th call and reply are the i-th row's call and the data the database stores under that row's id |
| ToolWorld.StepKeepsInv | src/jobs_status_manager/agent/turn_runtime.py:128-264 | each LLM reply, tool result, proposal, recovery, confirmation, crash and restart keeps restart equivalence |
| ToolRun.PersistRestarts | src/jobs_status_manager/agent/tool_runtime.py:36-72 | persisting a batch extends what a restart loads exactly as the live context is extended |
| ToolRun.ReusedIdsAreRefused | src/jobs_status_manager/agent/continuation_state.py:71-81 | a reused provider call id makes every restart raise the invalid-metadata error |
| ToolRun.ResultRestarts | src/jobs_status_manager/agent/tool_runtime.py:192-205 | a stored result extends what a restart loads exactly as the live context |
| ToolRun.FailureRestarts | src/jobs_status_manager/agent/continuation_state.py:93-95 | a stored failure makes every restart raise that same error |
| ToolRun.PreflightNamesFirst | src/jobs_status_manager/agent/write_preflight.py:235-244 | preflight passes iff every pending write is valid, and otherwise names the first malformed one |
| ToolRun.MalformedBatchIsHandled | src/jobs_status_manager/agent/tool_runtime.py:75-103 | the recovery of a batch that preflight refuses: every pending call gets exactly one result, the first malformed write a clarification, every other call a cancellation; nothing else changes |
| ToolBatches.SpoiltBatchIsAllOrNothing | src/jobs_status_manager/agent/turn_runtime.py:128-149 | over all runs: for a batch with a malformed write, no call has an action and none is ever the next to be executed; as soon as one call has a result all have, exactly the first malformed write a clarification and every other call a cancellation |
| ToolBatches.StepKeepsBatches | src/jobs_status_manager/agent/turn_runtime.py:128-264 | each LLM reply, tool result, proposal, recovery, confirmation, crash and restart keeps refused batches all or nothing |
| ToolRun.RecoveryIsIdempotent | src/jobs_status_manager/agent/tool_runtime.py:82-136 | replaying the recovery changes nothing and answers with the stored clarification |
| ToolRun.RecoveryRestarts | src/jobs_status_manager/agent/tool_runtime.py:75-136 | after a recovery a restart finds every call answered |
| ToolMessages.GroupCalls | src/jobs_status_manager/infrastructure/adapters/openai_compatible_llm.py:147-167 | the grouping loop emits the batches in order, or refuses an unusable call |
| ToolMessages.ContinuationMessages | src/jobs_status_manager/infrastructure/adapters/openai_compatible_llm.py:125-167 | the whole function: nothing for no calls, refusal, or the transcript of the batches |
| ToolMessages.AdapterAccepts | src/jobs_status_manager/infrastructure/adapters/openai_compatible_llm.py:131-146 | a restartable context with nothing pending passes every check of the adapter |
| ToolMessages.TranscriptIsFaithful | src/jobs_status_manager/infrastructure/adapters/openai_compatible_llm.py:147-197 | each assistant message is followed by exactly one reply per call in order; read back, the i-th reply carries the provider id of the i-th call and the data of the result stored under the call's id |
| ToolMessages.BatchesPartition | src/jobs_status_manager/infrastructure/adapters/openai_compatible_llm.py:147-167 | the batches are the calls cut in order into non-empty pieces |
| ToolMessages.BatchesAreNumbered | src/jobs_status_manager/infrastructure/adapters/openai_compatible_llm.py:161-166 | the k-th assistant message holds exactly batch k |
| ToolLoop.AgentRun.PersistToolCalls | src/jobs_status_manager/agent/tool_runtime.py:36-72 | one row per request in one transaction: tool, arguments, provider id and text are the request's, sequence and batch number continue |
| ToolLoop.AgentRun.PreflightConfirmationWrites | src/jobs_status_manager/agent/write_preflight.py:235-244 | the loop keeps the first malformed write |
| ToolLoop.AgentRun.PersistWriteRecovery | src/jobs_status_manager/agent/tool_runtime.py:75-136 | the loop adds the missing results; the first clarification message stays and is the answer, otherwise this one's reason is stored and answered |
| ToolLoop.AgentRun.StoreResult | src/jobs_status_manager/agent/tool_runtime.py:192-205 | a stored result extends what a restart loads exactly as the live context; a stored failure makes every restart raise that error; other results stay |
| ToolLoop.AgentRun.ProposeWrite | src/jobs_status_manager/agent/write_proposals.py:40-104 | links the action, stores the proposal's data as the call's result, suspends the run and stores the prompt of a status write; an existing result and final message stay; what a restart loads is the context with the proposal as its next result |
| ToolLoop.AgentRun.ResumePendingTools | src/jobs_status_manager/agent/turn_runtime.py:128-175 | a malformed batch is recovered as a whole; otherwise the calls run in order up to a write or a failure, and for each call that ran the stored result is what its tool returned: data, references or error, and for the write that suspends the run the proposal's; calls behind it have no result; earlier results stay; the context stays restartable |
| ToolLoop.AgentRun.RunTurns | src/jobs_status_manager/agent/turn_runtime.py:211-264 | terminates after at most max_tool_calls - loaded + 1 LLM calls; every new row is a call the LLM asked for in answer to all calls before its batch with their results, every new result is what the service returned for its call or the answer of the final recovery, earlier results stay; an answer is the LLM's answer to the complete transcript; failures and suspensions leave rows a restart reads |
| VectorIndex.IndexAgreement | src/jobs_status_manager/knowledge/index.py:79-218 | in every reachable state each ACTIVE and READY document has all its records in the store, field by field what its rows say: chunk content, owner, kind, version, company, department, position, domain, section, document and index |
| VectorIndex.MoveKeepsInv | src/jobs_status_manager/knowledge/rebuild.py:55-111 | each worker step, user change, rebuild step, failure and crash keeps agreement; several index workers may run |
| VectorIndex.ResetKeepsInv | src/jobs_status_manager/knowledge/rebuild.py:59-80 | PENDING is committed before the reset, so losing the store breaks no agreement |
| VectorIndex.RemovedStaysRemoved | src/jobs_status_manager/knowledge/execution.py:146-150 | removal is final over every later run |
| KnowledgeIndex.SearchNeverReturnsRemoved | src/jobs_status_manager/knowledge/retrieval.py:60-93 | whatever the store answers, a document removed before the search starts is not returned, and results belong to the user |
| KnowledgeIndex.SearchReturnsExactly | src/jobs_status_manager/knowledge/retrieval.py:60-93 | whatever runs between the two sessions and whatever the store answers: the results are, in order, exactly the hits whose document the first session selected and whose chunk row exists, with content, title, section and score read from the rows and the hit |
| KnowledgeIndex.EligibleMeans | src/jobs_status_manager/knowledge/retrieval.py:30-58 | a document is selected iff it is the user's, active and READY and meets every filter that is given |
| KnowledgeIndex.ReturnsNoRemovedIff | src/jobs_status_manager/knowledge/retrieval.py:72-80 | a search returns no removed document iff none of the selected documents it hits is removed while it runs |
| KnowledgeIndex.RemovedDuringSearchIsReturned | src/jobs_status_manager/knowledge/retrieval.py:72-80 | a run from the empty index in which a document is indexed, selected, hit and removed during the search, and is returned |
| KnowledgeIndex.IndexOnceIsRun | src/jobs_status_manager/knowledge/index.py:79-154 | index_once is the run claim, upsert, finish of one worker |
| KnowledgeIndex.IndexOnceKeepsAgreement | src/jobs_status_manager/knowledge/index.py:79-154 | index_once keeps agreement, also when the upsert fails part-way |
| KnowledgeIndex.CleanupKeepsAgreement | src/jobs_status_manager/knowledge/index.py:182-218 | cleanup keeps agreement, also when the delete fails part-way |
| KnowledgeIndex.RebuiltAgrees | src/jobs_status_manager/knowledge/rebuild.py:81-111 | the rows and the store a rebuild leaves agree |
| IndexRounds.RebuildIsRun | src/jobs_status_manager/knowledge/rebuild.py:55-119 | the moves of a rebuild, when nothing comes between them, leave the rows and the store that the one method leaves, and agreement |
| KnowledgeIndex.Knowledge.IndexOnce | src/jobs_status_manager/knowledge/index.py:79-154 | indexes the oldest claimable document, whose records then say what its rows say; a failed upsert counts one attempt, an exhausted lease fails; no other document changes |
| KnowledgeIndex.Knowledge.RecoverStaleIndexing | src/jobs_status_manager/knowledge/index.py:157-179 | the loop returns exactly the stale leases to PENDING or FAILED and counts them |
| KnowledgeIndex.Knowledge.CleanupRemovedOnce | src/jobs_status_manager/knowledge/index.py:182-218 | deletes only a removed document's records; none is cleaned only when none may be |
| KnowledgeIndex.Knowledge.Retry | src/jobs_status_manager/knowledge/index.py:221-246 | resets the count of a failed document of the right lifecycle |
| KnowledgeIndex.Knowledge.AddDocument | src/jobs_status_manager/knowledge/execution.py:73-113 | a new document is active and not yet searchable |
| KnowledgeIndex.Knowledge.RemoveDocument | src/jobs_status_manager/knowledge/execution.py:146-150 | the document is at once no longer searchable |
| KnowledgeIndex.Knowledge.RebuildIndex | src/jobs_status_manager/knowledge/rebuild.py:55-119 | the store holds exactly the chunks of the active documents that ended READY; ready + failed = total, the chunk counts add up, partial_failure iff failed > 0 |
| KnowledgeIndex.Knowledge.Search | src/jobs_status_manager/knowledge/retrieval.py:60-93 | returns, in order and without omission, exactly the hits of selected documents with an existing chunk row, with the rows' contents |
| KnowledgeIndex.ValidatedPicks | src/jobs_status_manager/knowledge/retrieval.py:72-92 | the validated results are exactly the accepted hits, in the order of the hits, and say field by field what the rows say |
| RunExclusion.SessionMutualExclusion | src/jobs_status_manager/agent/delivery.py:35-220 | over every run of moves: no state ever has two ordinary runs of a session in RUNNING, DELIVERY_PENDING or WAITING_USER_CONFIRMATION, iff every finalize_rejected_action is given a run at work or a session without one |
| RunQueue.RunAtWorkIsActive | src/jobs_status_manager/agent/webhook.py:205-218 | over every run of moves: in each state the ordinary run at work is its session's active_run_id, iff every finalize_rejected_action is given its session's active run |
| RunOrder.RunsStartInOrder | src/jobs_status_manager/agent/webhook.py:183-218 | over every run of moves: in each state, behind a queued run of a session everything is queued, iff no finalize_rejected_action is given a run that is queued behind another one |
| RunOrder.FinalizeKeepsOrderIff | src/jobs_status_manager/agent/write_runtime.py:232-236 | finalize_rejected_action keeps the order of arrival iff its run is not queued behind an earlier queued run of its session |
| RunOrder.StartedIsNeverQueued | src/jobs_status_manager/agent/delivery.py:35-52 | a run that has been started is never queued again, over every run of moves, so a late rejection finds its run not queued |
| RunQueue.IntakeIsIdempotent | src/jobs_status_manager/agent/webhook.py:83-107 | a provider event or message starts at most one run, over every run of moves |
| RunQueue.PromoteTakesOldest | src/jobs_status_manager/agent/delivery.py:35-52 | promotion starts exactly the oldest queued run and makes it the session's active run |
| RunExclusion.FinalizeKeepsExclusionIff | src/jobs_status_manager/agent/write_runtime.py:232-236 | finalize_rejected_action keeps mutual exclusion iff its run was at work already or no ordinary run of the session is |
| RunExclusion.RepeatedRejectionBreaksExclusion | src/jobs_status_manager/agent/write_runtime.py:232-236 | a run from the empty tables: the second rejection command for an action restarts its finished run beside a waiting one |
| RunQueue.FallbackNeverFindsARun | src/jobs_status_manager/application/lifecycle.py:335-357 | the fallback pick of the agent cycle excludes every candidate, itself included |
| RunQueue.MoveKeepsInv | src/jobs_status_manager/agent/runtime.py:87-156 | intake, attempts, suspension, retries, deliveries, prompt retries, recovery and crashes keep the queue invariant |
| RunRounds.RunIsProcessed | src/jobs_status_manager/agent/runtime.py:87-121 | a run that is answered and delivered is COMPLETED with its answer, its session goes on to the oldest queued run, and the worker is free |
| RunRounds.NestedRunReturns | src/jobs_status_manager/agent/runtime.py:222-255 | a command may start the run it resolves, and goes on when that run ends |
| RunEffects.IntakeTakesIn | src/jobs_status_manager/agent/webhook.py:83-227 | a known event changes nothing; a command starts without a claim; an ordinary message starts and claims a free session, and waits in a busy one |
| RunEffects.PreparePrepares | src/jobs_status_manager/agent/runtime.py:124-156 | an attempt waits for its retry time, fails an exhausted run and hands its own claim to the oldest queued run, and otherwise counts one more attempt |
| RunEffects.DeliveryIsRecorded | src/jobs_status_manager/agent/delivery.py:81-120 | a delivery ends the run or schedules it for five minutes later while attempts remain; an ended run hands its session to the oldest queued run, which starts |
| RunEffects.CommandIsRecorded | src/jobs_status_manager/agent/delivery.py:123-175 | a command's delivery ends it or schedules it, and no claim or other run changes |
| RunEffects.PromptsMean | src/jobs_status_manager/agent/write_recovery.py:27-106 | a confirmation prompt is sent again exactly while the run waits, the prompt is undelivered and due and attempts remain |
| QueueStore.AgentQueue.PersistEvent | src/jobs_status_manager/agent/webhook.py:83-227 | a new event starts or queues a run; a seen one changes nothing |
| QueueStore.AgentQueue.PromoteNextRun | src/jobs_status_manager/agent/delivery.py:35-52 | the oldest queued run of the session becomes RUNNING and active and no other run changes; nothing changes without one; the queue invariant survives |
| QueueStore.AgentQueue.PrepareRunAttempt | src/jobs_status_manager/agent/runtime.py:124-156 | claims a due attempt; an exhausted run fails and only then gives its own claim to the next |
| QueueStore.AgentQueue.RecordDelivery | src/jobs_status_manager/agent/delivery.py:81-120 | for a run at work: the queue invariant survives; DELIVERY_PENDING iff retryable with attempts left, COMPLETED iff delivered, else FAILED; an ended run hands the session to the oldest queued one |
| QueueStore.AgentQueue.RecordCommandDelivery | src/jobs_status_manager/agent/delivery.py:123-175 | ends or retries a command without touching the session claim |
| QueueStore.AgentQueue.PersistFinalMessage | src/jobs_status_manager/agent/delivery.py:55-78 | the first answer is kept |
| QueueStore.AgentQueue.CompleteRun | src/jobs_status_manager/agent/delivery.py:178-202 | for a run at work: it fails, the session passes to the oldest queued run, and the queue invariant survives |
| QueueStore.AgentQueue.ResumeConfirmed | src/jobs_status_manager/agent/write_runtime.py:153-157 | only a waiting run goes on; exclusion is kept |
| QueueStore.AgentQueue.FinalizeRejectedAction | src/jobs_status_manager/agent/write_runtime.py:232-236 | sets the run RUNNING in any state; says exactly when exclusion survives |
| QueueStore.AgentQueue.RecoverStaleRuns | src/jobs_status_manager/agent/runtime.py:258-275 | the loop fails exactly the stale RUNNING rows and counts them |
| Notifications.AttemptsAreNumberedAndBounded | src/jobs_status_manager/notifications.py:110-127 | attempt numbers are exactly 1..attempt_count; attempts never exceed the limit plus stale recoveries plus manual retries |
| Notifications.PushesAreOnTheLedger | src/jobs_status_manager/notifications.py:110-146 | every push has its attempt row and no attempt is pushed twice |
| Notifications.PushNeedsCommittedAttempt | src/jobs_status_manager/notifications.py:110-131 | a push happens only under an attempt row that is already committed |
| Notifications.SentMeansDelivered | src/jobs_status_manager/notifications.py:190-197 | SENT iff the last attempt was delivered, and no other attempt ever was |
| Notifications.SentIsNeverPushedAgain | src/jobs_status_manager/notifications.py:95-233 | once SENT always SENT and never pushed again, with stale recovery running beside the dispatcher |
| Notifications.DispatchSettlesEligible | src/jobs_status_manager/notifications.py:95-220 | one undisturbed dispatch settles every eligible notification by the provider's answer and leaves the others alone |
| DispatchRounds.RoundDispatchesAll | src/jobs_status_manager/notifications.py:95-164 | the dispatcher's moves, when nothing comes between them, leave the tables of the one method, and the provider sees exactly one push per claimed row, under the attempt number of its claim |
| Notifications.DispatchTakesUp | src/jobs_status_manager/notifications.py:74-220 | recovery and dispatch together: each row that is pending, due, or stale is pushed once with one attempt more and is SENT, FAILED or due again five minutes later by the provider's answer; no other row changes |
| Notifications.MoveKeepsInv | src/jobs_status_manager/notifications.py:74-233 | each transaction, push and crash keeps the ledger |
| Notifications.NotificationStore.RecoverStale | src/jobs_status_manager/notifications.py:74-92 | the loop returns exactly the stale SENDING rows to RETRY_WAIT and counts them |
| Notifications.NotificationStore.ClaimEligible | src/jobs_status_manager/notifications.py:99-127 | the loop claims every eligible row together with its attempt row |
| Notifications.NotificationStore.FinishAttempt | src/jobs_status_manager/notifications.py:167-220 | for a notification in flight: the ledger survives, delivered iff the push succeeded, FAILED or due again exactly after the retry delay otherwise; other rows and attempts stay |
| Notifications.NotificationStore.DispatchOnce | src/jobs_status_manager/notifications.py:95-164 | recover, claim, then push and settle each claim |
| Notifications.NotificationStore.RetryFailed | src/jobs_status_manager/notifications.py:223-233 | only a FAILED notification becomes due again |

## Left out

- Normalisation of company, department and position names, fingerprints and hashes: keys and fingerprints are taken as the values themselves, the SHA-256 prefix of an action id as an arbitrary number.
- Knowledge actions in StatusWrites: only status actions are modelled there; the document rows of execute_add and execute_remove are in VectorIndex without their action states and outbox rows.
- Result texts, error texts, log records, readiness and wall-clock time limits.
- Display, title and content rendering of notifications and prompts.
- CursorCodec: the reset reason for an unsupported cursor version is reported as an invalid cursor, and JSON is parsed only in its canonical form, which is all that decoding can accept.
- MailPolling: a UIDVALIDITY that changes inside one connection is treated as an aborted poll; message fetching is a failure or success of the whole poll; the account's ownership and activity are not modelled.
- ConfirmationCodes: the router's upper-casing is modelled for ASCII letters only, which restricts its input: a few other letters, such as the long s and the dotless i, also become ASCII letters when upper-cased, and a code written with them routes as well.
- Mail content, LLM prompts and the analysis fields that routing does not read; classification is a fixed property of a mail.
- ToolLoop.AgentRun.RunTurns: the conversation history, the active application, mail and document references and the reply target are not part of the context, and confirmation prompt delivery does not change the tables.
- Write argument validation and its reason codes: any validator of the write tools, naming a reason.
- RunQueue: liveness; a session whose run fails without promotion waits for the next promotion. Upload files, user lookup and session creation are left out.
- StatusStore.Store.ProposeStatus: looks at finitely many drawn codes, and says that it is still drawing when all of them are taken, since nothing bounds the service's loop.
- Vectors, distances and the ranking of hits: the store answers any hits.
- Eventual cleanup of removed vectors: cleanup skips pending documents and documents at three attempts, so only safety holds.
- KnowledgeIndex.Knowledge.RebuildIndex: states the exact store for upserts that write all or nothing; partial writes are covered by VectorIndex.MoveKeepsInv.
- Ordering by timestamps: rows are ordered by arrival, and the choice among equally eligible rows is free where the service does not order them.
- Network, SDK, file system, command line, backup and migration code.
