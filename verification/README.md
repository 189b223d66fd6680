# Noema: a verified model of the event-sourced core

Noema is an event-sourced runtime. Every component reads one append-only log, decides
something, and appends, mostly under the condition that the log's head is still the one it
read. This project models that core and proves what the design promises of it, over whole
runs: any number of workers, any interleaving, crashes at any step.

| file | what it models |
|---|---|
| `EventLog.dfy` | the log and the in-memory store (`EventLog`); optimistic writers on one log, in every interleaving (`GuardedLog`) |
| `Kernel.dfy` | the kernel: local emits, foreign appends, broker echoes and late deliveries against one materialised situation |
| `Outbox.dfy`, `Inbox.dfy` | the delivery protocol: leases, fencing tokens, retries, crashes |
| `Attention.dfy`, `AttentionRecords.dfy`, `AttentionAudit.dfy`, `Checkpoints.dfy`, `AttentionWorkers.dfy` | the attention exposure projection, exactly which records it accepts, its audit, durable watermarks, and the recorders and worker that append to them |
| `Endogenous.dfy` | DREAM epochs: opened behind their scan, spent only while governed, ended once |
| `Shadow.dfy`, `Salience.dfy`, `Registry.dfy` | the shadow worker's signal cache, salience resolution, pinned rulesets |
| `Agenda.dfy`, `Continuity.dfy` | greedy selection under resource vectors; refresh planning and waking under an observation budget |
| `Agent.dfy` | the agent's intent lifecycle across crashes and recovery |
| `Sequences.dfy`, `Basics.dfy` | selection and canonical order, shared by the selectors; options and one arithmetic fact |

How the pieces fit. What the code changes in place is a class whose methods are proved equal,
branch by branch, to a function of the old state; the theorems are about those functions and
about the runs they make up. A concurrent protocol is a step function over a state that holds
every worker, and its theorems quantify over all action sequences. `GuardedLog` is shared by
the optimistic workers: a rule says which event may follow which history, a writer observes
that rule on the head it read, and `DecisionsHoldWhereTheyLand` gives that every stored event
obeys the rule on exactly the history in front of it. `SharedLog` is the same log as seen from
inside one worker's method: between any two of its steps others append whatever the rule admits.

Time is a natural number that only grows. Content ids are datatype values made of exactly the
fields that the code hashes, so equal ids mean equal identity fields.

## What is proved, and where the code falls short of it

Main results: confluence and exactly-once publication of the kernel; safety and progress of
outbox and inbox, with leases and retries that protect exactly as long as they say; exactly which
records the attention projection accepts, and a complete exposure denominator behind every
checkpoint, always within reach; the DREAM epoch lifecycle; agreement of cached and durable
signals; monotone inhibition; order independence, soundness and envy-freeness of agenda selection;
the greedy refresh plan, decision by decision; wake agreement; at-most-once invocation of
non-idempotent capabilities, and exactly when a success is not repeated; stability of pinned
rulesets.

Seven places where the code does less than one might read into it are kept as the code has
them, each with its exact condition or a concrete run.

- Emitting every event on a kernel is not enough for convergence: re-emitting by id a foreign
  event that its situation has already passed neither applies nor publishes it
  (`Kernel.ReEmittingDoesNotRepair`). The exact condition is
  `Kernel.ConvergedExactlyWhenAllSeen`.
- An ordinary event that a recorded attention policy recognizes but whose payload that policy
  cannot read makes the log unreplayable from then on: `Attention.OrdinaryAppendExactly` says
  exactly which ordinary appends are safe.
- The agenda selector's message asks for exactly one estimate per activity, but two are
  accepted and the last one wins, so arrival order can decide
  (`Agenda.ContradictingEstimatesDecideByArrival`). Exactly when it does not is
  `Agenda.SelectionIgnoresOrderExactly`: for a call that its guards let through, the values that
  contradict each other lie on the same side of the threshold, unless the activity has expired,
  and rank the activity alike against every other one.
- The agenda's tolerance lets consumption exceed a continuous ceiling by one unit of 1e-12;
  what is reported as remaining is then zero (`Agenda.AgendaIsSound`).
- A shadow worker puts a signal in memory before its trace is stored. When that emission fails
  and a later trigger is completed first, memory and history disagree
  (`Shadow.SkippedTriggerDisagrees`). `Shadow.AgreementExactly` says exactly when they agree, by
  the attempts, completions and restarts of the run, and `Shadow.SkippingAgreesExactly` exactly
  when a skipped trigger does no harm.
- The agent starts its workers before it reads the log for recovery, and recovery acts on what it
  read without reading again. So it may abandon an action that is still running and then
  succeeds (`Agent.OverlappingRecoveryEndsTwice`), or one that has succeeded by the time recovery
  comes to it (`Agent.StaleRecoveryEndsTwice`). Every intent ends at most once as long as nothing
  authorized is under way at the moment of that read (`Agent.IntentsEndOnce`), and that condition
  is exact (`Agent.RecoveryIsSafeExactly`). At-most-once invocation holds either way.
- A deferred intent has been authorized, and recovery does not read deferrals: after a restart
  it is executed or abandoned like any other unfinished intent
  (`Agent.AutonomousAgent.RestoreExecutionState`).

## Model

| member | source | states |
|---|---|---|
| EventLog.AppendKeeps | src/noema/store.py:64-95 | an append never rewrites history, keeps ids unique, stores or finds the event under its id, and repeating it changes nothing |
| EventLog.CompareAndAppendIsExact | src/noema/store.py:68-86 | compare-and-append changes the log exactly when the id is new and the head is the expected one; then it appends just that event; a reported sequence is where the id is stored |
| EventLog.SequenceOfStable | src/noema/store.py:88-95 | the sequence of a stored id never changes |
| EventLog.InMemoryEventStore.Append | src/noema/store.py:64-66 | the locked append, list and id index together |
| EventLog.InMemoryEventStore.AppendIfHead | src/noema/store.py:68-86 | an existing id wins over the head comparison; a stale or negative head is refused and nothing changes |
| EventLog.InMemoryEventStore.Read | src/noema/store.py:97-110 | the whole history behind a sequence, in canonical order, empty past the head |
| EventLog.InMemoryEventStore.ReadSelected | src/noema/store.py:97-110 | the same with a filter on events and a limit, a negative one included |
| EventLog.InMemoryEventStore.LatestSequence | src/noema/store.py:112-114 | the head is the number of events |
| GuardedLog.NextKeeps | src/noema/store.py:68-86 | one step of any writer, observing, committing, crashing or foreign, keeps the log admitted and every pending attempt justified at the head it observed |
| GuardedLog.DecisionsHoldWhereTheyLand | src/noema/store.py:68-86 | in every run of any number of optimistic writers, whatever a decision relied on holds on exactly the history its event lands behind |
| GuardedLog.SharedLog.Commit | src/noema/store.py:68-86 | compare-and-append of an event admitted on the head that was read keeps the log admitted, whatever was appended meanwhile |
| Kernel.SituationIsFoldOfSeen | src/noema/kernel.py:103-170 | at every moment of every run the situation is the sequence-ordered fold of exactly the events seen: there at startup, covered by a late-arrival rebuild, handed over, or emitted ahead of the situation |
| Kernel.ArrivedIsTracked | src/noema/kernel.py:103-166 | an event has arrived in a run exactly when it was handed over or emitted ahead of the situation |
| Kernel.FirstAppendIsAhead | src/noema/kernel.py:120-166 | a local emit that stores a new event always brings it to the situation |
| Kernel.Confluence | src/noema/kernel.py:103-170 | once every event behind startup has arrived, in any order, with any emits, re-emits, refusals and foreign appends between, the situation is the replay of the whole log |
| Kernel.ConvergedExactlyWhenAllSeen | src/noema/kernel.py:143-161 | a kernel has converged if and only if every event was there at startup, was covered by a rebuild, or arrived; stated for the projection that remembers everything |
| Kernel.ReEmittingDoesNotRepair | src/noema/kernel.py:143-146 | a run in which every event is emitted here and the situation still differs from replay |
| Kernel.PublicationCount | src/noema/kernel.py:143-166 | how often each stored event is published locally, in closed form, always under its own sequence and in normalised form |
| Kernel.ExactlyOncePublication | src/noema/kernel.py:143-166 | an event behind startup that the broker hands over at most once is published exactly once if it arrived and never otherwise, whether emitted, echoed, late or re-emitted |
| Kernel.OutcomeIsExact | src/noema/kernel.py:103-166 | what a caller is told: the place of its event, which is behind the log exactly when the id was new and otherwise where that id has been all along; a refusal exactly for a new id at another head, with the expected and the actual one, and then nothing has happened |
| Kernel.ReportedPlaceStands | src/noema/kernel.py:103-166 | in every run, each call that was told a sequence finds the event of its id at that sequence at the end |
| Kernel.SituationModel.Rebuild | src/noema/situation.py:260-277 | a rebuild is the fold of the history from the empty situation, with the last sequence as version |
| Kernel.NoemaKernel.RebuildSituation | src/noema/kernel.py:168-170 | rebuilding reads the whole store, normalises each event and touches nothing but the situation |
| Kernel.NoemaKernel.Start | src/noema/kernel.py:62-71 | a started kernel is left alone, a stopped one refuses, otherwise replay and startup sequence are set |
| Kernel.NoemaKernel.DeliverStored | src/noema/kernel.py:143-166 | the branches behind the append: idempotent re-emission, echo, startup history, late arrival with rebuild, new event |
| Kernel.NoemaKernel.Commit | src/noema/kernel.py:103-166 | one commit under the emit lock, starting first if needed; a refused head or a stopped kernel changes nothing else |
| Kernel.NoemaKernel.CommitAnywhere | src/noema/kernel.py:73-101 | emit and ingest: append or find, then deliver with or without distribution |
| Kernel.NoemaKernel.CommitAtHead | src/noema/kernel.py:80-92 | emit under an expected head: delivered only when stored, refused otherwise |
| Kernel.NoemaKernel.Stop | src/noema/kernel.py:194-200 | stopping changes no event, situation or queue content of the model |
| Outbox.PublishedExactlyOnceAndHandedOver | src/noema/store.py:461-471 | in every reachable state a published row was handed to the broker and exactly one completion reported success; an unpublished one has none |
| Outbox.SupersededGrantIsPowerless | src/noema/store.py:398-507 | tokens of a row strictly increase from grant to grant, and an earlier grant can neither complete nor retry the row |
| Outbox.GrantsAreExclusive | src/noema/store.py:398-450 | no two publishers ever work under the same grant |
| Outbox.PublishedIsFinal | src/noema/store.py:398-507 | whatever happens later, a published row is unchanged, tokens never fall, and nothing handed over or granted is forgotten |
| Outbox.UnpublishedIsClaimableAgain | src/noema/store.py:398-450 | from every reachable state, with leases and backoffs that differ from publisher to publisher, after the longest of them a claim takes exactly the unpublished rows that fit its limit, in order, each under a token no earlier grant had |
| Outbox.ContendedRowIsGranted | src/noema/store.py:398-450 | the same under contention: whoever claims after that wait, an unpublished row is granted to one of them or still ready for the next, and an idle publisher with a large enough limit is sure to leave it granted |
| Outbox.ClaimLength | src/noema/store.py:398-450 | a claim hands out as many records as rows are ready, up to its limit |
| Outbox.RecordIsGranted | src/noema/store.py:398-450 | the records handed out are exactly those of the rows taken, each with its new token and attempt count |
| Outbox.ClaimIsExact | src/noema/store.py:398-450 | field by field: a row is granted only while unpublished, available and free or past its lease, and is then leased from now on under the next token; a row that could have been granted and was not finds the limit used up by older ones |
| Outbox.LeaseProtectsItsHolder | src/noema/store.py:411-418 | in every run, until a handed-out record is completed or retried, nobody is granted its row before its lease has run out, and an idle publisher that asks is granted it exactly from then on |
| Outbox.RetryDelaysItsRow | src/noema/store.py:475-507 | in every run, after a retry nobody is granted the row before its backoff has passed, and an idle publisher that asks is granted it exactly from then on |
| Outbox.BackoffDoubles | src/noema/delivery.py:258-268 | the backoff starts at the polling interval and doubles with every attempt, at most twelve times, up to its maximum |
| Outbox.EnqueueKeepsRows | src/noema/store.py:261-333 | however an append ends, with or without an expected head, the outbox holds at most one row per event, and only for events in the log |
| Outbox.DeliveryStore.AppendWithOutbox | src/noema/store.py:261-333 | with or without an expected head, event and row are stored together; a refused append stores neither |
| Outbox.DeliveryStore.SelectAndGrant | src/noema/store.py:398-450 | the select in row order and the updates of the selected rows |
| Outbox.DeliveryStore.ClaimOutbox | src/noema/store.py:398-450 | a claim changes exactly the rows it takes: lease, token and attempts |
| Outbox.DeliveryStore.CompleteOutbox | src/noema/store.py:461-471 | succeeds exactly for the current token of an unpublished row, which becomes published and free |
| Outbox.DeliveryStore.RetryOutbox | src/noema/store.py:491-507 | succeeds exactly for the current token of an unpublished row, which becomes free and available later |
| Outbox.RoundIsRun | src/noema/delivery.py:239-273 | a publisher's round is a run of the protocol |
| Outbox.OutboxPublisher.RunOnce | src/noema/delivery.py:239-273 | the loop over a claimed batch, for any broker answers, ends in the state of that run, and returns the number of completions |
| Inbox.AcknowledgedMeansHandled | src/noema/delivery.py:350-394 | an acknowledged message has a completed row; a completed row was completed exactly once, under a token whose handler returned normally |
| Inbox.SupersededTokenIsPowerless | src/noema/store.py:605-667 | only the latest token can complete or retry; every earlier one leaves all rows as they are |
| Inbox.HandlersOverlapOnlyPastALease | src/noema/store.py:525-588 | two handlers run for one message at once only when one lease has run out, and then under different tokens |
| Inbox.CompletionIsFinal | src/noema/store.py:525-667 | completion is absorbing: nothing later changes the row, and tokens never fall |
| Inbox.RedeliveryMakesProgress | src/noema/store.py:525-588 | from every reachable state, after the longest lease and retry delay, a redelivered message is either acknowledged as done or handled under a new, highest token |
| Inbox.RedeliveryIsAnswered | src/noema/delivery.py:350-394 | after that wait, one redelivery whose handler returns leaves the message completed and acknowledged, one whose handler raises leaves it open unless it was done already, and the consumer is free either way |
| Inbox.RetryDelaysItsMessage | src/noema/store.py:525-667 | in every run, after a failed attempt was retried and as long as nobody else was granted the message, whoever asks before the retry time is turned away and whoever asks from then on gets the next token |
| Inbox.LeaseProtectsItsHandler | src/noema/store.py:544-568 | in every run, while a row is in processing under the token it was granted, whoever else asks within the lease is turned away, and whoever asks when it has run out takes over under the next token |
| Inbox.FirstReceiptIsGranted | src/noema/store.py:569-588 | a message that was never granted is granted to the first consumer that asks, under token 1 |
| Inbox.InboxStore.ClaimInbox | src/noema/store.py:525-588 | new, completed, busy or re-acquired rows, in the order the code decides them |
| Inbox.InboxStore.CompleteInbox | src/noema/store.py:605-621 | succeeds exactly for the current token of a row in processing |
| Inbox.InboxStore.RetryInbox | src/noema/store.py:643-667 | succeeds exactly for the current token of a row in processing, which becomes pending |
| Inbox.InboxConsumer.ProcessOnce | src/noema/delivery.py:350-394 | one message claimed, handled, completed or retried, and answered: acknowledged only behind a completed row |
| Attention.TelemetryIsNeverRecognized | src/noema/deliberative_attention/models.py:466-518 | a policy that can be constructed never recognizes attention telemetry or checkpoints |
| Attention.RecognizedExactly | src/noema/deliberative_attention/projection.py:381-403 | after any replay the recognized opportunities are exactly the events behind a recorded policy that it recognizes |
| Attention.DispositionsAreExact | src/noema/deliberative_attention/projection.py:405-469 | in a replayable log every disposition cites exactly its preceding head and decides an event that a policy recorded earlier recognizes |
| Attention.OneRecordPerIdentity | src/noema/deliberative_attention/projection.py:605-611 | one disposition per opportunity, one outcome per disposition, one feedback record per identity |
| Attention.OutcomesAreExact | src/noema/deliberative_attention/projection.py:471-497 | every outcome cites exactly its preceding head and an event that lies strictly behind its disposition and is not older than the decision |
| Attention.FeedbackIsExact | src/noema/deliberative_attention/projection.py:499-525 | the same for feedback |
| Attention.OrdinaryAppendExactly | src/noema/deliberative_attention/projection.py:185-273 | an ordinary event keeps the log replayable if and only if its id is new, governance takes it, its type is not reserved, and every recorded policy that recognizes it can read it |
| Attention.ReplayShows | src/noema/deliberative_attention/projection.py:185-278 | every index of a rebuilt projection holds exactly the records of the log, each at its one position |
| AttentionRecords.RecognitionMeans | src/noema/deliberative_attention/models.py:498-518 | an opportunity is recognized exactly when its event lies behind a record of the policy, is an ordinary event of one of its types, starts with one of its source prefixes and one of its subject prefixes where it has any, and holds every payload field the policy names |
| AttentionRecords.FactsAreExtracted | src/noema/deliberative_attention/projection.py:381-403 | what the projection keeps of a recognized event is what its policy reads out of that event |
| AttentionRecords.SchemaAppendExactly | src/noema/deliberative_attention/projection.py:185-273 | a schema record keeps the log replayable if and only if it is new under its content id and governance takes it; a checkpoint, if and only if its id is new and governance takes it |
| AttentionRecords.PolicyAppendExactly | src/noema/deliberative_attention/models.py:466-496 | a policy record keeps the log replayable if and only if it has its content id, is new and governed, its schema stands in the log, it names at least one event type and no telemetry, and it names information fields, none of them features, exactly when it is governed |
| AttentionRecords.DispositionAppendExactly | src/noema/deliberative_attention/projection.py:405-469 | a disposition keeps the log replayable if and only if it is new under its content id, cites the current head and an opportunity recognized before its causal cut, decides no earlier than its source happened, cites events within the cut, has a snapshot that can be checked, and, where it is governed, the very facts of its source |
| AttentionRecords.OutcomeAppendExactly | src/noema/deliberative_attention/projection.py:471-497 | an outcome keeps the log replayable if and only if it is new under its content id, cites the current head and an event behind its disposition in the log and in time, is observed no earlier and recorded no earlier still, and inherits what its disposition was derived from |
| AttentionRecords.FeedbackAppendExactly | src/noema/deliberative_attention/projection.py:499-525 | the same for feedback |
| Attention.AttentionExposureProjection.Recognize | src/noema/deliberative_attention/projection.py:381-403 | the loop over policies adds exactly one opportunity per policy that recognizes the event, and raises when a payload cannot be read |
| Attention.AttentionExposureProjection.Apply | src/noema/deliberative_attention/projection.py:185-273 | an event is taken exactly when it is accepted on the view so far; one behind the cursor raises unless it repeats the last |
| Attention.AttentionExposureProjection.Rebuild | src/noema/deliberative_attention/projection.py:275-278 | a rebuild succeeds exactly on replayable logs and forgets whatever was there before |
| AttentionAudit.RecognizedIsExact | src/noema/deliberative_attention/projection.py:293-299 | the denominator of an audit is exactly the recognized opportunities of its policy, schema and range, each once, in sequence order |
| AttentionAudit.MissingIsUndecided | src/noema/deliberative_attention/projection.py:300-311 | missing means exactly: recognized without a disposition |
| AttentionAudit.AuditPartitions | src/noema/deliberative_attention/projection.py:293-338 | on every replayable log, recorded and missing partition the recognized, complete and incomplete partition the recorded, and so do resolved and censored |
| AttentionAudit.DenominatorCompleteExactly | src/noema/deliberative_attention/models.py:1333-1337 | the denominator is complete if and only if something was recognized and all of it has a disposition |
| AttentionAudit.AuditsConcatenate | src/noema/deliberative_attention/projection.py:280-360 | audits of two adjacent ranges concatenate, field by field, to the audit of their union |
| AttentionAudit.RecordsAreExact | src/noema/deliberative_attention/projection.py:300-311 | the records of an audit are exactly the dispositions in the log for its policy and schema on sources in its range |
| AttentionAudit.AuditIsExact | src/noema/deliberative_attention/projection.py:312-345 | every list of an audit, read off the events: a recorded key is complete when policy and record are governed and the features of that record satisfy the schema, resolved when an outcome other than an unknown one is linked to it, and feedback is observed when a feedback event names it; otherwise it is in the opposite list |
| AttentionAudit.AuditCoversItsRange | src/noema/deliberative_attention/projection.py:280-299 | an audit goes through exactly for a range that starts at a position and does not end before it, and covers everything recognized in it |
| Checkpoints.RestoredIsLatest | src/noema/checkpoints.py:146-149 | a restored checkpoint is the last one its consumer wrote |
| Checkpoints.RestoreSnoc | src/noema/checkpoints.py:122-144 | a log stays restorable exactly when what it is extended by is no checkpoint, or a well-formed one that does not regress |
| Checkpoints.LatestStands | src/noema/checkpoints.py:122-144 | where the latest checkpoint of a consumer stands, with none of that consumer behind it |
| Checkpoints.ConsumerCheckpointProjection.Apply | src/noema/checkpoints.py:122-144 | a regressing or malformed checkpoint raises and changes nothing; other events are passed over |
| Checkpoints.ConsumerCheckpointProjection.Rebuild | src/noema/checkpoints.py:146-149 | a rebuild raises exactly when some checkpoint regresses |
| AttentionWorkers.AdmittedReplays | src/noema/deliberative_attention/service.py:482-508 | on every log the recorders and workers can produce, neither the attention replay nor the checkpoint replay raises |
| AttentionWorkers.DecidedPersists | src/noema/deliberative_attention/service.py:737-785 | what is decided up to a watermark stays decided under every replayable extension |
| AttentionWorkers.CheckpointsCoverTheDenominator | src/noema/deliberative_attention/service.py:737-824 | behind a checkpoint at c, every recognized event up to c has a durable disposition, stored between the event and the checkpoint |
| AttentionWorkers.EveryInterleavingKeepsTheDenominator | src/noema/deliberative_attention/service.py:737-824 | the same in every interleaving of any number of recorders and workers that crash anywhere, with any admitted foreign appends; and both replays succeed |
| AttentionWorkers.CheckpointsStrictlyIncrease | src/noema/deliberative_attention/service.py:787-824 | checkpoints of one consumer strictly increase, each observing exactly the head before it |
| AttentionWorkers.LatestNeverFalls | src/noema/checkpoints.py:122-144 | the latest checkpoint is only ever replaced by a higher one |
| AttentionWorkers.LatestMeansDecided | src/noema/deliberative_attention/service.py:787-824 | everything up to the latest checkpoint is decided |
| AttentionWorkers.UndecidedIsRecordable | src/noema/deliberative_attention/service.py:225-302 | whatever was recognized and is undecided can be decided at the current head, however long ago it happened, if its features can be checked and governance takes the record |
| AttentionWorkers.DecideAll | src/noema/deliberative_attention/service.py:737-785 | from every admitted log a sequence of dispositions, one per undecided opportunity, leaves none undecided and recognizes nothing new |
| AttentionWorkers.DenominatorIsReachable | src/noema/deliberative_attention/service.py:737-824 | whatever recorders, workers and foreign appends have left, dispositions alone lead to a checkpoint over the whole log: the rules never block each other |
| AttentionWorkers.AttentionRecorder.CurrentProjection | src/noema/deliberative_attention/service.py:160-163 | on a shared log the replay never raises and shows the whole log |
| AttentionWorkers.AttentionRecorder.AppendExact | src/noema/deliberative_attention/service.py:482-508 | validated on a replay of exactly the cited head, then appended there; a lost race means the log has grown, a landed event is in it, a refusal means that replay does not accept the event, and a conflict that its id is stored already |
| AttentionWorkers.AttentionRecorder.RecordDisposition | src/noema/deliberative_attention/service.py:225-302 | whoever appends meanwhile: a decision that does not match a recognized opportunity is refused; one that was taken before is returned, another one conflicts; a matching, fitting decision is never refused, but kept under its content id, beaten by another record, or out of attempts |
| AttentionWorkers.AttentionRecorder.LinkOutcome | src/noema/deliberative_attention/service.py:304-379 | without a disposition refused; the outcome linked before is returned, another one conflicts; one that cites an event behind its disposition, in time, is never refused, but kept with exactly these fields, beaten by another, or out of attempts |
| AttentionWorkers.AttentionRecorder.RecordFeedback | src/noema/deliberative_attention/service.py:381-480 | without a disposition refused; the same feedback is returned, at another time it conflicts; one that cites an event behind its disposition, in time, is never refused |
| AttentionWorkers.FittingIsTaken | src/noema/deliberative_attention/service.py:225-302 | a decision that matches its opportunity and fits it when it is made stays acceptable, whatever lands before it, until the opportunity is decided |
| AttentionWorkers.DeliberativeAttentionWorker.AdvanceCheckpoint | src/noema/deliberative_attention/service.py:787-824 | over a decided stretch, the watermark of the consumer is at or above it afterwards, here or by another worker; with honest content ids this fails only by running out of attempts while the head moves |
| AttentionWorkers.DeliberativeAttentionWorker.Decide | src/noema/deliberative_attention/service.py:759-778 | a recognized, undecided event is prepared, decided and recorded, durably, unless attempts run out, another process decides an opportunity of the policy meanwhile, or provider, governance or a content id let it down |
| AttentionWorkers.DeliberativeAttentionWorker.Take | src/noema/deliberative_attention/service.py:751-784 | one source behind the watermark: existing or new disposition first, checkpoint only afterwards; it fails only for those reasons |
| AttentionWorkers.DeliberativeAttentionWorker.ProcessAvailable | src/noema/deliberative_attention/service.py:737-785 | a pass that ends leaves the watermark at or above the head it started from, and returns one durable record for each source behind the old watermark that the policy recognizes, in log order; it gives up only when nobody recorded its policy, or for one of those reasons |
| Endogenous.StatusMeaning | src/noema/endogenous/projection.py:259-486 | an epoch has a status exactly when it has started, at the one position behind its trigger, and is active exactly until its terminal event |
| Endogenous.AtMostOneActiveEpoch | src/noema/endogenous/projection.py:138-142 | no consumer ever has two active epochs |
| Endogenous.StartsAreAdjacent | src/noema/endogenous_worker.py:582-600 | every start record sits immediately behind the scan that triggered it, with that scan's policy, budget and times, and no other start shares that trigger |
| Endogenous.OutputsAreGoverned | src/noema/endogenous_worker.py:602-630 | an inquiry, activity, estimate or agenda is only ever stored for an epoch that has started and not ended, before its deadline, where its governing intents are current |
| Endogenous.EpochsEndOnce | src/noema/endogenous_worker.py:668-684 | an epoch ends at most once, across preemption, expiry and abandonment |
| Endogenous.NeverActiveAgain | src/noema/endogenous/projection.py:489-503 | an epoch whose start position has passed and that is not active never becomes active |
| Endogenous.EveryInterleavingKeepsTheLifecycle | src/noema/endogenous_worker.py:582-684 | all of it in every interleaving of any number of workers crashing anywhere: one active epoch per consumer, one ending, no cognition behind an ending, every start adjacent to its scan, every output governed and in time where it lands |
| Endogenous.NothingElseOpens | src/noema/endogenous_worker.py:551-580 | after every epoch open behind a cut has been closed, none from behind the cut is open |
| Endogenous.EndedHereOrThere | src/noema/endogenous_worker.py:551-580 | an epoch that was active and no longer is was ended by the event drafted for it or by one that another process appended meanwhile |
| Endogenous.EndogenousWorker.AppendEpochStart | src/noema/endogenous_worker.py:582-600 | the start is stored, or at some head in between the scan was no longer the head or another epoch was open; this worker appends nothing but that start |
| Endogenous.EndogenousWorker.AppendEpochOutput | src/noema/endogenous_worker.py:602-630 | the output is stored, or at some head in between the epoch was closed, overdue or no longer governed; this worker appends nothing but that output |
| Endogenous.EndogenousWorker.AppendTransition | src/noema/endogenous_worker.py:668-690 | unless attempts run out, the epoch is closed afterwards, by the drafted event exactly when it is reported as present and by another one otherwise; this worker appends nothing but that event |
| Endogenous.EndogenousWorker.CloseAll | src/noema/endogenous_worker.py:551-580 | one terminal event per target: none of the targets is active or can become so, and those reported ended by the event drafted for them; nothing else is written |
| Endogenous.EndogenousWorker.ProcessForeground | src/noema/endogenous_worker.py:551-580 | when foreground processing returns, no epoch of the consumer that was opened before the foreground event is active; each that was active is reported as preempted and ended by exactly this foreground event, or another process ended it; nothing but such preemptions, timed no earlier than the start, is written |
| Endogenous.EndogenousWorker.ExpireEpochs | src/noema/endogenous_worker.py:191-210 | no epoch of the consumer whose deadline had passed is active; each that was active is reported as expired and ended by its expiry, or another process ended it; nothing but such expiries is written |
| Endogenous.EndogenousWorker.FinishIncompleteScan | src/noema/endogenous_worker.py:454-483 | an unfinished scan leaves its epoch closed, unless it is still active, in time and governed, or attempts run out while the log grows; it is written off as expired only past its deadline, and as abandoned only before it and with an intent lapsed |
| Endogenous.RebuildStatuses | src/noema/endogenous/projection.py:186-201 | the statuses held by the projection are the fold of start and terminal events |
| Sequences.AscendingIsUnique | src/noema/autonomic/salience.py:256-258 | a collection has only one listing in a strict order that tells its elements apart |
| Sequences.SortForgetsArrival | src/noema/autonomic/salience.py:56-78 | canonical order forgets arrival order and repetition |
| Sequences.TextLessExactly | src/noema/autonomic/salience.py:256-258 | the order of ids is the lexicographic one: a proper prefix, or the smaller character at the first difference |
| Salience.ScoreUnit | src/noema/autonomic/salience.py:80-170 | every score is in the unit interval |
| Salience.AttenuationFalls | src/noema/autonomic/salience.py:200-213 | one more inhibitor anywhere in the order never leaves more of a signal |
| Salience.AttenuationIsDamped | src/noema/autonomic/salience.py:200-213 | what is left of a signal is the product, over its own modulators, of one minus strength, confidence and salience multiplied |
| Salience.OppositionIsExact | src/noema/autonomic/salience.py:80-110 | the inhibitors a decision names are exactly those of the subject or of every subject, of equal or higher precedence than one of its signals, with a pattern that matches its kind; hard ones inhibit and graded ones modulate |
| Salience.IrrelevantInhibitorsDoNothing | src/noema/autonomic/salience.py:80-110 | inhibitors of another subject, of lower precedence or without a matching pattern leave the decision exactly as it is without any |
| Salience.DispositionMeans | src/noema/autonomic/salience.py:111-198 | suppressed exactly when every signal has a hard inhibitor in force against it; otherwise reflex, wake, remember or defer exactly as the survivors, their suggestions, their damped urgencies and the score call for |
| Salience.SurvivorsAreWeaker | src/noema/autonomic/salience.py:80-170 | with one more inhibitor, what survives misses more, is less urgent and requests less |
| Salience.InhibitionIsMonotone | src/noema/autonomic/salience.py:80-191 | one more hard or graded inhibitor never raises a subject's disposition, in the order reflex, wake, remember, defer, suppress |
| Salience.AddedInhibitorNeverRaises | src/noema/autonomic/salience.py:56-191 | the same for a whole resolution before the budget: same subjects, none with a higher disposition |
| Salience.ResolutionForgetsArrival | src/noema/autonomic/salience.py:56-78 | resolution is the same for any permutation and duplication of its input signals, conflicts included |
| Salience.WakeBudgetIsExact | src/noema/autonomic/salience.py:215-254 | a budget keeps as many wakes as it allows; every one kept has a higher score than every one deferred, or the same score and the smaller subject, and nothing else changes |
| Salience.ResolutionRespectsWakeBudget | src/noema/autonomic/salience.py:56-78 | a resolution wakes for at most as many subjects as its budget |
| Salience.SalienceResolver.CollectActive | src/noema/autonomic/salience.py:56-70 | the active signals each once, or a conflict exactly when one id carries two contents |
| Salience.SalienceResolver.Resolve | src/noema/autonomic/salience.py:56-78 | the method computes the resolution the lemmas are about |
| Salience.SalienceResolver.ResolveSubject | src/noema/autonomic/salience.py:80-170 | the loops over signals, inhibitors and patterns compute blockers, modulators, damping, score and disposition of one subject |
| Salience.SalienceResolver.ApplyWakeBudget | src/noema/autonomic/salience.py:215-254 | no budget leaves the decisions alone, otherwise the ranked front keeps its wake |
| Agenda.LookupIgnoresOrderExactly | src/noema/endogenous/policy.py:141-151 | the lookup of estimates by activity ignores their order if and only if no two of them contradict each other |
| Agenda.SelectionForgetsArrival | src/noema/endogenous/policy.py:125-213 | any reordering of the activities, and of estimates that contradict each other harmlessly if at all, selects the same agenda or fails alike |
| Agenda.SelectionIgnoresOrderExactly | src/noema/endogenous/policy.py:125-213 | the order of the estimates makes no difference to a call if and only if a guard refuses the call or contradicting values of one activity fall on the same side of the threshold, unless it has expired, and rank it alike against every value of every other activity |
| Agenda.ContradictingEstimatesDecideByArrival | src/noema/endogenous/policy.py:141-151 | two contradicting estimates of one activity: the order of arrival decides whether it is selected |
| Agenda.ConsumptionFits | src/noema/endogenous/policy.py:162-202 | what is consumed is what the selected activities cost together, and fits the ceiling within the tolerance |
| Agenda.DeferredDoesNotFit | src/noema/endogenous/policy.py:162-202 | nothing deferred would still fit beside what was finally selected |
| Agenda.NoEnvy | src/noema/endogenous/policy.py:162-202 | an eligible activity ranked above a selected one and no larger in any resource is selected |
| Agenda.LastEstimateCounts | src/noema/endogenous/policy.py:141-151 | the value that counts for an activity is that of its last estimate |
| Agenda.DecisionsAreExact | src/noema/endogenous/policy.py:153-202 | each activity gets the decision its own fields call for: expired, not worthwhile, or selected or deferred; deferred only if it exceeds some ceiling beside everything selected |
| Agenda.DecisionsDescend | src/noema/endogenous/policy.py:153-161 | decisions come by falling net value, then falling urgency, then falling confidence, then rising id |
| Agenda.NobodyEnvies | src/noema/endogenous/policy.py:153-202 | in terms of the activities: one that is worth selecting, no larger than a selected one and of higher value (or, at equal value, urgency, confidence, id) is selected |
| Agenda.TotalIsSpent | src/noema/endogenous/policy.py:162-202 | the total is, resource by resource, the sum over the selected activities |
| Agenda.SuppressedExactlyWhenIneligible | src/noema/endogenous/policy.py:162-202 | an activity is selected or deferred exactly when it is neither expired nor below the threshold |
| Agenda.AgendaIsSound | src/noema/endogenous/policy.py:125-213 | one decision per activity in canonical rank order; consumed and remaining make up the ceiling, up to one unit of tolerance; the final subtraction never raises |
| Agenda.SelectStableGreedy | src/noema/endogenous/policy.py:125-213 | the selector's loop, with every error check in the code's order |
| Continuity.NeedUnit | src/noema/continuity/reconcile.py:161-180 | a need is in the unit interval, and zero for a sufficient source |
| Continuity.PlanCoversTheGaps | src/noema/continuity/reconcile.py:34-180 | the sources a plan refreshes or defers are exactly the coverage gaps, and the need it records for each is the uncertainty the coverage weighs it with |
| Continuity.PlanStaysInBudget | src/noema/continuity/reconcile.py:34-159 | a plan costs what its refreshes cost together, within the budget, for at most the allowed number of sources |
| Continuity.DeferralIsForced | src/noema/continuity/reconcile.py:34-159 | a candidate is passed over only when the plan is full or the source costs more than is left at the end; one taken behind it costs strictly less |
| Continuity.RefreshedExactly | src/noema/continuity/reconcile.py:80-159 | a gap is refreshed exactly when, beside the refreshed sources of more need per cost (ties by need, then id), it fits the source limit and the budget |
| Continuity.DeferredForBetter | src/noema/continuity/reconcile.py:80-159 | beside a deferred gap every refreshed one has at least its need per cost, with ties by need and then id, or the deferred one costs more and does not fit |
| Continuity.DefaultBudgetTakesAll | src/noema/continuity_worker.py:125-128 | without an explicit budget no gap is ever deferred |
| Continuity.CoverageSumsDemands | src/noema/continuity/models.py:446-515 | summing and testing over the sorted demands, as the coverage does, is the same as over all sources |
| Continuity.WakePicture | src/noema/continuity_worker.py:152-267 | a wake refreshes exactly the sources whose adapter delivered, leaves all others as they were, and lists the unavailable ones |
| Continuity.WakeAgreement | src/noema/continuity_worker.py:114-301 | the runtime ends oriented if and only if nothing was deferred and nothing unavailable, and the uncertainty removed is the sum of the needs that were met |
| Continuity.ObservationCostWithinBudget | src/noema/continuity_worker.py:152-190 | observation cost is at most plan cost, which is at most the budget |
| Continuity.ReportedDecisionsAreConsistent | src/noema/continuity/models.py:884-924 | a wake reports one decision per source, in order, with needs in the unit interval |
| Continuity.ReportedOutcomesAreConsistent | src/noema/continuity/models.py:884-924 | refreshed and unavailable sources are disjoint and all of them demanded |
| Continuity.WakeReconciler.SelectSources | src/noema/continuity/reconcile.py:34-159 | the greedy loop over candidates by need per cost |
| Continuity.WakeReconciler.Plan | src/noema/continuity/reconcile.py:34-159 | one decision per source in id order around that selection |
| Continuity.SituatedContinuityWorker.RefreshAll | src/noema/continuity_worker.py:152-267 | the refresh loop; it raises exactly when some adapter it calls was configured unlike its source |
| Continuity.SituatedContinuityWorker.Wake | src/noema/continuity_worker.py:73-330 | planning, refreshing and taking stock: inconsistent inputs are refused, and a wake that goes through satisfies the agreement above with cost within budget |
| Registry.SnapshotIsCanonical | src/noema/autonomic/models.py:426-444 | a pinned ruleset lists each rule once, in one version, in canonical order, and there is only one such list |
| Registry.PinnedRulesetIsStable | src/noema/autonomic/registry.py:71-103 | the snapshot at a cursor is unchanged by everything registered behind it |
| Registry.StoredReferencesRestoreTheRuleset | src/noema/shadow.py:194-239 | snapshotting again at the cursor with the stored references yields exactly the pinned ruleset, whatever was registered since |
| Registry.RuleRegistry.RegisterProjection | src/noema/autonomic/registry.py:59-69 | a version is registered once; a repeat is accepted only with the same content at the same sequence |
| Registry.RuleRegistry.RebuildFrom | src/noema/autonomic/registry.py:54-57 | the registry after a log, or a failure exactly when some registration conflicts |
| Registry.RuleRegistry.Snapshot | src/noema/autonomic/registry.py:71-103 | the loop that keeps the highest eligible version of each rule yields the pinned ruleset |
| Shadow.EmitStores | src/noema/shadow.py:318-330 | emitting traces makes exactly their signals durable besides what was, repeats included |
| Shadow.StepsAreExact | src/noema/shadow.py:256-396 | what each step does to memory, durable traces and checkpoint: triggers behind the checkpoint are passed over, an attempt puts a first part of the signals and stores all of them but perhaps the last, and only a completion, which drops what is no longer valid, moves the checkpoint |
| Shadow.StateIsHistory | src/noema/shadow.py:285-446 | what is durable, what a restart would load, what is in memory without a trace and what is traced but was not loaded, each read off the attempts, completions and restarts of the run |
| Shadow.AgreementExactly | src/noema/shadow.py:285-446 | at a checkpoint of any run, memory and rebuilt history hold the same signals at every later trigger if and only if no still valid signal was put since the last restart without its trace ever being stored, and none was stored behind the checkpoint that restart loaded and not put since |
| Shadow.SkippingAgreesExactly | src/noema/shadow.py:256-396 | completing any trigger after a run in order, also past an open one: they agree if and only if every still valid signal that the attempts at the open trigger left without a trace, or traced behind the loaded checkpoint, is also a signal of the completed one |
| Shadow.CheckpointsAgree | src/noema/shadow.py:285-396 | while triggers are taken in order they agree at every checkpoint, through any partial attempts, failures and restarts |
| Shadow.RestartResolvesAlike | src/noema/shadow.py:425-446 | where they agree, a restarted worker resolves the next trigger exactly as the running one would have |
| Shadow.SkippedTriggerDisagrees | src/noema/shadow.py:318-330 | a run that completes a later trigger first and ends with memory and history apart |
| Shadow.AutonomicShadowWorker.SignalsFromHistory | src/noema/shadow.py:425-446 | the signals of the durable traces up to a sequence |
| Shadow.AutonomicShadowWorker.Restore | src/noema/shadow.py:86-149 | a start restores what is durable through the checkpoint |
| Shadow.AutonomicShadowWorker.EmitTraces | src/noema/shadow.py:318-330 | each signal is put in memory before its trace is stored, and stored traces are not repeated |
| Shadow.AutonomicShadowWorker.ProcessTrigger | src/noema/shadow.py:285-396 | traces, pruning, decisions and checkpoint of one trigger, as the machine's step |
| Shadow.AutonomicShadowWorker.FailTrigger | src/noema/shadow.py:256-283 | a failed attempt leaves what it had put and stored so far, as the machine's step |
| Agent.NonIdempotentAtMostOnce | src/noema/agent.py:389-729 | over any crashes, restarts and recoveries, overlapping or not, a non-idempotent capability is invoked at most once per intent |
| Agent.OnlyAuthorizedIsInvoked | src/noema/agent.py:303-360 | nothing is invoked for an intent that was not durably authorized |
| Agent.AttemptsAreBounded | src/noema/agent.py:443-490 | in every run each execution has invoked its capability once, and again only for an idempotent one and at most as often as its retries allow |
| Agent.NothingIsLost | src/noema/agent.py:303-587 | as long as nothing crashes or is cancelled, every authorized intent has ended, is being executed, or was put off with a record |
| Agent.IntentsEndOnce | src/noema/agent.py:589-729 | every intent ends at most once, in any run whose recovery passes read the log only while nothing authorized is under way; what happens while a pass acts on what it read is not restricted |
| Agent.RecoveryIsSafeExactly | src/noema/agent.py:589-729 | after any such run, a pass may read the log without any intent ever ending twice, however the run goes on, if and only if at that moment no execution is live and no other pass has intents left |
| Agent.OverlappingRecoveryEndsTwice | src/noema/agent.py:142-169 | workers start before recovery reads the log: a run in which an intent is abandoned while it runs and then succeeds |
| Agent.StaleRecoveryEndsTwice | src/noema/agent.py:603-729 | the pending list is not read again: a run in which nothing is live when recovery acts, and an intent that has succeeded is abandoned |
| Agent.OnlySucceededIsSkipped | src/noema/agent.py:397-412 | over any crashes, restarts and recoveries an intent is skipped only under a key that had succeeded before |
| Agent.SucceededIsNotRepeatedExactly | src/noema/agent.py:589-630 | once a pass has read the log, an intent whose key had succeeded there is never invoked again by this process, however the run goes on, if and only if no execution of it had an invocation ahead at that moment |
| Agent.AutonomousAgent.ExecuteIntent | src/noema/agent.py:389-587 | beside workers that append meanwhile: skipped exactly when its key has already succeeded, otherwise invoked until success, a final failure or the end of its retries, which only idempotent capabilities have; exactly one ending recorded |
| Agent.AutonomousAgent.ReadHistory | src/noema/agent.py:592-630 | the pending intents in order of authorization, and the keys that have succeeded |
| Agent.AutonomousAgent.RecoverIntent | src/noema/agent.py:630-729 | one intent of the pending list is abandoned, executed to an ending, or left alone for lack of attention, without another look at the log; non-idempotent ones are never invoked |
| Agent.AutonomousAgent.RestoreExecutionState | src/noema/agent.py:589-729 | whatever running workers append meanwhile, the pass records exactly one ending, in order, for each intent that was pending when it read the log, except those without a lease, and the ending is the one the code calls for; a key that had succeeded in that log is skipped and not invoked; given its leases every earlier authorized intent has ended; nothing non-idempotent is invoked |

## Left out

Members that state less than the code does:

- Kernel.NoemaKernel.Start: the two separate reads of a start are one step, so nothing is appended between them, and starting the bus is not modelled; runs begin from a start with replay.
- Kernel.NoemaKernel.Stop: stopping the bus and closing the store are not modelled.
- Kernel.ConvergedExactlyWhenAllSeen: "only if" is stated for the projection that remembers every event; a projection that ignores events may agree with replay by accident.
- Outbox.OutboxPublisher.RunOnce: one uninterrupted round at one clock reading; other publishers, lease expiry and crashes between its steps are covered by the protocol runs, not by the method.
- Inbox.InboxConsumer.ProcessOnce: one uninterrupted message at one clock reading, and not the empty fetch; interleavings are covered by the protocol runs.
- Attention.AttentionExposureProjection.Apply: information governance and the governance of records are one abstract predicate of the log and the event.
- AttentionAudit.AuditIsExact: whether a resolved outcome counts as positive or as negative evidence is not represented.
- Checkpoints.ConsumerCheckpointProjection.Apply: the subject of a checkpoint event and its processing lag are not represented.
- AttentionWorkers.AttentionRecorder.RecordDisposition: the endless retry loop takes a number of attempts, and running out stands for a crash; when it reports that, the log has grown by at least that many events. Of the source that an opportunity repeats, position and time are compared with the log, the event type is not. The governance events it writes first are not modelled.
- AttentionWorkers.AttentionRecorder.LinkOutcome: bounded attempts and governance events as above.
- AttentionWorkers.AttentionRecorder.RecordFeedback: bounded attempts and governance events as above.
- AttentionWorkers.DeliberativeAttentionWorker.AdvanceCheckpoint: bounded attempts as above; the consumer id is used for one policy, and information governance lets checkpoint events pass.
- AttentionWorkers.DeliberativeAttentionWorker.ProcessAvailable: registration of contracts and the hook behind a disposition are not modelled.
- AttentionWorkers.EveryInterleavingKeepsTheDenominator: foreign events are any the replay accepts, and checkpoints of other consumers do not regress; `OrdinaryAppendExactly` says which ordinary events those are.
- AttentionWorkers.DenominatorIsReachable: governance takes dispositions and checkpoints, every feature snapshot can be checked, and nothing else is stored under their content ids.
- Endogenous.EveryInterleavingKeepsTheLifecycle: foreign events carry names of their own, never the content id of an endogenous record.
- Endogenous.StatusMeaning: information governance of endogenous events is not modelled, and whether a governing intent is current is an abstract predicate of the log.
- Endogenous.EndogenousWorker.AppendEpochStart: bounded attempts, and running out means the log grew by at least that many events.
- Endogenous.EndogenousWorker.AppendEpochOutput: bounded attempts; of an output's content only its kind, identity, epoch and governing intents are modelled, not the checks of inquiries, activities and estimates against each other.
- Endogenous.EndogenousWorker.AppendTransition: bounded attempts as above.
- Endogenous.EndogenousWorker.ProcessForeground: the checkpoint written at the end is not modelled.
- Endogenous.EndogenousWorker.FinishIncompleteScan: bounded attempts; the scan checkpoint is not modelled.
- Salience.ScoreUnit: arithmetic is over exact reals, and rounding a score is any monotone function that fixes 0 and 1.
- Salience.SalienceResolver.ResolveSubject: glob matching of signal kinds is a parameter; evidence ids and reason texts of a decision are not modelled.
- Agenda.SelectStableGreedy: resources, values and thresholds are integers in units of 1e-12, so float rounding is not captured; resources are natural numbers, as their constructor refuses negative ones.
- Continuity.WakeReconciler.Plan: refresh requests and the reasons of decisions are not modelled.
- Continuity.SituatedContinuityWorker.RefreshAll: an adapter that raises on an unknown cursor is not modelled.
- Continuity.SituatedContinuityWorker.Wake: source freshness at wake time is an input in the unit interval instead of an exponential of age; memory assertions, issues, missed-change metrics and the events of epoch and report are not modelled.
- Continuity.ReportedOutcomesAreConsistent: changed sources, the highest issue and the latency of a report are not modelled.
- Registry.RuleRegistry.Snapshot: how a rule reference reads is any injective rendering.
- Shadow.CheckpointsAgree: signals are told apart by content, as their ids are; evaluation is a function of the log up to the trigger, and one worker instance runs at a time; epoch rotation and the content of decisions are not modelled.
- Shadow.AutonomicShadowWorker.SignalsFromHistory: two contents under one signal id, an error in the code, cannot occur here.
- Shadow.AutonomicShadowWorker.Restore: epoch, registry and the catch-up behind a start are not modelled.
- Agent.AutonomousAgent.ExecuteIntent: a timeout is a retryable failure and an exception a final one; facts, result events, compensation and reflection are not modelled.
- Agent.AutonomousAgent.RestoreExecutionState: an append that fails and ends the pass is modelled in the runs (`Drop`), not in the method.
- Agent.OnlyAuthorizedIsInvoked: the policy's decision and the attention lease are inputs of the run.

Parts of the repository that are not modelled:

- SQL, SQLite and PostgreSQL connections, NATS, asyncio and its thread pool, telemetry, tracing, JSONL files: each locked store operation is one atomic step on a log or on rows.
- SHA-256 and canonical JSON: content ids are injective by construction.
- Schema normalisation that raises, bus queues and their draining, and what `SituationModel` computes per event: the situation is any fold over normalised events.
- Reading features and information ids out of a payload, checking a feature snapshot, and information governance: parameters of the attention model, among them the source access of learning-grade records.
- Registration of schemas, policies and governance contracts by the recorder, and the provider that decides dispositions: the projection's handling of these records is modelled, their writers are not.
- Checkpoints written by plain emit under a per-instance lock (endogenous and shadow workers) when several instances share a consumer id.
- `_process_scan` detectors, calibration and valuation of cognition, the salience rules themselves, memory, strategy and intent internals.
- The deliberation cycle in front of authorization, work allocation, heartbeats.
- `reconsideration_worker.py` and `reconsideration_discovery_worker.py`: the same compare-and-append pattern as the attention recorders.
- `scheduler.py`, `system.py`, `deployment.py`, field validation and dictionary round trips of records: plumbing and easy members.
