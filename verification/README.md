# A verified model of the durable control plane

This project models the parts of the repository that have to be right under any interleaving, and
proves what they promise. It has five parts, each built on values and each tied to methods that
execute the code's statements one by one.

**The control plane.** A run is created with at most one task; workers claim it under a lease, spend
the one model invocation, and complete, fail, block or abandon; a founder may open and answer waits
or cancel; every transaction appends to the run's event log and to the outbox; publishers project the
outbox. One transaction is one step. A worker is a program counter with its claim, so that leases may
expire, others may take over, awaited calls may reject, before their commit or after it, and processes
may die between any two steps. A
`Script` is any sequence of such actions with any clock readings, and the theorems hold after every
script from an empty database.

- `Rows`, `Transactions`: the tables one run owns and what each transaction makes of them.
- `RunDatabase`, `OutboxPublisher`: the same transactions statement by statement, proved equal to the
  functions.
- `Invariants`, `Preservation`, `Monotone`, `TransactionFacts`: what every transaction keeps, and what
  it never takes back.
- `Processes`, `SystemInvariant`, `SystemSteps`: one run with its workers.
- `ProjectionKeys`, `ControlPlane`, `PlaneSteps`, `History`: all runs, the outbox and its publishers.
- `Theorems`, `WaitTheorems`, `ProjectionTheorems`, `EffectAgreement`, `LateInvocation`, `Traces`: the
  results.
- `WorkerLaws`, `FounderLaws`, `OutboxLaws`: when each transaction takes effect and what it leaves, said
  of the rows alone, so that the functions above are held to something other than themselves.
- `WorkerLoop`: the polling loop, and why it drains.

**Command deduplication.** `CommandExecutor` and `DecisionUnitOfWork` run a command at most once per
key. Each refines a history that keeps no records and counts each key's first success only, whatever
else happens to the data between the calls. `AnswerCommands` runs the founder's answers through the
executor, in a run whose workers go on meanwhile. `AuthorityLaws` says who may decide.

**The in-order consumer.** `DeliveryValidation` is the chain of checks on a delivery, reason by
reason; `Consumer` applies, defers, quarantines and acknowledges; `ConsumerTheorems` and
`ConsumerConvergence` say what any deliveries leave behind; `DeliveryLaws` and `ConsumerLaws` say which
are valid and what they do, in the terms of the documents.

**The provider runtime.** `ProviderStore` and `ProviderRuntime` give the store's methods and the
service's calls, split at their awaits; `ProviderRuntimeStore` and `ProviderRuntimeService` are the
classes, with the store's records as objects shared by two maps; `ProviderTheorems`,
`ProviderFences` and `ProviderHistories` prove the fence and the ledger; `ProviderLaws` says which
replies may be committed and what every reply does to its record.

**Canonical JSON.** `JsonText` prints values over UTF-16 code units, `KeyOrder` sorts fields as
JavaScript does, `CanonicalJson` proves what the canonical texts decide, and `CanonicalLaws` what they
are.

Ids come from a counter, the clock readings and the model provider's replies are arbitrary, and
digests are injective, so that what is digested stands for its digest.

## Where the code does less than expected

- `failTask` marks the shared effect UNKNOWN even when its worker has lost the lease and never invoked
  (src/modules/orchestration/orchestration-worker.service.ts:561-568). A task may then succeed while
  its effect says UNKNOWN: `Traces.SuccessWithoutEffect`. `EffectAgreement.EffectAgreesIff` says exactly
  when the two agree.
- Rule 9 of section 14 in docs/architecture/002-multi-agent-runtime.md (line 248) says that terminal
  runs create no invocation. `beginModelInvocation` reads the effect row only, so a worker past its
  lease check still invokes for a canceled run: `Traces.CanceledRunIsInvoked`.
  `LateInvocation.LateInvocationIff` says exactly when that can happen.
- `CommandExecutor.run` takes a stored status of 0 for no status and executes again:
  `CommandExecutor.StatusZeroExecutesTwice`, and exactly when in `CommandExecutor.RetryReplaysIff`.
- `PostgresDecisionUnitOfWork.execute` commits a decision whose body is an array but refuses to replay
  it: `DecisionUnitOfWork.ArrayBodyIsNotReplayed`, and exactly when in `DecisionUnitOfWork.RetriesReplay`.
- A receipt that a check before the reservation wrote, or a key collision, may say FAILED or CANCELED
  about an invocation that is committed: `ProviderHistories.RefusedThoughCommitted`.
- `sortJson` orders keys with `localeCompare`, which may take different keys for equal; two values that
  differ in key order only then get different digests. `CanonicalJson.OrderInsensitiveIff` says exactly
  when they do not.

## Model

| member | source | states |
|---|---|---|
| RunDatabase.Database.CreateGoalAndRun | src/modules/initiatives/initiatives.service.ts:233-348 | inserts the run, at most one queued task, the first snapshot and two events numbered 1 and 2, each posted to the outbox |
| RunDatabase.Database.AppendEvent | src/modules/governance/domain-event.service.ts:21-91 | takes the run's next number once, for one event row and one outbox row |
| RunDatabase.Database.ClaimTask | src/modules/orchestration/orchestration-worker.service.ts:84-230 | claims exactly what is claimable, and commits exactly the claimed rows and one event |
| RunDatabase.Database.LoadContext | src/modules/orchestration/orchestration-worker.service.ts:369-386 | finds the snapshot row the run points at, or that there is none |
| RunDatabase.Database.IsLeaseCurrent | src/modules/orchestration/orchestration-worker.service.ts:232-249 | whether the task is RUNNING under the claim's unexpired token and the run neither terminal nor canceled |
| RunDatabase.Database.BeginModelInvocation | src/modules/orchestration/orchestration-worker.service.ts:251-272 | spends the invocation exactly if the effect is RUNNING and unspent, whatever the run's state |
| RunDatabase.Database.BlockUnknownModelOutcome | src/modules/orchestration/orchestration-worker.service.ts:274-352 | blocks task and run behind the lease fence, else closes only the stale attempt |
| RunDatabase.Database.AbandonAttempt | src/modules/orchestration/orchestration-worker.service.ts:354-367 | closes the worker's own attempt if it is still RUNNING, and nothing else |
| RunDatabase.Database.CompleteTask | src/modules/orchestration/orchestration-worker.service.ts:388-526 | publishes, succeeds and advances the run behind the fence, else abandons the attempt and marks the effect UNKNOWN |
| RunDatabase.Database.FailTask | src/modules/orchestration/orchestration-worker.service.ts:528-624 | the failing counterpart, leaving the task's row version alone |
| RunDatabase.Database.Open | src/modules/durability-spike/durable-wait-spike.service.ts:79-168 | opens a wait on a draft run, or raises and leaves every row and the outbox as they were |
| RunDatabase.Database.Answer | src/modules/durability-spike/durable-wait-spike.service.ts:170-362 | guards of an answer in their order, and the rows of one that passes |
| RunDatabase.Database.RecordAnswer | src/modules/durability-spike/durable-wait-spike.service.ts:211-345 | the statements of an accepted answer make the new snapshot, re-queue the task and resolve the wait |
| RunDatabase.Database.CancelFixture | src/modules/durability-spike/durable-wait-spike.service.ts:461-511 | cancels waits, task and run together, or raises on a terminal run |
| RunDatabase.ProbesAreConsecutive | src/modules/durability-spike/durable-wait-spike.service.ts:432-459 | concurrent appends are numbered consecutively from where the counter stood, in whatever order they commit |
| Preservation.ConstraintsFollow | src/infrastructure/database/migrations/1723435400000-DurableHumanWaitSpike.ts:60-169 | rows that satisfy the invariant satisfy every declared constraint |
| TransactionFacts.Claiming | src/modules/orchestration/orchestration-worker.service.ts:84-230 | a claim keeps the invariant of the run's rows and takes nothing back |
| TransactionFacts.Completing | src/modules/orchestration/orchestration-worker.service.ts:388-526 | so does a completion, fenced or stale, by a worker whose invocation was spent |
| TransactionFacts.Failing | src/modules/orchestration/orchestration-worker.service.ts:528-624 | so does a failure, fenced or stale |
| TransactionFacts.Blocking | src/modules/orchestration/orchestration-worker.service.ts:274-352 | so does blocking, fenced or stale |
| TransactionFacts.Answering | src/modules/durability-spike/durable-wait-spike.service.ts:188-345 | so does any answer, accepted or refused |
| TransactionFacts.Canceling | src/modules/durability-spike/durable-wait-spike.service.ts:461-511 | so does a cancellation |
| SystemSteps.StepKeeps | src/modules/orchestration/orchestration-worker.service.ts:52-82 | every step of every worker, crashes and rejections included, even a rejection after the commit, keeps rows and workers consistent and only advances them |
| PlaneSteps.DoKeeps | src/modules/orchestration/outbox-publisher.service.ts:38-124 | every action on the whole database keeps runs, outbox, receipts and projections consistent |
| PlaneSteps.Reachable | src/modules/orchestration/orchestration-worker.service.ts:52-624 | the invariant holds after every script |
| History.Continues | src/modules/orchestration/orchestration-worker.service.ts:52-624 | between any two moments of any history nothing is taken back: success, effects, versions, snapshots, log, receipts, projections |
| Theorems.LogRefinesRows | src/modules/governance/domain-event.service.ts:21-91 | the log is numbered 1 to next_sequence - 1, and folding it gives back the run's state, stage, version and snapshot and the task's state |
| Theorems.StaleStepsAreInvisible | src/modules/orchestration/orchestration-worker.service.ts:289-304 | supporting fact: a worker without the lease appends nothing and changes nothing the log speaks of |
| Theorems.InvokedAtMostOnce | src/modules/orchestration/orchestration-worker.service.ts:251-272 | provider calls never exceed the invocation count, which never exceeds 1 |
| Theorems.SuccessIsTheInvokers | src/modules/orchestration/orchestration-worker.service.ts:405-504 | a task succeeded exactly if one attempt did; it is the newest, it alone invoked, and the brief is its own and what the provider returned |
| Theorems.SuccessIsForever | src/modules/orchestration/orchestration-worker.service.ts:405-504 | success is absorbing: task, effect, artifacts and number of attempts stay |
| Theorems.NoReportAfterSuccess | src/modules/orchestration/orchestration-worker.service.ts:57-81 | once the task has succeeded, what any worker records about its claim changes no row, be it the `failTask` of the worker whose completion committed and then rejected |
| WorkerLaws.ClaimsIff | src/modules/orchestration/orchestration-worker.service.ts:84-230 | a claim adds an attempt exactly if the run is neither terminal nor being canceled and its task is waiting and due, or RUNNING under a lease that has run out; then it leaves these rows, and otherwise everything as it was |
| WorkerLaws.TakeoverNeedsExpiry | src/modules/orchestration/orchestration-worker.service.ts:89-112 | whatever step adds an attempt to those there are, the newest of them held the lease and it had expired: no interleaving takes a run over before |
| WorkerLaws.FenceIsNewest | src/modules/orchestration/orchestration-worker.service.ts:405-412 | in every reachable run the token fence holds exactly if the task is RUNNING and the claim is the newest |
| WorkerLaws.FenceOverRows | src/modules/orchestration/orchestration-worker.service.ts:289-295 | supporting fact: the token fence over any rows, terminal runs included |
| WorkerLaws.LoadsContext | src/modules/orchestration/orchestration-worker.service.ts:369-386 | the worker reads the snapshot the run points at, and there is one |
| WorkerLaws.LeaseCheckIff | src/modules/orchestration/orchestration-worker.service.ts:232-249 | the check passes exactly if the task still runs under the newest claim and its lease lasts beyond now |
| WorkerLaws.LeaseOverRows | src/modules/orchestration/orchestration-worker.service.ts:232-249 | supporting fact: over any rows a requested cancellation fails the check too |
| WorkerLaws.BeginsIff | src/modules/orchestration/orchestration-worker.service.ts:251-272 | the invocation is begun, and recorded as spent, exactly if the effect is RUNNING and unspent, whatever lease and run say |
| WorkerLaws.InvocationOverRows | src/modules/orchestration/orchestration-worker.service.ts:251-272 | supporting fact: the guarded update over any effect row |
| WorkerLaws.InvokeTells | src/modules/orchestration/orchestration-worker.service.ts:67-73 | the one provider call carries the context the run points at, and its reply is recorded and passed on unchanged |
| WorkerLaws.ClosingDecides | src/modules/orchestration/orchestration-worker.service.ts:274-624 | completing, failing, blocking or abandoning: the newest claim of a running task decides task, run, effect and brief, any other closes at most its own attempt and an effect still RUNNING; a rejection after the commit leaves the same rows |
| FounderLaws.OpensIff | src/modules/durability-spike/durable-wait-spike.service.ts:79-168 | a wait opens exactly on the founder's draft run at the version the founder saw, the faults otherwise, and the rows it leaves; a draft run's task can always wait |
| FounderLaws.OpenOverRows | src/modules/durability-spike/durable-wait-spike.service.ts:83-92 | supporting fact: the guards of an opening over any rows |
| FounderLaws.AnswersLeave | src/modules/durability-spike/durable-wait-spike.service.ts:188-345 | the rows an accepted answer leaves, with the founder's note and a snapshot that lists it last, and which fault any other answer raises |
| FounderLaws.AnswerOverRows | src/modules/durability-spike/durable-wait-spike.service.ts:193-209 | supporting fact: the guard of an answer over any rows |
| FounderLaws.CancelsIff | src/modules/durability-spike/durable-wait-spike.service.ts:461-511 | a run can be canceled exactly if it has not been, and the waits, task and run it leaves |
| FounderLaws.TerminalStates | src/modules/durability-spike/durable-wait-spike.service.ts:470-472 | supporting fact: the three terminal states |
| FounderLaws.CreatedRows | src/modules/initiatives/initiatives.service.ts:233-348 | supporting fact: the rows and the two events of a new run |
| FounderLaws.ProbeRows | src/modules/durability-spike/durable-wait-spike.service.ts:432-459 | supporting fact: a probe appends its index and changes nothing else |
| Theorems.SupersededNeverSucceeds | src/modules/orchestration/orchestration-worker.service.ts:106-133 | once the attempt that spent the invocation is superseded, no continuation succeeds or publishes |
| Theorems.AttemptsAreNumbered | src/infrastructure/database/migrations/1723435200000-InitialControlPlane.ts:190-207 | attempts are 1 to attempt_count, only the newest may be RUNNING, and the task is RUNNING exactly if leased, by the newest attempt |
| Theorems.TerminalIsFinal | src/modules/orchestration/orchestration-worker.service.ts:323-333 | a terminal run keeps its row, its visible state, its artifacts and its number of claims for good |
| Theorems.VersionsRise | src/modules/orchestration/orchestration-worker.service.ts:191-198 | a change of the run row strictly raises its version |
| Theorems.ConstraintsNeverFire | src/infrastructure/database/migrations/1723435400000-DurableHumanWaitSpike.ts:84-105 | no reachable state violates a unique index, foreign key or check among these tables |
| WaitTheorems.OpenWaitMatchesRun | src/modules/durability-spike/durable-wait-spike.service.ts:92-134 | an open wait is the run's only one, its run stands at the recorded version, its task waits unleased |
| WaitTheorems.AnswerCommitsIff | src/modules/durability-spike/durable-wait-spike.service.ts:188-209 | an answer commits exactly if it repeats what one open wait has stored, with a note of 1 to 200 characters |
| WaitTheorems.StoredAnswerCommits | src/modules/durability-spike/durable-wait-spike.service.ts:188-209 | answering an open wait with its stored parameters passes every guard |
| WaitTheorems.AnswersAreResolvedWaits | src/modules/durability-spike/durable-wait-spike.service.ts:229-252 | answers and RESOLVED waits correspond one to one, in order |
| WaitTheorems.SnapshotsListAnswers | src/modules/durability-spike/durable-wait-spike.service.ts:253-307 | the j-th snapshot lists the first j answers, the run's lists all, profile and goal never change, the task's manifest agrees |
| WaitTheorems.ContextIsFrozen | src/modules/orchestration/orchestration-worker.service.ts:153-181 | from the first claim on the snapshot is fixed for good, named by every attempt and read by every provider call |
| WaitTheorems.LoadContextNeverRaises | src/modules/orchestration/orchestration-worker.service.ts:369-386 | a worker always finds the snapshot its claim froze |
| ProjectionTheorems.EventsArePostedOnce | src/modules/governance/domain-event.service.ts:62-89 | every event has one outbox row, and no other row speaks of it |
| ProjectionTheorems.RowsCarryEvents | src/modules/governance/domain-event.service.ts:86-89 | a row that speaks of a run carries one of that run's events unchanged |
| ProjectionKeys.KeyDetermines | src/modules/orchestration/outbox-publisher.service.ts:76-80 | two envelopes share a projection key only if they are one event or one place in one run |
| ProjectionTheorems.KeysAreDistinct | src/modules/orchestration/outbox-publisher.service.ts:75-88 | no two messages of a reachable database share a projection key |
| ProjectionTheorems.ProjectedAtMostOnce | src/modules/orchestration/outbox-publisher.service.ts:60-90 | at most one projection an event, a receipt exactly if there is one, published only if there is one |
| ProjectionTheorems.ConsumeNeverConflicts | src/modules/orchestration/outbox-publisher.service.ts:62-88 | whoever holds a message can consume it; it is projected if and only if it was not before |
| ProjectionTheorems.PublishedIsFinal | src/modules/orchestration/outbox-publisher.service.ts:94-107 | a published message is never leased, reclaimed or reset again |
| ProjectionTheorems.ProjectedOnceEver | src/modules/orchestration/outbox-publisher.service.ts:60-90 | an event projected once is not projected again at any later moment |
| OutboxLaws.AppendedIsPosted | src/modules/governance/domain-event.service.ts:62-89 | what a step appends to a run is in the outbox as it was appended: due at once, unleased, unpublished, never tried |
| OutboxLaws.CompanyEventIsPosted | src/modules/governance/domain-event.service.ts:62-89 | supporting fact: the same for an event of no run |
| OutboxLaws.LeasesIff | src/modules/orchestration/outbox-publisher.service.ts:92-124 | a message is leased exactly if it is unpublished, due and under no lease that lasts |
| OutboxLaws.LeaseIsExclusive | src/modules/orchestration/outbox-publisher.service.ts:92-124 | while a message's lease lasts, no action in any history changes it, but that its holder publishes it |
| OutboxLaws.MarksIff | src/modules/orchestration/outbox-publisher.service.ts:46-56 | a publisher marks its message exactly if it still holds the lease |
| OutboxLaws.KeyTexts | src/modules/orchestration/outbox-publisher.service.ts:76-80 | supporting fact: the text of a projection key |
| OutboxLaws.NumeralReads | src/modules/orchestration/outbox-publisher.service.ts:76-80 | supporting fact: numbers in a key are decimal |
| OutboxLaws.TypesAreNamed | src/modules/governance/domain-event.service.ts:21-40 | supporting fact: the names of the event types |
| OutboxPublisher.Publisher.Claim | src/modules/orchestration/outbox-publisher.service.ts:92-124 | leases a claimable message under a fresh token, or finds that there is none |
| OutboxPublisher.Publisher.Consume | src/modules/orchestration/outbox-publisher.service.ts:60-90 | receipt and projection together, neither twice, neither on a conflict |
| OutboxPublisher.Publisher.PublishOnce | src/modules/orchestration/outbox-publisher.service.ts:38-58 | which message is published, stopped or rejected, and every table afterwards |
| EffectAgreement.EffectAgreesIff | src/modules/orchestration/orchestration-worker.service.ts:474-487 | the effect says SUCCEEDED exactly if the task succeeded with its brief and no worker that never invoked reported a failure after losing its lease while the effect was RUNNING |
| EffectAgreement.EffectMovesOnce | src/modules/orchestration/orchestration-worker.service.ts:579-586 | an effect moves from RUNNING to SUCCEEDED or UNKNOWN and then stays |
| Traces.SuccessWithoutEffect | src/modules/orchestration/orchestration-worker.service.ts:547-570 | a concrete history in which a succeeded task's effect says UNKNOWN |
| Traces.CanceledRunIsInvoked | src/modules/orchestration/orchestration-worker.service.ts:251-272 | a concrete history in which a canceled run is invoked |
| LateInvocation.LateInvocationIff | src/modules/orchestration/orchestration-worker.service.ts:57-75 | a terminal run is invoked later exactly if some worker now is past its lease check with the invocation begun, or unspent |
| WorkerLoop.Worker.PublishOnce | src/modules/orchestration/worker-loop.service.ts:34-34 | publishes a message exactly if one is left, and lowers the work left |
| WorkerLoop.Worker.ProcessOnce | src/modules/orchestration/worker-loop.service.ts:35-35 | processes a task exactly if one is left, and if its lease outlasts the check lowers the work left, even if the provider throws |
| WorkerLoop.Worker.RunLoop | src/modules/orchestration/worker-loop.service.ts:30-40 | at most 3T + U iterations find something to do, and then no task is unfinished and no message unpublished |
| CommandExecutor.Executor.Execute | src/modules/governance/command-executor.service.ts:32-94 | inserts, compares, replays or executes, and rolls back on a raise |
| CommandExecutor.DeduplicationRefinement | src/modules/governance/command-executor.service.ts:41-92 | any history of calls, with other transactions in between, leaves what it leaves without records, where a key belongs to its first request that goes through and is done once that has reported a status other than 0; no PROCESSING record is left |
| CommandExecutor.UnusedKeyExecutes | src/modules/governance/command-executor.service.ts:41-92 | supporting fact: what a call under a new key replies and keeps |
| CommandExecutor.EachKeyCountsOnce | src/modules/governance/command-executor.service.ts:41-92 | if nothing that executed reported 0, any history leaves what running only the first successful call of each key leaves |
| CommandExecutor.RetriesAreReplayed | src/modules/governance/command-executor.service.ts:60-75 | a later call under an executed key gets the stored result, unless that was reported with status 0, or is turned away if it asks for something else, and changes nothing |
| CommandExecutor.ExecutedOncePerKey | src/modules/governance/command-executor.service.ts:69-92 | two executed calls share a key only if they are one request and the earlier reported status 0 |
| CommandExecutor.RetryReplaysIff | src/modules/governance/command-executor.service.ts:69-75 | any later call of an executed command is answered with the first result exactly if the first status was not 0 |
| CommandExecutor.StatusZeroExecutesTwice | src/modules/governance/command-executor.service.ts:69-75 | a concrete command that is executed twice |
| AnswerCommands.RepeatedAnswer | src/modules/durability-spike/durable-wait-spike.service.ts:170-362 | once an answer is accepted, whatever the run does since, the same answer under its key gets the first reply and another one is turned away, nothing changes, the wait has that one answer, and the database alone would refuse it |
| AnswerCommands.AnswersAreRecorded | src/modules/durability-spike/durable-wait-spike.service.ts:170-188 | at every moment there are as many new answers as idempotency records of answers, each of them replayable |
| AnswerCommands.AtAdvances | src/modules/durability-spike/durable-wait-spike.service.ts:170-362 | whatever is answered through the executor, rows and workers stay consistent and only advance |
| DecisionUnitOfWork.UnitOfWork.Execute | test/aico-006-spike/postgres-decision-unit-of-work.ts:118-201 | the transaction with its failpoints, its rollback, and the failpoint after the commit |
| DecisionUnitOfWork.AuthorityBeforeReceipts | test/aico-006-spike/postgres-decision-unit-of-work.ts:131-147 | supporting fact: a caller without current authority gets an answer that no receipt or earlier decision can influence |
| AuthorityLaws.RefusedIff | test/aico-006-spike/postgres-decision-unit-of-work.ts:203-262 | whatever has happened before, a call is refused as unauthenticated exactly if its session is missing, inactive, another's or expired, and as forbidden exactly if only its founder or company is not as required; then it changes nothing |
| AuthorityLaws.DecidesAs | test/aico-006-spike/postgres-decision-unit-of-work.ts:118-201 | what a call that may decide does, failpoint by failpoint: replay, conflict, raise, or decide under the authority read from the rows |
| AuthorityLaws.DismissalHolds | test/aico-006-spike/postgres-decision-unit-of-work.ts:203-262 | once a change of the rows takes the authority away, every later call that relies on it is refused and changes nothing, until the next change |
| AuthorityLaws.FormerFounderIsOut | test/aico-006-spike/postgres-decision-unit-of-work.ts:246-252 | no call by a replaced founder, or for an inactive company, returns or changes anything |
| DecisionUnitOfWork.AllOrNothing | test/aico-006-spike/postgres-decision-unit-of-work.ts:147-194 | supporting fact: a call either commits decision and receipt together or changes nothing |
| DecisionUnitOfWork.RefinesDeduplicated | test/aico-006-spike/postgres-decision-unit-of-work.ts:118-201 | any history of calls and authority changes leaves what each key's first authorized, uninterrupted call leaves |
| DecisionUnitOfWork.RetriesReplay | test/aico-006-spike/postgres-decision-unit-of-work.ts:267-297 | after a commit, even one its caller never heard of, a retry replays it exactly if the body is an object, another request conflicts, and nothing changes |
| DecisionUnitOfWork.ArrayBodyIsNotReplayed | test/aico-006-spike/postgres-decision-unit-of-work.ts:292-297 | a concrete decision that commits and cannot be replayed |
| DeliveryValidation.OnlyTheStoredEnvelope | test/aico-006-spike/consumer-probe.ts:266-343 | supporting fact: only a delivery with the stored envelope, or none of its own, is valid, and the two fare alike |
| DeliveryLaws.ValidIff | test/aico-006-spike/consumer-probe.ts:266-460 | a delivery is valid exactly if envelope and payload are the very objects that the stored event and its evidence determine, under their digests, and the event is caused as it should be |
| DeliveryLaws.ReasonIff | test/aico-006-spike/consumer-probe.ts:266-460 | which check an invalid delivery fails first, reason by reason |
| DeliveryValidation.ValidEnvelopeDescribesEvent | test/aico-006-spike/consumer-probe.ts:281-343 | the envelope of a valid delivery has exactly the ten keys and speaks of the stored event, under its payload's digest |
| DeliveryValidation.ValidApprovalFollowsPolicy | test/aico-006-spike/consumer-probe.ts:426-459 | supporting fact: a valid approval comes right after the policy decision that caused it and that it names |
| Consumer.Probe.InOrder | test/aico-006-spike/consumer-probe.ts:462-594 | offset, inbox, deferral, gate and quarantine after one validated delivery |
| Consumer.Probe.OfCompany | test/aico-006-spike/consumer-probe.ts:596-628 | the same for an event of no run |
| Consumer.Probe.Ack | test/aico-006-spike/consumer-probe.ts:713-737 | an acknowledgement is recorded once and sets published_at |
| Consumer.Probe.Consume | test/aico-006-spike/consumer-probe.ts:170-199 | applies, and acknowledges what was applied or known unless it crashes in between |
| ConsumerTheorems.InboxIsPrefix | test/aico-006-spike/consumer-probe.ts:480-594 | a run's inbox holds exactly its events 1 to last_sequence, each under its digest, and the gate is the fold of that prefix |
| ConsumerLaws.GateTellsLatest | test/aico-006-spike/consumer-probe.ts:558-584 | a run has a gate row exactly if an approval is among its received events; it tells the latest of them, APPROVED exactly if its payload's decision is APPROVE, with that payload's decision record |
| ConsumerLaws.AppliedApprovalAgrees | test/aico-006-spike/consumer-probe.ts:416-445 | an applied approval sets the gate to the status and the decision record of the evidence it was checked against |
| ConsumerLaws.RunEventDelivered | test/aico-006-spike/consumer-probe.ts:462-594 | the tables after a valid run event: applied if next, deferred if early, else unchanged |
| ConsumerLaws.CompanyEventDelivered | test/aico-006-spike/consumer-probe.ts:596-628 | a valid event of no run is received once |
| ConsumerLaws.ForgeryQuarantined | test/aico-006-spike/consumer-probe.ts:669-711 | a delivery of no known message, or one that fails a check, leaves one quarantine row under what was supplied and the reason, and nothing else |
| ConsumerLaws.AcknowledgedIsPublished | test/aico-006-spike/consumer-probe.ts:713-737 | at every moment exactly the acknowledged messages are published |
| ConsumerLaws.Acknowledged | test/aico-006-spike/consumer-probe.ts:713-737 | a process that may acknowledge records its event and publishes its message |
| ConsumerLaws.DeliveredPends | test/aico-006-spike/consumer-probe.ts:170-199 | supporting fact: exactly an applied or deduplicated delivery is left to be acknowledged |
| ConsumerLaws.FirstAcknowledgementStays | test/aico-006-spike/consumer-probe.ts:718-724 | supporting fact: an acknowledgement is never overwritten, over any tables |
| ConsumerTheorems.MessagesAgree | test/aico-006-spike/consumer-probe.ts:489-550 | acknowledged or published means received, deferred means not; SEQUENCE_REGRESSION and INBOX_DIGEST_MISMATCH are never recorded |
| ConsumerTheorems.ValidDeliveryOutcome | test/aico-006-spike/consumer-probe.ts:489-594 | a valid delivery is applied exactly if it is next, deduplicated exactly if earlier, deferred exactly if later |
| ConsumerTheorems.GateFollowsPolicy | test/aico-006-spike/consumer-probe.ts:446-581 | a gate moves only after the policy decision its approval names has been received |
| ConsumerConvergence.Converges | test/aico-006-spike/consumer-probe.ts:480-594 | n passes over the messages of n valid events, in any order with anything in between, leave last_sequence at n and nothing deferred |
| ProviderRuntimeStore.Store.BeginDispatch | test/aico-005-spike/in-memory-runtime.store.ts:130-137 | dispatches a READY record once, or raises and changes nothing |
| ProviderRuntimeStore.Store.RecordResult | test/aico-005-spike/in-memory-runtime.store.ts:139-156 | the state a result leads to; a canceled record stays canceled |
| ProviderRuntimeStore.Store.ScheduleRetry | test/aico-005-spike/in-memory-runtime.store.ts:179-203 | schedules a retry exactly within its bounds |
| ProviderRuntimeStore.Store.BeginRepair | test/aico-005-spike/in-memory-runtime.store.ts:205-220 | at most one repair, under another invocation and reservation |
| ProviderRuntimeStore.Store.MarkReconciled | test/aico-005-spike/in-memory-runtime.store.ts:222-239 | only a record that waits for it is reconciled |
| ProviderRuntimeStore.Store.CommitCandidate | test/aico-005-spike/in-memory-runtime.store.ts:247-274 | commits with all four effects exactly if the fence lets it through |
| ProviderRuntimeService.Service.Execute | test/aico-005-spike/provider-runtime-proof.service.ts:96-210 | the checks in their order, the reservation, and the dispatch up to the provider call |
| ProviderRuntimeService.Service.AfterInvoke | test/aico-005-spike/provider-runtime-proof.service.ts:212-343 | what each answer of the provider makes of record, ledger and receipt |
| ProviderRuntimeService.Service.AfterLookup | test/aico-005-spike/provider-runtime-proof.service.ts:372-456 | the same for the answer of a lookup |
| ProviderRuntimeService.Service.Cancel | test/aico-005-spike/provider-runtime-proof.service.ts:345-348 | cancels the record and aborts the call in flight, if there is one |
| ProviderHistories.StepKeeps | test/aico-005-spike/provider-runtime-proof.service.ts:96-456 | every step of every call keeps store and calls consistent and only moves records onward |
| ProviderLaws.ExecuteBegins | test/aico-005-spike/provider-runtime-proof.service.ts:96-210 | a request is dispatched exactly if no check refuses it and its key is new, with one record and one provider call on the books; else what it is told, check by check, or from the record under its key |
| ProviderLaws.AnswerCommitsIff | test/aico-005-spike/provider-runtime-proof.service.ts:212-325 | an answer commits its record exactly if it returned, is bound to its request, safe to keep, SUCCEEDED and with a valid candidate, and the record was never canceled, reassigned or marked terminal; it commits that candidate |
| ProviderLaws.RefusedLeavesNothing | test/aico-005-spike/provider-runtime-proof.service.ts:216-245 | an answer that is unbound or unsafe leaves every record's result and commit, the artifacts and the tasks as they were |
| ProviderLaws.AnswerConcludes | test/aico-005-spike/provider-runtime-proof.service.ts:212-343 | record and receipt after every kind of answer: a retry exactly within deadline and budgets, an unknown outcome to be reconciled, a canceled record kept canceled |
| ProviderLaws.LookupBegins | test/aico-005-spike/provider-runtime-proof.service.ts:358-362 | supporting fact: a lookup remembers the record as it was |
| ProviderLaws.LookupCommitsIff | test/aico-005-spike/provider-runtime-proof.service.ts:363-456 | a lookup commits its record exactly if it still waits, was unfenced when the lookup began and still is, and the answer is acceptable |
| ProviderLaws.LookupSettles | test/aico-005-spike/provider-runtime-proof.service.ts:363-456 | record and receipt after every kind of lookup answer, and the count of reconciliations |
| ProviderLaws.MarksCount | test/aico-005-spike/in-memory-runtime.store.ts:158-220 | supporting fact: what cancellations, lost leases, terminal marks and repairs do to a record |
| ProviderLaws.FenceOverRecords | test/aico-005-spike/in-memory-runtime.store.ts:247-274 | supporting fact: the fence over any records |
| ProviderHistories.LedgerIsConserved | test/aico-005-spike/in-memory-runtime.store.ts:89-274 | at every await each ledger counter is the sum of what the records show, with one provider call a logical key |
| ProviderHistories.CommittedAtMostOnce | test/aico-005-spike/in-memory-runtime.store.ts:247-274 | each invocation is committed at most once, with one artifact and one task |
| ProviderHistories.FencedForGood | test/aico-005-spike/in-memory-runtime.store.ts:255-263 | a record canceled, reassigned or terminal before it commits never commits; a commit never changes |
| ProviderHistories.ReceiptsTellCommits | test/aico-005-spike/provider-runtime-proof.service.ts:160-343 | a receipt says SUCCEEDED exactly if its record is committed and the call got past the reservation |
| ProviderHistories.RefusedThoughCommitted | test/aico-005-spike/provider-runtime-proof.service.ts:126-161 | a concrete history in which receipts from before the reservation deny a commit |
| ProviderHistories.SignalsFollowCancellation | test/aico-005-spike/provider-runtime-proof.service.ts:208-224 | a call in flight is aborted exactly if its record was canceled since |
| JsonText.StringDecodable | test/aico-005-spike/contracts.ts:391-393 | an escaped string can be read back in one way only |
| JsonText.Decodable | test/aico-005-spike/contracts.ts:390-408 | no text of a value is also the text of another, nor the beginning of one where a value may end |
| CanonicalJson.CanonicalPrintsSorted | test/aico-005-spike/contracts.ts:398-407 | the printer prints the value with its keys sorted at every level, and raises exactly on what is no JSON |
| CanonicalJson.CanonicalDecidesSameness | test/aico-005-spike/contracts.ts:390-408 | two values have one canonical text exactly if they are the same JSON up to the order of keys |
| CanonicalLaws.UnitsBefore | test/aico-005-spike/contracts.ts:399-401 | the default sort puts one key before another exactly if it is a proper prefix or has the smaller code unit where they first differ |
| CanonicalLaws.CanonicalObject | test/aico-005-spike/contracts.ts:398-407 | an object's text is its fields' texts between braces, each key before the next in that order, and it raises exactly if a value does |
| CanonicalLaws.CanonicalArray | test/aico-005-spike/contracts.ts:397-397 | an array's text is its items' texts in their order, between brackets |
| CanonicalLaws.CanonicalAtoms | test/aico-005-spike/contracts.ts:390-396 | supporting fact: the texts of null, truth values, numbers and strings |
| CanonicalLaws.UnescapeEscape | test/aico-005-spike/contracts.ts:391-393 | a decoder written from section 7 of RFC 8259 gives every escaped string back |
| CanonicalLaws.EscapesExactly | test/aico-005-spike/contracts.ts:391-393 | which code units are written as themselves, which with a letter and which with four lower-case digits |
| CanonicalLaws.PairsStay | test/aico-005-spike/contracts.ts:391-393 | supporting fact: surrogate pairs are written as they are |
| CanonicalLaws.ArrayIndexIff | src/common/domain/identifiers.ts:16-22 | a key is enumerated first exactly if it is the decimal text of a number below 2^32 - 1 |
| CanonicalLaws.SortJsonOrders | src/common/domain/identifiers.ts:12-24 | every object of the result has its fields, with their values sorted in turn, array indices first by number and the others by the comparator |
| CanonicalJson.SortJsonIdempotent | src/common/domain/identifiers.ts:12-24 | sorting twice is sorting once, even where the comparator ties keys |
| CanonicalJson.OrderInsensitiveIff | src/common/domain/identifiers.ts:12-24 | key order never shows exactly if the comparator tells apart all keys that enumeration does not order |
| CanonicalJson.DigestDecidesSameness | src/common/domain/identifiers.ts:26-31 | one digested text means one value up to the order of keys, and the converse if the comparator tells keys apart |

## Left out

- NestJS controllers, guards, DTO checks, health checks, configuration and logging: plumbing.
- SQL text, isolation levels, deadlocks and retries of serialization failures: a transaction is atomic, and one that fails did nothing.
- Goal qualification, company profiles, attachments and policy denial reasons: chains of independent checks.
- Policy decisions, budget ledgers, approvals, task edges and tool invocations: inserted or declared beside the modelled rows, and read by none of the modelled code.
- The order in which claims pick among several claimable tasks or messages: any of them may be picked.
- Expiry of human waits: a column that no modelled code reads.
- WorkerLoop.Worker.RunLoop: assumes, as the draining claim does, no other process, no database failure, no earlier lease still running, and each lease check before its own expiry; the pause between empty polls is not modelled.
- RunDatabase.Database.CreateGoalAndRun: leaves out the initiative, goal, qualification and budget rows of the same transaction, which no modelled code reads.
- RunDatabase.Database.ClaimTask: leaves out the policy decision inserted with the claim, and the priority order among claimable tasks; any claimable task may be picked.
- RunDatabase.Database.Answer: is the transaction without the command executor around it; the two are put together in `AnswerCommands`.
- AnswerCommands.RepeatedAnswer: speaks of the records that one run's answers leave; a founder's keys used for another run are not modelled.
- DecisionUnitOfWork.RefinesDeduplicated: no other transaction writes the decision's own tables between calls; changes of sessions, founders and companies are arbitrary.
- Several consumer keys sharing one gate projection: one key is modelled.
- Digests of values JSON cannot serialize in the consumer: delivered envelopes are JSON values with integers; `Number` and `Date.parse` are arbitrary functions.
- Circuit, kill and configuration decisions of the provider runtime, and the validator's findings: inputs of a call. The branches of disabled controls are not modelled.
- ProviderHistories.LedgerIsConserved: assumes that a request under a new logical key names a new invocation.
- Holes in arrays, `toJSON`, and what `JSON.stringify` drops or replaces inside `sortJson`'s result: values are trees, and those that are no JSON are one case.
- How a finite number is printed: a numeral stands for the number, so that 0 and -0 are one.
