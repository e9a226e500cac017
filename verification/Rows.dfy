/** The rows one run owns in the control-plane database, and the events its transactions append.

    Every foreign key of these tables is scoped by `run_id`, so a database is a map from run ids
    to `RunTables` values. A run has at most one task: that is how runs are created. */
module Rows {
  import opened Common

  /** A UUID. The supply of fresh ones is a counter. */
  type Id = nat

  /** A point on the database clock. */
  type Instant = nat

  datatype RunState =
    | Draft | Qualifying | AwaitingFounderInput | AwaitingBriefApproval | Designing
    | AwaitingDesignApproval | Building | Reviewing | Reworking | AwaitingFinalApproval
    | RunBlocked | RunFailed | RunCanceled | RunCompleted

  datatype Stage = Intake | Product | Design | Build | Qa | Final | Terminal

  datatype TaskState =
    | Queued | Ready | Running | AwaitingInput | RetryWait | Succeeded
    | TaskBlocked | TaskFailed | TaskCanceled

  datatype AttemptStatus = AttemptRunning | AttemptSucceeded | AttemptFailed | Abandoned

  datatype ResultClass =
    | Unclassified | LeaseExpired | StaleBeforeInvocation | StaleReconciliation
    | UnknownExternalOutcome | StaleCompletion | StaleFailure | Success

  datatype EffectStatus = EffectRunning | EffectSucceeded | EffectUnknown

  datatype WaitStatus = Open | Resolved | WaitCanceled | Expired

  predicate IsTerminal(state: RunState) {
    state.RunCanceled? || state.RunFailed? || state.RunCompleted?
  }

  datatype Run = Run(
    state: RunState,
    stage: Stage,
    rowVersion: nat,
    workflowVersion: string,
    contextSnapshot: Id,
    cancellationRequested: bool)

  /** `input_manifest`: what the task was told to work on. Answering a wait merges in the last two. */
  datatype Manifest = Manifest(
    contextSnapshot: Id,
    profileVersion: Id,
    goalVersion: Id,
    workflowVersion: string,
    answerIds: seq<Id>,
    wait: Option<Id>)

  /** `lease_owner`, `lease_token`, `lease_expires_at`: every statement sets or clears all three. */
  datatype Lease = Lease(owner: string, token: Id, expiresAt: Instant)

  datatype Task = Task(
    id: Id,
    kind: string,
    state: TaskState,
    attemptCount: nat,
    rowVersion: nat,
    lease: Option<Lease>,
    availableAt: Instant,
    manifest: Manifest)

  datatype Attempt = Attempt(
    id: Id,
    number: nat,
    manifest: Manifest,
    leaseToken: Id,
    status: AttemptStatus,
    resultClass: ResultClass)

  /** The digest that names an effect. Digests are injective, so the digested value stands for it. */
  datatype EffectKey = EffectKey(task: Id, taskKind: string)

  /** What a provider returned: schema version and content, again standing for its own digest. */
  datatype ModelResult = ModelResult(schemaVersion: string, content: string)

  datatype Effect = Effect(
    key: EffectKey,
    attempt: Id,
    status: EffectStatus,
    invocationCount: nat,
    output: Option<ModelResult>,
    completed: bool)

  datatype Wait = Wait(
    id: Id,
    task: Id,
    workflowVersion: string,
    request: Id,
    requestVersion: nat,
    expectedRunState: RunState,
    expectedRunRowVersion: nat,
    resumeRunState: RunState,
    contextSnapshot: Id,
    schemaId: string,
    schemaVersion: string,
    status: WaitStatus,
    resolvedByEvent: Option<Id>,
    continuationTask: Option<Id>)

  datatype Answer = Answer(
    id: Id,
    wait: Id,
    request: Id,
    requestVersion: nat,
    sourceSnapshot: Id,
    schemaId: string,
    schemaVersion: string,
    note: string)

  datatype Snapshot = Snapshot(id: Id, profileVersion: Id, goalVersion: Id, answerIds: seq<Id>)

  datatype SnapshotAnswer = SnapshotAnswer(snapshot: Id, answer: Id, ordinal: nat)

  datatype Artifact = Artifact(id: Id, version: Id, attempt: Id, lineage: Manifest, content: ModelResult)

  /** The parts of an event payload that carry state, type by type. */
  datatype Payload =
    | RunCreated(state: RunState, stage: Stage, contextSnapshot: Id, initialTask: Option<Id>)
    | GoalQualificationRecorded(goalVersion: Id)
    | TaskStarted(task: Id, attempt: Id, attemptNumber: nat, leaseToken: Id, worker: string)
    | ReconciliationRequired(task: Id, attempt: Id, effectKey: EffectKey)
    | BriefPublished(task: Id, attempt: Id, attemptNumber: nat, artifact: Id, artifactVersion: Id)
    | InputRequested(wait: Id, request: Id, workflowVersion: string, expectedRunState: RunState,
                     expectedRunVersion: nat, contextSnapshot: Id)
    | InputResolved(wait: Id, request: Id, answer: Id, continuationTask: Id, sourceSnapshot: Id,
                    resumedSnapshot: Id, resumedState: RunState)
    | CancelProbe(priorState: RunState, state: RunState)
    | SequenceProbe(index: nat)

  datatype Event = Event(id: Id, sequence: nat, payload: Payload)

  datatype RunTables = RunTables(
    founder: Id,
    run: Run,
    task: Option<Task>,
    attempts: seq<Attempt>,
    effect: Option<Effect>,
    waits: seq<Wait>,
    answers: seq<Answer>,
    snapshots: seq<Snapshot>,
    snapshotAnswers: seq<SnapshotAnswer>,
    artifacts: seq<Artifact>,
    nextSequence: nat,
    events: seq<Event>)

  /** `SELECT ... FROM context_snapshots WHERE id = $1` */
  function FindSnapshot(snapshots: seq<Snapshot>, id: Id): (r: Option<Snapshot>)
    ensures r.Some? ==> r.value in snapshots && r.value.id == id
    ensures r.None? ==> forall s :: s in snapshots ==> s.id != id
  {
    if snapshots == [] then None
    else if snapshots[|snapshots| - 1].id == id then Some(snapshots[|snapshots| - 1])
    else FindSnapshot(snapshots[..|snapshots| - 1], id)
  }

  /** `SELECT * FROM human_waits WHERE id = $1`, as a position. */
  function FindWait(waits: seq<Wait>, id: Id): (r: Option<nat>)
    ensures r.Some? ==> r.value < |waits| && waits[r.value].id == id
    ensures r.None? ==> forall w :: w in waits ==> w.id != id
  {
    if waits == [] then None
    else if waits[|waits| - 1].id == id then Some(|waits| - 1)
    else FindWait(waits[..|waits| - 1], id)
  }

  /** Whether an attempt row with this id exists. */
  function FindAttempt(attempts: seq<Attempt>, id: Id): (r: Option<nat>)
    ensures r.Some? ==> r.value < |attempts| && attempts[r.value].id == id
    ensures r.None? ==> forall a :: a in attempts ==> a.id != id
  {
    if attempts == [] then None
    else if attempts[|attempts| - 1].id == id then Some(|attempts| - 1)
    else FindAttempt(attempts[..|attempts| - 1], id)
  }
}
