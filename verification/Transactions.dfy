/** What each transaction of the worker and of the human-wait service does to the rows of one run.

    A transaction commits all of its statements or none, so a raise leaves the rows as they were.
    The declared constraints are not checked here: `ConstraintsHold` collects them, and they are
    proved of the rows every transaction commits. Where a transaction needs new ids it takes them
    from `base` upward; `IDS_PER_STEP` bounds how many. */
module Transactions {
  import opened Common
  import opened Rows

  const IDS_PER_STEP: nat := 8

  datatype Fault =
    | Conflict(code: string)
    | NotFound
    | ValidationFailed
    | InjectedRollback

  datatype Outcome<+T> =
    | Committed(tables: RunTables, value: T)
    | RolledBack(fault: Fault)
  {
    /** The rows the database holds afterwards. */
    function Rows(before: RunTables): RunTables {
      if Committed? then tables else before
    }
  }

  /** The constraints the migrations declare on these tables. */
  predicate ConstraintsHold(db: RunTables) {
    && db.run.rowVersion > 0
    && FindSnapshot(db.snapshots, db.run.contextSnapshot).Some?
    && (db.task.Some? ==> db.task.value.rowVersion > 0)
    && AttemptConstraints(db.task, db.attempts, db.effect, db.artifacts)
    && WaitConstraints(db.run, db.task, db.waits, db.answers, db.snapshots, db.events)
    && SnapshotConstraints(db.snapshots, db.answers, db.snapshotAnswers)
    && LogConstraints(db.nextSequence, db.events)
  }

  /** A foreign key to the run's task. */
  predicate IsTask(task: Option<Task>, id: Id) {
    task.Some? && task.value.id == id
  }

  /** A foreign key to the run's events. */
  predicate IsEvent(events: seq<Event>, id: Id) {
    exists i :: 0 <= i < |events| && events[i].id == id
  }

  /** A foreign key to the answers. */
  predicate IsAnswer(answers: seq<Answer>, id: Id) {
    exists i :: 0 <= i < |answers| && answers[i].id == id
  }

  predicate AttemptConstraints(task: Option<Task>, attempts: seq<Attempt>, effect: Option<Effect>, artifacts: seq<Artifact>) {
    && (forall i, j :: 0 <= i < j < |attempts| ==>
          attempts[i].id != attempts[j].id && attempts[i].number != attempts[j].number)
    && (forall a :: a in attempts ==> a.number > 0)
    && (attempts != [] ==> task.Some?)
    && (effect.Some? ==> IsTask(task, effect.value.key.task) && EffectChecks(effect.value, attempts))
    && |artifacts| <= 1
  }

  predicate WaitConstraints(run: Run, task: Option<Task>, waits: seq<Wait>, answers: seq<Answer>, snapshots: seq<Snapshot>,
                            events: seq<Event>) {
    && (forall i, j :: 0 <= i < j < |waits| ==>
          waits[i].id != waits[j].id && !(waits[i].status.Open? && waits[j].status.Open?))
    && (forall w :: w in waits ==> WaitChecks(w) && WaitReferences(w, run, task, snapshots, events))
    && (forall i, j :: 0 <= i < j < |answers| ==>
          answers[i].id != answers[j].id && answers[i].wait != answers[j].wait)
    && (forall a :: a in answers ==> AnswersOne(a, waits))
  }

  predicate SnapshotConstraints(snapshots: seq<Snapshot>, answers: seq<Answer>, links: seq<SnapshotAnswer>) {
    && (forall i, j :: 0 <= i < j < |snapshots| ==> snapshots[i].id != snapshots[j].id)
    && (forall i, j :: 0 <= i < j < |links| ==>
          links[i].snapshot == links[j].snapshot ==>
            links[i].answer != links[j].answer && links[i].ordinal != links[j].ordinal)
    && (forall l :: l in links ==> FindSnapshot(snapshots, l.snapshot).Some? && IsAnswer(answers, l.answer))
  }

  predicate LogConstraints(next: nat, events: seq<Event>) {
    && next > 0
    && (forall i, j :: 0 <= i < j < |events| ==>
          events[i].id != events[j].id && events[i].sequence != events[j].sequence)
  }

  predicate EffectChecks(e: Effect, attempts: seq<Attempt>) {
    && e.invocationCount <= 1
    && FindAttempt(attempts, e.attempt).Some?
    && match e.status
       case EffectRunning => !e.completed && e.output.None?
       case EffectSucceeded => e.completed && e.output.Some?
       case EffectUnknown => e.completed
  }

  predicate WaitChecks(w: Wait) {
    && w.requestVersion > 0 && w.expectedRunRowVersion > 0
    && (w.status.Open? ==> w.resolvedByEvent.None? && w.continuationTask.None?)
    && (w.status.Resolved? ==> w.resolvedByEvent.Some? && w.continuationTask.Some?)
    && (w.status.WaitCanceled? || w.status.Expired? ==> w.continuationTask.None?)
  }

  /** The foreign keys of a wait. */
  predicate WaitReferences(w: Wait, run: Run, task: Option<Task>, snapshots: seq<Snapshot>, events: seq<Event>) {
    && w.workflowVersion == run.workflowVersion
    && FindSnapshot(snapshots, w.contextSnapshot).Some?
    && IsTask(task, w.task)
    && (w.resolvedByEvent.Some? ==> IsEvent(events, w.resolvedByEvent.value))
    && (w.continuationTask.Some? ==> IsTask(task, w.continuationTask.value))
  }

  /** The composite foreign key from an answer to the wait it answers. */
  predicate Answers(a: Answer, w: Wait) {
    && a.wait == w.id && a.request == w.request && a.requestVersion == w.requestVersion
    && a.sourceSnapshot == w.contextSnapshot
    && a.schemaId == w.schemaId && a.schemaVersion == w.schemaVersion
  }

  predicate AnswersOne(a: Answer, waits: seq<Wait>) {
    var at := FindWait(waits, a.wait);
    at.Some? && Answers(a, waits[at.value])
  }

  /** `DomainEventService.append`: take the run's next sequence number and insert the event. */
  function Append(db: RunTables, id: Id, payload: Payload): RunTables {
    db.(nextSequence := db.nextSequence + 1,
        events := db.events + [Event(id, db.nextSequence, payload)])
  }

  /** `UPDATE task_attempts SET status, result_class WHERE status = 'RUNNING' [AND id = who]` */
  function CloseRunning(attempts: seq<Attempt>, who: Option<Id>, status: AttemptStatus, cls: ResultClass): (r: seq<Attempt>)
    ensures |r| == |attempts|
  {
    seq(|attempts|, i requires 0 <= i < |attempts| =>
      if attempts[i].status.AttemptRunning? && (who.None? || attempts[i].id == who.value)
      then attempts[i].(status := status, resultClass := cls)
      else attempts[i])
  }

  /** The same update without the status guard, as the successful completion issues it. */
  function CloseById(attempts: seq<Attempt>, who: Id, status: AttemptStatus, cls: ResultClass): (r: seq<Attempt>)
    ensures |r| == |attempts|
  {
    seq(|attempts|, i requires 0 <= i < |attempts| =>
      if attempts[i].id == who then attempts[i].(status := status, resultClass := cls) else attempts[i])
  }

  /** `UPDATE model_invocation_effects SET status = 'UNKNOWN' WHERE effect_key = $2 AND status = 'RUNNING'` */
  function MarkUnknown(effect: Option<Effect>, key: EffectKey): Option<Effect> {
    if effect.Some? && effect.value.key == key && effect.value.status.EffectRunning?
    then Some(effect.value.(status := EffectUnknown, completed := true))
    else effect
  }

  // ---------------------------------------------------------------- worker transactions

  /** What a worker keeps in memory about the task it claimed. */
  datatype Claim = Claim(
    task: Id,
    taskKind: string,
    attempt: Id,
    attemptNumber: nat,
    leaseToken: Id,
    manifest: Manifest,
    effectKey: EffectKey)

  predicate Claimable(db: RunTables, now: Instant) {
    && db.task.Some?
    && var t := db.task.value;
       && ((t.state in {Queued, Ready, RetryWait} && t.availableAt <= now)
           || (t.state == Running && t.lease.Some? && t.lease.value.expiresAt < now))
       && !IsTerminal(db.run.state)
       && !db.run.cancellationRequested
  }

  function NewClaim(db: RunTables, base: Id): Claim
    requires db.task.Some?
  {
    var t := db.task.value;
    Claim(t.id, t.kind, base + 1, t.attemptCount + 1, base, t.manifest, EffectKey(t.id, t.kind))
  }

  function AfterClaim(db: RunTables, now: Instant, base: Id, worker: string, leaseSeconds: nat): RunTables
    requires db.task.Some?
  {
    var t := db.task.value;
    var c := NewClaim(db, base);
    var starts := db.run.state == Draft;
    Append(
      db.(task := Some(t.(state := Running, lease := Some(Lease(worker, c.leaseToken, now + leaseSeconds)),
                          attemptCount := t.attemptCount + 1, rowVersion := t.rowVersion + 1)),
          attempts := CloseRunning(db.attempts, None, Abandoned, LeaseExpired)
                      + [Attempt(c.attempt, c.attemptNumber, t.manifest, c.leaseToken, AttemptRunning, Unclassified)],
          effect := if db.effect.Some? then db.effect
                    else Some(Effect(c.effectKey, c.attempt, EffectRunning, 0, None, false)),
          run := if starts then db.run.(state := Qualifying, stage := Product, rowVersion := db.run.rowVersion + 1)
                 else db.run),
      base + 3,
      TaskStarted(t.id, c.attempt, c.attemptNumber, c.leaseToken, worker))
  }

  /** `claimTask`, once the query has picked this run's task or found it not claimable. */
  function ClaimTask(db: RunTables, now: Instant, base: Id, worker: string, leaseSeconds: nat): (RunTables, Option<Claim>) {
    if Claimable(db, now)
    then (AfterClaim(db, now, base, worker, leaseSeconds), Some(NewClaim(db, base)))
    else (db, None)
  }

  /** `loadContext`: the snapshot row the run points at, or a raise. */
  function LoadContext(db: RunTables): Option<Snapshot> {
    FindSnapshot(db.snapshots, db.run.contextSnapshot)
  }

  /** `isLeaseCurrent` */
  predicate LeaseCurrent(db: RunTables, now: Instant, c: Claim) {
    && HoldsLease(db, c)
    && db.task.value.lease.value.expiresAt > now
    && !db.run.cancellationRequested
  }

  /** The fence every result-recording transaction checks after locking the task and the run. */
  predicate HoldsLease(db: RunTables, c: Claim) {
    && db.task.Some? && db.task.value.id == c.task
    && db.task.value.state == Running
    && db.task.value.lease.Some? && db.task.value.lease.value.token == c.leaseToken
    && !IsTerminal(db.run.state)
  }

  /** `abandonAttempt` */
  function AbandonAttempt(db: RunTables, c: Claim): RunTables {
    db.(attempts := CloseRunning(db.attempts, Some(c.attempt), Abandoned, StaleBeforeInvocation))
  }

  /** `beginModelInvocation`: spend the effect's one invocation. Only the effect row is consulted. */
  predicate MayInvoke(db: RunTables, c: Claim) {
    && db.effect.Some? && db.effect.value.key == c.effectKey
    && db.effect.value.status.EffectRunning?
    && db.effect.value.invocationCount == 0
  }

  function BeginInvocation(db: RunTables, c: Claim): RunTables {
    if MayInvoke(db, c) then db.(effect := Some(db.effect.value.(invocationCount := 1))) else db
  }

  function BlockedRun(run: Run): Run {
    if IsTerminal(run.state) || run.cancellationRequested then run
    else run.(state := RunBlocked, rowVersion := run.rowVersion + 1)
  }

  /** What a lease holder that cannot know the model's outcome does to the task and the run. */
  function Blocked(db: RunTables, base: Id, c: Claim, status: AttemptStatus, effect: Option<Effect>, t: Task): RunTables {
    Append(
      db.(attempts := CloseRunning(db.attempts, Some(c.attempt), status, UnknownExternalOutcome),
          effect := effect,
          task := Some(t.(state := TaskBlocked, lease := None)),
          run := BlockedRun(db.run)),
      base,
      ReconciliationRequired(c.task, c.attempt, c.effectKey))
  }

  /** What a worker that has lost its lease may still record. */
  function Stale(db: RunTables, c: Claim, cls: ResultClass, effect: Option<Effect>): RunTables {
    db.(attempts := CloseRunning(db.attempts, Some(c.attempt), Abandoned, cls), effect := effect)
  }

  /** `blockUnknownModelOutcome` */
  function BlockUnknown(db: RunTables, base: Id, c: Claim): RunTables {
    if HoldsLease(db, c)
    then Blocked(db, base, c, Abandoned, db.effect, db.task.value.(rowVersion := db.task.value.rowVersion + 1))
    else Stale(db, c, StaleReconciliation, db.effect)
  }

  /** `completeTask` */
  function CompleteTask(db: RunTables, base: Id, c: Claim, result: ModelResult): RunTables {
    if HoldsLease(db, c)
    then AfterCompletion(db, base, c, result)
    else Stale(db, c, StaleCompletion, MarkUnknown(db.effect, c.effectKey))
  }

  function AfterCompletion(db: RunTables, base: Id, c: Claim, result: ModelResult): RunTables
    requires db.task.Some?
  {
    var t := db.task.value;
    Append(
      db.(artifacts := db.artifacts + [Artifact(base, base + 1, c.attempt, c.manifest, result)],
          attempts := CloseById(db.attempts, c.attempt, AttemptSucceeded, Success),
          effect := if db.effect.Some? && db.effect.value.key == c.effectKey && db.effect.value.status.EffectRunning?
                    then Some(db.effect.value.(status := EffectSucceeded, output := Some(result), completed := true))
                    else db.effect,
          task := Some(t.(state := Succeeded, lease := None, rowVersion := t.rowVersion + 1)),
          run := db.run.(state := AwaitingBriefApproval, stage := Product, rowVersion := db.run.rowVersion + 1)),
      base + 2,
      BriefPublished(c.task, c.attempt, c.attemptNumber, base, base + 1))
  }

  /** `failTask`. Unlike the other updates of a task, this one leaves its row version alone. */
  function FailTask(db: RunTables, base: Id, c: Claim): RunTables {
    var effect := MarkUnknown(db.effect, c.effectKey);
    if HoldsLease(db, c)
    then Blocked(db, base, c, AttemptFailed, effect, db.task.value)
    else Stale(db, c, StaleFailure, effect)
  }

  // ---------------------------------------------------------------- human-wait transactions

  const RESPONSE_SCHEMA := "durable-wait-response"
  const RESPONSE_SCHEMA_VERSION := "1.0"

  datatype OpenInput = OpenInput(actor: Id, task: Id, expectedRunVersion: nat, injectRollback: bool)

  function NewWait(db: RunTables, base: Id): Wait
    requires db.task.Some?
  {
    Wait(base, db.task.value.id, db.run.workflowVersion, base + 1, 1,
         AwaitingFounderInput, db.run.rowVersion + 1, db.run.state, db.run.contextSnapshot,
         RESPONSE_SCHEMA, RESPONSE_SCHEMA_VERSION, Open, None, None)
  }

  function AfterOpen(db: RunTables, base: Id): RunTables
    requires db.task.Some?
  {
    var t := db.task.value;
    var w := NewWait(db, base);
    Append(
      db.(task := Some(t.(state := AwaitingInput, lease := None, rowVersion := t.rowVersion + 1)),
          run := db.run.(state := AwaitingFounderInput, rowVersion := db.run.rowVersion + 1),
          waits := db.waits + [w]),
      base + 2,
      InputRequested(w.id, w.request, w.workflowVersion, AwaitingFounderInput, w.expectedRunRowVersion, w.contextSnapshot))
  }

  /** `open` */
  function OpenWait(db: RunTables, base: Id, input: OpenInput): Outcome<Wait> {
    if input.actor != db.founder then RolledBack(NotFound)
    else if db.task.None? || db.task.value.id != input.task then RolledBack(Conflict("task_missing"))
    else if db.run.rowVersion != input.expectedRunVersion || db.run.state != Draft
    then RolledBack(Conflict("wait_open_precondition_failed"))
    else if db.task.value.state !in {Queued, Ready} || db.task.value.lease.Some?
    then RolledBack(Conflict("task_not_waitable"))
    else if input.injectRollback then RolledBack(InjectedRollback)
    else Committed(AfterOpen(db, base), NewWait(db, base))
  }

  datatype AnswerInput = AnswerInput(
    actor: Id,
    wait: Id,
    request: Id,
    requestVersion: nat,
    workflowVersion: string,
    expectedRunVersion: nat,
    schemaId: string,
    schemaVersion: string,
    decision: string,
    note: string)

  /** `assertAnswerShape` */
  predicate WellShaped(input: AnswerInput) {
    && input.schemaId == RESPONSE_SCHEMA && input.schemaVersion == RESPONSE_SCHEMA_VERSION
    && input.decision == "CONTINUE"
    && 1 <= |input.note| <= 200
  }

  /** The guard of `answer` over the wait, run and task rows it has locked. */
  predicate AnswerAllowed(w: Wait, run: Run, t: Task, input: AnswerInput) {
    && w.status.Open?
    && w.request == input.request && w.requestVersion == input.requestVersion
    && w.workflowVersion == input.workflowVersion
    && w.schemaId == input.schemaId && w.schemaVersion == input.schemaVersion
    && run.workflowVersion == w.workflowVersion
    && run.state == w.expectedRunState
    && run.rowVersion == input.expectedRunVersion
    && run.rowVersion == w.expectedRunRowVersion
    && !run.cancellationRequested
    && t.state == AwaitingInput
    && t.lease.None?
  }

  function AfterAnswer(db: RunTables, now: Instant, base: Id, at: nat, source: Snapshot, note: string): RunTables
    requires at < |db.waits| && db.task.Some?
  {
    var w, t := db.waits[at], db.task.value;
    var answer := Answer(base, w.id, w.request, w.requestVersion, w.contextSnapshot, w.schemaId, w.schemaVersion, note);
    var resumed := Snapshot(base + 1, source.profileVersion, source.goalVersion, source.answerIds + [answer.id]);
    var logged := Append(
      db.(answers := db.answers + [answer],
          snapshots := db.snapshots + [resumed],
          snapshotAnswers := db.snapshotAnswers + [SnapshotAnswer(resumed.id, answer.id, |resumed.answerIds| - 1)],
          task := Some(t.(state := Ready, availableAt := now, lease := None, rowVersion := t.rowVersion + 1,
                          manifest := t.manifest.(contextSnapshot := resumed.id, answerIds := resumed.answerIds,
                                                  wait := Some(w.id), workflowVersion := w.workflowVersion))),
          run := db.run.(state := w.resumeRunState, contextSnapshot := resumed.id, rowVersion := db.run.rowVersion + 1)),
      base + 2,
      InputResolved(w.id, w.request, answer.id, w.task, w.contextSnapshot, resumed.id, w.resumeRunState));
    if w.status.Open?
    then logged.(waits := db.waits[at := w.(status := Resolved, resolvedByEvent := Some(base + 2),
                                            continuationTask := Some(w.task))])
    else logged
  }

  /** `answer`, inside the command executor; the value is the new answer's id. */
  function AnswerWait(db: RunTables, now: Instant, base: Id, input: AnswerInput): Outcome<Id> {
    if !WellShaped(input) then RolledBack(ValidationFailed)
    else if input.actor != db.founder then RolledBack(NotFound)
    else match FindWait(db.waits, input.wait)
      case None => RolledBack(Conflict("wait_missing"))
      case Some(at) =>
        var w := db.waits[at];
        if db.task.None? || db.task.value.id != w.task then RolledBack(Conflict("task_missing"))
        else if !AnswerAllowed(w, db.run, db.task.value, input) then RolledBack(Conflict("wait_state_conflict"))
        else match FindSnapshot(db.snapshots, w.contextSnapshot)
          case None => RolledBack(Conflict("wait_context_missing"))
          case Some(source) => Committed(AfterAnswer(db, now, base, at, source, input.note), base)
  }

  function CancelWaits(waits: seq<Wait>): (r: seq<Wait>)
    ensures |r| == |waits|
  {
    seq(|waits|, i requires 0 <= i < |waits| =>
      if waits[i].status.Open? then waits[i].(status := WaitCanceled) else waits[i])
  }

  function AfterCancel(db: RunTables, base: Id): RunTables {
    Append(
      db.(waits := CancelWaits(db.waits),
          task := if db.task.Some? && db.task.value.state !in {Succeeded, TaskFailed, TaskCanceled}
                  then Some(db.task.value.(state := TaskCanceled, lease := None, rowVersion := db.task.value.rowVersion + 1))
                  else db.task,
          run := db.run.(state := RunCanceled, stage := Terminal, cancellationRequested := true,
                         rowVersion := db.run.rowVersion + 1)),
      base,
      CancelProbe(db.run.state, RunCanceled))
  }

  /** `cancelFixture` */
  function CancelRun(db: RunTables, base: Id): Outcome<Id> {
    if IsTerminal(db.run.state) then RolledBack(Conflict("run_terminal"))
    else Committed(AfterCancel(db, base), base)
  }

  /** One of the concurrent appends of `appendConcurrentEvents`. */
  function AppendProbe(db: RunTables, base: Id, index: nat): RunTables {
    Append(db, base, SequenceProbe(index))
  }

  // ---------------------------------------------------------------- the initial rows

  /** `createGoalAndRun`, as far as these tables go. `needsClarification` runs get no task. */
  function CreatedRun(now: Instant, base: Id, founder: Id, profileVersion: Id, goalVersion: Id,
                      workflowVersion: string, needsClarification: bool): RunTables {
    var snapshot := Snapshot(base, profileVersion, goalVersion, []);
    var task :=
      if needsClarification then None
      else Some(Task(base + 1, "CREATE_PRODUCT_BRIEF", Queued, 0, 1, None, now,
                     Manifest(snapshot.id, profileVersion, goalVersion, workflowVersion, [], None)));
    var state := if needsClarification then AwaitingFounderInput else Draft;
    var rows := RunTables(
      founder, Run(state, Intake, 1, workflowVersion, snapshot.id, false), task,
      [], None, [], [], [snapshot], [], [], 1, []);
    Append(
      Append(rows, base + 2,
             RunCreated(state, Intake, snapshot.id, if needsClarification then None else Some(base + 1))),
      base + 3,
      GoalQualificationRecorded(goalVersion))
  }
}
