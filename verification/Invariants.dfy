/** What holds of one run's rows between any two transactions.

    Each predicate takes only the rows it speaks of, so a transaction that leaves those rows alone
    keeps it without further argument. `n` bounds the ids in use. */
module Invariants {
  import opened Common
  import opened Rows
  import opened Transactions

  // ---------------------------------------------------------------- replaying the log

  /** What the event log determines about a run. */
  datatype View = View(state: RunState, stage: Stage, rowVersion: nat, contextSnapshot: Id, task: Option<TaskState>)

  function ViewOf(db: RunTables): View {
    View(db.run.state, db.run.stage, db.run.rowVersion, db.run.contextSnapshot,
         if db.task.Some? then Some(db.task.value.state) else None)
  }

  /** What one event means to a reader who has only the log. */
  function Fold(v: View, p: Payload): View {
    match p
    case RunCreated(state, stage, snapshot, task) =>
      View(state, stage, 1, snapshot, if task.Some? then Some(Queued) else None)
    case GoalQualificationRecorded(_) => v
    case TaskStarted(_, _, _, _, _) =>
      if v.state == Draft
      then v.(state := Qualifying, stage := Product, rowVersion := v.rowVersion + 1, task := Some(Running))
      else v.(task := Some(Running))
    case ReconciliationRequired(_, _, _) =>
      v.(state := RunBlocked, rowVersion := v.rowVersion + 1, task := Some(TaskBlocked))
    case BriefPublished(_, _, _, _, _) =>
      v.(state := AwaitingBriefApproval, stage := Product, rowVersion := v.rowVersion + 1, task := Some(Succeeded))
    case InputRequested(_, _, _, state, version, _) =>
      v.(state := state, rowVersion := version, task := Some(AwaitingInput))
    case InputResolved(_, _, _, _, _, snapshot, state) =>
      v.(state := state, contextSnapshot := snapshot, rowVersion := v.rowVersion + 1, task := Some(Ready))
    case CancelProbe(_, state) =>
      v.(state := state, stage := Terminal, rowVersion := v.rowVersion + 1,
         task := if v.task == None || v.task == Some(Succeeded) then v.task else Some(TaskCanceled))
    case SequenceProbe(_) => v
  }

  const Nothing := View(Draft, Intake, 0, 0, None)

  /** The state a reader reconstructs from the events in sequence order. */
  function Replay(events: seq<Event>): View {
    if events == [] then Nothing
    else Fold(Replay(events[..|events| - 1]), events[|events| - 1].payload)
  }

  lemma ReplayAppend(events: seq<Event>, e: Event)
    ensures Replay(events + [e]) == Fold(Replay(events), e.payload)
  {
    assert (events + [e])[..|events|] == events;
  }

  /** Gapless numbering from 1, fresh ids, and a replay that gives back the rows. */
  predicate LogInv(next: nat, events: seq<Event>, view: View, n: Id) {
    && next == |events| + 1
    && (forall i :: 0 <= i < |events| ==> events[i].sequence == i + 1 && events[i].id < n)
    && (forall i, j :: 0 <= i < j < |events| ==> events[i].id != events[j].id)
    && events != []
    && Replay(events) == view
  }

  // ---------------------------------------------------------------- rows

  predicate RunInv(run: Run) {
    && run.rowVersion > 0
    && (run.cancellationRequested <==> run.state == RunCanceled)
    && (run.state == RunCanceled <==> run.stage == Terminal)
  }

  /** The run's state is a function of its task's, except that a cancel may come on top of success. */
  predicate Coupled(run: Run, t: Task) {
    && t.rowVersion > 0
    && (t.state == Running <==> t.lease.Some?)
    && match t.state
       case Queued | Ready => run.state == Draft && run.stage == Intake
       case AwaitingInput => run.state == AwaitingFounderInput && run.stage == Intake
       case Running => run.state == Qualifying && run.stage == Product
       case TaskBlocked => run.state == RunBlocked && run.stage == Product
       case TaskCanceled => run.state == RunCanceled
       case Succeeded => run.state == RunCanceled || (run.state == AwaitingBriefApproval && run.stage == Product)
       case RetryWait | TaskFailed => false
  }

  /** Attempts are numbered 1..attempt_count, only the newest can still matter, and the task's
      lease is the newest attempt's. */
  predicate AttemptsInv(t: Task, attempts: seq<Attempt>, n: Id) {
    && t.attemptCount == |attempts|
    && (forall i :: 0 <= i < |attempts| ==>
          && attempts[i].number == i + 1
          && attempts[i].manifest == t.manifest
          && attempts[i].id < n && attempts[i].leaseToken < n)
    && (forall i, j :: 0 <= i < j < |attempts| ==>
          attempts[i].id != attempts[j].id && attempts[i].leaseToken != attempts[j].leaseToken)
    && (forall i :: 0 <= i < |attempts| - 1 ==> attempts[i].status == Abandoned)
    && (t.state in {Queued, Ready, AwaitingInput} ==> attempts == [])
    && (t.state in {Running, TaskBlocked, Succeeded} ==> attempts != [])
    && (t.lease.Some? && attempts != [] ==> t.lease.value.token == attempts[|attempts| - 1].leaseToken)
    && (attempts != [] ==>
          match attempts[|attempts| - 1].status
          case AttemptRunning => t.state in {Running, TaskCanceled}
          case AttemptSucceeded => t.state == Succeeded
          case AttemptFailed => t.state in {TaskBlocked, TaskCanceled}
          case Abandoned => t.state in {Running, TaskBlocked, TaskCanceled})
  }

  predicate EffectInv(t: Task, attempts: seq<Attempt>, effect: Option<Effect>) {
    && (effect.Some? <==> attempts != [])
    && (effect.Some? ==>
          var e := effect.value;
          && e.key == EffectKey(t.id, t.kind)
          && e.attempt == attempts[0].id
          && e.invocationCount <= 1
          && (e.completed <==> !e.status.EffectRunning?)
          && (e.output.Some? <==> e.status.EffectSucceeded?)
          && (e.status.EffectSucceeded? ==> t.state == Succeeded)
          && (t.state == Succeeded ==> e.invocationCount == 1 && !e.status.EffectRunning?))
  }

  /** A brief exists exactly for a succeeded task, and its lineage names the attempt that made it. */
  predicate ArtifactInv(t: Task, attempts: seq<Attempt>, artifacts: seq<Artifact>) {
    && (t.state == Succeeded <==> artifacts != [])
    && (artifacts != [] ==>
          && |artifacts| == 1
          && attempts != []
          && artifacts[0].attempt == attempts[|attempts| - 1].id
          && artifacts[0].lineage == t.manifest)
  }

  /** The k-th answer resolved the k-th wait, was given against the k-th snapshot and made the next. */
  predicate LineageInv(run: Run, t: Task, waits: seq<Wait>, answers: seq<Answer>, snapshots: seq<Snapshot>) {
    && |snapshots| == |answers| + 1
    && |answers| <= |waits| <= |answers| + 1
    && snapshots[0].answerIds == []
    && (forall i :: 0 <= i < |answers| ==> snapshots[i + 1].answerIds == snapshots[i].answerIds + [answers[i].id])
    && (forall i :: 0 <= i < |snapshots| ==>
          && snapshots[i].profileVersion == t.manifest.profileVersion
          && snapshots[i].goalVersion == t.manifest.goalVersion)
    && (forall i :: 0 <= i < |waits| ==>
          && waits[i].contextSnapshot == snapshots[i].id && waits[i].task == t.id
          && waits[i].workflowVersion == run.workflowVersion && waits[i].requestVersion == 1)
    && (forall i :: 0 <= i < |answers| ==>
          && Answers(answers[i], waits[i])
          && waits[i].status.Resolved? && waits[i].resolvedByEvent.Some? && waits[i].continuationTask == Some(t.id))
    && (forall i :: 0 <= i < |waits| ==> waits[i].expectedRunRowVersion > 0)
    && (|waits| > |answers| ==>
          var w := waits[|answers|];
          w.resolvedByEvent.None? && w.continuationTask.None?
          && if t.state == AwaitingInput then OpenFor(w, run) else w.status.WaitCanceled? && run.state == RunCanceled)
    && (t.state == AwaitingInput ==> |waits| > |answers|)
    && run.contextSnapshot == snapshots[|answers|].id
    && t.manifest.contextSnapshot == run.contextSnapshot
    && t.manifest.workflowVersion == run.workflowVersion
    && t.manifest.answerIds == snapshots[|answers|].answerIds
  }

  /** An open wait still matches the run it will resume. */
  predicate OpenFor(w: Wait, run: Run) {
    && w.status.Open?
    && w.expectedRunState == AwaitingFounderInput
    && w.expectedRunRowVersion == run.rowVersion
    && w.resumeRunState == Draft
    && w.workflowVersion == run.workflowVersion
    && w.schemaId == RESPONSE_SCHEMA && w.schemaVersion == RESPONSE_SCHEMA_VERSION
  }

  predicate DistinctIds(waits: seq<Wait>, answers: seq<Answer>, snapshots: seq<Snapshot>,
                        snapshotAnswers: seq<SnapshotAnswer>, n: Id) {
    && (forall i, j :: 0 <= i < j < |waits| ==> waits[i].id != waits[j].id)
    && (forall i, j :: 0 <= i < j < |answers| ==> answers[i].id != answers[j].id)
    && (forall i, j :: 0 <= i < j < |snapshots| ==> snapshots[i].id != snapshots[j].id)
    && (forall i, j :: 0 <= i < j < |snapshotAnswers| ==> snapshotAnswers[i].snapshot != snapshotAnswers[j].snapshot)
    && (forall w :: w in waits ==> w.id < n)
    && (forall a :: a in answers ==> a.id < n)
    && (forall s :: s in snapshots ==> s.id < n)
    && (forall s :: s in snapshotAnswers ==> s.snapshot < n)
  }

  /** The k-th answer has one link row, from the snapshot it made. */
  predicate LinksInv(answers: seq<Answer>, snapshots: seq<Snapshot>, links: seq<SnapshotAnswer>) {
    && |links| == |answers| && |snapshots| == |answers| + 1
    && forall i :: 0 <= i < |links| ==> links[i].snapshot == snapshots[i + 1].id && links[i].answer == answers[i].id
  }

  /** Whatever a wait says resolved it is on the log. */
  predicate ResolvedInv(waits: seq<Wait>, events: seq<Event>) {
    forall i :: 0 <= i < |waits| && waits[i].resolvedByEvent.Some? ==> IsEvent(events, waits[i].resolvedByEvent.value)
  }

  /** A run without a task is waiting for clarification, or canceled. */
  predicate TasklessInv(db: RunTables) {
    && db.attempts == [] && db.effect == None && db.artifacts == []
    && db.waits == [] && db.answers == [] && db.snapshotAnswers == []
    && |db.snapshots| == 1 && db.snapshots[0].answerIds == [] && db.run.contextSnapshot == db.snapshots[0].id
    && db.run.state in {AwaitingFounderInput, RunCanceled}
  }

  predicate WithTaskInv(db: RunTables, t: Task, n: Id) {
    && t.id < n
    && Coupled(db.run, t)
    && AttemptsInv(t, db.attempts, n)
    && EffectInv(t, db.attempts, db.effect)
    && ArtifactInv(t, db.attempts, db.artifacts)
    && LineageInv(db.run, t, db.waits, db.answers, db.snapshots)
  }

  predicate TablesInv(db: RunTables, n: Id) {
    && RunInv(db.run)
    && LogInv(db.nextSequence, db.events, ViewOf(db), n)
    && DistinctIds(db.waits, db.answers, db.snapshots, db.snapshotAnswers, n)
    && LinksInv(db.answers, db.snapshots, db.snapshotAnswers)
    && ResolvedInv(db.waits, db.events)
    && (db.task.Some? ==> WithTaskInv(db, db.task.value, n))
    && (db.task.None? ==> TasklessInv(db))
  }
}
