/** The services' transactions as the code writes them, statement by statement, over the rows of one
    run. Each is shown to leave exactly the rows its function in `Transactions` describes, and to
    post exactly the events it appended. A raise ends a transaction and restores what it found. */
module RunDatabase {
  import opened Common
  import opened Rows
  import opened Transactions
  import opened ProjectionKeys
  import opened ControlPlane

  /** The outbox once the events from position `from` on are posted. */
  function PostedSince(outbox: map<Id, OutboxRow>, k: Id, events: seq<Event>, from: nat, now: Instant): map<Id, OutboxRow> {
    if from <= |events| then Posted(outbox, k, events, from, now) else outbox
  }

  class Database {
    const runId: Id
    const founder: Id
    var run: Run
    var task: Option<Task>
    var attempts: seq<Attempt>
    var effect: Option<Effect>
    var waits: seq<Wait>
    var answers: seq<Answer>
    var snapshots: seq<Snapshot>
    var snapshotAnswers: seq<SnapshotAnswer>
    var artifacts: seq<Artifact>
    var nextSequence: nat
    var events: seq<Event>
    var outbox: map<Id, OutboxRow>

    /** The rows of the run, as one value. */
    function Tables(): RunTables
      reads this
    {
      RunTables(founder, run, task, attempts, effect, waits, answers, snapshots, snapshotAnswers, artifacts,
                nextSequence, events)
    }

    /** `createGoalAndRun` */
    constructor CreateGoalAndRun(now: Instant, base: Id, runId: Id, founder: Id, profileVersion: Id, goalVersion: Id,
                                 workflowVersion: string, needsClarification: bool, outbox: map<Id, OutboxRow>)
      ensures Tables() == CreatedRun(now, base, founder, profileVersion, goalVersion, workflowVersion, needsClarification)
      ensures this.runId == runId && this.outbox == Posted(outbox, runId, events, 0, now)
    {
      this.runId, this.founder := runId, founder;
      var state := if needsClarification then AwaitingFounderInput else Draft;
      this.snapshots := [Snapshot(base, profileVersion, goalVersion, [])];
      this.run := Run(state, Intake, 1, workflowVersion, base, false);
      this.nextSequence := 1;
      this.task :=
        if needsClarification then None
        else Some(Task(base + 1, "CREATE_PRODUCT_BRIEF", Queued, 0, 1, None, now,
                       Manifest(base, profileVersion, goalVersion, workflowVersion, [], None)));
      this.attempts, this.effect, this.artifacts := [], None, [];
      this.waits, this.answers, this.snapshotAnswers := [], [], [];
      this.events, this.outbox := [], outbox;
      new;
      AppendEvent(now, base + 2, RunCreated(state, Intake, base, if needsClarification then None else Some(base + 1)));
      AppendEvent(now, base + 3, GoalQualificationRecorded(goalVersion));
      assert PostedTwice(outbox, events, now) == this.outbox;
    }

    ghost function PostedTwice(outbox: map<Id, OutboxRow>, events: seq<Event>, now: Instant): map<Id, OutboxRow>
      requires |events| == 2
    {
      Posted(Posted(outbox, runId, events[..1], 0, now), runId, events, 1, now)
    }

    /** `DomainEventService.append`: one number, one event row and one outbox row. */
    method AppendEvent(now: Instant, id: Id, payload: Payload)
      modifies this`nextSequence, this`events, this`outbox
      ensures Tables() == Append(old(Tables()), id, payload)
      ensures outbox == Posted(old(outbox), runId, events, old(|events|), now)
    {
      var sequence := nextSequence;
      nextSequence := nextSequence + 1;
      var envelope := Envelope(id, OfRun(runId, sequence, payload));
      events := events + [Event(id, sequence, payload)];
      outbox := outbox[id := NewRow(envelope, now)];
      assert Posted(outbox, runId, events, |events|, now) == outbox;
    }

    // -------------------------------------------------------------- the worker's transactions

    method ClaimTask(now: Instant, base: Id, worker: string, leaseSeconds: nat) returns (claim: Option<Claim>)
      modifies this
      ensures (Tables(), claim) == Transactions.ClaimTask(old(Tables()), now, base, worker, leaseSeconds)
      ensures outbox == PostedSince(old(outbox), runId, events, old(|events|), now)
    {
      if !Claimable(Tables(), now) {
        return None;
      }
      var t := task.value;
      var leaseToken, attemptId, attemptNumber := base, base + 1, t.attemptCount + 1;
      var effectKey := EffectKey(t.id, t.kind);
      task := Some(t.(state := Running, lease := Some(Lease(worker, leaseToken, now + leaseSeconds)),
                      attemptCount := t.attemptCount + 1, rowVersion := t.rowVersion + 1));
      attempts := CloseRunning(attempts, None, Abandoned, LeaseExpired);
      attempts := attempts + [Attempt(attemptId, attemptNumber, t.manifest, leaseToken, AttemptRunning, Unclassified)];
      if effect.None? {
        effect := Some(Effect(effectKey, attemptId, EffectRunning, 0, None, false));
      }
      if run.state == Draft {
        run := run.(state := Qualifying, stage := Product, rowVersion := run.rowVersion + 1);
      }
      AppendEvent(now, base + 3, TaskStarted(t.id, attemptId, attemptNumber, leaseToken, worker));
      return Some(Claim(t.id, t.kind, attemptId, attemptNumber, leaseToken, t.manifest, effectKey));
    }

    /** `loadContext`: nothing stands for its raise. */
    method LoadContext() returns (context: Option<Snapshot>)
      ensures context == Transactions.LoadContext(Tables())
      ensures context.Some? ==> context.value in snapshots && context.value.id == run.contextSnapshot
      ensures context.None? ==> forall s :: s in snapshots ==> s.id != run.contextSnapshot
    {
      return FindSnapshot(snapshots, run.contextSnapshot);
    }

    method IsLeaseCurrent(now: Instant, c: Claim) returns (current: bool)
      ensures current == LeaseCurrent(Tables(), now, c)
    {
      if task.None? || task.value.id != c.task {
        return false;
      }
      current := task.value.state == Running
                 && task.value.lease.Some? && task.value.lease.value.token == c.leaseToken
                 && task.value.lease.value.expiresAt > now
                 && run.state !in {RunCanceled, RunFailed, RunCompleted}
                 && !run.cancellationRequested;
    }

    method BeginModelInvocation(c: Claim) returns (begun: bool)
      modifies this`effect
      ensures begun == MayInvoke(old(Tables()), c)
      ensures Tables() == BeginInvocation(old(Tables()), c)
    {
      if effect.None? || effect.value.key != c.effectKey
         || !effect.value.status.EffectRunning? || effect.value.invocationCount != 0 {
        return false;
      }
      effect := Some(effect.value.(invocationCount := 1));
      return true;
    }

    method AbandonAttempt(c: Claim)
      modifies this`attempts
      ensures Tables() == Transactions.AbandonAttempt(old(Tables()), c)
    {
      attempts := CloseRunning(attempts, Some(c.attempt), Abandoned, StaleBeforeInvocation);
    }

    /** The lock each recording transaction takes, and the fence it then checks. */
    predicate Fenced(c: Claim)
      reads this
      ensures Fenced(c) <==> HoldsLease(Tables(), c)
    {
      && task.Some? && task.value.id == c.task
      && task.value.state == Running
      && task.value.lease.Some? && task.value.lease.value.token == c.leaseToken
      && run.state !in {RunCanceled, RunFailed, RunCompleted}
    }

    method BlockUnknownModelOutcome(now: Instant, base: Id, c: Claim)
      modifies this
      ensures Tables() == BlockUnknown(old(Tables()), base, c)
      ensures outbox == PostedSince(old(outbox), runId, events, old(|events|), now)
    {
      if !Fenced(c) {
        attempts := CloseRunning(attempts, Some(c.attempt), Abandoned, StaleReconciliation);
        return;
      }
      attempts := CloseRunning(attempts, Some(c.attempt), Abandoned, UnknownExternalOutcome);
      task := Some(task.value.(state := TaskBlocked, lease := None, rowVersion := task.value.rowVersion + 1));
      if run.state !in {RunCanceled, RunFailed, RunCompleted} && !run.cancellationRequested {
        run := run.(state := RunBlocked, rowVersion := run.rowVersion + 1);
      }
      AppendEvent(now, base, ReconciliationRequired(c.task, c.attempt, c.effectKey));
    }

    method CompleteTask(now: Instant, base: Id, c: Claim, result: ModelResult)
      modifies this
      ensures Tables() == Transactions.CompleteTask(old(Tables()), base, c, result)
      ensures outbox == PostedSince(old(outbox), runId, events, old(|events|), now)
    {
      if !Fenced(c) {
        attempts := CloseRunning(attempts, Some(c.attempt), Abandoned, StaleCompletion);
        effect := MarkUnknown(effect, c.effectKey);
        return;
      }
      var artifactId, artifactVersionId := base, base + 1;
      artifacts := artifacts + [Artifact(artifactId, artifactVersionId, c.attempt, c.manifest, result)];
      attempts := CloseById(attempts, c.attempt, AttemptSucceeded, Success);
      if effect.Some? && effect.value.key == c.effectKey && effect.value.status.EffectRunning? {
        effect := Some(effect.value.(status := EffectSucceeded, output := Some(result), completed := true));
      }
      task := Some(task.value.(state := Succeeded, lease := None, rowVersion := task.value.rowVersion + 1));
      run := run.(state := AwaitingBriefApproval, stage := Product, rowVersion := run.rowVersion + 1);
      AppendEvent(now, base + 2, BriefPublished(c.task, c.attempt, c.attemptNumber, artifactId, artifactVersionId));
    }

    method FailTask(now: Instant, base: Id, c: Claim)
      modifies this
      ensures Tables() == Transactions.FailTask(old(Tables()), base, c)
      ensures outbox == PostedSince(old(outbox), runId, events, old(|events|), now)
    {
      if !Fenced(c) {
        attempts := CloseRunning(attempts, Some(c.attempt), Abandoned, StaleFailure);
        effect := MarkUnknown(effect, c.effectKey);
        return;
      }
      attempts := CloseRunning(attempts, Some(c.attempt), AttemptFailed, UnknownExternalOutcome);
      effect := MarkUnknown(effect, c.effectKey);
      task := Some(task.value.(state := TaskBlocked, lease := None));
      if run.state !in {RunCanceled, RunFailed, RunCompleted} && !run.cancellationRequested {
        run := run.(state := RunBlocked, rowVersion := run.rowVersion + 1);
      }
      AppendEvent(now, base, ReconciliationRequired(c.task, c.attempt, c.effectKey));
    }

    // -------------------------------------------------------------- the human-wait transactions

    /** ROLLBACK */
    method Restore(saved: RunTables, savedOutbox: map<Id, OutboxRow>)
      requires saved.founder == founder
      modifies this
      ensures Tables() == saved && outbox == savedOutbox
    {
      run, task, attempts, effect := saved.run, saved.task, saved.attempts, saved.effect;
      waits, answers := saved.waits, saved.answers;
      snapshots, snapshotAnswers, artifacts := saved.snapshots, saved.snapshotAnswers, saved.artifacts;
      nextSequence, events := saved.nextSequence, saved.events;
      outbox := savedOutbox;
    }

    method Open(now: Instant, base: Id, input: OpenInput) returns (r: Outcome<Wait>)
      modifies this
      ensures r == OpenWait(old(Tables()), base, input)
      ensures Tables() == r.Rows(old(Tables()))
      ensures outbox == PostedSince(old(outbox), runId, events, old(|events|), now)
    {
      var saved, savedOutbox := Tables(), outbox;
      if input.actor != founder {
        return RolledBack(NotFound);
      }
      if task.None? || task.value.id != input.task {
        return RolledBack(Conflict("task_missing"));
      }
      if run.rowVersion != input.expectedRunVersion || run.state != Draft {
        return RolledBack(Conflict("wait_open_precondition_failed"));
      }
      if task.value.state !in {Queued, Ready} || task.value.lease.Some? {
        return RolledBack(Conflict("task_not_waitable"));
      }
      var waitingRunVersion, before := run.rowVersion + 1, run;
      task := Some(task.value.(state := AwaitingInput, lease := None, rowVersion := task.value.rowVersion + 1));
      run := run.(state := AwaitingFounderInput, rowVersion := run.rowVersion + 1);
      var wait := Wait(base, input.task, before.workflowVersion, base + 1, 1, AwaitingFounderInput, waitingRunVersion,
                       before.state, before.contextSnapshot, RESPONSE_SCHEMA, RESPONSE_SCHEMA_VERSION, WaitStatus.Open, None, None);
      waits := waits + [wait];
      AppendEvent(now, base + 2, InputRequested(wait.id, wait.request, before.workflowVersion, AwaitingFounderInput,
                                                waitingRunVersion, before.contextSnapshot));
      if input.injectRollback {
        Restore(saved, savedOutbox);
        return RolledBack(InjectedRollback);
      }
      return Committed(Tables(), wait);
    }

    method Answer(now: Instant, base: Id, input: AnswerInput) returns (r: Outcome<Id>)
      modifies this
      ensures r == AnswerWait(old(Tables()), now, base, input)
      ensures Tables() == r.Rows(old(Tables()))
      ensures outbox == PostedSince(old(outbox), runId, events, old(|events|), now)
    {
      if !WellShaped(input) {
        return RolledBack(ValidationFailed);
      }
      if input.actor != founder {
        return RolledBack(NotFound);
      }
      var found := FindWait(waits, input.wait);
      if found.None? {
        return RolledBack(Conflict("wait_missing"));
      }
      var at := found.value;
      var wait := waits[at];
      if task.None? || task.value.id != wait.task {
        return RolledBack(Conflict("task_missing"));
      }
      if !AnswerAllowed(wait, run, task.value, input) {
        return RolledBack(Conflict("wait_state_conflict"));
      }
      var source := FindSnapshot(snapshots, wait.contextSnapshot);
      if source.None? {
        return RolledBack(Conflict("wait_context_missing"));
      }
      RecordAnswer(now, base, at, source.value, input);
      return Committed(Tables(), base);
    }

    /** The statements of an answer whose guards have passed. */
    method RecordAnswer(now: Instant, base: Id, at: nat, source: Snapshot, input: AnswerInput)
      requires at < |waits| && task.Some? && AnswerAllowed(waits[at], run, task.value, input)
      modifies this
      ensures Tables() == AfterAnswer(old(Tables()), now, base, at, source, input.note)
      ensures outbox == PostedSince(old(outbox), runId, events, old(|events|), now)
    {
      var wait := waits[at];
      var answerId, resumedId := base, base + 1;
      answers := answers + [Rows.Answer(answerId, wait.id, input.request, input.requestVersion, wait.contextSnapshot,
                                        input.schemaId, input.schemaVersion, input.note)];
      var answerIds := source.answerIds + [answerId];
      snapshots := snapshots + [Snapshot(resumedId, source.profileVersion, source.goalVersion, answerIds)];
      snapshotAnswers := snapshotAnswers + [SnapshotAnswer(resumedId, answerId, |answerIds| - 1)];
      task := Some(task.value.(
        state := Ready, availableAt := now, lease := None, rowVersion := task.value.rowVersion + 1,
        manifest := task.value.manifest.(contextSnapshot := resumedId, answerIds := answerIds, wait := Some(wait.id),
                                         workflowVersion := wait.workflowVersion)));
      run := run.(state := wait.resumeRunState, contextSnapshot := resumedId, rowVersion := run.rowVersion + 1);
      var eventId := base + 2;
      AppendEvent(now, eventId, InputResolved(wait.id, input.request, answerId, wait.task, wait.contextSnapshot, resumedId,
                                              wait.resumeRunState));
      if wait.status.Open? {
        waits := waits[at := wait.(status := Resolved, resolvedByEvent := Some(eventId), continuationTask := Some(wait.task))];
      }
    }

    method CancelFixture(now: Instant, base: Id) returns (r: Outcome<Id>)
      modifies this
      ensures r == CancelRun(old(Tables()), base)
      ensures Tables() == r.Rows(old(Tables()))
      ensures outbox == PostedSince(old(outbox), runId, events, old(|events|), now)
    {
      if run.state in {RunFailed, RunCanceled, RunCompleted} {
        return RolledBack(Conflict("run_terminal"));
      }
      var prior := run.state;
      waits := CancelWaits(waits);
      if task.Some? && task.value.state !in {Succeeded, TaskFailed, TaskCanceled} {
        task := Some(task.value.(state := TaskCanceled, lease := None, rowVersion := task.value.rowVersion + 1));
      }
      run := run.(state := RunCanceled, stage := Terminal, cancellationRequested := true, rowVersion := run.rowVersion + 1);
      AppendEvent(now, base, CancelProbe(prior, RunCanceled));
      return Committed(Tables(), base);
    }

    /** `appendConcurrentEvents`: the lock on the run's counter puts its transactions in some order,
        here the order of `probes`, each an event id with its probe index. */
    method AppendConcurrentEvents(now: Instant, probes: seq<(Id, nat)>)
      modifies this
      ensures Tables() == Probed(old(Tables()), probes)
    {
      for i := 0 to |probes|
        invariant Tables() == Probed(old(Tables()), probes[..i])
      {
        AppendEvent(now, probes[i].0, SequenceProbe(probes[i].1));
        assert probes[..i + 1][..i] == probes[..i];
      }
      assert probes[..|probes|] == probes;
    }
  }

  /** One probe event after the other. */
  function Probed(db: RunTables, probes: seq<(Id, nat)>): RunTables {
    if probes == [] then db
    else
      var last := probes[|probes| - 1];
      AppendProbe(Probed(db, probes[..|probes| - 1]), last.0, last.1)
  }

  /** Whatever their order, concurrent appends are numbered consecutively from where the counter stood. */
  lemma {:induction false} ProbesAreConsecutive(db: RunTables, probes: seq<(Id, nat)>)
    ensures var out := Probed(db, probes);
            && out.nextSequence == db.nextSequence + |probes|
            && |out.events| == |db.events| + |probes|
            && out.events[..|db.events|] == db.events
            && (forall i :: 0 <= i < |probes| ==>
                  out.events[|db.events| + i] == Event(probes[i].0, db.nextSequence + i, SequenceProbe(probes[i].1)))
  {
    if probes != [] {
      ProbesAreConsecutive(db, probes[..|probes| - 1]);
    }
  }
}
