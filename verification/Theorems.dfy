/** What holds of the control plane after any script at all: every interleaving of workers,
    publishers, founders, lease expiries and crashes, starting from an empty database. */
module Theorems {
  import opened Common
  import opened Rows
  import opened Transactions
  import opened Invariants
  import opened Preservation
  import opened Monotone
  import opened TransactionFacts
  import opened Processes
  import opened SystemInvariant
  import opened SystemSteps
  import opened ProjectionKeys
  import opened ControlPlane
  import opened PlaneSteps
  import opened History

  /** The database after a script that starts with nothing. */
  function Reach(script: Script): Plane {
    After(Empty, script)
  }

  lemma ReachInv(script: Script)
    ensures PlaneInv(Reach(script))
  {
    EmptyInv();
    Reachable(Empty, script);
  }

  lemma RunReach(script: Script, k: Id)
    requires k in Reach(script).runs
    ensures SystemInv(Reach(script).runs[k], Reach(script).nextId)
  {
    hide After, SystemInv, OutboxInv, ProjectionInv;
    ReachInv(script);
  }

  /** What a later moment of the same history looks like to run `k`. */
  lemma RunLater(script: Script, more: Script, k: Id)
    requires k in Reach(script).runs
    ensures k in Reach(script + more).runs
    ensures SystemAdvances(Reach(script).runs[k], Reach(script + more).runs[k])
  {
    hide After, PlaneInv, SystemAdvances;
    ReachInv(script);
    Continues(Reach(script), more);
    AfterSplits(Empty, script, more);
  }

  // ---------------------------------------------------------------- the event log

  /** Numbered without a gap, and replaying it gives back the state of the run and of its task. */
  lemma LogRefinesRows(script: Script, k: Id)
    requires k in Reach(script).runs
    ensures var db := Reach(script).runs[k].db;
            && db.nextSequence == |db.events| + 1
            && (forall i :: 0 <= i < |db.events| ==> db.events[i].sequence == i + 1)
            && Replay(db.events) == ViewOf(db)
  {
    hide After, RunInv, WithTaskInv, TasklessInv, DistinctIds, LinksInv, ResolvedInv, Replay, ViewOf;
    RunReach(script, k);
  }

  /** The steps that record how a claim ended. */
  predicate EndsClaim(step: Step) {
    step.AbandonStep? || step.BlockStep? || step.CompleteStep? || step.LateRejectStep? || step.FailStep?
  }

  /** A worker that no longer holds the lease appends nothing, so by the log it changes nothing. */
  lemma StaleStepsAreInvisible(script: Script, k: Id, step: Step, now: Instant)
    requires k in Reach(script).runs
    requires var s := Reach(script).runs[k];
             && EndsClaim(step)
             && step.attempt in s.workers && !HoldsLease(s.db, s.workers[step.attempt].claim)
    ensures var s, s' := Reach(script).runs[k], Reach(script + [(InRun(k, step), now)]).runs[k];
            s'.db.events == s.db.events && ViewOf(s'.db) == ViewOf(s.db)
  {
    var after := script + [(InRun(k, step), now)];
    assert after[..|script|] == script;
    OneStep(script, k, step, now);
    StaleAppendsNothing(Reach(script).runs[k], step, now, Reach(script).nextId);
    hide After, ViewOf, HoldsLease, Next;
    LogRefinesRows(script, k);
    LogRefinesRows(after, k);
  }

  lemma OneStep(script: Script, k: Id, step: Step, now: Instant)
    requires k in Reach(script).runs
    ensures var after := Reach(script + [(InRun(k, step), now)]);
            && after.nextId == Reach(script).nextId + IDS_PER_ACTION
            && k in after.runs && after.runs[k] == Next(Reach(script).runs[k], step, now, Reach(script).nextId)
  {
    hide Next, Posted;
    var after := script + [(InRun(k, step), now)];
    assert after[..|script|] == script;
  }

  lemma StaleAppendsNothing(s: RunSystem, step: Step, now: Instant, base: Id)
    requires EndsClaim(step)
    requires step.attempt in s.workers && !HoldsLease(s.db, s.workers[step.attempt].claim)
    ensures Next(s, step, now, base).db.events == s.db.events
  {
    hide HoldsLease;
  }

  // ---------------------------------------------------------------- invocation and success

  function InvocationCount(db: RunTables): nat {
    if db.effect.Some? then db.effect.value.invocationCount else 0
  }

  /** Provider calls never exceed the recorded count, which never exceeds one. */
  lemma InvokedAtMostOnce(script: Script, k: Id)
    requires k in Reach(script).runs
    ensures var s := Reach(script).runs[k];
            |s.calls| <= InvocationCount(s.db) <= 1
  {
    hide After, RunInv, LogInv, DistinctIds, LinksInv, ResolvedInv, AttemptsInv, ArtifactInv, LineageInv, Coupled, WorkersInv, HasSucceeded;
    RunReach(script, k);
  }

  /** The task succeeded exactly if an attempt did; then it was the newest attempt alone, it made
      the one provider call, and the published brief is its own and what the provider returned. */
  lemma SuccessIsTheInvokers(script: Script, k: Id)
    requires k in Reach(script).runs
    ensures var s := Reach(script).runs[k];
            var attempts, last := s.db.attempts, |s.db.attempts| - 1;
            && (forall i :: 0 <= i < last ==> attempts[i].status == Abandoned)
            && (HasSucceeded(s.db) <==> last >= 0 && attempts[last].status == AttemptSucceeded)
            && (HasSucceeded(s.db) <==> s.db.artifacts != [])
            && (HasSucceeded(s.db) ==>
                  && last >= 0 && s.db.effect.Some?
                  && InvocationCount(s.db) == 1 && |s.calls| == 1 && s.spentBy == Some(attempts[last].number)
                  && s.calls[0].attempt == attempts[last].id && s.calls[0].reply == Some(s.db.artifacts[0].content)
                  && |s.db.artifacts| == 1 && s.db.artifacts[0].attempt == attempts[last].id
                  && s.db.artifacts[0].lineage == attempts[last].manifest
                  && (s.db.effect.value.status.EffectSucceeded? ==> s.db.effect.value.output == s.calls[0].reply))
  {
    hide After, RunInv, LogInv, DistinctIds, LinksInv, ResolvedInv, LineageInv, Coupled, WorkersInv;
    RunReach(script, k);
  }

  /** Success is absorbing: task row, attempts and brief stay as they are. */
  lemma SuccessIsForever(script: Script, more: Script, k: Id)
    requires k in Reach(script).runs && HasSucceeded(Reach(script).runs[k].db)
    ensures k in Reach(script + more).runs
    ensures var db, db' := Reach(script).runs[k].db, Reach(script + more).runs[k].db;
            && db'.task == db.task && db'.artifacts == db.artifacts
            && |db'.attempts| == |db.attempts| && db'.effect == db.effect
  {
    hide After;
    RunLater(script, more, k);
    SucceededRows(script, k);
    SucceededRows(script + more, k);
  }

  lemma SucceededRows(script: Script, k: Id)
    requires k in Reach(script).runs && HasSucceeded(Reach(script).runs[k].db)
    ensures var db := Reach(script).runs[k].db;
            && |db.artifacts| == 1 && db.task.Some? && |db.attempts| == db.task.value.attemptCount
            && db.effect.Some? && !db.effect.value.status.EffectRunning?
  {
    hide After, RunInv, LogInv, DistinctIds, LinksInv, ResolvedInv, LineageInv, Coupled, WorkersInv, SpendInv;
    RunReach(script, k);
  }

  lemma SucceededShrugs(db: RunTables, n: Id, c: Claim, base: Id, result: ModelResult)
    requires TablesInv(db, n) && HasSucceeded(db)
    ensures AbandonAttempt(db, c) == BlockUnknown(db, base, c) == CompleteTask(db, base, c, result)
            == FailTask(db, base, c) == db
  {
    hide LogInv, RunInv, DistinctIds, LinksInv, ResolvedInv, LineageInv, Coupled, Blocked, AfterCompletion;
    assert forall status: AttemptStatus, cls: ResultClass ::
        CloseRunning(db.attempts, Some(c.attempt), status, cls) == db.attempts;
  }

  /** What a worker reports once the task has succeeded changes no row: not even the one that
      completed it and was told otherwise, whose `failTask` comes after its own commit. */
  lemma NoReportAfterSuccess(script: Script, k: Id, step: Step, now: Instant)
    requires k in Reach(script).runs && HasSucceeded(Reach(script).runs[k].db) && EndsClaim(step)
    ensures k in Reach(script + [(InRun(k, step), now)]).runs
    ensures Reach(script + [(InRun(k, step), now)]).runs[k].db == Reach(script).runs[k].db
  {
    hide After, TablesInv, SpendInv, WorkersInv, AbandonAttempt, BlockUnknown, CompleteTask, FailTask;
    RunReach(script, k);
    OneStep(script, k, step, now);
    var s, n := Reach(script).runs[k], Reach(script).nextId;
    if step.attempt in s.workers {
      var p := s.workers[step.attempt];
      SucceededShrugs(s.db, n, p.claim, n, if p.Returned? then p.result else ModelResult("", ""));
    }
  }

  /** Once the attempt that spent the invocation is superseded by another claim, no continuation of
      the history succeeds or publishes. */
  lemma SupersededNeverSucceeds(script: Script, more: Script, k: Id)
    requires k in Reach(script).runs
    requires var s := Reach(script).runs[k];
             s.spentBy.Some? && s.spentBy.value < |s.db.attempts|
    ensures k in Reach(script + more).runs
    ensures var s' := Reach(script + more).runs[k];
            !HasSucceeded(s'.db) && s'.db.artifacts == []
  {
    RunLater(script, more, k);
    SuccessIsTheInvokers(script + more, k);
    AttemptsAreNumbered(script + more, k);
    hide After;
  }

  /** Attempts are numbered 1 to the task's count, under distinct ids and tokens; only the newest can
      be RUNNING; and the task is RUNNING exactly if it has a lease, which is then the newest attempt's. */
  lemma AttemptsAreNumbered(script: Script, k: Id)
    requires k in Reach(script).runs
    ensures var db := Reach(script).runs[k].db;
            var attempts, last := db.attempts, |db.attempts| - 1;
            && (forall i :: 0 <= i < |attempts| ==> attempts[i].number == i + 1)
            && (forall i, j :: 0 <= i < j < |attempts| ==>
                  attempts[i].id != attempts[j].id && attempts[i].leaseToken != attempts[j].leaseToken)
            && (forall i :: 0 <= i < last ==> attempts[i].status != AttemptRunning)
            && (db.task.Some? ==>
                  && db.task.value.attemptCount == |attempts|
                  && (db.task.value.state == Running <==> db.task.value.lease.Some?)
                  && (db.task.value.lease.Some? ==> last >= 0 && db.task.value.lease.value.token == attempts[last].leaseToken))
  {
    hide After, RunInv, LogInv, DistinctIds, LinksInv, ResolvedInv, LineageInv, WorkersInv, SpendInv, EffectInv, ArtifactInv;
    RunReach(script, k);
  }

  // ---------------------------------------------------------------- run states

  /** A terminal run is final: row, visible state, brief and number of claims stay for good. */
  lemma TerminalIsFinal(script: Script, more: Script, k: Id)
    requires k in Reach(script).runs && IsTerminal(Reach(script).runs[k].db.run.state)
    ensures k in Reach(script + more).runs
    ensures var db, db' := Reach(script).runs[k].db, Reach(script + more).runs[k].db;
            && db'.run == db.run && ViewOf(db') == ViewOf(db)
            && db'.artifacts == db.artifacts && |db'.attempts| == |db.attempts|
            && (HasSucceeded(db') <==> HasSucceeded(db))
  {
    hide After;
    RunLater(script, more, k);
    TerminalTask(script, k);
    TerminalTask(script + more, k);
  }

  lemma TerminalTask(script: Script, k: Id)
    requires k in Reach(script).runs && IsTerminal(Reach(script).runs[k].db.run.state)
    ensures var db := Reach(script).runs[k].db;
            db.task.Some? ==> db.task.value.state in {Succeeded, TaskCanceled}
  {
    hide After, LogInv, DistinctIds, LinksInv, ResolvedInv, LineageInv, AttemptsInv, EffectInv, ArtifactInv, SpendInv, WorkersInv;
    RunReach(script, k);
  }

  /** Between two moments the run row either is the same or has a higher version. */
  lemma VersionsRise(script: Script, more: Script, k: Id)
    requires k in Reach(script).runs
    ensures k in Reach(script + more).runs
    ensures var run, run' := Reach(script).runs[k].db.run, Reach(script + more).runs[k].db.run;
            run.rowVersion <= run'.rowVersion && (run' != run ==> run.rowVersion < run'.rowVersion)
  {
    hide After, AttemptsGrow, EffectAdvances, TaskAdvances;
    RunLater(script, more, k);
  }

  /** No declared constraint can fire: what every transaction commits satisfies all of them. */
  lemma ConstraintsNeverFire(script: Script, k: Id)
    requires k in Reach(script).runs
    ensures ConstraintsHold(Reach(script).runs[k].db)
  {
    hide After, ConstraintsHold, TablesInv;
    RunReach(script, k);
    ConstraintsFollow(Reach(script).runs[k].db, Reach(script).nextId);
  }
}
