/** When the effect row and the task row agree that the model call succeeded, exactly. */
module EffectAgreement {
  import opened Common
  import opened Rows
  import opened Transactions
  import opened Invariants
  import opened Preservation
  import opened Monotone
  import opened Processes
  import opened SystemInvariant
  import opened SystemSteps
  import opened ControlPlane
  import opened History
  import opened Theorems

  /** A worker that never spent the invocation reports a failure after losing its lease, while the
      effect is still RUNNING: `failTask` then marks UNKNOWN an effect that another worker may use. */
  predicate SpoilsEffect(s: RunSystem, step: Step) {
    && step.FailStep? && step.attempt in s.workers && s.workers[step.attempt].Raised?
    && var c := s.workers[step.attempt].claim;
       !HoldsLease(s.db, c) && s.spentBy != Some(c.attemptNumber)
       && s.db.effect.Some? && s.db.effect.value.status.EffectRunning?
  }

  predicate SpoiledBy(p: Plane, a: Action, k: Id) {
    a.InRun? && a.run == k && k in p.runs && SpoilsEffect(p.runs[k], a.step)
  }

  /** Whether that happened to run `k` anywhere in the script. */
  predicate EverSpoiled(script: Script, k: Id) {
    script != [] && (
      var before := script[..|script| - 1];
      EverSpoiled(before, k) || SpoiledBy(Reach(before), script[|script| - 1].0, k))
  }

  /** The task can no longer succeed. */
  predicate Doomed(s: RunSystem) {
    && s.db.task.Some?
    && (s.db.task.value.state in {TaskBlocked, TaskCanceled}
        || (s.spentBy.Some? && s.spentBy.value < |s.db.attempts|))
  }

  predicate Verdict(s: RunSystem, spoiled: bool) {
    if s.db.effect.Some? && s.db.effect.value.status.EffectUnknown?
    then spoiled || Doomed(s)
    else !spoiled
  }

  lemma DoomedStays(s: RunSystem, s': RunSystem)
    requires Doomed(s) && SystemAdvances(s, s')
    ensures Doomed(s')
  {
  }

  lemma DoomedNeverSucceeds(s: RunSystem)
    requires Doomed(s) && SpendInv(s.db, s.calls, s.spentBy)
    ensures !HasSucceeded(s.db)
  {
  }

  /** A spender that has lost its lease has been superseded, or the task is past running. */
  lemma StaleSpenderIsDoomed(s: RunSystem, n: Id, c: Claim)
    requires SystemInv(s, n) && Issued(s.db, c) && s.spentBy == Some(c.attemptNumber)
    requires !HoldsLease(s.db, c)
    requires s.db.effect.Some? && s.db.effect.value.status.EffectRunning?
    ensures Doomed(s)
  {
    hide RunInv, LogInv, LineageInv, DistinctIds, LinksInv, ResolvedInv, ArtifactInv, WorkersInv;
  }

  /** A completion commits, whether or not its worker is told so. */
  predicate Completes(s: RunSystem, step: Step) {
    && (step.CompleteStep? || step.LateRejectStep?)
    && step.attempt in s.workers && s.workers[step.attempt].Returned?
  }

  /** Most steps leave the status of an effect alone. */
  lemma StatusKept(s: RunSystem, step: Step, now: Instant, base: Id)
    requires !Completes(s, step) && !step.FailStep?
    ensures var a, b := s.db.effect, Next(s, step, now, base).db.effect;
            if a.Some? then b.Some? && b.value.status == a.value.status
            else b.Some? ==> b.value.status.EffectRunning?
  {
  }

  lemma CompleteVerdict(s: RunSystem, n: Id, a: Id, spoiled: bool, s': RunSystem)
    requires SystemInv(s, n) && Verdict(s, spoiled)
    requires a in s.workers && s.workers[a].Returned? && SystemAdvances(s, s')
    requires s'.db == CompleteTask(s.db, n, s.workers[a].claim, s.workers[a].result)
    ensures Verdict(s', spoiled)
  {
    var c := s.workers[a].claim;
    assert WorkerInv(s.db, s.calls, s.spentBy, a, s.workers[a]);
    hide SystemAdvances, HoldsLease, Issued;
    if Doomed(s) { DoomedStays(s, s'); }
    if !HoldsLease(s.db, c) && s.db.effect.Some? && s.db.effect.value.status.EffectRunning? {
      StaleSpenderIsDoomed(s, n, c);
    }
    hide SystemInv;
  }

  lemma FailVerdict(s: RunSystem, n: Id, a: Id, spoiled: bool, s': RunSystem)
    requires SystemInv(s, n) && Verdict(s, spoiled)
    requires a in s.workers && s.workers[a].Raised? && SystemAdvances(s, s')
    requires s'.db == FailTask(s.db, n, s.workers[a].claim)
    ensures Verdict(s', spoiled || SpoilsEffect(s, FailStep(a)))
  {
    var c := s.workers[a].claim;
    assert WorkerInv(s.db, s.calls, s.spentBy, a, s.workers[a]);
    FailMarks(s, n, a);
    hide SystemAdvances, HoldsLease, Issued, SystemInv, FailTask;
    if Doomed(s) { DoomedStays(s, s'); }
    if !HoldsLease(s.db, c) && s.spentBy == Some(c.attemptNumber)
       && s.db.effect.Some? && s.db.effect.value.status.EffectRunning? {
      StaleSpenderIsDoomed(s, n, c);
      DoomedStays(s, s');
    }
  }

  lemma FailMarks(s: RunSystem, n: Id, a: Id)
    requires SystemInv(s, n) && a in s.workers
    ensures var c := s.workers[a].claim;
            var out := FailTask(s.db, n, c);
            && out.effect.Some? && !out.effect.value.status.EffectRunning?
            && s.db.effect.Some?
            && (!s.db.effect.value.status.EffectRunning? ==> out.effect == s.db.effect)
            && (s.db.effect.value.status.EffectRunning? ==> out.effect.value.status.EffectUnknown?)
            && (HoldsLease(s.db, c) ==> out.task.Some? && out.task.value.state == TaskBlocked)
  {
    assert WorkerInv(s.db, s.calls, s.spentBy, a, s.workers[a]);
    hide RunInv, LogInv, LineageInv, DistinctIds, LinksInv, ResolvedInv, ArtifactInv, WorkersInv, SpendInv, AttemptsInv, Coupled;
  }

  /** A step that leaves the status alone leaves the verdict alone. */
  lemma QuietVerdict(s: RunSystem, s': RunSystem, spoiled: bool)
    requires Verdict(s, spoiled) && SystemAdvances(s, s')
    requires var a, b := s.db.effect, s'.db.effect;
             if a.Some? then b.Some? && b.value.status == a.value.status
             else b.Some? ==> b.value.status.EffectRunning?
    ensures Verdict(s', spoiled)
  {
    hide SystemAdvances;
    if Doomed(s) { DoomedStays(s, s'); }
  }

  lemma RecordingVerdict(s: RunSystem, n: Id, step: Step, now: Instant, spoiled: bool)
    requires SystemInv(s, n) && Verdict(s, spoiled) && (Completes(s, step) || step.FailStep?)
    requires Enabled(s, step, now) && SystemAdvances(s, Next(s, step, now, n))
    ensures Verdict(Next(s, step, now, n), spoiled || SpoilsEffect(s, step))
  {
    hide SystemInv, SystemAdvances, Verdict, CompleteTask, FailTask, HoldsLease;
    if !step.FailStep? {
      CompleteVerdict(s, n, step.attempt, spoiled, Next(s, step, now, n));
    } else {
      FailVerdict(s, n, step.attempt, spoiled, Next(s, step, now, n));
    }
  }

  lemma StepVerdict(s: RunSystem, n: Id, step: Step, now: Instant, spoiled: bool)
    requires SystemInv(s, n) && Verdict(s, spoiled)
    ensures Verdict(Next(s, step, now, n), spoiled || SpoilsEffect(s, step))
  {
    hide SystemInv, SystemAdvances, Verdict, Next;
    StepKeeps(s, n, step, now);
    if !Enabled(s, step, now) {
      DisabledIsIdle(s, step, now, n);
    } else if Completes(s, step) || step.FailStep? {
      RecordingVerdict(s, n, step, now, spoiled);
    } else {
      StatusKept(s, step, now, n);
      QuietVerdict(s, Next(s, step, now, n), spoiled);
    }
  }

  lemma {:induction false} VerdictReached(script: Script, k: Id)
    requires k in Reach(script).runs
    ensures Verdict(Reach(script).runs[k], EverSpoiled(script, k))
  {
    var before, a, now := script[..|script| - 1], script[|script| - 1].0, script[|script| - 1].1;
    ReachInv(before);
    var p := Reach(before);
    if a.InRun? && a.run == k && k in p.runs {
      hide Verdict, SystemInv, SpoilsEffect, Next;
      VerdictReached(before, k);
      StepVerdict(p.runs[k], p.nextId, a.step, now, EverSpoiled(before, k));
    } else if k in p.runs {
      VerdictReached(before, k);
      OthersUntouched(p, a, now, k);
      hide Verdict, SystemInv, SpoilsEffect, Next, Do;
    } else {
      NeverSpoiledBeforeCreation(before, k);
      CreatedHere(p, a, now, k);
    }
  }

  lemma OthersUntouched(p: Plane, a: Action, now: Instant, k: Id)
    requires k in p.runs && PlaneInv(p) && !(a.InRun? && a.run == k)
    ensures k in Do(p, a, now).runs && Do(p, a, now).runs[k] == p.runs[k]
  {
    hide SystemInv, OutboxInv, ProjectionInv, Next;
  }

  lemma CreatedHere(p: Plane, a: Action, now: Instant, k: Id)
    requires k !in p.runs && k in Do(p, a, now).runs
    ensures a.CreateRun? && Do(p, a, now).runs[k].db.effect.None?
  {
    hide Next;
  }

  lemma {:induction false} NeverSpoiledBeforeCreation(script: Script, k: Id)
    requires k !in Reach(script).runs
    ensures !EverSpoiled(script, k)
  {
    hide PlaneInv, Do, SpoilsEffect;
    if script != [] {
      var before := script[..|script| - 1];
      ReachInv(before);
      DoAdvances(Reach(before), script[|script| - 1].0, script[|script| - 1].1);
      NeverSpoiledBeforeCreation(before, k);
    }
  }

  /** The effect says SUCCEEDED exactly if the task succeeded, with its brief published, and no such
      failure was ever recorded. */
  lemma EffectAgreesIff(script: Script, k: Id)
    requires k in Reach(script).runs
    ensures var db := Reach(script).runs[k].db;
            (db.effect.Some? && db.effect.value.status.EffectSucceeded?)
            <==> (HasSucceeded(db) && |db.artifacts| == 1 && !EverSpoiled(script, k))
  {
    VerdictReached(script, k);
    RunReach(script, k);
    var s := Reach(script).runs[k];
    hide Reach, EverSpoiled, RunInv, LogInv, LineageInv, DistinctIds, LinksInv, ResolvedInv, WorkersInv, Coupled;
    if Doomed(s) { DoomedNeverSucceeds(s); }
  }

  /** An effect only moves from RUNNING to SUCCEEDED or from RUNNING to UNKNOWN, and then stays. */
  lemma EffectMovesOnce(script: Script, more: Script, k: Id)
    requires k in Reach(script).runs && Reach(script).runs[k].db.effect.Some?
    ensures k in Reach(script + more).runs
    ensures var e, e' := Reach(script).runs[k].db.effect, Reach(script + more).runs[k].db.effect;
            && e'.Some? && e'.value.key == e.value.key && e.value.invocationCount <= e'.value.invocationCount
            && (e.value.status.EffectRunning? || e' == e)
  {
    hide Reach, AttemptsGrow, TaskAdvances, RunAdvances;
    RunLater(script, more, k);
  }
}
