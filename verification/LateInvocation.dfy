/** Canceling a run does not stop an invocation that has passed its lease check. Exactly these
    workers can still reach the provider once the run is terminal. */
module LateInvocation {
  import opened Common
  import opened Rows
  import opened Transactions
  import opened Monotone
  import opened Processes
  import opened SystemInvariant
  import opened SystemSteps
  import opened ControlPlane
  import opened PlaneSteps
  import opened History
  import opened Theorems
  import opened EffectAgreement

  /** A worker past its lease check that has begun the invocation, or still may. */
  predicate BoundToInvoke(db: RunTables, p: Phase) {
    p.InvocationBegun? || (p.LeaseConfirmed? && MayInvoke(db, p.claim))
  }

  predicate CanStillInvoke(s: RunSystem) {
    exists a :: a in s.workers && BoundToInvoke(s.db, s.workers[a])
  }

  predicate Settled(s: RunSystem) {
    IsTerminal(s.db.run.state) && !CanStillInvoke(s)
  }

  lemma MayInvokeFades(db: RunTables, db': RunTables, c: Claim)
    requires Advances(db, db') && db.effect.Some? && !MayInvoke(db, c)
    ensures !MayInvoke(db', c)
  {
    hide AttemptsGrow, TaskAdvances, RunAdvances;
  }

  /** In a settled run no worker becomes bound to invoke. */
  lemma PhasesSettle(s: RunSystem, step: Step, now: Instant, base: Id, a: Id)
    requires Settled(s)
    ensures var s' := Next(s, step, now, base);
            && s'.calls == s.calls
            && (a in s'.workers ==>
                  (a in s.workers && s'.workers[a] == s.workers[a])
                  || !(s'.workers[a].InvocationBegun? || s'.workers[a].LeaseConfirmed?))
  {
    if step.InvokeStep? && step.attempt in s.workers { assert !BoundToInvoke(s.db, s.workers[step.attempt]); }
    if step.BeginStep? && step.attempt in s.workers { assert !BoundToInvoke(s.db, s.workers[step.attempt]); }
    hide AfterAnswer, AfterOpen, AfterCancel, AfterClaim, CompleteTask, FailTask, BlockUnknown, CanStillInvoke;
  }

  lemma SettledStays(s: RunSystem, n: Id, step: Step, now: Instant)
    requires SystemInv(s, n) && Settled(s)
    ensures Settled(Next(s, step, now, n)) && Next(s, step, now, n).calls == s.calls
  {
    StepKeeps(s, n, step, now);
    WorkersMeanEffect(s, n);
    var s' := Next(s, step, now, n);
    hide Next, SystemInv, AttemptsGrow, TaskAdvances, EffectAdvances, MayInvoke;
    forall a | a in s'.workers ensures !BoundToInvoke(s'.db, s'.workers[a]) {
      PhasesSettle(s, step, now, n, a);
      if a in s.workers && s'.workers[a] == s.workers[a] {
        assert !BoundToInvoke(s.db, s.workers[a]);
        if s.workers[a].LeaseConfirmed? { MayInvokeFades(s.db, s'.db, s.workers[a].claim); }
      }
    }
    PhasesSettle(s, step, now, n, 0);
  }

  lemma WorkersMeanEffect(s: RunSystem, n: Id)
    requires SystemInv(s, n)
    ensures forall a :: a in s.workers ==> s.db.effect.Some?
  {
    forall a | a in s.workers ensures s.db.effect.Some? {
      assert WorkerInv(s.db, s.calls, s.spentBy, a, s.workers[a]);
    }
  }

  lemma {:induction false} SettledForGood(script: Script, more: Script, k: Id)
    requires k in Reach(script).runs && Settled(Reach(script).runs[k])
    ensures k in Reach(script + more).runs
    ensures var s, s' := Reach(script).runs[k], Reach(script + more).runs[k];
            Settled(s') && s'.calls == s.calls
  {
    hide Settled, Do, SystemInv, OutboxInv, ProjectionInv;
    if more == [] {
      assert script + more == script;
    } else {
      var before, last := more[..|more| - 1], more[|more| - 1];
      SettledForGood(script, before, k);
      assert (script + more)[..|script + more| - 1] == script + before;
      SettledByAction(script + before, k, last.0, last.1);
    }
  }

  lemma SettledByAction(script: Script, k: Id, a: Action, now: Instant)
    requires k in Reach(script).runs && Settled(Reach(script).runs[k])
    ensures var p' := Do(Reach(script), a, now);
            k in p'.runs && Settled(p'.runs[k]) && p'.runs[k].calls == Reach(script).runs[k].calls
  {
    var p := Reach(script);
    ReachInv(script);
    if a.InRun? && a.run == k {
      SettledStays(p.runs[k], p.nextId, a.step, now);
    } else {
      OthersUntouched(p, a, now, k);
      hide Do;
    }
    hide Reach, Settled, SystemInv, OutboxInv, ProjectionInv, Next;
  }

  /** A terminal run reaches the provider later exactly if some worker is bound to now. */
  lemma LateInvocationIff(script: Script, k: Id)
    requires k in Reach(script).runs && IsTerminal(Reach(script).runs[k].db.run.state)
    ensures CanStillInvoke(Reach(script).runs[k]) <==>
            exists more: Script :: k in Reach(script + more).runs
                                   && |Reach(script + more).runs[k].calls| > |Reach(script).runs[k].calls|
  {
    hide Reach, CanStillInvoke;
    if CanStillInvoke(Reach(script).runs[k]) {
      var more := InvokesLater(script, k);
    } else {
      forall more: Script
        ensures !(k in Reach(script + more).runs
                  && |Reach(script + more).runs[k].calls| > |Reach(script).runs[k].calls|)
      {
        SettledForGood(script, more, k);
      }
    }
  }

  lemma BeginBegins(s: RunSystem, a: Id, now: Instant, base: Id)
    requires a in s.workers && s.workers[a].LeaseConfirmed? && s.workers[a].claim.attempt == a
    requires MayInvoke(s.db, s.workers[a].claim)
    ensures var s' := Next(s, BeginStep(a), now, base);
            s'.calls == s.calls && a in s'.workers && s'.workers[a].InvocationBegun?
  {
  }

  lemma InvokeCalls(s: RunSystem, a: Id, now: Instant, base: Id)
    requires a in s.workers && s.workers[a].InvocationBegun?
    ensures |Next(s, InvokeStep(a, None), now, base).calls| == |s.calls| + 1
  {
  }

  lemma WorkerOfKey(script: Script, k: Id, a: Id)
    requires k in Reach(script).runs && a in Reach(script).runs[k].workers
    ensures Reach(script).runs[k].workers[a].claim.attempt == a
  {
    hide Reach, SpendInv, PhaseInv;
    RunReach(script, k);
    var s := Reach(script).runs[k];
    assert WorkerInv(s.db, s.calls, s.spentBy, a, s.workers[a]);
  }

  lemma InvokesLater(script: Script, k: Id) returns (more: Script)
    requires k in Reach(script).runs && CanStillInvoke(Reach(script).runs[k])
    ensures k in Reach(script + more).runs
    ensures |Reach(script + more).runs[k].calls| > |Reach(script).runs[k].calls|
  {
    var s := Reach(script).runs[k];
    hide Reach, Next, MayInvoke;
    var a :| a in s.workers && BoundToInvoke(s.db, s.workers[a]);
    if s.workers[a].InvocationBegun? {
      more := [(InRun(k, InvokeStep(a, None)), 0)];
      OneStep(script, k, InvokeStep(a, None), 0);
      InvokeCalls(s, a, 0, Reach(script).nextId);
    } else {
      WorkerOfKey(script, k, a);
      var begun := script + [(InRun(k, BeginStep(a)), 0)];
      OneStep(script, k, BeginStep(a), 0);
      BeginBegins(s, a, 0, Reach(script).nextId);
      OneStep(begun, k, InvokeStep(a, None), 0);
      InvokeCalls(Reach(begun).runs[k], a, 0, Reach(begun).nextId);
      more := [(InRun(k, BeginStep(a)), 0), (InRun(k, InvokeStep(a, None)), 0)];
      assert script + more == begun + [(InRun(k, InvokeStep(a, None)), 0)];
    }
  }
}
