/** Two short histories that refute what one might expect of the control plane. */
module Traces {
  import opened Common
  import opened Rows
  import opened Transactions
  import opened Invariants
  import opened Monotone
  import opened Processes
  import opened ControlPlane
  import opened PlaneSteps
  import opened Theorems

  /** A run with one queued task. Its id is 8, its task's is 1, and its first claim is attempt 10. */
  const Created: Script := [(CreateRun(100, 101, 102, "workflow-v1", false), 0)]

  function Then(script: Script, step: Step, now: Instant): Script {
    script + [(InRun(8, step), now)]
  }

  const Brief := ModelResult("product-brief-v1", "{}")

  lemma CreatedRuns()
    ensures 8 in Reach(Created).runs && Reach(Created).nextId == 9
    ensures Reach(Created).runs[8] == Start(CreatedRun(0, 0, 100, 101, 102, "workflow-v1", false))
  {
    hide Posted;
    assert Created[..0] == [];
    assert Reach(Created) == Do(Reach([]), Created[0].0, 0);
  }

  // ---------------------------------------------------------------- a stale failure spoils the effect

  const SlowClaims := Then(Created, ClaimStep("slow", 10), 0)
  const SlowRaises := Then(SlowClaims, RejectStep(10), 1)
  const FastClaims := Then(SlowRaises, ClaimStep("fast", 10), 11)
  const FastReads := Then(FastClaims, LoadContextStep(28), 12)
  const FastChecks := Then(FastReads, CheckLeaseStep(28), 12)
  const FastBegins := Then(FastChecks, BeginStep(28), 13)
  const FastInvokes := Then(FastBegins, InvokeStep(28, Some(Brief)), 14)
  const SlowFails := Then(FastInvokes, FailStep(10), 15)
  const FastCompletes := Then(SlowFails, CompleteStep(28), 16)

  const KIND := "CREATE_PRODUCT_BRIEF"
  const Frozen := Manifest(0, 101, 102, "workflow-v1", [], None)
  const Context := Snapshot(0, 101, 102, [])
  const Slow := Claim(1, KIND, 10, 1, 9, Frozen, EffectKey(1, KIND))
  const Fast := Claim(1, KIND, 28, 2, 27, Frozen, EffectKey(1, KIND))

  function TaskAt(state: TaskState, attempts: nat, version: nat, lease: Option<Lease>): Task {
    Task(1, KIND, state, attempts, version, lease, 0, Frozen)
  }

  function EffectAt(status: EffectStatus, count: nat): Effect {
    Effect(EffectKey(1, KIND), 10, status, count, None, !status.EffectRunning?)
  }

  lemma SlowWorkerRaises()
    ensures 8 in Reach(SlowRaises).runs && Reach(SlowRaises).nextId == 27
    ensures var s := Reach(SlowRaises).runs[8];
            && s.workers == map[10 := Raised(Slow)] && s.spentBy == None
            && s.db.task == Some(TaskAt(Running, 1, 2, Some(Lease("slow", 9, 10))))
            && s.db.effect == Some(EffectAt(EffectRunning, 0))
            && s.db.run.state == Qualifying && !s.db.run.cancellationRequested
            && s.db.run.contextSnapshot == 0 && s.db.snapshots == [Context]
  {
    CreatedRuns();
    OneStep(Created, 8, ClaimStep("slow", 10), 0);
    OneStep(SlowClaims, 8, RejectStep(10), 1);
    hide Reach;
  }

  lemma FastWorkerChecks()
    ensures 8 in Reach(FastChecks).runs && Reach(FastChecks).nextId == 54
    ensures var s := Reach(FastChecks).runs[8];
            && s.workers == map[10 := Raised(Slow), 28 := LeaseConfirmed(Fast, Context)] && s.spentBy == None
            && s.db.task == Some(TaskAt(Running, 2, 3, Some(Lease("fast", 27, 21))))
            && s.db.effect == Some(EffectAt(EffectRunning, 0))
            && s.db.run.state == Qualifying && !s.db.run.cancellationRequested
  {
    SlowWorkerRaises();
    OneStep(SlowRaises, 8, ClaimStep("fast", 10), 11);
    OneStep(FastClaims, 8, LoadContextStep(28), 12);
    OneStep(FastReads, 8, CheckLeaseStep(28), 12);
    hide Reach;
  }

  lemma FastWorkerInvokes()
    ensures 8 in Reach(FastInvokes).runs && Reach(FastInvokes).nextId == 72
    ensures var s := Reach(FastInvokes).runs[8];
            && s.workers == map[10 := Raised(Slow), 28 := Returned(Fast, Brief)] && s.spentBy == Some(2)
            && s.db.task == Some(TaskAt(Running, 2, 3, Some(Lease("fast", 27, 21))))
            && s.db.effect == Some(EffectAt(EffectRunning, 1))
            && s.db.run.state == Qualifying && !s.db.run.cancellationRequested
  {
    FastWorkerChecks();
    OneStep(FastChecks, 8, BeginStep(28), 13);
    OneStep(FastBegins, 8, InvokeStep(28, Some(Brief)), 14);
    hide Reach;
  }

  lemma SlowWorkerFails()
    ensures 8 in Reach(SlowFails).runs
    ensures var s := Reach(SlowFails).runs[8];
            && 28 in s.workers && s.workers[28] == Returned(Fast, Brief)
            && s.db.task == Some(TaskAt(Running, 2, 3, Some(Lease("fast", 27, 21))))
            && s.db.effect == Some(EffectAt(EffectUnknown, 1)) && s.db.run.state == Qualifying
  {
    FastWorkerInvokes();
    OneStep(FastInvokes, 8, FailStep(10), 15);
    hide Reach;
  }

  /** A claims, its lease expires, B claims and begins, A raises before invoking and records its
      failure, B completes: the task succeeded although its effect says UNKNOWN. */
  lemma SuccessWithoutEffect()
    ensures 8 in Reach(FastCompletes).runs
    ensures var db := Reach(FastCompletes).runs[8].db;
            HasSucceeded(db) && db.effect.Some? && db.effect.value.status.EffectUnknown?
  {
    SlowWorkerFails();
    OneStep(SlowFails, 8, CompleteStep(28), 16);
    hide Reach;
  }

  // ---------------------------------------------------------------- a canceled run is invoked

  const Reads := Then(SlowClaims, LoadContextStep(10), 1)
  const Checks := Then(Reads, CheckLeaseStep(10), 2)
  const Cancels := Then(Checks, CancelStep, 3)
  const Begins := Then(Cancels, BeginStep(10), 4)
  const Invokes := Then(Begins, InvokeStep(10, Some(Brief)), 5)

  lemma WorkerChecks()
    ensures 8 in Reach(Checks).runs && Reach(Checks).nextId == 36
    ensures var s := Reach(Checks).runs[8];
            && s.workers == map[10 := LeaseConfirmed(Slow, Context)] && s.spentBy == None && s.calls == []
            && s.db.effect == Some(EffectAt(EffectRunning, 0)) && s.db.run.state == Qualifying
  {
    CreatedRuns();
    OneStep(Created, 8, ClaimStep("slow", 10), 0);
    OneStep(SlowClaims, 8, LoadContextStep(10), 1);
    OneStep(Reads, 8, CheckLeaseStep(10), 2);
    hide Reach;
  }

  lemma FounderCancels()
    ensures 8 in Reach(Cancels).runs
    ensures var s := Reach(Cancels).runs[8];
            && s.workers == map[10 := LeaseConfirmed(Slow, Context)] && s.calls == []
            && s.db.effect == Some(EffectAt(EffectRunning, 0)) && s.db.run.state == RunCanceled
  {
    WorkerChecks();
    OneStep(Checks, 8, CancelStep, 3);
    hide Reach;
  }

  /** A worker past its lease check still invokes the provider for a run canceled meanwhile: the
      transaction that spends the invocation looks at the effect row only. */
  lemma CanceledRunIsInvoked()
    ensures 8 in Reach(Cancels).runs && 8 in Reach(Invokes).runs
    ensures var before, after := Reach(Cancels).runs[8], Reach(Invokes).runs[8];
            && before.db.run.state == RunCanceled && before.calls == []
            && after.db.run.state == RunCanceled && |after.calls| == 1
  {
    FounderCancels();
    OneStep(Cancels, 8, BeginStep(10), 4);
    OneStep(Begins, 8, InvokeStep(10, Some(Brief)), 5);
    hide Reach;
  }
}
