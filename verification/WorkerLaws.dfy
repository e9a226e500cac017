/** When each step of a worker takes effect and what it makes of the rows, said of the rows of any
    reachable run, without the functions that compute it. */
module WorkerLaws {
  import opened Common
  import opened Rows
  import opened Transactions
  import opened Invariants
  import opened Preservation
  import opened Monotone
  import opened TransactionFacts
  import opened Processes
  import opened SystemInvariant
  import opened SystemSteps
  import opened ControlPlane
  import opened History
  import opened Theorems

  /** What run `k` is after one more step. */
  function After1(script: Script, k: Id, step: Step, now: Instant): RunSystem
    requires k in Reach(script).runs
  {
    Next(Reach(script).runs[k], step, now, Reach(script).nextId)
  }

  lemma After1Reached(script: Script, k: Id, step: Step, now: Instant)
    requires k in Reach(script).runs
    ensures k in Reach(script + [(InRun(k, step), now)]).runs
    ensures Reach(script + [(InRun(k, step), now)]).runs[k] == After1(script, k, step, now)
  {
    hide After, Next;
    OneStep(script, k, step, now);
  }

  // ---------------------------------------------------------------- claiming

  /** The run is open, and its task is waiting and due, or running under a lease that has run out. */
  predicate Due(db: RunTables, now: Instant) {
    && db.run.state != RunCanceled && db.run.state != RunFailed && db.run.state != RunCompleted
    && !db.run.cancellationRequested
    && db.task.Some?
    && match db.task.value.state
       case Queued | Ready | RetryWait => db.task.value.availableAt <= now
       case Running => db.task.value.lease.Some? && db.task.value.lease.value.expiresAt < now
       case _ => false
  }

  /** The rows after a claim: the newest attempt is the claimant's and holds the lease. */
  predicate ClaimedRows(db: RunTables, db': RunTables, now: Instant, worker: string, leaseSeconds: nat) {
    var n := |db.attempts|;
    && db.task.Some? && |db'.attempts| == n + 1
    && var t, newest := db.task.value, db'.attempts[n];
       && newest == Attempt(newest.id, t.attemptCount + 1, t.manifest, newest.leaseToken, AttemptRunning, Unclassified)
       && (forall i :: 0 <= i < n ==>
             db'.attempts[i] == if db.attempts[i].status == AttemptRunning
                                then db.attempts[i].(status := Abandoned, resultClass := LeaseExpired) else db.attempts[i])
       && db'.task == Some(t.(state := Running, attemptCount := t.attemptCount + 1, rowVersion := t.rowVersion + 1,
                              lease := Some(Lease(worker, newest.leaseToken, now + leaseSeconds))))
       && db'.effect == (if db.effect.Some? then db.effect
                         else Some(Effect(EffectKey(t.id, t.kind), newest.id, EffectRunning, 0, None, false)))
       && db'.run == (if db.run.state == Draft
                      then db.run.(state := Qualifying, stage := Product, rowVersion := db.run.rowVersion + 1) else db.run)
       && |db'.events| == |db.events| + 1
       && var e := db'.events[|db.events|];
          && db'.events == db.events + [Event(e.id, db.nextSequence, TaskStarted(t.id, newest.id, newest.number, newest.leaseToken, worker))]
          && db' == db.(task := db'.task, attempts := db'.attempts, effect := db'.effect, run := db'.run,
                        nextSequence := db.nextSequence + 1, events := db'.events)
  }

  lemma ClaimStepLaw(s: RunSystem, worker: string, leaseSeconds: nat, now: Instant, base: Id)
    ensures var s' := Next(s, ClaimStep(worker, leaseSeconds), now, base);
            if Due(s.db, now) then
              && ClaimedRows(s.db, s'.db, now, worker, leaseSeconds)
              && s'.calls == s.calls && s'.spentBy == s.spentBy
              && var t, newest := s.db.task.value, s'.db.attempts[|s.db.attempts|];
                 s'.workers == s.workers[newest.id :=
                   Claimed(Claim(t.id, t.kind, newest.id, newest.number, newest.leaseToken, t.manifest, EffectKey(t.id, t.kind)))]
            else s' == s
  {
  }

  /** A claim adds an attempt exactly if the task is due, and otherwise changes nothing. */
  lemma ClaimsIff(script: Script, k: Id, worker: string, leaseSeconds: nat, now: Instant)
    requires k in Reach(script).runs
    ensures var s, s' := Reach(script).runs[k], After1(script, k, ClaimStep(worker, leaseSeconds), now);
            && (|s'.db.attempts| == |s.db.attempts| + 1 <==> Due(s.db, now))
            && (Due(s.db, now) ==> ClaimedRows(s.db, s'.db, now, worker, leaseSeconds))
            && (!Due(s.db, now) ==> s' == s)
  {
    hide After, Next, Due, ClaimedRows;
    ClaimStepLaw(Reach(script).runs[k], worker, leaseSeconds, now, Reach(script).nextId);
    Adds(Reach(script).runs[k].db, After1(script, k, ClaimStep(worker, leaseSeconds), now).db, now, worker, leaseSeconds);
  }

  lemma Adds(db: RunTables, db': RunTables, now: Instant, worker: string, leaseSeconds: nat)
    ensures ClaimedRows(db, db', now, worker, leaseSeconds) ==> |db'.attempts| == |db.attempts| + 1
  {
  }

  /** Nobody takes a run over while its lease lasts: whatever step adds an attempt to those there
      are, the newest of them held the lease, and it had run out. */
  lemma TakeoverNeedsExpiry(script: Script, k: Id, step: Step, now: Instant)
    requires k in Reach(script).runs && Reach(script).runs[k].db.attempts != []
    requires |After1(script, k, step, now).db.attempts| > |Reach(script).runs[k].db.attempts|
    ensures HeldTo(Reach(script).runs[k].db, now)
  {
    hide After, SystemInv, Next, HeldTo;
    RunReach(script, k);
    Takeover(Reach(script).runs[k], Reach(script).nextId, step, now);
  }

  /** The newest attempt holds the lease, and it has run out. */
  predicate HeldTo(db: RunTables, now: Instant) {
    && db.attempts != []
    && db.task.Some? && db.task.value.state == Running && db.task.value.lease.Some?
    && db.task.value.lease.value.token == db.attempts[|db.attempts| - 1].leaseToken
    && db.task.value.lease.value.expiresAt < now
  }

  lemma Takeover(s: RunSystem, n: Id, step: Step, now: Instant)
    requires SystemInv(s, n) && s.db.attempts != [] && |Next(s, step, now, n).db.attempts| > |s.db.attempts|
    ensures HeldTo(s.db, now)
  {
    hide SystemInv, Next, Due, ClaimedRows;
    if !step.ClaimStep? {
      OnlyClaimsAdd(s, step, now, n);
    } else {
      ClaimStepLaw(s, step.worker, step.leaseSeconds, now, n);
      AttemptedIsRunning(s, n, now);
    }
  }

  lemma AttemptedIsRunning(s: RunSystem, n: Id, now: Instant)
    requires SystemInv(s, n) && s.db.attempts != [] && Due(s.db, now)
    ensures HeldTo(s.db, now)
  {
    hide SpendInv, WorkersInv, LogInv, LineageInv, EffectInv, ArtifactInv, DistinctIds, LinksInv, ResolvedInv, Coupled;
  }

  lemma OnlyClaimsAdd(s: RunSystem, step: Step, now: Instant, base: Id)
    requires !step.ClaimStep?
    ensures |Next(s, step, now, base).db.attempts| == |s.db.attempts|
  {
    hide HoldsLease, MayInvoke, LeaseCurrent, AnswerAllowed, WellShaped, MarkUnknown, BlockedRun, CancelWaits;
  }

  // ---------------------------------------------------------------- the fence

  /** The task is running and nobody has claimed it since. */
  predicate Newest(db: RunTables, c: Claim) {
    db.task.Some? && db.task.value.state == Running && c.attemptNumber == |db.attempts|
  }

  /** The token fence, over any rows. */
  lemma FenceOverRows(db: RunTables, c: Claim)
    ensures HoldsLease(db, c) <==>
              && db.task.Some? && db.task.value.id == c.task && db.task.value.state == Running
              && db.task.value.lease.Some? && db.task.value.lease.value.token == c.leaseToken
              && db.run.state != RunCanceled && db.run.state != RunFailed && db.run.state != RunCompleted
  {
  }

  lemma FenceIsNewest(s: RunSystem, n: Id, a: Id)
    requires SystemInv(s, n) && a in s.workers
    ensures HoldsLease(s.db, s.workers[a].claim) <==> Newest(s.db, s.workers[a].claim)
  {
    hide SpendInv, LogInv, LineageInv, EffectInv, ArtifactInv, DistinctIds, LinksInv, ResolvedInv, PhaseInv;
    assert WorkerInv(s.db, s.calls, s.spentBy, a, s.workers[a]);
  }

  lemma ClaimOf(s: RunSystem, n: Id, a: Id)
    requires SystemInv(s, n) && a in s.workers
    ensures TablesInv(s.db, n) && Issued(s.db, s.workers[a].claim) && s.db.effect.Some?
  {
    hide SpendInv, LogInv, LineageInv, ArtifactInv, DistinctIds, LinksInv, ResolvedInv, PhaseInv, Coupled, AttemptsInv;
    assert WorkerInv(s.db, s.calls, s.spentBy, a, s.workers[a]);
  }

  /** The newest attempt with this outcome. */
  function Ended(attempts: seq<Attempt>, status: AttemptStatus, cls: ResultClass): seq<Attempt>
    requires attempts != []
  {
    attempts[|attempts| - 1 := attempts[|attempts| - 1].(status := status, resultClass := cls)]
  }

  /** The newest attempt closed, unless its worker has closed it before. */
  function ClosedOnce(attempts: seq<Attempt>, status: AttemptStatus, cls: ResultClass): seq<Attempt>
    requires attempts != []
  {
    if attempts[|attempts| - 1].status == AttemptRunning then Ended(attempts, status, cls) else attempts
  }

  /** What a worker without the lease leaves of its attempt. A superseded one is already closed: there
      is something to close only if the task was taken from the newest attempt while it ran. */
  function Dropped(attempts: seq<Attempt>, c: Claim, cls: ResultClass): seq<Attempt> {
    if attempts != [] && c.attemptNumber == |attempts| then ClosedOnce(attempts, Abandoned, cls) else attempts
  }

  function Unknown(effect: Option<Effect>): Option<Effect> {
    if effect.Some? && effect.value.status == EffectRunning
    then Some(effect.value.(status := EffectUnknown, completed := true)) else effect
  }

  lemma ClosesOwn(t: Task, attempts: seq<Attempt>, n: Id, c: Claim, status: AttemptStatus, cls: ResultClass)
    requires AttemptsInv(t, attempts, n)
    requires 1 <= c.attemptNumber <= |attempts| && attempts[c.attemptNumber - 1].id == c.attempt
    ensures CloseRunning(attempts, Some(c.attempt), status, cls)
            == if c.attemptNumber == |attempts| then ClosedOnce(attempts, status, cls) else attempts
    ensures c.attemptNumber == |attempts| ==> CloseById(attempts, c.attempt, status, cls) == Ended(attempts, status, cls)
  {
  }

  lemma NewestRuns(db: RunTables, n: Id, c: Claim)
    requires TablesInv(db, n) && Issued(db, c)
    ensures AttemptsInv(db.task.value, db.attempts, n)
    ensures Newest(db, c) ==> db.run.state == Qualifying && !db.run.cancellationRequested
    ensures Newest(db, c) ==> db.artifacts == []
    ensures db.effect.Some? && db.effect.value.key == c.effectKey
    ensures c.manifest == db.task.value.manifest
  {
    hide LineageInv, DistinctIds, LinksInv, ResolvedInv;
  }

  // ---------------------------------------------------------------- the lease check and the invocation

  /** The lease check passes exactly if the task still runs under this claim and its lease lasts
      beyond now; in particular not once it has expired, nor once the run is canceled. */
  lemma LeaseCheckIff(script: Script, k: Id, a: Id, now: Instant)
    requires k in Reach(script).runs && a in Reach(script).runs[k].workers && Reach(script).runs[k].workers[a].ContextRead?
    ensures var s, s' := Reach(script).runs[k], After1(script, k, CheckLeaseStep(a), now);
            var c, context := s.workers[a].claim, s.workers[a].context;
            s' == s.(workers := s.workers[a :=
              if Newest(s.db, c) && s.db.task.value.lease.Some? && now < s.db.task.value.lease.value.expiresAt
              then LeaseConfirmed(c, context) else LeaseLost(c)])
  {
    hide After, SystemInv, Next, Newest;
    RunReach(script, k);
    LeaseCheck(Reach(script).runs[k], Reach(script).nextId, a, now);
  }

  lemma LeaseCheck(s: RunSystem, n: Id, a: Id, now: Instant)
    requires SystemInv(s, n) && a in s.workers && s.workers[a].ContextRead?
    ensures var c, context := s.workers[a].claim, s.workers[a].context;
            Next(s, CheckLeaseStep(a), now, n) == s.(workers := s.workers[a :=
              if Newest(s.db, c) && s.db.task.value.lease.Some? && now < s.db.task.value.lease.value.expiresAt
              then LeaseConfirmed(c, context) else LeaseLost(c)])
  {
    hide SystemInv, TablesInv, HoldsLease, LeaseCurrent, Issued;
    var c := s.workers[a].claim;
    FenceIsNewest(s, n, a);
    ClaimOf(s, n, a);
    NewestRuns(s.db, n, c);
    WorkerKey(s, n, a);
    LeaseOverRows(s.db, now, c);
    FenceOverRows(s.db, c);
  }

  lemma WorkerKey(s: RunSystem, n: Id, a: Id)
    requires SystemInv(s, n) && a in s.workers
    ensures s.workers[a].claim.attempt == a
  {
    hide TablesInv, SpendInv, PhaseInv;
    assert WorkerInv(s.db, s.calls, s.spentBy, a, s.workers[a]);
  }

  /** The lease over any rows: expiry, the run's state and a requested cancellation all count. */
  lemma LeaseOverRows(db: RunTables, now: Instant, c: Claim)
    ensures LeaseCurrent(db, now, c) <==>
              HoldsLease(db, c) && now < db.task.value.lease.value.expiresAt && !db.run.cancellationRequested
  {
    hide HoldsLease;
    if HoldsLease(db, c) { FenceOverRows(db, c); }
  }

  /** The invocation is spent exactly if the effect is RUNNING and nobody has spent it, whatever has
      become of the lease or the run. */
  lemma BeginsIff(script: Script, k: Id, a: Id, now: Instant)
    requires k in Reach(script).runs && a in Reach(script).runs[k].workers && Reach(script).runs[k].workers[a].LeaseConfirmed?
    ensures var s, s' := Reach(script).runs[k], After1(script, k, BeginStep(a), now);
            BeginRows(s, s', a)
  {
    hide After, SystemInv, Next, BeginRows;
    RunReach(script, k);
    Begins(Reach(script).runs[k], Reach(script).nextId, a, now);
  }

  predicate BeginRows(s: RunSystem, s': RunSystem, a: Id)
    requires a in s.workers && s.workers[a].LeaseConfirmed?
  {
    var c, context := s.workers[a].claim, s.workers[a].context;
    && s.db.effect.Some?
    && if s.db.effect.value.status == EffectRunning && s.db.effect.value.invocationCount == 0
       then s' == s.(db := s.db.(effect := Some(s.db.effect.value.(invocationCount := 1))),
                     spentBy := Some(c.attemptNumber), workers := s.workers[a := InvocationBegun(c, context)])
       else s' == s.(workers := s.workers[a := InvocationRefused(c)])
  }

  lemma Begins(s: RunSystem, n: Id, a: Id, now: Instant)
    requires SystemInv(s, n) && a in s.workers && s.workers[a].LeaseConfirmed?
    ensures BeginRows(s, Next(s, BeginStep(a), now, n), a)
  {
    hide SystemInv, TablesInv, MayInvoke, Issued;
    var c := s.workers[a].claim;
    ClaimOf(s, n, a);
    NewestRuns(s.db, n, c);
    WorkerKey(s, n, a);
    InvocationOverRows(s.db, c);
  }

  lemma InvocationOverRows(db: RunTables, c: Claim)
    ensures MayInvoke(db, c) <==>
              db.effect.Some? && db.effect.value.key == c.effectKey && db.effect.value.status == EffectRunning
              && db.effect.value.invocationCount == 0
  {
  }

  /** The provider is told the context the run points at, and what it answers is recorded and passed
      on as it is. */
  lemma InvokeTells(script: Script, k: Id, a: Id, reply: Option<ModelResult>, now: Instant)
    requires k in Reach(script).runs && a in Reach(script).runs[k].workers && Reach(script).runs[k].workers[a].InvocationBegun?
    ensures InvokeRows(Reach(script).runs[k], After1(script, k, InvokeStep(a, reply), now), a, reply)
  {
    hide After, SystemInv, Next, InvokeRows;
    RunReach(script, k);
    Invokes(Reach(script).runs[k], Reach(script).nextId, a, reply, now);
  }

  predicate InvokeRows(s: RunSystem, s': RunSystem, a: Id, reply: Option<ModelResult>)
    requires a in s.workers && s.workers[a].InvocationBegun?
  {
    var c, context := s.workers[a].claim, s.workers[a].context;
    && context in s.db.snapshots && context.id == s.db.run.contextSnapshot
    && s.calls == [] && s.db.task.Some?
    && s' == s.(calls := [ProviderCall(a, EffectKey(s.db.task.value.id, s.db.task.value.kind), context, reply)],
                workers := s.workers[a := match reply case Some(result) => Returned(c, result) case None => Raised(c)])
  }

  lemma Invokes(s: RunSystem, n: Id, a: Id, reply: Option<ModelResult>, now: Instant)
    requires SystemInv(s, n) && a in s.workers && s.workers[a].InvocationBegun?
    ensures InvokeRows(s, Next(s, InvokeStep(a, reply), now, n), a, reply)
  {
    hide LogInv, EffectInv, ArtifactInv, DistinctIds, LinksInv, ResolvedInv, Coupled, SpendInv;
    assert WorkerInv(s.db, s.calls, s.spentBy, a, s.workers[a]);
  }

  // ---------------------------------------------------------------- how a claim ends

  /** The rows a completion leaves: published by the newest claim, invisible from any other. */
  predicate CompletedRows(db: RunTables, db': RunTables, c: Claim, result: ModelResult) {
    && db.task.Some? && db.effect.Some? && db.attempts != []
    && var t, e := db.task.value, db.effect.value;
       if Newest(db, c) then
         && db.artifacts == [] && |db'.artifacts| == 1 && |db'.events| == |db.events| + 1
         && var brief, id := db'.artifacts[0], db'.events[|db.events|].id;
            db' == db.(
              artifacts := [Artifact(brief.id, brief.version, c.attempt, t.manifest, result)],
              attempts := Ended(db.attempts, AttemptSucceeded, Success),
              effect := Some(if e.status == EffectRunning
                             then e.(status := EffectSucceeded, output := Some(result), completed := true) else e),
              task := Some(t.(state := Succeeded, lease := None, rowVersion := t.rowVersion + 1)),
              run := db.run.(state := AwaitingBriefApproval, stage := Product, rowVersion := db.run.rowVersion + 1),
              nextSequence := db.nextSequence + 1,
              events := db.events + [Event(id, db.nextSequence,
                                           BriefPublished(t.id, c.attempt, |db.attempts|, brief.id, brief.version))])
       else db' == db.(attempts := Dropped(db.attempts, c, StaleCompletion), effect := Unknown(db.effect))
  }

  /** The rows after the newest claim gave up: blocked, for a human to reconcile. */
  predicate BlockedRows(db: RunTables, db': RunTables, c: Claim, status: AttemptStatus, effect: Option<Effect>, version: nat) {
    && db.task.Some? && db.attempts != []
    && var t := db.task.value;
       && |db'.events| == |db.events| + 1
       && var id := db'.events[|db.events|].id;
          db' == db.(
            attempts := ClosedOnce(db.attempts, status, UnknownExternalOutcome),
            effect := effect,
            task := Some(t.(state := TaskBlocked, lease := None, rowVersion := version)),
            run := db.run.(state := RunBlocked, rowVersion := db.run.rowVersion + 1),
            nextSequence := db.nextSequence + 1,
            events := db.events + [Event(id, db.nextSequence,
                                         ReconciliationRequired(t.id, c.attempt, EffectKey(t.id, t.kind)))])
  }

  predicate FailedRows(db: RunTables, db': RunTables, c: Claim) {
    if Newest(db, c) then BlockedRows(db, db', c, AttemptFailed, Unknown(db.effect), db.task.value.rowVersion)
    else db' == db.(attempts := Dropped(db.attempts, c, StaleFailure), effect := Unknown(db.effect))
  }

  predicate RefusedRows(db: RunTables, db': RunTables, c: Claim) {
    if Newest(db, c) then BlockedRows(db, db', c, Abandoned, db.effect, db.task.value.rowVersion + 1)
    else db' == db.(attempts := Dropped(db.attempts, c, StaleReconciliation))
  }

  predicate AbandonedRows(db: RunTables, db': RunTables, c: Claim) {
    db' == db.(attempts := Dropped(db.attempts, c, StaleBeforeInvocation))
  }

  lemma CompleteLaw(db: RunTables, n: Id, c: Claim, result: ModelResult)
    requires TablesInv(db, n) && Issued(db, c) && (HoldsLease(db, c) <==> Newest(db, c))
    ensures CompletedRows(db, CompleteTask(db, n, c, result), c, result)
  {
    hide TablesInv, HoldsLease, AttemptsInv, CloseRunning, CloseById, Ended, Newest;
    NewestRuns(db, n, c);
    ClosesOwn(db.task.value, db.attempts, n, c, AttemptSucceeded, Success);
    ClosesOwn(db.task.value, db.attempts, n, c, Abandoned, StaleCompletion);
    if Newest(db, c) {
      NewestNumber(db, c);
      var out := CompleteTask(db, n, c, result);
      assert out.artifacts == [out.artifacts[0]];
    }
  }

  lemma NewestNumber(db: RunTables, c: Claim)
    requires Newest(db, c)
    ensures c.attemptNumber == |db.attempts| && db.task.Some?
  {
  }

  lemma BlockedLaw(db: RunTables, n: Id, c: Claim, status: AttemptStatus, effect: Option<Effect>, t: Task)
    requires TablesInv(db, n) && Issued(db, c) && Newest(db, c) && t == db.task.value.(rowVersion := t.rowVersion)
    ensures BlockedRows(db, Blocked(db, n, c, status, effect, t), c, status, effect, t.rowVersion)
  {
    hide TablesInv, AttemptsInv, CloseRunning, ClosedOnce, Newest;
    NewestRuns(db, n, c);
    NewestNumber(db, c);
    ClosesOwn(db.task.value, db.attempts, n, c, status, UnknownExternalOutcome);
  }

  lemma FailLaw(db: RunTables, n: Id, c: Claim)
    requires TablesInv(db, n) && Issued(db, c) && (HoldsLease(db, c) <==> Newest(db, c))
    ensures FailedRows(db, FailTask(db, n, c), c)
  {
    hide TablesInv, HoldsLease, AttemptsInv, CloseRunning, ClosedOnce, Newest, Blocked, BlockedRows;
    NewestRuns(db, n, c);
    if Newest(db, c) {
      NewestNumber(db, c);
      BlockedLaw(db, n, c, AttemptFailed, MarkUnknown(db.effect, c.effectKey), db.task.value);
    } else {
      ClosesOwn(db.task.value, db.attempts, n, c, Abandoned, StaleFailure);
    }
  }

  lemma RefuseLaw(db: RunTables, n: Id, c: Claim)
    requires TablesInv(db, n) && Issued(db, c) && (HoldsLease(db, c) <==> Newest(db, c))
    ensures RefusedRows(db, BlockUnknown(db, n, c), c)
  {
    hide TablesInv, HoldsLease, AttemptsInv, CloseRunning, ClosedOnce, Newest, Blocked, BlockedRows;
    NewestRuns(db, n, c);
    if Newest(db, c) {
      NewestNumber(db, c);
      BlockedLaw(db, n, c, Abandoned, db.effect, db.task.value.(rowVersion := db.task.value.rowVersion + 1));
    } else {
      ClosesOwn(db.task.value, db.attempts, n, c, Abandoned, StaleReconciliation);
    }
  }

  lemma AbandonLaw(db: RunTables, n: Id, c: Claim)
    requires TablesInv(db, n) && Issued(db, c)
    ensures AbandonedRows(db, AbandonAttempt(db, c), c)
  {
    hide TablesInv, AttemptsInv, CloseRunning, ClosedOnce;
    NewestRuns(db, n, c);
    ClosesOwn(db.task.value, db.attempts, n, c, Abandoned, StaleBeforeInvocation);
  }

  /** What the last transaction of a claim makes of the rows, by where its worker stands. */
  predicate ClosingRows(db: RunTables, db': RunTables, p: Phase) {
    match p
    case Returned(c, result) => CompletedRows(db, db', c, result)
    case InvocationRefused(c) => RefusedRows(db, db', c)
    case LeaseLost(c) => AbandonedRows(db, db', c)
    case Raised(c) => FailedRows(db, db', c)
    case _ => true
  }

  /** The steps that end a claim, each from where it can be taken. */
  predicate Ends(step: Step, p: Phase) {
    match step
    case CompleteStep(_) => p.Returned?
    case BlockStep(_) => p.InvocationRefused?
    case AbandonStep(_) => p.LeaseLost?
    case FailStep(_) => p.Raised?
    case LateRejectStep(_) => p.Returned? || p.InvocationRefused? || p.LeaseLost?
    case _ => false
  }

  /** However a claim ends: if its attempt is the newest of a running task it decides what becomes of
      task, run and brief; any other claim changes only what nobody else reads. A rejection after the
      commit makes no difference to the rows. */
  lemma ClosingDecides(script: Script, k: Id, a: Id, step: Step, now: Instant)
    requires k in Reach(script).runs && a in Reach(script).runs[k].workers
    requires Ends(step, Reach(script).runs[k].workers[a]) && step.attempt == a
    ensures var s, s' := Reach(script).runs[k], After1(script, k, step, now);
            && ClosingRows(s.db, s'.db, s.workers[a])
            && s' == s.(db := s'.db, workers := if step.LateRejectStep? then s.workers[a := Raised(s.workers[a].claim)]
                                                else s.workers - {a})
  {
    hide After, SystemInv, Next, ClosingRows;
    RunReach(script, k);
    ClosingLaw(Reach(script).runs[k], Reach(script).nextId, a, step, now);
  }

  lemma ClosingLaw(s: RunSystem, n: Id, a: Id, step: Step, now: Instant)
    requires SystemInv(s, n) && a in s.workers && Ends(step, s.workers[a]) && step.attempt == a
    ensures var s' := Next(s, step, now, n);
            && ClosingRows(s.db, s'.db, s.workers[a])
            && s' == s.(db := s'.db, workers := if step.LateRejectStep? then s.workers[a := Raised(s.workers[a].claim)]
                                                else s.workers - {a})
  {
    hide SystemInv, TablesInv, HoldsLease, Issued, Newest, AbandonAttempt, BlockUnknown, CompleteTask, FailTask,
      CompletedRows, RefusedRows, AbandonedRows, FailedRows;
    var c := s.workers[a].claim;
    FenceIsNewest(s, n, a);
    ClaimOf(s, n, a);
    match s.workers[a]
    case Returned(_, result) => CompleteLaw(s.db, n, c, result);
    case InvocationRefused(_) => RefuseLaw(s.db, n, c);
    case LeaseLost(_) => AbandonLaw(s.db, n, c);
    case Raised(_) => FailLaw(s.db, n, c);
  }

  /** A worker reads its context, and a claimed one always finds it. */
  lemma LoadsContext(script: Script, k: Id, a: Id, now: Instant)
    requires k in Reach(script).runs && a in Reach(script).runs[k].workers && Reach(script).runs[k].workers[a].Claimed?
    ensures var s, s' := Reach(script).runs[k], After1(script, k, LoadContextStep(a), now);
            exists i :: 0 <= i < |s.db.snapshots| && s.db.snapshots[i].id == s.db.run.contextSnapshot
                        && s' == s.(workers := s.workers[a := ContextRead(s.workers[a].claim, s.db.snapshots[i])])
  {
    hide After, SystemInv, Next;
    RunReach(script, k);
    Loads(Reach(script).runs[k], Reach(script).nextId, a, now);
  }

  lemma Loads(s: RunSystem, n: Id, a: Id, now: Instant)
    requires SystemInv(s, n) && a in s.workers && s.workers[a].Claimed?
    ensures exists i :: 0 <= i < |s.db.snapshots| && s.db.snapshots[i].id == s.db.run.contextSnapshot
                        && Next(s, LoadContextStep(a), now, n)
                           == s.(workers := s.workers[a := ContextRead(s.workers[a].claim, s.db.snapshots[i])])
  {
    hide TablesInv, SystemInv;
    ClaimOf(s, n, a);
    WorkerKey(s, n, a);
    ReadContext(s.db, n, s.workers[a].claim);
  }
}
