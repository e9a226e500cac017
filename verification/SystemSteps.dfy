/** Every step of a run's system keeps `SystemInv` and only advances. */
module SystemSteps {
  import opened Common
  import opened Rows
  import opened Transactions
  import opened Invariants
  import opened Preservation
  import opened Monotone
  import opened TransactionFacts
  import opened Processes
  import opened SystemInvariant

  /** What a step owes. */
  predicate Steps(s: RunSystem, s': RunSystem, n: Id) {
    SystemInv(s', n + IDS_PER_STEP) && SystemAdvances(s, s')
  }

  lemma StartInv(db: RunTables, n: Id)
    requires TablesInv(db, n) && db.attempts == []
    ensures SystemInv(Start(db), n)
  {
  }

  /** A claim commits and its worker appears. */
  lemma Joined(s: RunSystem, n: Id, db: RunTables, a: Id, p: Phase)
    requires SystemInv(s, n) && Follows(s.db, db, n)
    requires SpendInv(db, s.calls, s.spentBy) && WorkerInv(db, s.calls, s.spentBy, a, p)
    ensures Steps(s, Move(s.(db := db), a, p), n)
  {
    WorkersKept(s, s.(db := db));
    JoinedWorkers(s.(db := db), a, p);
  }

  lemma JoinedWorkers(s: RunSystem, a: Id, p: Phase)
    requires WorkersInv(s) && WorkerInv(s.db, s.calls, s.spentBy, a, p)
    ensures WorkersInv(Move(s, a, p))
  {
  }

  /** A worker moves between phases without touching the rows. */
  lemma Moved(s: RunSystem, n: Id, a: Id, p: Phase)
    requires SystemInv(s, n) && WorkerInv(s.db, s.calls, s.spentBy, a, p)
    ensures Steps(s, Move(s, a, p), n)
  {
    Unchanged(s.db, n);
  }

  /** What a worker's transaction owes. */
  predicate Commits(s: RunSystem, db: RunTables, n: Id) {
    Follows(s.db, db, n) && SpendInv(db, s.calls, s.spentBy)
  }

  /** A worker commits its last transaction; nobody else notices. */
  lemma Finished(s: RunSystem, n: Id, a: Id, db: RunTables)
    requires SystemInv(s, n) && Commits(s, db, n)
    ensures Steps(s, Finish(s, a, db), n)
  {
    WorkersKept(s, Finish(s, a, db));
  }

  /** A transaction of the founder's side. */
  lemma Served(s: RunSystem, n: Id, db: RunTables)
    requires SystemInv(s, n) && Follows(s.db, db, n)
    requires db.effect == s.db.effect
    requires db.artifacts == s.db.artifacts
    requires HasSucceeded(db) ==> HasSucceeded(s.db) && |db.attempts| == |s.db.attempts|
    ensures Steps(s, s.(db := db), n)
  {
    SucceededIsSettled(s.db, n);
    SpendKept(s.db, db, s.calls, s.spentBy);
    WorkersKept(s, s.(db := db));
  }

  lemma ClaimSpends(s: RunSystem, n: Id, now: Instant, worker: string, leaseSeconds: nat, out: RunTables)
    requires SystemInv(s, n) && Claimable(s.db, now) && out == AfterClaim(s.db, now, n, worker, leaseSeconds)
    requires Advances(s.db, out)
    ensures SpendInv(out, s.calls, s.spentBy)
  {
    SucceededIsSettled(s.db, n);
    SpendKept(s.db, out, s.calls, s.spentBy);
  }

  lemma ClaimSteps(s: RunSystem, n: Id, now: Instant, worker: string, leaseSeconds: nat)
    requires SystemInv(s, n) && Claimable(s.db, now)
    ensures Steps(s, ClaimNext(s, now, n, worker, leaseSeconds), n)
  {
    var out, c := AfterClaim(s.db, now, n, worker, leaseSeconds), NewClaim(s.db, n);
    Claiming(s.db, n, now, worker, leaseSeconds);
    ClaimSpends(s, n, now, worker, leaseSeconds, out);
    ClaimJoins(s, n, now, worker, leaseSeconds, out, c);
    Joined(s, n, out, c.attempt, Claimed(c));
  }

  lemma ClaimJoins(s: RunSystem, n: Id, now: Instant, worker: string, leaseSeconds: nat, out: RunTables, c: Claim)
    requires SystemInv(s, n) && Claimable(s.db, now)
    requires out == AfterClaim(s.db, now, n, worker, leaseSeconds) && c == NewClaim(s.db, n)
    ensures WorkerInv(out, s.calls, s.spentBy, c.attempt, Claimed(c))
  {
    ClaimIssued(s.db, n, now, worker, leaseSeconds);
  }

  lemma ClaimIssued(db: RunTables, n: Id, now: Instant, worker: string, leaseSeconds: nat)
    requires TablesInv(db, n) && Claimable(db, now)
    ensures Issued(AfterClaim(db, now, n, worker, leaseSeconds), NewClaim(db, n))
    ensures NewClaim(db, n).attemptNumber == |db.attempts| + 1
  {
  }

  lemma ReadContext(db: RunTables, n: Id, c: Claim)
    requires TablesInv(db, n) && Issued(db, c)
    ensures LoadContext(db).Some? && FrozenContext(db, c, LoadContext(db).value)
  {
    var t := db.task.value;
    assert db.snapshots[|db.answers|] in db.snapshots;
    assert c.manifest == t.manifest;
  }

  lemma LoadContextSteps(s: RunSystem, n: Id, a: Id)
    requires SystemInv(s, n) && a in s.workers && s.workers[a].Claimed?
    ensures Steps(s, LoadContextNext(s, s.workers[a].claim), n)
  {
    var c := s.workers[a].claim;
    assert WorkerInv(s.db, s.calls, s.spentBy, a, s.workers[a]);
    ReadContext(s.db, n, c);
    Moved(s, n, a, ContextRead(c, LoadContext(s.db).value));
  }

  lemma BeginSteps(s: RunSystem, n: Id, a: Id)
    requires SystemInv(s, n) && a in s.workers && s.workers[a].LeaseConfirmed?
    ensures Steps(s, BeginNext(s, s.workers[a].claim, s.workers[a].context), n)
  {
    hide TablesInv;
    var c, context := s.workers[a].claim, s.workers[a].context;
    assert WorkerInv(s.db, s.calls, s.spentBy, a, s.workers[a]);
    if MayInvoke(s.db, c) {
      Beginning(s.db, n, c);
      var s' := BeginNext(s, c, context);
      IssuedKept(s.db, s'.db, c);
      forall b | b in s'.workers ensures WorkerInv(s'.db, s'.calls, s'.spentBy, b, s'.workers[b]) {
        if b != a { OtherSpends(s, n, a, b); }
      }
      NotSucceededBeforeSpending(s.db, n);
    } else {
      Moved(s, n, a, InvocationRefused(c));
    }
  }

  lemma NotSucceededBeforeSpending(db: RunTables, n: Id)
    requires TablesInv(db, n) && db.effect.Some? && db.effect.value.invocationCount == 0
    ensures !HasSucceeded(db)
  {
  }

  /** While the invocation is unspent every worker is short of it, and stays so when `a` spends it. */
  lemma OtherSpends(s: RunSystem, n: Id, a: Id, b: Id)
    requires SystemInv(s, n) && a in s.workers && b in s.workers && a != b
    requires MayInvoke(s.db, s.workers[a].claim)
    ensures var c := s.workers[a].claim;
            WorkerInv(BeginInvocation(s.db, c), s.calls, Some(c.attemptNumber), b, s.workers[b])
  {
    hide TablesInv;
    var c := s.workers[a].claim;
    assert WorkerInv(s.db, s.calls, s.spentBy, a, s.workers[a]);
    assert WorkerInv(s.db, s.calls, s.spentBy, b, s.workers[b]);
    BeginAdvances(s.db, c);
    IssuedKept(s.db, BeginInvocation(s.db, c), s.workers[b].claim);
  }

  lemma InvokeKeepsWorkers(s: RunSystem, n: Id, a: Id, reply: Option<ModelResult>)
    requires WorkersInv(s) && a in s.workers && s.workers[a].InvocationBegun?
    ensures WorkersInv(InvokeNext(s, s.workers[a].claim, s.workers[a].context, reply))
  {
    var s' := InvokeNext(s, s.workers[a].claim, s.workers[a].context, reply);
    assert WorkerInv(s.db, s.calls, s.spentBy, a, s.workers[a]);
    forall b | b in s'.workers ensures WorkerInv(s'.db, s'.calls, s'.spentBy, b, s'.workers[b]) {
      if b in s.workers { assert WorkerInv(s.db, s.calls, s.spentBy, b, s.workers[b]); }
    }
  }

  lemma InvokeSpends(s: RunSystem, n: Id, a: Id, reply: Option<ModelResult>)
    requires SystemInv(s, n) && a in s.workers && s.workers[a].InvocationBegun?
    ensures var c := s.workers[a].claim;
            SpendInv(s.db, s.calls + [ProviderCall(c.attempt, c.effectKey, s.workers[a].context, reply)], s.spentBy)
  {
    hide TablesInv;
    assert WorkerInv(s.db, s.calls, s.spentBy, a, s.workers[a]);
  }

  lemma InvokeSteps(s: RunSystem, n: Id, a: Id, reply: Option<ModelResult>)
    requires SystemInv(s, n) && a in s.workers && s.workers[a].InvocationBegun?
    ensures Steps(s, InvokeNext(s, s.workers[a].claim, s.workers[a].context, reply), n)
  {
    Unchanged(s.db, n);
    InvokeSpends(s, n, a, reply);
    InvokeKeepsWorkers(s, n, a, reply);
  }

  lemma CompleteSpends(s: RunSystem, n: Id, a: Id)
    requires SystemInv(s, n) && a in s.workers && s.workers[a].Returned?
    requires Advances(s.db, CompleteTask(s.db, n, s.workers[a].claim, s.workers[a].result))
    ensures SpendInv(CompleteTask(s.db, n, s.workers[a].claim, s.workers[a].result), s.calls, s.spentBy)
  {
    hide LogInv, RunInv, DistinctIds, LinksInv, ResolvedInv, LineageInv, Coupled, AttemptsInv, TasklessInv, Advances;
    var c, result := s.workers[a].claim, s.workers[a].result;
    assert WorkerInv(s.db, s.calls, s.spentBy, a, s.workers[a]);
    if HoldsLease(s.db, c) {
      NewestHolds(s.db, n, c);
    } else {
      SucceededIsSettled(s.db, n);
      SpendKept(s.db, CompleteTask(s.db, n, c, result), s.calls, s.spentBy);
    }
  }

  lemma CompleteCommits(s: RunSystem, n: Id, a: Id)
    requires SystemInv(s, n) && a in s.workers && s.workers[a].Returned?
    ensures Commits(s, CompleteTask(s.db, n, s.workers[a].claim, s.workers[a].result), n)
  {
    assert WorkerInv(s.db, s.calls, s.spentBy, a, s.workers[a]);
    Completing(s.db, n, s.workers[a].claim, s.workers[a].result);
    CompleteSpends(s, n, a);
  }

  lemma NewestHolds(db: RunTables, n: Id, c: Claim)
    requires TablesInv(db, n) && Issued(db, c) && HoldsLease(db, c)
    ensures c.attemptNumber == |db.attempts|
  {
    HolderIsNewest(db.task.value, db.attempts, n, c);
  }

  lemma FailSteps(s: RunSystem, n: Id, a: Id)
    requires SystemInv(s, n) && a in s.workers
    ensures Steps(s, Finish(s, a, FailTask(s.db, n, s.workers[a].claim)), n)
  {
    var c := s.workers[a].claim;
    assert WorkerInv(s.db, s.calls, s.spentBy, a, s.workers[a]);
    Failing(s.db, n, c);
    SucceededIsSettled(s.db, n);
    SpendKept(s.db, FailTask(s.db, n, c), s.calls, s.spentBy);
    Finished(s, n, a, FailTask(s.db, n, c));
  }

  lemma BlockCommits(s: RunSystem, n: Id, a: Id)
    requires SystemInv(s, n) && a in s.workers
    ensures Commits(s, BlockUnknown(s.db, n, s.workers[a].claim), n)
  {
    var c := s.workers[a].claim;
    assert WorkerInv(s.db, s.calls, s.spentBy, a, s.workers[a]);
    Blocking(s.db, n, c);
    SucceededIsSettled(s.db, n);
    SpendKept(s.db, BlockUnknown(s.db, n, c), s.calls, s.spentBy);
  }

  lemma AbandonCommits(s: RunSystem, n: Id, a: Id)
    requires SystemInv(s, n) && a in s.workers
    ensures Commits(s, AbandonAttempt(s.db, s.workers[a].claim), n)
  {
    var c := s.workers[a].claim;
    assert WorkerInv(s.db, s.calls, s.spentBy, a, s.workers[a]);
    Abandoning(s.db, n, c);
    SucceededIsSettled(s.db, n);
    SpendKept(s.db, AbandonAttempt(s.db, c), s.calls, s.spentBy);
  }

  lemma ClosingCommits(s: RunSystem, n: Id, a: Id)
    requires SystemInv(s, n) && a in s.workers && Closing(s.workers[a])
    ensures Commits(s, Closed(s.db, n, s.workers[a]), n)
  {
    hide SystemInv, Commits, AbandonAttempt, BlockUnknown, CompleteTask;
    match s.workers[a]
    case LeaseLost(_) => AbandonCommits(s, n, a);
    case InvocationRefused(_) => BlockCommits(s, n, a);
    case Returned(_, _) => CompleteCommits(s, n, a);
  }

  /** Committed but rejected: the worker goes on to `failTask` over the rows it has just closed. */
  lemma LateRejectSteps(s: RunSystem, n: Id, a: Id)
    requires SystemInv(s, n) && a in s.workers && Closing(s.workers[a])
    ensures Steps(s, CommitThenRaise(s, a, Closed(s.db, n, s.workers[a])), n)
  {
    hide TablesInv, SpendInv, Closed, Advances;
    var c, db := s.workers[a].claim, Closed(s.db, n, s.workers[a]);
    assert WorkerInv(s.db, s.calls, s.spentBy, a, s.workers[a]);
    ClosingCommits(s, n, a);
    IssuedKept(s.db, db, c);
    Joined(s, n, db, a, Raised(c));
  }

  lemma Idle(s: RunSystem, n: Id)
    requires SystemInv(s, n)
    ensures Steps(s, s, n)
  {
    Unchanged(s.db, n);
  }

  lemma AnswerEffects(db: RunTables, n: Id, now: Instant, input: AnswerInput)
    requires TablesInv(db, n)
    ensures var out := AnswerWait(db, now, n, input).Rows(db);
            out.effect == db.effect && out.attempts == db.attempts && out.artifacts == db.artifacts && (HasSucceeded(out) ==> HasSucceeded(db))
  {
    hide TablesInv;
  }

  lemma AnswerSteps(s: RunSystem, n: Id, now: Instant, input: AnswerInput)
    requires SystemInv(s, n)
    ensures Steps(s, s.(db := AnswerWait(s.db, now, n, input).Rows(s.db)), n)
  {
    Answering(s.db, n, now, input);
    AnswerEffects(s.db, n, now, input);
    Served(s, n, AnswerWait(s.db, now, n, input).Rows(s.db));
  }

  lemma OpenEffects(db: RunTables, n: Id, input: OpenInput)
    requires TablesInv(db, n)
    ensures var out := OpenWait(db, n, input).Rows(db);
            out.effect == db.effect && out.attempts == db.attempts && out.artifacts == db.artifacts && (HasSucceeded(out) ==> HasSucceeded(db))
  {
    hide TablesInv;
  }

  lemma OpenSteps(s: RunSystem, n: Id, input: OpenInput)
    requires SystemInv(s, n)
    ensures Steps(s, s.(db := OpenWait(s.db, n, input).Rows(s.db)), n)
  {
    Opening(s.db, n, input);
    OpenEffects(s.db, n, input);
    Served(s, n, OpenWait(s.db, n, input).Rows(s.db));
  }

  lemma CancelSteps(s: RunSystem, n: Id)
    requires SystemInv(s, n)
    ensures Steps(s, s.(db := CancelRun(s.db, n).Rows(s.db)), n)
  {
    Canceling(s.db, n);
    Served(s, n, CancelRun(s.db, n).Rows(s.db));
  }

  lemma ProbeSteps(s: RunSystem, n: Id, index: nat)
    requires SystemInv(s, n)
    ensures Steps(s, s.(db := AppendProbe(s.db, n, index)), n)
  {
    Probing(s.db, n, index);
    Served(s, n, AppendProbe(s.db, n, index));
  }

  /** Steps that move a worker on without a commit. */
  lemma MovingSteps(s: RunSystem, n: Id, step: Step, now: Instant)
    requires SystemInv(s, n)
    requires step.LoadContextStep? || step.CheckLeaseStep? || step.RejectStep?
    requires step.attempt in s.workers
    requires step.LoadContextStep? ==> s.workers[step.attempt].Claimed?
    requires step.CheckLeaseStep? ==> s.workers[step.attempt].ContextRead?
    ensures Steps(s, Next(s, step, now, n), n)
  {
    hide TablesInv, SpendInv;
    var a := step.attempt;
    var c := s.workers[a].claim;
    assert WorkerInv(s.db, s.calls, s.spentBy, a, s.workers[a]);
    match step
    case LoadContextStep(_) => LoadContextSteps(s, n, a);
    case CheckLeaseStep(_) =>
      Moved(s, n, a, if LeaseCurrent(s.db, now, c) then LeaseConfirmed(c, s.workers[a].context) else LeaseLost(c));
    case RejectStep(_) => Moved(s, n, a, Raised(c));
  }

  lemma CrashSteps(s: RunSystem, n: Id, a: Id)
    requires SystemInv(s, n)
    ensures Steps(s, Leave(s, a), n)
  {
    Unchanged(s.db, n);
    Finished(s, n, a, s.db);
  }

  /** Whether the step finds what it needs; if not, nothing happens. */
  predicate Enabled(s: RunSystem, step: Step, now: Instant) {
    match step
    case ClaimStep(_, _) => Claimable(s.db, now)
    case LoadContextStep(a) => a in s.workers && s.workers[a].Claimed?
    case CheckLeaseStep(a) => a in s.workers && s.workers[a].ContextRead?
    case AbandonStep(a) => a in s.workers && s.workers[a].LeaseLost?
    case BeginStep(a) => a in s.workers && s.workers[a].LeaseConfirmed?
    case BlockStep(a) => a in s.workers && s.workers[a].InvocationRefused?
    case InvokeStep(a, _) => a in s.workers && s.workers[a].InvocationBegun?
    case CompleteStep(a) => a in s.workers && s.workers[a].Returned?
    case FailStep(a) => a in s.workers && s.workers[a].Raised?
    case RejectStep(a) => a in s.workers
    case LateRejectStep(a) => a in s.workers && Closing(s.workers[a])
    case _ => true
  }

  lemma DisabledIsIdle(s: RunSystem, step: Step, now: Instant, base: Id)
    requires !Enabled(s, step, now)
    ensures Next(s, step, now, base) == s
  {
  }

  lemma ClosingSteps(s: RunSystem, n: Id, step: Step, now: Instant)
    requires SystemInv(s, n) && Enabled(s, step, now)
    requires step.AbandonStep? || step.BlockStep? || step.CompleteStep? || step.LateRejectStep?
    ensures Steps(s, Next(s, step, now, n), n)
  {
    hide Steps, SystemInv, Commits;
    var a := step.attempt;
    if step.LateRejectStep? {
      LateRejectSteps(s, n, a);
    } else {
      ClosingCommits(s, n, a);
      Finished(s, n, a, Closed(s.db, n, s.workers[a]));
    }
  }

  lemma LeavingSteps(s: RunSystem, n: Id, step: Step, now: Instant)
    requires SystemInv(s, n) && Enabled(s, step, now) && (step.FailStep? || step.CrashStep?)
    ensures Steps(s, Next(s, step, now, n), n)
  {
    hide Steps, SystemInv;
    match step
    case FailStep(a) => FailSteps(s, n, a);
    case CrashStep(a) => CrashSteps(s, n, a);
  }

  lemma WaitingSteps(s: RunSystem, n: Id, step: Step, now: Instant)
    requires SystemInv(s, n) && (step.OpenStep? || step.AnswerStep?)
    ensures Steps(s, Next(s, step, now, n), n)
  {
    hide Steps, SystemInv;
    match step
    case OpenStep(input) => OpenSteps(s, n, input);
    case AnswerStep(input) => AnswerSteps(s, n, now, input);
  }

  lemma FounderSteps(s: RunSystem, n: Id, step: Step, now: Instant)
    requires SystemInv(s, n) && (step.OpenStep? || step.AnswerStep? || step.CancelStep? || step.ProbeStep?)
    ensures Steps(s, Next(s, step, now, n), n)
  {
    hide Steps, SystemInv;
    match step
    case OpenStep(_) | AnswerStep(_) => WaitingSteps(s, n, step, now);
    case CancelStep => CancelSteps(s, n);
    case ProbeStep(index) => ProbeSteps(s, n, index);
  }

  lemma WorkerSteps(s: RunSystem, n: Id, step: Step, now: Instant)
    requires SystemInv(s, n) && Enabled(s, step, now)
    requires !(step.OpenStep? || step.AnswerStep? || step.CancelStep? || step.ProbeStep?)
    ensures Steps(s, Next(s, step, now, n), n)
  {
    hide Steps, SystemInv;
    match step
    case ClaimStep(worker, leaseSeconds) => ClaimSteps(s, n, now, worker, leaseSeconds);
    case BeginStep(a) => BeginSteps(s, n, a);
    case InvokeStep(a, reply) => InvokeSteps(s, n, a, reply);
    case LoadContextStep(_) | CheckLeaseStep(_) | RejectStep(_) => MovingSteps(s, n, step, now);
    case AbandonStep(_) | BlockStep(_) | CompleteStep(_) | LateRejectStep(_) => ClosingSteps(s, n, step, now);
    case FailStep(_) | CrashStep(_) => LeavingSteps(s, n, step, now);
  }

  /** One step of any kind, at any time. */
  lemma StepKeeps(s: RunSystem, n: Id, step: Step, now: Instant)
    requires SystemInv(s, n)
    ensures Steps(s, Next(s, step, now, n), n)
  {
    hide Steps, SystemInv, Next;
    if step.OpenStep? || step.AnswerStep? || step.CancelStep? || step.ProbeStep? {
      FounderSteps(s, n, step, now);
    } else if Enabled(s, step, now) {
      WorkerSteps(s, n, step, now);
    } else {
      DisabledIsIdle(s, step, now, n);
      Idle(s, n);
    }
  }
}
