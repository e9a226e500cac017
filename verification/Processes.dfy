/** One run together with the workers that hold a claim on it.

    `processOnce` is a chain of transactions and calls; between any two of them other workers, the
    founder and lease expiry may intervene, an awaited call may reject, or the process may die. A
    worker is therefore a phase, named after what it has done last, and is keyed by its attempt. */
module Processes {
  import opened Common
  import opened Rows
  import opened Transactions

  datatype Phase =
    | Claimed(claim: Claim)                              // next: loadContext
    | ContextRead(claim: Claim, context: Snapshot)       // next: isLeaseCurrent
    | LeaseLost(claim: Claim)                            // next: abandonAttempt
    | LeaseConfirmed(claim: Claim, context: Snapshot)    // next: beginModelInvocation
    | InvocationRefused(claim: Claim)                    // next: blockUnknownModelOutcome
    | InvocationBegun(claim: Claim, context: Snapshot)   // next: the provider
    | Returned(claim: Claim, result: ModelResult)        // next: completeTask
    | Raised(claim: Claim)                               // in the catch block, next: failTask

  /** A request that reached the model provider, and what it returned unless it threw. */
  datatype ProviderCall = ProviderCall(attempt: Id, key: EffectKey, context: Snapshot, reply: Option<ModelResult>)

  /** `spentBy` is history: the number of the attempt whose `beginModelInvocation` raised
      `invocation_count`. No column stores it. */
  datatype RunSystem = RunSystem(
    db: RunTables,
    workers: map<Id, Phase>,
    calls: seq<ProviderCall>,
    spentBy: Option<nat>)

  datatype Step =
    | ClaimStep(worker: string, leaseSeconds: nat)
    | LoadContextStep(attempt: Id)
    | CheckLeaseStep(attempt: Id)
    | AbandonStep(attempt: Id)
    | BeginStep(attempt: Id)
    | BlockStep(attempt: Id)
    | InvokeStep(attempt: Id, reply: Option<ModelResult>)    // None: the provider throws
    | CompleteStep(attempt: Id)
    | FailStep(attempt: Id)
    | RejectStep(attempt: Id)     // an awaited call inside the try block rejects
    | LateRejectStep(attempt: Id) // its last transaction commits, and the awaited call rejects all the same
    | CrashStep(attempt: Id)      // the process dies, or failTask itself rejects
    | OpenStep(open: OpenInput)
    | AnswerStep(answer: AnswerInput)
    | CancelStep
    | ProbeStep(index: nat)

  function Start(db: RunTables): RunSystem {
    RunSystem(db, map[], [], None)
  }

  function Move(s: RunSystem, a: Id, p: Phase): RunSystem {
    s.(workers := s.workers[a := p])
  }

  function Leave(s: RunSystem, a: Id): RunSystem {
    s.(workers := s.workers - {a})
  }

  function ClaimNext(s: RunSystem, now: Instant, base: Id, worker: string, leaseSeconds: nat): RunSystem {
    var (db, claim) := ClaimTask(s.db, now, base, worker, leaseSeconds);
    if claim.Some? then Move(s.(db := db), claim.value.attempt, Claimed(claim.value)) else s
  }

  function LoadContextNext(s: RunSystem, c: Claim): RunSystem {
    match LoadContext(s.db)
    case Some(context) => Move(s, c.attempt, ContextRead(c, context))
    case None => Move(s, c.attempt, Raised(c))
  }

  function CheckLeaseNext(s: RunSystem, c: Claim, context: Snapshot, now: Instant): RunSystem {
    Move(s, c.attempt, if LeaseCurrent(s.db, now, c) then LeaseConfirmed(c, context) else LeaseLost(c))
  }

  function BeginNext(s: RunSystem, c: Claim, context: Snapshot): RunSystem {
    if MayInvoke(s.db, c)
    then Move(s.(db := BeginInvocation(s.db, c), spentBy := Some(c.attemptNumber)), c.attempt, InvocationBegun(c, context))
    else Move(s, c.attempt, InvocationRefused(c))
  }

  function InvokeNext(s: RunSystem, c: Claim, context: Snapshot, reply: Option<ModelResult>): RunSystem {
    Move(s.(calls := s.calls + [ProviderCall(c.attempt, c.effectKey, context, reply)]), c.attempt,
         if reply.Some? then Returned(c, reply.value) else Raised(c))
  }

  /** A worker about to issue the last transaction of its try block. */
  predicate Closing(p: Phase) {
    p.LeaseLost? || p.InvocationRefused? || p.Returned?
  }

  function Closed(db: RunTables, base: Id, p: Phase): RunTables
    requires Closing(p)
  {
    match p
    case LeaseLost(c) => AbandonAttempt(db, c)
    case InvocationRefused(c) => BlockUnknown(db, base, c)
    case Returned(c, result) => CompleteTask(db, base, c, result)
  }

  /** The last transaction of a try block has committed, but its caller is told otherwise. */
  function CommitThenRaise(s: RunSystem, a: Id, db: RunTables): RunSystem
    requires a in s.workers
  {
    Move(s.(db := db), a, Raised(s.workers[a].claim))
  }

  /** A worker's last transaction: it commits `db` and the worker is done. */
  function Finish(s: RunSystem, a: Id, db: RunTables): RunSystem {
    Leave(s.(db := db), a)
  }

  /** One atomic step. A step whose worker is not in the phase it needs does nothing. */
  function Next(s: RunSystem, step: Step, now: Instant, base: Id): RunSystem {
    match step
    case ClaimStep(worker, leaseSeconds) => ClaimNext(s, now, base, worker, leaseSeconds)
    case LoadContextStep(a) =>
      if a in s.workers && s.workers[a].Claimed? then LoadContextNext(s, s.workers[a].claim) else s
    case CheckLeaseStep(a) =>
      if a in s.workers && s.workers[a].ContextRead?
      then CheckLeaseNext(s, s.workers[a].claim, s.workers[a].context, now) else s
    case AbandonStep(a) =>
      if a in s.workers && s.workers[a].LeaseLost?
      then Finish(s, a, AbandonAttempt(s.db, s.workers[a].claim)) else s
    case BeginStep(a) =>
      if a in s.workers && s.workers[a].LeaseConfirmed?
      then BeginNext(s, s.workers[a].claim, s.workers[a].context) else s
    case BlockStep(a) =>
      if a in s.workers && s.workers[a].InvocationRefused?
      then Finish(s, a, BlockUnknown(s.db, base, s.workers[a].claim)) else s
    case InvokeStep(a, reply) =>
      if a in s.workers && s.workers[a].InvocationBegun?
      then InvokeNext(s, s.workers[a].claim, s.workers[a].context, reply) else s
    case CompleteStep(a) =>
      if a in s.workers && s.workers[a].Returned?
      then Finish(s, a, CompleteTask(s.db, base, s.workers[a].claim, s.workers[a].result)) else s
    case FailStep(a) =>
      if a in s.workers && s.workers[a].Raised?
      then Finish(s, a, FailTask(s.db, base, s.workers[a].claim)) else s
    case RejectStep(a) =>
      if a in s.workers then Move(s, a, Raised(s.workers[a].claim)) else s
    case LateRejectStep(a) =>
      if a in s.workers && Closing(s.workers[a])
      then CommitThenRaise(s, a, Closed(s.db, base, s.workers[a])) else s
    case CrashStep(a) => Leave(s, a)
    case OpenStep(input) => s.(db := OpenWait(s.db, base, input).Rows(s.db))
    case AnswerStep(input) => s.(db := AnswerWait(s.db, now, base, input).Rows(s.db))
    case CancelStep => s.(db := CancelRun(s.db, base).Rows(s.db))
    case ProbeStep(index) => s.(db := AppendProbe(s.db, base, index))
  }
}
