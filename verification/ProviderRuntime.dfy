/** `ProviderRuntimeProofService` as a transition system: `execute` and `reconcile` are split at their
    one await each; everything between two awaits is one step. */
module ProviderRuntime {
  import opened Common
  import opened ProviderStore

  /** What the checks before the reservation find, in their order, and the retry limits. */
  datatype Options = Options(
    deployed: bool, external: bool, preCanceled: bool, deadlinePassed: bool, sanitizationUncertain: bool,
    bindingsRejected: bool, canary: bool, targetBlocked: bool,
    remainingRetryBudget: int, maximumRetries: int)

  datatype Receipt = Receipt(
    status: Status, reason: string, invocation: Id, committed: bool, duplicate: bool,
    repairEligible: bool, retryScheduled: bool, reconciliationRequired: bool)

  function FailureReceipt(id: Id, reason: string): Receipt {
    Receipt(ResultFailed, reason, id, false, false, false, false, false)
  }

  /** An execution awaiting the provider, with the generations it read. */
  datatype Execution = Execution(request: Request, options: Options, lease: nat, cancellation: nat, terminal: nat)

  /** A reconciliation awaiting the lookup, with the record it read. */
  datatype Reconciliation = Reconciliation(request: Request, before: Record)

  /** What an awaited call came back with. `bindingsHold`, `safe` and `candidate` are the validator's
      findings about the result; `candidate` is the parsed output if it is valid. */
  datatype Reply =
    | Threw
    | Returned(result: Result, bindingsHold: bool, safe: bool, candidate: Option<Candidate>)
    | NothingFound

  /** `signals` maps each execution in flight to whether its signal has been aborted. */
  datatype System = System(
    store: Contents,
    executing: map<Id, Execution>,
    signals: map<Id, bool>,
    reconciling: map<nat, Reconciliation>,
    tickets: nat)

  const Idle := System(Empty, map[], map[], map[], 0)

  datatype Step =
    | Execute(request: Request, options: Options)
    | Answer(invocation: Id, reply: Reply)
    | Reconcile(reconciled: Request)
    | Answered(ticket: nat, lookup: Reply)
    | CancelStep(canceled: Id)
    | LoseLeaseStep(lost: Id)
    | MarkTerminalStep(marked: Id)
    | BeginRepairStep(failed: Id, repair: Id, reservation: Id)

  /** A step may finish a call with a receipt, fail a call, or neither. */
  datatype Outcome = Quiet | Raised | Receipted(receipt: Receipt)

  // ---------------------------------------------------------------- execute

  /** The receipt of the first check that refuses, if any. */
  function Refusal(id: Id, o: Options): Option<Outcome> {
    if o.deployed then Some(Receipted(FailureReceipt(id, "DETERMINISTIC_DEPLOYED_ENVIRONMENT_REJECTED")))
    else if o.external then Some(Receipted(FailureReceipt(id, "EXTERNAL_PROVIDER_DISABLED")))
    else if o.preCanceled then Some(Receipted(FailureReceipt(id, "PRE_DISPATCH_CANCELED").(status := ResultCanceled)))
    else if o.deadlinePassed then Some(Receipted(FailureReceipt(id, "PRE_DISPATCH_TIMEOUT")))
    else if o.sanitizationUncertain then Some(Receipted(FailureReceipt(id, "SANITIZATION_UNCERTAIN")))
    else if o.bindingsRejected then Some(Receipted(FailureReceipt(id, "REQUEST_BINDING_REJECTED")))
    else if o.canary then Some(Raised)
    else if o.targetBlocked then Some(Receipted(FailureReceipt(id, "TARGET_OR_CIRCUIT_BLOCKED")))
    else None
  }

  function DuplicateReceipt(r: Record): Receipt {
    Receipt(if r.committed.Some? then ResultSucceeded
            else if r.state == ReconciliationRequired then ResultUnknown
            else if r.state == Canceled then ResultCanceled else ResultFailed,
            "DUPLICATE_REPLAY", r.invocation, r.committed.Some?, true, false, r.state == RetryWait, false)
  }

  function ToReconcileReceipt(r: Record): Receipt {
    Receipt(ResultUnknown, "RECONCILIATION_REQUIRED", r.invocation, false, true, false, false, true)
  }

  function ExecuteNext(s: System, q: Request, o: Options): (System, Outcome) {
    var refusal := Refusal(q.invocation, o);
    if refusal.Some? then (s, refusal.value)
    else match Found(s.store, q)
      case Collision(_) => (s, Receipted(FailureReceipt(q.invocation, "IDEMPOTENCY_COLLISION")))
      case Duplicate(r) => (s, Receipted(DuplicateReceipt(r)))
      case ToReconcile(r) => (s, Receipted(ToReconcileReceipt(r)))
      case Created => DispatchNext(s, q, o)
  }

  /** Reserve, begin the dispatch and leave the provider call in flight. */
  function DispatchNext(s: System, q: Request, o: Options): (System, Outcome) {
    var reserved := Reserved(s.store, q);
    var r := reserved.records[q.invocation];
    match BeginDispatch(reserved, q.invocation)
    case None => (s.(store := reserved), Raised)
    case Some(store) =>
      (s.(store := store,
          executing := s.executing[q.invocation := Execution(q, o, r.lease, r.cancellation, r.terminal)],
          signals := s.signals[q.invocation := false]),
       Quiet)
  }

  function UnknownReceipt(id: Id, reason: string): Receipt {
    FailureReceipt(id, reason).(status := ResultUnknown, reconciliationRequired := true)
  }

  function OrElse(after: Option<Contents>, before: Contents): Contents {
    if after.Some? then after.value else before
  }

  /** A result that says FAILED: maybe a retry is scheduled, maybe a repair is possible. */
  function AfterFailure(c: Contents, e: Execution, result: Result): (Contents, Receipt) {
    var id := e.request.invocation;
    var recorded := OrElse(RecordResult(c, id, result), c);
    var limited := result.failure.Some? && result.failure.value.classification.RateLimited? && result.failure.value.retryAfter.Some?;
    var next := if limited then result.failure.value.retryAfter.value else None;
    var scheduled := limited && id in recorded.records
                     && RetryAllowed(recorded.records[id], next, e.request.deadline, e.options.remainingRetryBudget, e.options.maximumRetries);
    var after := if limited
                 then OrElse(ScheduleRetry(recorded, id, next, e.request.deadline, e.options.remainingRetryBudget, e.options.maximumRetries), recorded)
                 else recorded;
    (after,
     FailureReceipt(id, if result.failure.Some? then ReasonOf(result.failure.value.classification) else "FAILED")
     .(retryScheduled := scheduled,
       repairEligible := result.failure.Some? && result.failure.value.classification.Validation?))
  }

  function ReasonOf(c: Classification): string {
    match c
    case RateLimited => "RATE_LIMITED"
    case Validation => "VALIDATION"
    case RefusalSafety => "REFUSAL_SAFETY"
    case OtherFailure(name) => name
  }

  /** A valid candidate: record the result and commit if the fence lets it through. */
  function AfterCandidate(c: Contents, id: Id, lease: nat, cancellation: nat, terminal: nat, candidate: Candidate): (Contents, bool)
  {
    if MayCommit(c, id, lease, cancellation, terminal) then (Committed(c, id, candidate), true)
    else (OrElse(MarkReconciliationRequired(c, id), c), false)
  }

  /** The rest of `execute` once the provider has answered. */
  function AfterInvoke(c: Contents, e: Execution, reply: Reply): (Contents, Receipt) {
    var id := e.request.invocation;
    if !reply.Returned? || !reply.bindingsHold then
      (OrElse(MarkReconciliationRequired(c, id), c), UnknownReceipt(id, "INTEGRITY"))
    else if !reply.safe then
      (OrElse(MarkValidationFailed(c, id), c), FailureReceipt(id, "PROHIBITED_RESULT_DROPPED"))
    else match reply.result.status
      case ResultUnknown => (OrElse(RecordResult(c, id, reply.result), c), UnknownReceipt(id, "POST_DISPATCH_UNKNOWN"))
      case ResultCanceled =>
        (OrElse(RecordResult(c, id, reply.result), c),
         FailureReceipt(id, "CANCELED").(
           status := ResultCanceled,
           reconciliationRequired := reply.result.failure.Some? && reply.result.failure.value.reconciliationRequired))
      case ResultFailed => AfterFailure(c, e, reply.result)
      case ResultSucceeded =>
        if reply.candidate.None? then
          (OrElse(MarkValidationFailed(c, id), c), FailureReceipt(id, "VALIDATION").(repairEligible := true))
        else
          var recorded := OrElse(RecordResult(c, id, reply.result), c);
          var (after, committed) := AfterCandidate(recorded, id, e.lease, e.cancellation, e.terminal, reply.candidate.value);
          (after,
           Receipt(if committed then ResultSucceeded else ResultCanceled, if committed then "SUCCESS" else "LATE_RESULT_FENCED",
                   id, committed, false, false, false, !committed))
  }

  function AnswerNext(s: System, id: Id, reply: Reply): (System, Outcome) {
    if id !in s.executing then (s, Quiet)
    else
      var (store, receipt) := AfterInvoke(s.store, s.executing[id], reply);
      (s.(store := store, executing := s.executing - {id}, signals := s.signals - {id}), Receipted(receipt))
  }

  // ---------------------------------------------------------------- reconcile

  function ReconcileNext(s: System, q: Request): (System, Outcome) {
    if q.invocation !in s.store.records then (s, Raised)
    else (s.(reconciling := s.reconciling[s.tickets := Reconciliation(q, s.store.records[q.invocation])],
             tickets := s.tickets + 1),
          Quiet)
  }

  function BlockedReceipt(id: Id): Receipt {
    UnknownReceipt(id, "RECONCILIATION_BLOCKED")
  }

  /** The rest of `reconcile` once the lookup has answered; `None` is a raise. */
  function AfterLookup(c: Contents, k: Reconciliation, reply: Reply): (Contents, Option<Receipt>) {
    var id := k.request.invocation;
    if reply.Threw? then (c, None)
    else if reply.NothingFound?
         || k.before.cancellation > 0 || k.before.terminal > 0 || k.before.lease != 1
         || !reply.bindingsHold || !reply.safe || (reply.result.status.ResultSucceeded? && reply.candidate.None?) then
      match MarkReconciled(c, id, None)
      case None => (c, None)
      case Some(after) => (after, Some(BlockedReceipt(id)))
    else match MarkReconciled(c, id, Some(reply.result))
      case None => (c, None)
      case Some(after) => AfterReconciled(after, k, reply.result, reply.candidate)
  }

  function AfterReconciled(c: Contents, k: Reconciliation, result: Result, candidate: Option<Candidate>): (Contents, Option<Receipt>) {
    var id := k.request.invocation;
    match result.status
    case ResultUnknown => (c, Some(UnknownReceipt(id, "RECONCILIATION_PENDING")))
    case ResultSucceeded =>
      if candidate.None? then (c, Some(FailureReceipt(id, "RECONCILED").(status := result.status)))
      else
        var (after, committed) := AfterCandidate(c, id, k.before.lease, k.before.cancellation, k.before.terminal, candidate.value);
        (after,
         Some(Receipt(if committed then ResultSucceeded else ResultUnknown,
                      if committed then "RECONCILED" else "RECONCILIATION_BLOCKED",
                      id, committed, false, false, false, !committed)))
    case _ => (c, Some(FailureReceipt(id, "RECONCILED").(status := result.status)))
  }

  function AnsweredNext(s: System, ticket: nat, reply: Reply): (System, Outcome) {
    if ticket !in s.reconciling then (s, Quiet)
    else
      var (store, receipt) := AfterLookup(s.store, s.reconciling[ticket], reply);
      (s.(store := store, reconciling := s.reconciling - {ticket}),
       if receipt.Some? then Receipted(receipt.value) else Raised)
  }

  // ---------------------------------------------------------------- one step of any kind

  function CancelNext(s: System, id: Id): (System, Outcome) {
    match Cancel(s.store, id)
    case None => (s, Raised)
    case Some(store) =>
      (s.(store := store, signals := if id in s.signals then s.signals[id := true] else s.signals), Quiet)
  }

  function StoreNext(s: System, after: Option<Contents>): (System, Outcome) {
    match after
    case None => (s, Raised)
    case Some(store) => (s.(store := store), Quiet)
  }

  function Next(s: System, step: Step): (System, Outcome) {
    match step
    case Execute(q, o) => ExecuteNext(s, q, o)
    case Answer(id, reply) => AnswerNext(s, id, reply)
    case Reconcile(q) => ReconcileNext(s, q)
    case Answered(ticket, reply) => AnsweredNext(s, ticket, reply)
    case CancelStep(id) => CancelNext(s, id)
    case LoseLeaseStep(id) => StoreNext(s, LoseLease(s.store, id))
    case MarkTerminalStep(id) => StoreNext(s, MarkTerminal(s.store, id))
    case BeginRepairStep(id, repair, reservation) => StoreNext(s, BeginRepair(s.store, id, repair, reservation))
  }

  /** Invocation ids and logical keys determine each other: a request under a new key names a new
      invocation. Callers make their requests so. */
  predicate FreshlyNamed(s: System, step: Step) {
    step.Execute? && step.request.logicalKey !in s.store.keys ==> step.request.invocation !in s.store.records
  }

  function After(s: System, steps: seq<Step>): System {
    if steps == [] then s
    else Next(After(s, steps[..|steps| - 1]), steps[|steps| - 1]).0
  }

  predicate WellNamed(s: System, steps: seq<Step>) {
    forall i :: 0 <= i < |steps| ==> FreshlyNamed(After(s, steps[..i]), steps[i])
  }
}
