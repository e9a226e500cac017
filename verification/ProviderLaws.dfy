/** What each call of the provider runtime does to the record it is about and what it tells its caller,
    said of requests, replies and records, after any history. */
module ProviderLaws {
  import opened Common
  import opened ProviderStore
  import opened ProviderRuntime
  import opened ProviderTheorems
  import opened ProviderFences
  import opened ProviderHistories

  function Told(status: Status, reason: string, id: Id): Receipt {
    Receipt(status, reason, id, false, false, false, false, false)
  }

  /** Never canceled, reassigned or marked terminal. */
  predicate Unfenced(r: Record) {
    r.lease == 1 && r.cancellation == 0 && r.terminal == 0
  }

  /** Only record `id` may differ, and nothing is inserted. */
  predicate OnlyRecord(c: Contents, c': Contents, id: Id) {
    && id in c.records && id in c'.records
    && c'.keys == c.keys && c'.order == c.order && c'.records == c.records[id := c'.records[id]]
  }

  // ---------------------------------------------------------------- what the provider answers

  /** The only replies that may be committed: returned, bound to the request, safe to keep, successful
      and with a valid candidate. */
  predicate Acceptable(reply: Reply) {
    reply.Returned? && reply.bindingsHold && reply.safe && reply.result.status == ResultSucceeded && reply.candidate.Some?
  }

  /** A failure's retry: hinted at by a rate limit, not after the deadline, and within both budgets. */
  function RetryAt(r: Record, q: Request, o: Options, f: Option<Failure>): Option<Instant> {
    match f
    case Some(Failure(RateLimited, _, Some(Some(hint)), _)) =>
      if q.deadline.Some? && hint <= q.deadline.value && o.remainingRetryBudget > 0 && r.retries < o.maximumRetries
      then Some(hint) else None
    case _ => None
  }

  function Classified(f: Option<Failure>): string {
    match f
    case None => "FAILED"
    case Some(Failure(RateLimited, _, _, _)) => "RATE_LIMITED"
    case Some(Failure(Validation, _, _, _)) => "VALIDATION"
    case Some(Failure(RefusalSafety, _, _, _)) => "REFUSAL_SAFETY"
    case Some(Failure(OtherFailure(name), _, _, _)) => name
  }

  function PhaseOf(f: Option<Failure>): Phase {
    match f case Some(x) => x.phase case None => Uncertain
  }

  /** What record and receipt become of a reply to the execution of `q`. */
  predicate Concludes(q: Request, o: Options, r: Record, reply: Reply, r': Record, told: Receipt) {
    var id, canceled := q.invocation, r.state == State.Canceled;
    match reply
    case Threw | NothingFound =>
      r' == r.(state := ReconciliationRequired, phase := Uncertain)
      && told == Told(ResultUnknown, "INTEGRITY", id).(reconciliationRequired := true)
    case Returned(result, bound, safe, candidate) =>
      if !bound then
        r' == r.(state := ReconciliationRequired, phase := Uncertain)
        && told == Told(ResultUnknown, "INTEGRITY", id).(reconciliationRequired := true)
      else if !safe then
        r' == r.(state := Failed) && told == Told(ResultFailed, "PROHIBITED_RESULT_DROPPED", id)
      else match result.status
        case ResultUnknown =>
          && r' == (if canceled then r.(result := Some(result), phase := Uncertain)
                    else r.(result := Some(result), state := ReconciliationRequired, phase := PhaseOf(result.failure)))
          && told == Told(ResultUnknown, "POST_DISPATCH_UNKNOWN", id).(reconciliationRequired := true)
        case ResultCanceled =>
          && r' == (if canceled then r.(result := Some(result), phase := Uncertain)
                    else r.(result := Some(result), state := State.Canceled))
          && told == Told(ResultCanceled, "CANCELED", id).(
               reconciliationRequired := result.failure.Some? && result.failure.value.reconciliationRequired)
        case ResultFailed =>
          var recorded := if canceled then r.(result := Some(result), phase := Uncertain)
                          else r.(result := Some(result), state := Failed);
          var at := RetryAt(r, q, o, result.failure);
          && r' == (if at.Some? then recorded.(state := RetryWait, retries := r.retries + 1, nextAttemptAt := at) else recorded)
          && told == Told(ResultFailed, Classified(result.failure), id).(
               retryScheduled := at.Some?,
               repairEligible := result.failure.Some? && result.failure.value.classification == Validation)
        case ResultSucceeded =>
          if candidate.None? then
            r' == r.(state := Failed) && told == Told(ResultFailed, "VALIDATION", id).(repairEligible := true)
          else if Unfenced(r) then
            && r' == r.(result := Some(result), state := Succeeded, committed := candidate)
            && told == Told(ResultSucceeded, "SUCCESS", id).(committed := true)
          else
            && r' == r.(result := Some(result), state := ReconciliationRequired, phase := Uncertain)
            && told == Told(ResultCanceled, "LATE_RESULT_FENCED", id).(reconciliationRequired := true)
  }

  lemma InvokeLaw(c: Contents, e: Execution, reply: Reply)
    requires e.request.invocation in c.records && InFlight(c.records[e.request.invocation]) && FirstRead(e)
    ensures var (c', receipt) := AfterInvoke(c, e, reply);
            var id := e.request.invocation;
            && OnlyRecord(c, c', id)
            && Concludes(e.request, e.options, c.records[id], reply, c'.records[id], receipt)
  {
    hide AfterFailure, RetryAt;
    if reply.Returned? && reply.bindingsHold && reply.safe && reply.result.status == ResultFailed {
      FailureLaw(c, e, reply);
    }
  }

  lemma FailureLaw(c: Contents, e: Execution, reply: Reply)
    requires e.request.invocation in c.records && reply.Returned? && reply.bindingsHold && reply.safe
    requires reply.result.status == ResultFailed
    ensures var (c', receipt) := AfterFailure(c, e, reply.result);
            var id := e.request.invocation;
            && OnlyRecord(c, c', id)
            && Concludes(e.request, e.options, c.records[id], reply, c'.records[id], receipt)
  {
  }

  /** The fence over any records: every generation counts, and a result has to have been recorded. */
  lemma FenceOverRecords(c: Contents, id: Id, lease: nat, cancellation: nat, terminal: nat, candidate: Candidate)
    ensures var (c', committed) := AfterCandidate(c, id, lease, cancellation, terminal, candidate);
            && (committed <==>
                  && id in c.records && c.records[id].state == Dispatched
                  && (c.records[id].lease, c.records[id].cancellation, c.records[id].terminal) == (lease, cancellation, terminal))
            && (committed ==> c'.artifacts == c.artifacts + [(id, candidate)] && c'.tasks == c.tasks + [(id, candidate)])
            && (!committed ==> c'.artifacts == c.artifacts && c'.tasks == c.tasks)
  {
  }

  /** Every answer of the provider, after any history: the record, the receipt, and nobody else. */
  lemma AnswerConcludes(steps: seq<Step>, id: Id, reply: Reply)
    requires WellNamed(Idle, steps) && id in After(Idle, steps).executing
    ensures var s := After(Idle, steps);
            var (s', told) := Next(s, Answer(id, reply));
            && OnlyRecord(s.store, s'.store, id)
            && s.executing[id].request.invocation == id
            && told.Receipted?
            && Concludes(s.executing[id].request, s.executing[id].options, s.store.records[id], reply, s'.store.records[id], told.receipt)
            && s'.executing == s.executing - {id}
  {
    hide After, Inv, AfterInvoke, Concludes, InFlight;
    Reachable(steps);
    var s := After(Idle, steps);
    InStore(s, id);
    RepairsBounded(s, id);
    InvokeLaw(s.store, s.executing[id], reply);
  }

  /** An answer commits its record exactly if it is acceptable and the record is unfenced, and then it
      commits the answer's candidate. */
  lemma AnswerCommitsIff(steps: seq<Step>, id: Id, reply: Reply)
    requires WellNamed(Idle, steps) && id in After(Idle, steps).executing
    ensures var s := After(Idle, steps);
            var s' := Next(s, Answer(id, reply)).0;
            && id in s.store.records && id in s'.store.records && s.store.records[id].committed == None
            && (s'.store.records[id].committed.Some? <==> Acceptable(reply) && Unfenced(s.store.records[id]))
            && (s'.store.records[id].committed.Some? ==> s'.store.records[id].committed == reply.candidate)
  {
    hide After, Inv, AnswerNext;
    Reachable(steps);
    AnswerConcludes(steps, id, reply);
    InFlightOpen(After(Idle, steps), id);
  }

  lemma InFlightOpen(s: System, id: Id)
    requires Inv(s) && id in s.executing
    ensures id in s.store.records && s.store.records[id].committed == None
  {
    hide Inv;
    InStore(s, id);
    RepairsBounded(s, id);
  }

  /** An answer that is not bound to its request or not safe to keep leaves no trace of what it said. */
  lemma RefusedLeavesNothing(steps: seq<Step>, id: Id, reply: Reply)
    requires WellNamed(Idle, steps) && id in After(Idle, steps).executing
    requires !reply.Returned? || !reply.bindingsHold || !reply.safe
    ensures var s := After(Idle, steps);
            var s' := Next(s, Answer(id, reply)).0;
            && s'.store.records.Keys == s.store.records.Keys
            && (forall x :: x in s.store.records ==>
                  s'.store.records[x].committed == s.store.records[x].committed
                  && s'.store.records[x].result == s.store.records[x].result)
            && s'.store.artifacts == s.store.artifacts && s'.store.tasks == s.store.tasks
  {
    hide After, Inv;
    Reachable(steps);
    InFlightOpen(After(Idle, steps), id);
    RepairsBounded(After(Idle, steps), id);
  }

  // ---------------------------------------------------------------- what a lookup finds

  /** What record and receipt become of the reply to a lookup that remembers `before`; a lookup that
      throws, or finds its record no longer waiting, raises and changes nothing. */
  predicate Settles(before: Record, id: Id, r: Record, reply: Reply, r': Record, told: Outcome) {
    var pending := Told(ResultUnknown, "RECONCILIATION_BLOCKED", id).(reconciliationRequired := true);
    if r.state != ReconciliationRequired || reply == Threw then r' == r && told == Raised
    else if !Unfenced(before) then r' == r.(state := Blocked) && told == Receipted(pending)
    else match reply
      case Threw | NothingFound => r' == r.(state := Blocked) && told == Receipted(pending)
      case Returned(result, bound, safe, candidate) =>
        if !bound || !safe || (result.status == ResultSucceeded && candidate.None?)
        then r' == r.(state := Blocked) && told == Receipted(pending)
        else match result.status
          case ResultUnknown =>
            && r' == r.(result := Some(result), phase := PhaseOf(result.failure))
            && told == Receipted(Told(ResultUnknown, "RECONCILIATION_PENDING", id).(reconciliationRequired := true))
          case ResultFailed | ResultCanceled =>
            && r' == r.(result := Some(result), state := Blocked)
            && told == Receipted(Told(result.status, "RECONCILED", id))
          case ResultSucceeded =>
            if Unfenced(r) then
              && r' == r.(result := Some(result), state := Succeeded, committed := candidate)
              && told == Receipted(Told(ResultSucceeded, "RECONCILED", id).(committed := true))
            else
              && r' == r.(result := Some(result), phase := Uncertain)
              && told == Receipted(pending)
  }

  lemma LookupLaw(c: Contents, k: Reconciliation, reply: Reply)
    requires k.request.invocation in c.records
    ensures var (c', receipt) := AfterLookup(c, k, reply);
            var id := k.request.invocation;
            && OnlyRecord(c, c', id)
            && Settles(k.before, id, c.records[id], reply, c'.records[id], if receipt.Some? then Receipted(receipt.value) else Raised)
            && c'.ledger.reconciliations == c.ledger.reconciliations + if receipt.Some? then 1 else 0
  {
  }

  /** Every answer of a lookup, after any history. */
  lemma LookupSettles(steps: seq<Step>, ticket: nat, reply: Reply)
    requires WellNamed(Idle, steps) && ticket in After(Idle, steps).reconciling
    ensures var s := After(Idle, steps);
            var (s', told) := Next(s, Answered(ticket, reply));
            var k := s.reconciling[ticket];
            var id := k.request.invocation;
            && OnlyRecord(s.store, s'.store, id)
            && Settles(k.before, id, s.store.records[id], reply, s'.store.records[id], told)
            && s'.store.ledger.reconciliations == s.store.ledger.reconciliations + (if told.Receipted? then 1 else 0)
            && s'.reconciling == s.reconciling - {ticket} && s'.executing == s.executing
  {
    hide After, Inv, AfterLookup, Settles;
    Reachable(steps);
    var s := After(Idle, steps);
    TicketInStore(s, ticket);
    LookupLaw(s.store, s.reconciling[ticket], reply);
  }

  /** A lookup commits its record exactly if it was not committed before, still waits for the lookup,
      was unfenced when the lookup began and is so now, and the answer is acceptable; then it commits the
      answer's candidate. */
  lemma LookupCommitsIff(steps: seq<Step>, ticket: nat, reply: Reply)
    requires WellNamed(Idle, steps) && ticket in After(Idle, steps).reconciling
    ensures var s := After(Idle, steps);
            var s' := Next(s, Answered(ticket, reply)).0;
            var k := s.reconciling[ticket];
            var id := k.request.invocation;
            && id in s.store.records && id in s'.store.records
            && var r, r' := s.store.records[id], s'.store.records[id];
               && (r'.committed.Some? && r.committed == None <==>
                     r.state == ReconciliationRequired && Unfenced(k.before) && Unfenced(r) && Acceptable(reply))
               && (r'.committed.Some? && r.committed == None ==> r'.committed == reply.candidate)
  {
    hide After, Inv, AnsweredNext;
    Reachable(steps);
    LookupSettles(steps, ticket, reply);
    WaitingUncommitted(After(Idle, steps), After(Idle, steps).reconciling[ticket].request.invocation);
  }

  lemma WaitingUncommitted(s: System, id: Id)
    requires Inv(s)
    ensures id in s.store.records && s.store.records[id].state == ReconciliationRequired ==> s.store.records[id].committed == None
  {
    hide Inv;
    if id in s.store.records { RepairsBounded(s, id); }
  }

  /** A lookup remembers the record as it was when it began. */
  lemma LookupBegins(s: System, q: Request)
    ensures Next(s, Reconcile(q)) ==
              if q.invocation in s.store.records
              then (s.(reconciling := s.reconciling[s.tickets := Reconciliation(q, s.store.records[q.invocation])], tickets := s.tickets + 1),
                    Quiet)
              else (s, Raised)
  {
  }

  // ---------------------------------------------------------------- what a call begins with

  /** The first check that refuses, in the order of the service. */
  function FirstRefusal(o: Options, id: Id): Option<Outcome> {
    if o.deployed then Some(Receipted(Told(ResultFailed, "DETERMINISTIC_DEPLOYED_ENVIRONMENT_REJECTED", id)))
    else if o.external then Some(Receipted(Told(ResultFailed, "EXTERNAL_PROVIDER_DISABLED", id)))
    else if o.preCanceled then Some(Receipted(Told(ResultCanceled, "PRE_DISPATCH_CANCELED", id)))
    else if o.deadlinePassed then Some(Receipted(Told(ResultFailed, "PRE_DISPATCH_TIMEOUT", id)))
    else if o.sanitizationUncertain then Some(Receipted(Told(ResultFailed, "SANITIZATION_UNCERTAIN", id)))
    else if o.bindingsRejected then Some(Receipted(Told(ResultFailed, "REQUEST_BINDING_REJECTED", id)))
    else if o.canary then Some(Raised)
    else if o.targetBlocked then Some(Receipted(Told(ResultFailed, "TARGET_OR_CIRCUIT_BLOCKED", id)))
    else None
  }

  /** What a repeated request is told of the invocation that answers for its key. */
  predicate Repeats(q: Request, r: Record, told: Receipt) {
    if r.requestDigest != q.digest then told == Told(ResultFailed, "IDEMPOTENCY_COLLISION", q.invocation)
    else if r.state == ReconciliationRequired
    then told == Told(ResultUnknown, "RECONCILIATION_REQUIRED", r.invocation).(duplicate := true, reconciliationRequired := true)
    else told == Told(if r.committed.Some? then ResultSucceeded else if r.state == State.Canceled then ResultCanceled else ResultFailed,
                      "DUPLICATE_REPLAY", r.invocation).(
                   committed := r.committed.Some?, duplicate := true, retryScheduled := r.state == RetryWait)
  }

  /** A request is dispatched exactly if no check refuses it and its key is new; then one record, one
      provider call and its reservations are on the books. A request whose key is known is answered from
      the record and changes nothing. */
  lemma ExecuteBegins(steps: seq<Step>, q: Request, o: Options)
    requires WellNamed(Idle, steps) && FreshlyNamed(After(Idle, steps), Execute(q, o))
    ensures var s := After(Idle, steps);
            var (s', told) := Next(s, Execute(q, o));
            var refusal := FirstRefusal(o, q.invocation);
            if refusal.Some? then s' == s && told == refusal.value
            else if q.logicalKey in s.store.keys then
              && s' == s && told.Receipted?
              && s.store.keys[q.logicalKey] in s.store.records
              && Repeats(q, s.store.records[s.store.keys[q.logicalKey]], told.receipt)
            else
              && told == Quiet && q.invocation !in s.store.records
              && s'.store == s.store.(
                   keys := s.store.keys[q.logicalKey := q.invocation],
                   order := s.store.order + [q.invocation],
                   records := s.store.records[q.invocation :=
                     Record(q.logicalKey, q.digest, q.attempt, q.invocation, Dispatching, WasDispatched, 1, 0, 0, 0, 0, None, None,
                            q.reservations, None)],
                   ledger := s.store.ledger.(reservations := s.store.ledger.reservations + |q.reservations|,
                                             providerCalls := s.store.ledger.providerCalls + 1))
              && s' == s.(store := s'.store,
                          executing := s.executing[q.invocation := Execution(q, o, 1, 0, 0)],
                          signals := s.signals[q.invocation := false])
  {
    hide After, Inv;
    Reachable(steps);
    KeysKnown(After(Idle, steps));
  }

  lemma KeysKnown(s: System)
    requires Inv(s)
    ensures forall k :: k in s.store.keys ==> s.store.keys[k] in s.store.records
  {
    hide Listed, Balanced, Effects, Executions;
  }

  // ---------------------------------------------------------------- what others do to a record

  /** Cancellation, loss of the lease, a terminal mark and a repair: each counts, a cancellation also
      stops the record and aborts the call in flight, and an unknown invocation changes nothing. */
  lemma MarksCount(s: System, id: Id, repair: Id, reservation: Id)
    ensures var records := s.store.records;
            if id !in records then
              && Next(s, CancelStep(id)) == (s, Raised) && Next(s, LoseLeaseStep(id)) == (s, Raised)
              && Next(s, MarkTerminalStep(id)) == (s, Raised) && Next(s, BeginRepairStep(id, repair, reservation)) == (s, Raised)
            else
              var r := records[id];
              && Next(s, CancelStep(id))
                 == (s.(store := s.store.(records := records[id := r.(cancellation := r.cancellation + 1, state := State.Canceled)]),
                        signals := if id in s.signals then s.signals[id := true] else s.signals), Quiet)
              && Next(s, LoseLeaseStep(id)) == (s.(store := s.store.(records := records[id := r.(lease := r.lease + 1)])), Quiet)
              && Next(s, MarkTerminalStep(id))
                 == (s.(store := s.store.(records := records[id := r.(terminal := r.terminal + 1)])), Quiet)
              && Next(s, BeginRepairStep(id, repair, reservation))
                 == (if r.repairs == 0 && repair != id && reservation !in r.reservations
                     then (s.(store := s.store.(records := records[id := r.(repairs := 1)],
                                                ledger := s.store.ledger.(repairInvocations := s.store.ledger.repairInvocations + 1))), Quiet)
                     else (s, Raised))
  {
  }
}
