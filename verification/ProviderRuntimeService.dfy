/** `ProviderRuntimeProofService` over the store of record objects. `execute` and `reconcile` are each
    two methods, up to their await and from there; what a suspended call remembers is in `executing`
    and `reconciling`. Each method is shown to be the step of the same name. */
module ProviderRuntimeService {
  import opened Common
  import P = ProviderStore
  import R = ProviderRuntime
  import opened ProviderRuntimeStore

  class Service {
    const store: Store
    var executing: map<P.Id, R.Execution>
    var abortSignals: map<P.Id, bool>
    var reconciling: map<nat, R.Reconciliation>
    var tickets: nat

    constructor ()
      ensures Valid() && fresh(store) && State() == R.Idle && store.byInvocation == map[]
    {
      store := new Store();
      executing, abortSignals, reconciling, tickets := map[], map[], map[], 0;
    }

    ghost predicate Valid()
      reads this, store
    {
      store.Valid()
    }

    ghost function State(): R.System
      reads this, store, store.byInvocation.Values
    {
      R.System(store.Contents(), executing, abortSignals, reconciling, tickets)
    }

    /** `execute`, up to the provider call. */
    method Execute(q: P.Request, o: R.Options) returns (r: R.Outcome)
      requires Valid() && R.FreshlyNamed(State(), R.Execute(q, o))
      modifies this, store, store.byInvocation.Values
      ensures Valid() && (State(), r) == R.ExecuteNext(old(State()), q, o)
    {
      var refusal := R.Refusal(q.invocation, o);
      hide R.Refusal, R.DuplicateReceipt, R.ToReconcileReceipt, R.FailureReceipt, R.DispatchNext;
      if refusal.Some? {
        return refusal.value;
      }
      var found := store.Lookup(q);
      match found {
        case Collision(_) => return R.Receipted(R.FailureReceipt(q.invocation, "IDEMPOTENCY_COLLISION"));
        case Duplicate(record) => return R.Receipted(R.DuplicateReceipt(record));
        case ToReconcile(record) => return R.Receipted(R.ToReconcileReceipt(record));
        case Created =>
      }
      CreatedIsNew(q);
      r := Dispatch(q, o);
    }

    /** `reserve` having created a record: dispatch it. */
    method Dispatch(q: P.Request, o: R.Options) returns (r: R.Outcome)
      requires Valid() && q.invocation !in store.byInvocation
      modifies this, store, store.byInvocation.Values
      ensures Valid() && (State(), r) == R.DispatchNext(old(State()), q, o)
    {
      var record := store.Insert(q);
      hide P.Reserved, P.BeginDispatch, P.NewRecord, Valid;
      var lease, cancellation, terminal := record.leaseGeneration, record.cancellationGeneration, record.terminalGeneration;
      var dispatched := store.BeginDispatch(q.invocation);
      if !dispatched {
        return R.Raised;
      }
      ghost var after := store.Contents();
      abortSignals := abortSignals[q.invocation := false];
      executing := executing[q.invocation := R.Execution(q, o, lease, cancellation, terminal)];
      assert store.Contents() == after;
      return R.Quiet;
    }

    lemma CreatedIsNew(q: P.Request)
      requires Valid() && P.Found(store.Contents(), q).Created?
      requires q.logicalKey !in store.Contents().keys ==> q.invocation !in store.Contents().records
      ensures q.invocation !in store.byInvocation
    {
    }

    /** The rest of `execute` once the provider has answered or thrown. */
    method AfterInvoke(id: P.Id, reply: R.Reply) returns (r: R.Outcome)
      requires Valid() && (id in executing ==> executing[id].request.invocation == id)
      modifies this, store, store.byInvocation.Values
      ensures Valid() && (State(), r) == R.AnswerNext(old(State()), id, reply)
    {
      if id !in executing {
        return R.Quiet;
      }
      var e := executing[id];
      executing, abortSignals := executing - {id}, abortSignals - {id};
      var receipt := Conclude(e, reply);
      return R.Receipted(receipt);
    }

    method Conclude(e: R.Execution, reply: R.Reply) returns (receipt: R.Receipt)
      requires Valid()
      modifies store, store.byInvocation.Values
      ensures Valid() && store.byInvocation == old(store.byInvocation)
      ensures (store.Contents(), receipt) == R.AfterInvoke(old(store.Contents()), e, reply)
    {
      hide R.AfterFailure, P.RecordResult, P.MarkValidationFailed, P.MarkReconciliationRequired, R.FailureReceipt, R.UnknownReceipt;
      var id := e.request.invocation;
      if !reply.Returned? || !reply.bindingsHold {
        var _ := store.MarkReconciliationRequired(id);
        return R.UnknownReceipt(id, "INTEGRITY");
      }
      if !reply.safe {
        var _ := store.MarkValidationFailed(id);
        return R.FailureReceipt(id, "PROHIBITED_RESULT_DROPPED");
      }
      if reply.result.status == P.ResultFailed {
        receipt := ConcludeFailure(e, reply.result);
        return;
      }
      if reply.result.status != P.ResultSucceeded {
        var _ := store.RecordResult(id, reply.result);
        if reply.result.status == P.ResultUnknown {
          return R.UnknownReceipt(id, "POST_DISPATCH_UNKNOWN");
        }
        return R.FailureReceipt(id, "CANCELED").(
          status := P.ResultCanceled,
          reconciliationRequired := reply.result.failure.Some? && reply.result.failure.value.reconciliationRequired);
      }
      if reply.candidate.None? {
        var _ := store.MarkValidationFailed(id);
        return R.FailureReceipt(id, "VALIDATION").(repairEligible := true);
      }
      var _ := store.RecordResult(id, reply.result);
      var committed := Commit(id, e.lease, e.cancellation, e.terminal, reply.candidate.value);
      return R.Receipt(if committed then P.ResultSucceeded else P.ResultCanceled,
                       if committed then "SUCCESS" else "LATE_RESULT_FENCED",
                       id, committed, false, false, false, !committed);
    }

    /** Commit through the fence, or ask for a reconciliation. */
    method Commit(id: P.Id, lease: nat, cancellation: nat, terminal: nat, candidate: P.Candidate) returns (committed: bool)
      requires Valid()
      modifies store, store.byInvocation.Values
      ensures Valid() && store.byInvocation == old(store.byInvocation)
      ensures (store.Contents(), committed) == R.AfterCandidate(old(store.Contents()), id, lease, cancellation, terminal, candidate)
    {
      committed := false;
      if id in store.byInvocation {
        committed := store.CommitCandidate(id, lease, cancellation, terminal, candidate);
      }
      if !committed {
        var _ := store.MarkReconciliationRequired(id);
      }
    }

    method ConcludeFailure(e: R.Execution, result: P.Result) returns (receipt: R.Receipt)
      requires Valid()
      modifies store, store.byInvocation.Values
      ensures Valid() && store.byInvocation == old(store.byInvocation)
      ensures (store.Contents(), receipt) == R.AfterFailure(old(store.Contents()), e, result)
    {
      hide P.RecordResult, R.ReasonOf, P.RetryAllowed;
      var id := e.request.invocation;
      var retryScheduled, repairEligible := false, false;
      var _ := store.RecordResult(id, result);
      if result.failure.Some? && result.failure.value.classification.RateLimited? && result.failure.value.retryAfter.Some? {
        var _, scheduled := store.ScheduleRetry(id, result.failure.value.retryAfter.value, e.request.deadline,
                                                e.options.remainingRetryBudget, e.options.maximumRetries);
        retryScheduled := scheduled;
      }
      if result.failure.Some? && result.failure.value.classification.Validation? {
        repairEligible := true;
      }
      return R.FailureReceipt(id, if result.failure.Some? then R.ReasonOf(result.failure.value.classification) else "FAILED")
             .(retryScheduled := retryScheduled, repairEligible := repairEligible);
    }

    /** `cancel`: the store first, then the signal of the call in flight. */
    method Cancel(id: P.Id) returns (r: R.Outcome)
      requires Valid()
      modifies this, store, store.byInvocation.Values
      ensures Valid() && (State(), r) == R.CancelNext(old(State()), id)
    {
      var known := store.Cancel(id);
      if !known {
        return R.Raised;
      }
      if id in abortSignals {
        abortSignals := abortSignals[id := true];
      }
      return R.Quiet;
    }

    method LoseLease(id: P.Id) returns (r: R.Outcome)
      requires Valid()
      modifies store, store.byInvocation.Values
      ensures Valid() && (State(), r) == R.Next(old(State()), R.LoseLeaseStep(id))
    {
      var known := store.LoseLease(id);
      return if known then R.Quiet else R.Raised;
    }

    method MarkTerminal(id: P.Id) returns (r: R.Outcome)
      requires Valid()
      modifies store, store.byInvocation.Values
      ensures Valid() && (State(), r) == R.Next(old(State()), R.MarkTerminalStep(id))
    {
      var known := store.MarkTerminal(id);
      return if known then R.Quiet else R.Raised;
    }

    method BeginRepair(id: P.Id, repair: P.Id, reservation: P.Id) returns (r: R.Outcome)
      requires Valid()
      modifies store, store.byInvocation.Values
      ensures Valid() && (State(), r) == R.Next(old(State()), R.BeginRepairStep(id, repair, reservation))
    {
      var known := store.BeginRepair(id, repair, reservation);
      return if known then R.Quiet else R.Raised;
    }

    /** `reconcile`, up to the lookup: it keeps a copy of the record as it now is. */
    method Reconcile(q: P.Request) returns (r: R.Outcome)
      requires Valid()
      modifies this
      ensures Valid() && (State(), r) == R.ReconcileNext(old(State()), q)
    {
      if q.invocation !in store.byInvocation {
        return R.Raised;
      }
      reconciling := reconciling[tickets := R.Reconciliation(q, store.byInvocation[q.invocation].Value())];
      tickets := tickets + 1;
      return R.Quiet;
    }

    /** The rest of `reconcile` once the lookup has answered. */
    method AfterLookup(ticket: nat, reply: R.Reply) returns (r: R.Outcome)
      requires Valid()
      modifies this, store, store.byInvocation.Values
      ensures Valid() && (State(), r) == R.AnsweredNext(old(State()), ticket, reply)
    {
      if ticket !in reconciling {
        return R.Quiet;
      }
      var k := reconciling[ticket];
      reconciling := reconciling - {ticket};
      var receipt := Settle(k, reply);
      return if receipt.Some? then R.Receipted(receipt.value) else R.Raised;
    }

    method Settle(k: R.Reconciliation, reply: R.Reply) returns (receipt: Option<R.Receipt>)
      requires Valid()
      modifies store, store.byInvocation.Values
      ensures Valid() && store.byInvocation == old(store.byInvocation)
      ensures (store.Contents(), receipt) == R.AfterLookup(old(store.Contents()), k, reply)
    {
      hide P.MarkReconciled, R.BlockedReceipt, R.AfterCandidate, R.FailureReceipt;
      var id, before := k.request.invocation, k.before;
      if reply.Threw? {
        return None;
      }
      if reply.NothingFound? || before.cancellation > 0 || before.terminal > 0 || before.lease != 1
         || !reply.bindingsHold || !reply.safe || (reply.result.status == P.ResultSucceeded && reply.candidate.None?) {
        var known := store.MarkReconciled(id, None);
        return if known then Some(R.BlockedReceipt(id)) else None;
      }
      var known := store.MarkReconciled(id, Some(reply.result));
      if !known {
        return None;
      }
      if reply.result.status == P.ResultUnknown {
        return Some(R.UnknownReceipt(id, "RECONCILIATION_PENDING"));
      }
      if reply.result.status == P.ResultSucceeded && reply.candidate.Some? {
        var committed := Commit(id, before.lease, before.cancellation, before.terminal, reply.candidate.value);
        return Some(R.Receipt(if committed then P.ResultSucceeded else P.ResultUnknown,
                              if committed then "RECONCILED" else "RECONCILIATION_BLOCKED",
                              id, committed, false, false, false, !committed));
      }
      return Some(R.FailureReceipt(id, "RECONCILED").(status := reply.result.status));
    }
  }
}
