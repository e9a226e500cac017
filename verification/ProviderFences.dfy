/** The states records rest in between two awaits, and what the end of a call does to its record. */
module ProviderFences {
  import opened Common
  import opened ProviderStore
  import opened ProviderRuntime
  import opened ProviderTheorems

  /** A record nobody is executing: not in a passing state, and committed only if it succeeded,
      whether or not it was canceled since. */
  predicate AtRest(r: Record) {
    && r.state !in {Ready, Dispatching, Dispatched}
    && (r.committed.Some? ==> r.state == Succeeded || r.state == Canceled)
    && (r.state == Succeeded ==> r.committed.Some?)
  }

  predicate InFlight(r: Record) {
    (r.state == Dispatching || (r.state == Canceled && r.cancellation > 0)) && r.committed.None?
  }

  predicate FirstGenerations(r: Record) {
    r.lease == 1 && r.cancellation == 0 && r.terminal == 0
  }

  predicate FirstRead(e: Execution) {
    e.lease == 1 && e.cancellation == 0 && e.terminal == 0
  }

  /** An execution in flight knows its record, which awaits it; its signal tells of a cancellation. */
  predicate Flight(records: map<Id, Record>, id: Id, e: Execution, aborted: bool) {
    && id in records && e.request.invocation == id && FirstRead(e) && InFlight(records[id])
    && (aborted <==> records[id].cancellation > 0)
  }

  predicate Flights(records: map<Id, Record>, executing: map<Id, Execution>, signals: map<Id, bool>) {
    && signals.Keys == executing.Keys
    && (forall id :: id in executing ==> Flight(records, id, executing[id], signals[id]))
  }

  predicate Rests(records: map<Id, Record>, executing: map<Id, Execution>) {
    forall id :: id in records && id !in executing ==> AtRest(records[id])
  }

  predicate Tickets(records: map<Id, Record>, reconciling: map<nat, Reconciliation>, tickets: nat) {
    forall t :: t in reconciling ==> t < tickets && reconciling[t].request.invocation in records
  }

  predicate Executions(s: System) {
    && Flights(s.store.records, s.executing, s.signals)
    && Rests(s.store.records, s.executing)
    && Tickets(s.store.records, s.reconciling, s.tickets)
  }

  predicate Inv(s: System) {
    StoreInv(s.store) && Executions(s)
  }

  /** What the end of a call owes: its record comes to rest, a commit passes the fence, and the
      receipt says SUCCEEDED exactly if the record is committed. */
  predicate Ends(c: Contents, c': Contents, id: Id, r: Receipt) {
    && Touches(c, c', id)
    && AtRest(c'.records[id])
    && (Commits(c.records[id], c'.records[id]) ==> FirstGenerations(c.records[id]) && FirstGenerations(c'.records[id]))
    && r.invocation == id
    && (r.status.ResultSucceeded? <==> c'.records[id].committed.Some?)
    && (r.committed <==> c'.records[id].committed.Some?)
  }

  lemma CandidateEnds(c: Contents, id: Id, candidate: Candidate)
    requires id in c.records && c.records[id].repairs <= 1 && c.records[id].committed.None?
    ensures var (c', committed) := AfterCandidate(c, id, 1, 0, 0, candidate);
            && Touches(c, c', id) && AtRest(c'.records[id])
            && (committed <==> c'.records[id].committed.Some?)
            && (committed ==> FirstGenerations(c.records[id]) && FirstGenerations(c'.records[id]))
  {
    MarksTouch(c, id);
    CommitTouches(c, id, candidate);
    hide Touches;
  }

  lemma FailureEnds(c: Contents, e: Execution, result: Result)
    requires var id := e.request.invocation; id in c.records && InFlight(c.records[id]) && c.records[id].repairs <= 1
    requires result.status.ResultFailed?
    ensures var (c', r) := AfterFailure(c, e, result);
            Ends(c, c', e.request.invocation, r)
  {
    var id := e.request.invocation;
    RecordResultTouches(c, id, result);
    var recorded := RecordResult(c, id, result).value;
    var next := if result.failure.Some? && result.failure.value.retryAfter.Some? then result.failure.value.retryAfter.value else None;
    RetryTouches(recorded, id, next, e.request.deadline, e.options.remainingRetryBudget, e.options.maximumRetries);
    var scheduled := ScheduleRetry(recorded, id, next, e.request.deadline, e.options.remainingRetryBudget, e.options.maximumRetries).value;
    TouchesTransitive(c, recorded, scheduled, id);
    ScheduledRests(recorded, id, next, e.request.deadline, e.options.remainingRetryBudget, e.options.maximumRetries);
    hide Touches, ScheduleRetry, RetryAllowed;
  }

  lemma ScheduledRests(c: Contents, id: Id, next: Option<Instant>, deadline: Option<Instant>, budget: int, maximum: int)
    requires id in c.records && AtRest(c.records[id]) && c.records[id].committed.None?
    ensures var after := ScheduleRetry(c, id, next, deadline, budget, maximum);
            after.Some? && id in after.value.records && AtRest(after.value.records[id]) && after.value.records[id].committed.None?
  {
  }

  lemma MarkedEnds(c: Contents, id: Id)
    requires id in c.records && c.records[id].repairs <= 1 && c.records[id].committed.None?
    ensures var failed := OrElse(MarkValidationFailed(c, id), c);
            Touches(c, failed, id) && AtRest(failed.records[id]) && failed.records[id].committed.None?
    ensures var unknown := OrElse(MarkReconciliationRequired(c, id), c);
            Touches(c, unknown, id) && AtRest(unknown.records[id]) && unknown.records[id].committed.None?
  {
    MarksTouch(c, id);
    hide Touches;
  }

  lemma RecordedEnds(c: Contents, id: Id, result: Result)
    requires id in c.records && c.records[id].repairs <= 1 && InFlight(c.records[id])
    ensures var recorded := OrElse(RecordResult(c, id, result), c);
            && Touches(c, recorded, id) && recorded.records[id].committed.None?
            && recorded.records[id].repairs == c.records[id].repairs
            && recorded.records[id].lease == c.records[id].lease
            && recorded.records[id].cancellation == c.records[id].cancellation
            && recorded.records[id].terminal == c.records[id].terminal
            && (!result.status.ResultSucceeded? ==> AtRest(recorded.records[id]))
  {
    RecordResultTouches(c, id, result);
    hide Touches;
  }

  lemma InvokeEnds(c: Contents, e: Execution, reply: Reply)
    requires var id := e.request.invocation; id in c.records && InFlight(c.records[id]) && c.records[id].repairs <= 1
    requires FirstRead(e)
    ensures var (c', r) := AfterInvoke(c, e, reply);
            Ends(c, c', e.request.invocation, r)
  {
    hide AfterFailure, AfterCandidate, RecordResult, MarkValidationFailed, MarkReconciliationRequired, Touches, AtRest;
    var id := e.request.invocation;
    MarkedEnds(c, id);
    if reply.Returned? {
      RecordedEnds(c, id, reply.result);
      if reply.result.status.ResultFailed? { FailureEnds(c, e, reply.result); }
      if reply.result.status.ResultSucceeded? && reply.candidate.Some? {
        var recorded := OrElse(RecordResult(c, id, reply.result), c);
        RecordedTouch(c, recorded, id);
        CandidateEnds(recorded, id, reply.candidate.value);
        TouchesTransitive(c, recorded, AfterCandidate(recorded, id, 1, 0, 0, reply.candidate.value).0, id);
      }
    }
  }

  lemma RecordedTouch(c: Contents, c': Contents, id: Id)
    requires Touches(c, c', id)
    ensures id in c.records && id in c'.records
  {
  }

  /** A lookup either raises and changes nothing, or ends a record that was waiting for it. */
  lemma LookupEnds(c: Contents, k: Reconciliation, reply: Reply)
    requires var id := k.request.invocation; id in c.records && AtRest(c.records[id]) && c.records[id].repairs <= 1
    ensures var (c', r) := AfterLookup(c, k, reply);
            var id := k.request.invocation;
            && (r.None? ==> c' == c)
            && (r.Some? ==> c.records[id].state == ReconciliationRequired && Ends(c, c', id, r.value))
  {
    hide Touches, AfterCandidate;
    var id := k.request.invocation;
    if c.records[id].state == ReconciliationRequired && !reply.Threw? {
      ReconciledTouches(c, id, None);
      if reply.Returned? {
        ReconciledTouches(c, id, Some(reply.result));
        var after := MarkReconciled(c, id, Some(reply.result)).value;
        RecordedTouch(c, after, id);
        if reply.result.status.ResultSucceeded? && reply.candidate.Some? && k.before.lease == 1
           && k.before.cancellation == 0 && k.before.terminal == 0 {
          CandidateEnds(after, id, reply.candidate.value);
          TouchesTransitive(c, after, AfterCandidate(after, id, 1, 0, 0, reply.candidate.value).0, id);
        }
      }
    }
  }
}
