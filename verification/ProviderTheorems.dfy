/** Fenced commits and a balanced ledger, whatever executions, reconciliations, cancellations, lease
    losses and terminal marks come between each other. */
module ProviderTheorems {
  import opened Common
  import opened ProviderStore
  import opened ProviderRuntime

  // ---------------------------------------------------------------- totals over the records

  predicate Listed(order: seq<Id>, records: map<Id, Record>) {
    && (forall i, j :: 0 <= i < j < |order| ==> order[i] != order[j])
    && (forall i :: 0 <= i < |order| ==> order[i] in records)
    && (forall id :: id in records ==> id in order)
  }

  function Total(order: seq<Id>, records: map<Id, Record>, weight: Record -> nat): nat
    requires forall i :: 0 <= i < |order| ==> order[i] in records
  {
    if order == [] then 0
    else Total(order[..|order| - 1], records, weight) + weight(records[order[|order| - 1]])
  }

  lemma {:induction false} TotalElsewhere(order: seq<Id>, records: map<Id, Record>, id: Id, r: Record, weight: Record -> nat)
    requires forall i :: 0 <= i < |order| ==> order[i] in records
    requires id !in order
    ensures Total(order, records[id := r], weight) == Total(order, records, weight)
  {
    if order != [] {
      TotalElsewhere(order[..|order| - 1], records, id, r, weight);
    }
  }

  lemma {:induction false} TotalPut(order: seq<Id>, records: map<Id, Record>, id: Id, r: Record, weight: Record -> nat)
    requires forall i, j :: 0 <= i < j < |order| ==> order[i] != order[j]
    requires forall i :: 0 <= i < |order| ==> order[i] in records
    requires id in order
    ensures Total(order, records[id := r], weight) + weight(records[id]) == Total(order, records, weight) + weight(r)
  {
    var before := order[..|order| - 1];
    if order[|order| - 1] == id {
      TotalElsewhere(before, records, id, r, weight);
    } else {
      TotalPut(before, records, id, r, weight);
    }
  }

  function ReservationsOf(r: Record): nat { |r.reservations| }
  function RetriesOf(r: Record): nat { r.retries }
  function RepairsOf(r: Record): nat { r.repairs }
  function CommitsOf(r: Record): nat { if r.committed.Some? then 1 else 0 }

  // ---------------------------------------------------------------- the store

  predicate Keyed(c: Contents) {
    && Listed(c.order, c.records)
    && |c.keys| == |c.order|
    && (forall k :: k in c.keys ==> c.keys[k] in c.records && c.records[c.keys[k]].logicalKey == k)
    && (forall id :: id in c.records ==>
          && c.records[id].invocation == id
          && c.records[id].logicalKey in c.keys && c.keys[c.records[id].logicalKey] == id
          && c.records[id].lease >= 1 && c.records[id].repairs <= 1)
  }

  /** Each ledger counter is the sum of what the records show. */
  predicate Balanced(c: Contents)
    requires Listed(c.order, c.records)
  {
    && c.ledger.providerCalls == |c.order|
    && c.ledger.reservations == Total(c.order, c.records, ReservationsOf)
    && c.ledger.retrySchedules == Total(c.order, c.records, RetriesOf)
    && c.ledger.repairInvocations == Total(c.order, c.records, RepairsOf)
    && c.ledger.candidateCommits == Total(c.order, c.records, CommitsOf)
    && c.ledger.artifactEffects == c.ledger.candidateCommits
    && c.ledger.taskEffects == c.ledger.candidateCommits
    && c.ledger.stateEffects == c.ledger.candidateCommits
  }

  /** One artifact and one task a committed record, and no other. */
  predicate Effects(c: Contents) {
    && c.tasks == c.artifacts
    && (forall i, j :: 0 <= i < j < |c.artifacts| ==> c.artifacts[i].0 != c.artifacts[j].0)
    && (forall i :: 0 <= i < |c.artifacts| ==>
          c.artifacts[i].0 in c.records && c.records[c.artifacts[i].0].committed == Some(c.artifacts[i].1))
    && (forall id :: id in c.records && c.records[id].committed.Some? ==>
          exists i :: 0 <= i < |c.artifacts| && c.artifacts[i].0 == id)
  }

  predicate StoreInv(c: Contents) {
    Keyed(c) && Balanced(c) && Effects(c)
  }

  /** What a change of one record keeps: its identity; generations, counts and a commit only go up. */
  predicate Succeeds(r: Record, r': Record) {
    && r'.logicalKey == r.logicalKey && r'.requestDigest == r.requestDigest && r'.invocation == r.invocation
    && r'.reservations == r.reservations
    && r.lease <= r'.lease && r.cancellation <= r'.cancellation && r.terminal <= r'.terminal
    && r.retries <= r'.retries && r.repairs <= r'.repairs <= (if r.repairs > 1 then r.repairs else 1)
    && (r.committed.Some? ==> r'.committed == r.committed)
  }

  predicate Commits(r: Record, r': Record) {
    r.committed.None? && r'.committed.Some?
  }

  /** Record `id` changed, and the ledger and the effects with it. */
  predicate Touches(c: Contents, c': Contents, id: Id) {
    && id in c.records && id in c'.records
    && c'.keys == c.keys && c'.order == c.order && c'.records == c.records[id := c'.records[id]]
    && var r, r' := c.records[id], c'.records[id];
       var commit := if Commits(r, r') then 1 else 0;
       && Succeeds(r, r')
       && c'.ledger.providerCalls == c.ledger.providerCalls && c'.ledger.reservations == c.ledger.reservations
       && c'.ledger.retrySchedules == c.ledger.retrySchedules + r'.retries - r.retries
       && c'.ledger.repairInvocations == c.ledger.repairInvocations + r'.repairs - r.repairs
       && c'.ledger.candidateCommits == c.ledger.candidateCommits + commit
       && c'.ledger.artifactEffects == c.ledger.artifactEffects + commit
       && c'.ledger.taskEffects == c.ledger.taskEffects + commit
       && c'.ledger.stateEffects == c.ledger.stateEffects + commit
       && c'.artifacts == c.artifacts + (if Commits(r, r') then [(id, r'.committed.value)] else [])
       && c'.tasks == c.tasks + (if Commits(r, r') then [(id, r'.committed.value)] else [])
  }

  lemma TouchesTransitive(a: Contents, b: Contents, c: Contents, id: Id)
    requires Touches(a, b, id) && Touches(b, c, id)
    ensures Touches(a, c, id)
  {
  }

  lemma TouchedKeys(c: Contents, c': Contents, id: Id)
    requires Keyed(c) && Touches(c, c', id)
    ensures Keyed(c')
  {
  }

  lemma TouchedBalance(c: Contents, c': Contents, id: Id)
    requires Listed(c.order, c.records) && Balanced(c) && Touches(c, c', id)
    ensures Listed(c'.order, c'.records) && Balanced(c')
  {
    var r' := c'.records[id];
    TotalPut(c.order, c.records, id, r', ReservationsOf);
    TotalPut(c.order, c.records, id, r', RetriesOf);
    TotalPut(c.order, c.records, id, r', RepairsOf);
    TotalPut(c.order, c.records, id, r', CommitsOf);
    hide Total;
  }

  lemma TouchedEffects(c: Contents, c': Contents, id: Id)
    requires Effects(c) && Touches(c, c', id)
    ensures Effects(c')
  {
    forall other | other in c'.records && c'.records[other].committed.Some?
      ensures exists i :: 0 <= i < |c'.artifacts| && c'.artifacts[i].0 == other
    {
      if other == id && Commits(c.records[id], c'.records[id]) {
        assert c'.artifacts[|c.artifacts|].0 == id;
      } else {
        var i :| 0 <= i < |c.artifacts| && c.artifacts[i].0 == other;
        assert c'.artifacts[i].0 == other;
      }
    }
  }

  lemma ListedAdd(order: seq<Id>, records: map<Id, Record>, id: Id, r: Record)
    requires Listed(order, records) && id !in records
    ensures Listed(order + [id], records[id := r])
  {
  }

  lemma ReservedKeys(c: Contents, c': Contents, q: Request)
    requires Keyed(c) && q.logicalKey !in c.keys && q.invocation !in c.records
    requires c'.keys == c.keys[q.logicalKey := q.invocation] && c'.order == c.order + [q.invocation]
    requires c'.records == c.records[q.invocation := Started(q)]
    ensures Keyed(c')
  {
    hide Listed;
    ListedAdd(c.order, c.records, q.invocation, Started(q));
  }

  lemma TotalAdd(order: seq<Id>, records: map<Id, Record>, id: Id, r: Record, weight: Record -> nat)
    requires Listed(order, records) && id !in records
    ensures Listed(order + [id], records[id := r])
    ensures Total(order + [id], records[id := r], weight) == Total(order, records, weight) + weight(r)
  {
    assert (order + [id])[..|order|] == order;
    TotalElsewhere(order, records, id, r, weight);
  }

  function Started(q: Request): Record {
    NewRecord(q).(state := Dispatching, phase := WasDispatched)
  }

  lemma ReservedRows(c: Contents, q: Request)
    ensures BeginDispatch(Reserved(c, q), q.invocation).Some?
    ensures var c' := BeginDispatch(Reserved(c, q), q.invocation).value;
            && c'.keys == c.keys[q.logicalKey := q.invocation] && c'.order == c.order + [q.invocation]
            && c'.records == c.records[q.invocation := Started(q)]
            && c'.ledger == c.ledger.(reservations := c.ledger.reservations + |q.reservations|,
                                      providerCalls := c.ledger.providerCalls + 1)
            && c'.artifacts == c.artifacts && c'.tasks == c.tasks
  {
  }

  lemma ReservedBalance(c: Contents, c': Contents, q: Request)
    requires Listed(c.order, c.records) && Balanced(c) && q.invocation !in c.records
    requires c'.order == c.order + [q.invocation] && c'.records == c.records[q.invocation := Started(q)]
    requires c'.ledger == c.ledger.(reservations := c.ledger.reservations + |q.reservations|,
                                    providerCalls := c.ledger.providerCalls + 1)
    ensures Listed(c'.order, c'.records) && Balanced(c')
  {
    hide Total, Listed;
    ListedAdd(c.order, c.records, q.invocation, Started(q));
    assert Listed(c'.order, c'.records);
    TotalsAdd(c.order, c.records, q.invocation, Started(q));
  }

  lemma TotalsAdd(order: seq<Id>, records: map<Id, Record>, id: Id, r: Record)
    requires Listed(order, records) && id !in records
    ensures Listed(order + [id], records[id := r])
    ensures Total(order + [id], records[id := r], ReservationsOf) == Total(order, records, ReservationsOf) + ReservationsOf(r)
    ensures Total(order + [id], records[id := r], RetriesOf) == Total(order, records, RetriesOf) + RetriesOf(r)
    ensures Total(order + [id], records[id := r], RepairsOf) == Total(order, records, RepairsOf) + RepairsOf(r)
    ensures Total(order + [id], records[id := r], CommitsOf) == Total(order, records, CommitsOf) + CommitsOf(r)
  {
    hide *;
    TotalAdd(order, records, id, r, ReservationsOf);
    TotalAdd(order, records, id, r, RetriesOf);
    TotalAdd(order, records, id, r, RepairsOf);
    TotalAdd(order, records, id, r, CommitsOf);
  }

  lemma ReservedInv(c: Contents, q: Request)
    requires StoreInv(c) && q.logicalKey !in c.keys && q.invocation !in c.records
    ensures BeginDispatch(Reserved(c, q), q.invocation).Some?
    ensures var c' := BeginDispatch(Reserved(c, q), q.invocation).value;
            StoreInv(c') && c'.records == c.records[q.invocation := Started(q)]
  {
    hide Balanced, Effects, Reserved, BeginDispatch, Listed;
    ReservedRows(c, q);
    var c' := BeginDispatch(Reserved(c, q), q.invocation).value;
    ReservedBalance(c, c', q);
    ReservedKeys(c, c', q);
    ReservedEffects(c, c', q.invocation);
  }

  lemma ReservedEffects(c: Contents, c': Contents, id: Id)
    requires Effects(c) && id !in c.records && id in c'.records && c'.records[id].committed.None?
    requires c'.records == c.records[id := c'.records[id]] && c'.artifacts == c.artifacts && c'.tasks == c.tasks
    ensures Effects(c')
  {
  }

  // ---------------------------------------------------------------- the operations

  lemma RecordResultTouches(c: Contents, id: Id, result: Result)
    requires id in c.records && c.records[id].repairs <= 1
    ensures RecordResult(c, id, result).Some? && Touches(c, RecordResult(c, id, result).value, id)
  {
  }

  lemma MarksTouch(c: Contents, id: Id)
    requires id in c.records && c.records[id].repairs <= 1
    ensures MarkValidationFailed(c, id).Some? && Touches(c, MarkValidationFailed(c, id).value, id)
    ensures MarkReconciliationRequired(c, id).Some? && Touches(c, MarkReconciliationRequired(c, id).value, id)
  {
  }

  lemma GenerationsTouch(c: Contents, id: Id)
    requires id in c.records && c.records[id].repairs <= 1
    ensures Cancel(c, id).Some? && Touches(c, Cancel(c, id).value, id)
    ensures LoseLease(c, id).Some? && Touches(c, LoseLease(c, id).value, id)
    ensures MarkTerminal(c, id).Some? && Touches(c, MarkTerminal(c, id).value, id)
  {
  }

  lemma RetryTouches(c: Contents, id: Id, next: Option<Instant>, deadline: Option<Instant>, budget: int, maximum: int)
    requires id in c.records && c.records[id].repairs <= 1
    ensures var after := ScheduleRetry(c, id, next, deadline, budget, maximum);
            && after.Some? && Touches(c, after.value, id)
            && after.value.records[id].(state := c.records[id].state, retries := c.records[id].retries,
                                        nextAttemptAt := c.records[id].nextAttemptAt) == c.records[id]
  {
  }

  lemma RepairTouches(c: Contents, id: Id, repair: Id, reservation: Id)
    requires BeginRepair(c, id, repair, reservation).Some?
    ensures var after := BeginRepair(c, id, repair, reservation).value;
            && Touches(c, after, id) && after.records[id] == c.records[id].(repairs := c.records[id].repairs + 1)
  {
  }

  lemma ReconciledTouches(c: Contents, id: Id, result: Option<Result>)
    requires MarkReconciled(c, id, result).Some? && c.records[id].repairs <= 1
    ensures var after := MarkReconciled(c, id, result).value;
            && Touches(c, after, id) && after.records[id] == Reconciled(c.records[id], result)
  {
  }

  lemma CommitTouches(c: Contents, id: Id, candidate: Candidate)
    requires id in c.records && c.records[id].repairs <= 1 && c.records[id].committed.None?
    ensures Touches(c, Committed(c, id, candidate), id)
  {
  }
}
