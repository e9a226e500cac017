/** `InMemoryProviderRuntimeStore` with its records as objects, each reachable through two maps. Every
    method is shown to do to the contents what its function in `ProviderStore` says; a failed
    assertion is a false result, and changes nothing. */
module ProviderRuntimeStore {
  import opened Common
  import P = ProviderStore

  class InvocationRecord {
    const logicalKey: string
    const requestDigest: string
    const attempt: P.Id
    const invocation: P.Id
    var state: P.State
    var dispatchPhase: P.Phase
    var leaseGeneration: nat
    var cancellationGeneration: nat
    var terminalGeneration: nat
    var repairCount: nat
    var retryCount: nat
    var result: Option<P.Result>
    var nextAttemptAt: Option<P.Instant>
    var reservationIds: seq<P.Id>
    var committedDigest: Option<P.Candidate>

    constructor (q: P.Request)
      ensures Value() == P.NewRecord(q)
    {
      logicalKey, requestDigest, attempt, invocation := q.logicalKey, q.digest, q.attempt, q.invocation;
      state, dispatchPhase := P.Ready, P.NotDispatched;
      leaseGeneration, cancellationGeneration, terminalGeneration := 1, 0, 0;
      repairCount, retryCount, result, nextAttemptAt := 0, 0, None, None;
      reservationIds, committedDigest := q.reservations, None;
    }

    function Value(): P.Record
      reads this
    {
      P.Record(logicalKey, requestDigest, attempt, invocation, state, dispatchPhase, leaseGeneration,
               cancellationGeneration, terminalGeneration, repairCount, retryCount, result, nextAttemptAt,
               reservationIds, committedDigest)
    }
  }

  class Store {
    var byLogicalKey: map<string, InvocationRecord>
    var byInvocation: map<P.Id, InvocationRecord>
    var order: seq<P.Id>
    var ledger: P.Ledger
    var committedArtifacts: seq<(P.Id, P.Candidate)>
    var safeTasks: seq<(P.Id, P.Candidate)>

    constructor ()
      ensures Valid() && Contents() == P.Empty
      ensures byInvocation == map[]
    {
      byLogicalKey, byInvocation, order := map[], map[], [];
      ledger := P.Empty.ledger;
      committedArtifacts, safeTasks := [], [];
    }

    /** Both maps hold the same objects, each under its own identifiers. */
    ghost predicate Valid()
      reads this
    {
      && (forall id :: id in byInvocation ==> byInvocation[id].invocation == id)
      && (forall k :: k in byLogicalKey ==>
            && byLogicalKey[k].invocation in byInvocation && byInvocation[byLogicalKey[k].invocation] == byLogicalKey[k])
    }

    ghost function Contents(): P.Contents
      reads this, byInvocation.Values
    {
      P.Contents(map k | k in byLogicalKey :: byLogicalKey[k].invocation, order,
                 map id | id in byInvocation :: byInvocation[id].Value(), ledger, committedArtifacts, safeTasks)
    }

    /** `reserve` under a key not seen before. */
    method Insert(q: P.Request) returns (record: InvocationRecord)
      requires Valid() && q.invocation !in byInvocation
      modifies this
      ensures Valid() && Contents() == P.Reserved(old(Contents()), q)
      ensures q.invocation in Contents().records && record.Value() == Contents().records[q.invocation]
      ensures fresh(record) && q.invocation in byInvocation && byInvocation == old(byInvocation)[q.invocation := record]
    {
      record := new InvocationRecord(q);
      byLogicalKey := byLogicalKey[q.logicalKey := record];
      byInvocation := byInvocation[q.invocation := record];
      order := order + [q.invocation];
      ledger := ledger.(reservations := ledger.reservations + |record.reservationIds|);
      InsertedKeys(record);
      InsertedRecords(record);
    }

    twostate lemma InsertedKeys(new record: InvocationRecord)
      requires old(Valid()) && record.invocation !in old(byInvocation)
      requires byInvocation == old(byInvocation)[record.invocation := record]
      requires byLogicalKey == old(byLogicalKey)[record.logicalKey := record]
      ensures Valid()
      ensures Contents().keys == old(Contents()).keys[record.logicalKey := record.invocation]
    {
    }

    twostate lemma InsertedRecords(new record: InvocationRecord)
      requires record.invocation !in old(byInvocation)
      requires byInvocation == old(byInvocation)[record.invocation := record]
      requires forall r :: r in old(byInvocation).Values ==> unchanged(r)
      ensures Contents().records == old(Contents()).records[record.invocation := record.Value()]
    {
      forall other | other in old(byInvocation)
        ensures byInvocation[other].Value() == old(byInvocation[other].Value())
      {
        assert old(byInvocation)[other] in old(byInvocation).Values;
      }
    }

    /** `reserve`, up to creating a record. */
    method Lookup(q: P.Request) returns (found: P.Reservation)
      requires Valid()
      ensures found == P.Found(Contents(), q)
    {
      if q.logicalKey !in byLogicalKey {
        return P.Created;
      }
      var existing := byLogicalKey[q.logicalKey];
      assert Contents().keys[q.logicalKey] == existing.invocation;
      assert Contents().records[existing.invocation] == existing.Value();
      if existing.requestDigest != q.digest {
        return P.Collision(existing.Value());
      }
      if existing.state == P.ReconciliationRequired {
        return P.ToReconcile(existing.Value());
      }
      return P.Duplicate(existing.Value());
    }

    /** What is known once one record has changed and the ledger with it. */
    twostate predicate Changed(after: Option<P.Contents>)
      reads this, byInvocation.Values
    {
      && Valid() && byInvocation == old(byInvocation)
      && Contents() == (if after.Some? then after.value else old(Contents()))
    }

    twostate lemma OneRecord(id: P.Id)
      requires old(Valid()) && id in byInvocation
      requires byInvocation == old(byInvocation) && byLogicalKey == old(byLogicalKey)
      requires forall r :: r in byInvocation.Values && r != byInvocation[id] ==> unchanged(r)
      ensures Valid()
      ensures Contents().keys == old(Contents()).keys
      ensures Contents().records == old(Contents()).records[id := byInvocation[id].Value()]
    {
      forall other | other in byInvocation && other != id
        ensures byInvocation[other].Value() == old(byInvocation[other].Value())
      {
        assert byInvocation[other] in byInvocation.Values;
      }
    }

    method BeginDispatch(id: P.Id) returns (ok: bool)
      requires Valid()
      modifies this, byInvocation.Values
      ensures ok == P.BeginDispatch(old(Contents()), id).Some?
      ensures Changed(P.BeginDispatch(old(Contents()), id))
    {
      if id !in byInvocation || byInvocation[id].state != P.Ready {
        return false;
      }
      var record := byInvocation[id];
      record.state := P.Dispatching;
      record.dispatchPhase := P.WasDispatched;
      ledger := ledger.(providerCalls := ledger.providerCalls + 1);
      OneRecord(id);
      return true;
    }

    method RecordResult(id: P.Id, result: P.Result) returns (ok: bool)
      requires Valid()
      modifies this, byInvocation.Values
      ensures ok == P.RecordResult(old(Contents()), id, result).Some?
      ensures Changed(P.RecordResult(old(Contents()), id, result))
    {
      if id !in byInvocation {
        return false;
      }
      var record := byInvocation[id];
      record.result := Some(result);
      if record.state == P.Canceled {
        record.dispatchPhase := P.Uncertain;
      } else if result.status == P.ResultUnknown {
        record.state := P.ReconciliationRequired;
        record.dispatchPhase := P.PhaseIn(result.failure);
      } else if result.status == P.ResultFailed {
        record.state := P.Failed;
      } else if result.status == P.ResultCanceled {
        record.state := P.Canceled;
      } else {
        record.state := P.Dispatched;
      }
      OneRecord(id);
      return true;
    }

    method Cancel(id: P.Id) returns (ok: bool)
      requires Valid()
      modifies this, byInvocation.Values
      ensures ok == P.Cancel(old(Contents()), id).Some?
      ensures Changed(P.Cancel(old(Contents()), id))
    {
      if id !in byInvocation {
        return false;
      }
      var record := byInvocation[id];
      record.cancellationGeneration := record.cancellationGeneration + 1;
      record.state := P.Canceled;
      OneRecord(id);
      return true;
    }

    method LoseLease(id: P.Id) returns (ok: bool)
      requires Valid()
      modifies this, byInvocation.Values
      ensures ok == P.LoseLease(old(Contents()), id).Some?
      ensures Changed(P.LoseLease(old(Contents()), id))
    {
      if id !in byInvocation {
        return false;
      }
      byInvocation[id].leaseGeneration := byInvocation[id].leaseGeneration + 1;
      OneRecord(id);
      return true;
    }

    method MarkTerminal(id: P.Id) returns (ok: bool)
      requires Valid()
      modifies this, byInvocation.Values
      ensures ok == P.MarkTerminal(old(Contents()), id).Some?
      ensures Changed(P.MarkTerminal(old(Contents()), id))
    {
      if id !in byInvocation {
        return false;
      }
      byInvocation[id].terminalGeneration := byInvocation[id].terminalGeneration + 1;
      OneRecord(id);
      return true;
    }

    method MarkValidationFailed(id: P.Id) returns (ok: bool)
      requires Valid()
      modifies this, byInvocation.Values
      ensures ok == P.MarkValidationFailed(old(Contents()), id).Some?
      ensures Changed(P.MarkValidationFailed(old(Contents()), id))
    {
      if id !in byInvocation {
        return false;
      }
      byInvocation[id].state := P.Failed;
      OneRecord(id);
      return true;
    }

    /** `scheduleRetry`: whether the record is known, and whether a retry was scheduled. */
    method ScheduleRetry(id: P.Id, next: Option<P.Instant>, deadline: Option<P.Instant>, budget: int, maximum: int)
      returns (ok: bool, scheduled: bool)
      requires Valid()
      modifies this, byInvocation.Values
      ensures ok == P.ScheduleRetry(old(Contents()), id, next, deadline, budget, maximum).Some?
      ensures scheduled == (id in old(Contents()).records
                            && P.RetryAllowed(old(Contents()).records[id], next, deadline, budget, maximum))
      ensures Changed(P.ScheduleRetry(old(Contents()), id, next, deadline, budget, maximum))
    {
      if id !in byInvocation {
        return false, false;
      }
      var record := byInvocation[id];
      if next.None? || deadline.None? || next.value > deadline.value {
        return true, false;
      }
      if budget <= 0 || record.retryCount >= maximum {
        return true, false;
      }
      record.retryCount := record.retryCount + 1;
      record.nextAttemptAt := next;
      record.state := P.RetryWait;
      ledger := ledger.(retrySchedules := ledger.retrySchedules + 1);
      OneRecord(id);
      return true, true;
    }

    method BeginRepair(id: P.Id, repair: P.Id, reservation: P.Id) returns (ok: bool)
      requires Valid()
      modifies this, byInvocation.Values
      ensures ok == P.BeginRepair(old(Contents()), id, repair, reservation).Some?
      ensures Changed(P.BeginRepair(old(Contents()), id, repair, reservation))
    {
      if id !in byInvocation {
        return false;
      }
      var record := byInvocation[id];
      if record.repairCount >= 1 || repair == id || reservation in record.reservationIds {
        return false;
      }
      record.repairCount := record.repairCount + 1;
      ledger := ledger.(repairInvocations := ledger.repairInvocations + 1);
      OneRecord(id);
      return true;
    }

    method MarkReconciled(id: P.Id, result: Option<P.Result>) returns (ok: bool)
      requires Valid()
      modifies this, byInvocation.Values
      ensures ok == P.MarkReconciled(old(Contents()), id, result).Some?
      ensures Changed(P.MarkReconciled(old(Contents()), id, result))
    {
      if id !in byInvocation || byInvocation[id].state != P.ReconciliationRequired {
        return false;
      }
      var record := byInvocation[id];
      ledger := ledger.(reconciliations := ledger.reconciliations + 1);
      if result.None? {
        record.state := P.Blocked;
        OneRecord(id);
        return true;
      }
      record.result := result;
      if result.value.status == P.ResultSucceeded {
        record.state := P.Dispatched;
      } else if result.value.status == P.ResultUnknown {
        record.state := P.ReconciliationRequired;
        record.dispatchPhase := P.PhaseIn(result.value.failure);
      } else {
        record.state := P.Blocked;
      }
      OneRecord(id);
      return true;
    }

    method MarkReconciliationRequired(id: P.Id) returns (ok: bool)
      requires Valid()
      modifies this, byInvocation.Values
      ensures ok == P.MarkReconciliationRequired(old(Contents()), id).Some?
      ensures Changed(P.MarkReconciliationRequired(old(Contents()), id))
    {
      if id !in byInvocation {
        return false;
      }
      byInvocation[id].state := P.ReconciliationRequired;
      byInvocation[id].dispatchPhase := P.Uncertain;
      OneRecord(id);
      return true;
    }

    /** `commitCandidate`, with the generations its caller started from. */
    method CommitCandidate(id: P.Id, lease: nat, cancellation: nat, terminal: nat, candidate: P.Candidate)
      returns (committed: bool)
      requires Valid() && id in byInvocation
      modifies this, byInvocation.Values
      ensures committed == P.MayCommit(old(Contents()), id, lease, cancellation, terminal)
      ensures Changed(if committed then Some(P.Committed(old(Contents()), id, candidate)) else None)
    {
      var record := byInvocation[id];
      if record.leaseGeneration != lease || record.cancellationGeneration != cancellation
         || record.terminalGeneration != terminal || record.state != P.Dispatched {
        return false;
      }
      record.state := P.Succeeded;
      record.committedDigest := Some(candidate);
      ledger := ledger.(candidateCommits := ledger.candidateCommits + 1, artifactEffects := ledger.artifactEffects + 1,
                        taskEffects := ledger.taskEffects + 1, stateEffects := ledger.stateEffects + 1);
      committedArtifacts := committedArtifacts + [(id, candidate)];
      safeTasks := safeTasks + [(id, candidate)];
      OneRecord(id);
      hide Valid;
      assert record.Value() == old(Contents()).records[id].(state := P.Succeeded, committed := Some(candidate));
      return true;
    }
  }
}
