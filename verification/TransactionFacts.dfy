/** Transaction by transaction: it keeps the invariant of the rows, and it only advances them. */
module TransactionFacts {
  import opened Common
  import opened Rows
  import opened Transactions
  import opened Invariants
  import opened Preservation
  import opened Monotone

  /** `after` follows `before` in a database whose ids so far are below `n`. */
  predicate Follows(before: RunTables, after: RunTables, n: Id) {
    TablesInv(after, n + IDS_PER_STEP) && Advances(before, after)
  }

  lemma Unchanged(db: RunTables, n: Id)
    requires TablesInv(db, n)
    ensures Follows(db, db, n)
  {
    hide LinksInv, ResolvedInv, LineageInv, EffectInv, ArtifactInv, Coupled;
    IdsGrow(db.waits, db.answers, db.snapshots, db.snapshotAnswers, n);
    if db.task.Some? {
      AttemptsKept(db.task.value, db.attempts, n);
    }
  }

  lemma Claiming(db: RunTables, n: Id, now: Instant, worker: string, leaseSeconds: nat)
    requires TablesInv(db, n)
    ensures Follows(db, ClaimTask(db, now, n, worker, leaseSeconds).0, n)
  {
    if Claimable(db, now) {
      ClaimInv(db, n, now, worker, leaseSeconds);
      ClaimAdvances(db, n, now, n, worker, leaseSeconds);
    } else {
      Unchanged(db, n);
    }
  }

  lemma Abandoning(db: RunTables, n: Id, c: Claim)
    requires TablesInv(db, n) && Issued(db, c)
    ensures Follows(db, AbandonAttempt(db, c), n)
  {
    assert AbandonAttempt(db, c) == Stale(db, c, StaleBeforeInvocation, db.effect);
    StaleInv(db, n, c, StaleBeforeInvocation, db.effect);
    StaleAdvances(db, c, StaleBeforeInvocation, db.effect);
  }

  lemma Beginning(db: RunTables, n: Id, c: Claim)
    requires TablesInv(db, n) && Issued(db, c)
    ensures Follows(db, BeginInvocation(db, c), n)
  {
    if MayInvoke(db, c) {
      BeginInv(db, n, c);
      BeginAdvances(db, c);
    } else {
      Unchanged(db, n);
    }
  }

  lemma Blocking(db: RunTables, n: Id, c: Claim)
    requires TablesInv(db, n) && Issued(db, c)
    ensures Follows(db, BlockUnknown(db, n, c), n)
  {
    if HoldsLease(db, c) {
      var t := db.task.value.(rowVersion := db.task.value.rowVersion + 1);
      BlockInv(db, n, c, Abandoned, db.effect, t);
      BlockAdvances(db, n, n, c, Abandoned, db.effect, t);
    } else {
      StaleInv(db, n, c, StaleReconciliation, db.effect);
      StaleAdvances(db, c, StaleReconciliation, db.effect);
    }
  }

  lemma Completing(db: RunTables, n: Id, c: Claim, result: ModelResult)
    requires TablesInv(db, n) && Issued(db, c)
    requires db.effect.Some? && db.effect.value.invocationCount == 1
    ensures Follows(db, CompleteTask(db, n, c, result), n)
  {
    if HoldsLease(db, c) {
      CompleteInv(db, n, c, result);
      CompleteAdvances(db, n, c, result);
    } else {
      StaleInv(db, n, c, StaleCompletion, MarkUnknown(db.effect, c.effectKey));
      StaleAdvances(db, c, StaleCompletion, MarkUnknown(db.effect, c.effectKey));
    }
  }

  lemma Failing(db: RunTables, n: Id, c: Claim)
    requires TablesInv(db, n) && Issued(db, c)
    ensures Follows(db, FailTask(db, n, c), n)
  {
    var effect := MarkUnknown(db.effect, c.effectKey);
    if HoldsLease(db, c) {
      BlockInv(db, n, c, AttemptFailed, effect, db.task.value);
      BlockAdvances(db, n, n, c, AttemptFailed, effect, db.task.value);
    } else {
      StaleInv(db, n, c, StaleFailure, effect);
      StaleAdvances(db, c, StaleFailure, effect);
    }
  }

  lemma Opening(db: RunTables, n: Id, input: OpenInput)
    requires TablesInv(db, n)
    ensures Follows(db, OpenWait(db, n, input).Rows(db), n)
  {
    if OpenWait(db, n, input).Committed? {
      OpenInv(db, n);
      OpenAdvances(db, n, n);
    } else {
      Unchanged(db, n);
    }
  }

  lemma Answering(db: RunTables, n: Id, now: Instant, input: AnswerInput)
    requires TablesInv(db, n)
    ensures Follows(db, AnswerWait(db, now, n, input).Rows(db), n)
  {
    var found := FindWait(db.waits, input.wait);
    if AnswerWait(db, now, n, input).Committed? {
      var source := FindSnapshot(db.snapshots, db.waits[found.value].contextSnapshot).value;
      AnswerInv(db, n, now, found.value, source, input);
      AnswerAdvances(db, n, now, n, found.value, source, input);
    } else {
      Unchanged(db, n);
    }
  }

  lemma Canceling(db: RunTables, n: Id)
    requires TablesInv(db, n)
    ensures Follows(db, CancelRun(db, n).Rows(db), n)
  {
    if IsTerminal(db.run.state) {
      Unchanged(db, n);
    } else {
      CancelInv(db, n);
      CancelAdvances(db, n);
    }
  }

  lemma Probing(db: RunTables, n: Id, index: nat)
    requires TablesInv(db, n)
    ensures Follows(db, AppendProbe(db, n, index), n)
  {
    ProbeInv(db, n, index);
    ProbeAdvances(db, n, index);
  }
}
