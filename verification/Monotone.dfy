/** What no transaction ever takes back. `Advances` is a preorder, so it holds between any state and
    every later one. */
module Monotone {
  import opened Common
  import opened Rows
  import opened Transactions
  import opened Invariants
  import opened Preservation

  /** Attempts only get added; what a claim froze about an attempt stays. */
  predicate AttemptsGrow(a: seq<Attempt>, b: seq<Attempt>) {
    && |a| <= |b|
    && (forall i :: 0 <= i < |a| ==>
          && b[i].id == a[i].id && b[i].number == a[i].number
          && b[i].leaseToken == a[i].leaseToken && b[i].manifest == a[i].manifest)
  }

  /** An effect only moves from RUNNING to SUCCEEDED or from RUNNING to UNKNOWN. */
  predicate EffectAdvances(a: Option<Effect>, b: Option<Effect>) {
    a.Some? ==>
      && b.Some? && b.value.key == a.value.key && b.value.attempt == a.value.attempt
      && a.value.invocationCount <= b.value.invocationCount
      && (a.value.status.EffectRunning? || b.value == a.value)
  }

  predicate TaskAdvances(a: Option<Task>, b: Option<Task>) {
    && (a.Some? <==> b.Some?)
    && (a.Some? ==>
          && b.value.id == a.value.id && b.value.kind == a.value.kind
          && a.value.attemptCount <= b.value.attemptCount
          && (a.value.state == Succeeded ==> b.value == a.value)
          && (a.value.state == TaskBlocked ==> b.value.state in {TaskBlocked, TaskCanceled})
          && (a.value.state == TaskCanceled ==> b.value.state == TaskCanceled))
  }

  predicate HasSucceeded(db: RunTables) {
    db.task.Some? && db.task.value.state == Succeeded
  }

  /** A change a reader can see raises the run's version, and a terminal run does not change at all. */
  predicate RunAdvances(a: RunTables, b: RunTables) {
    && b.run.workflowVersion == a.run.workflowVersion
    && a.run.rowVersion <= b.run.rowVersion
    && (b.run != a.run ==> a.run.rowVersion < b.run.rowVersion)
    && (IsTerminal(a.run.state) ==>
          && b.run == a.run && b.artifacts == a.artifacts
          && |b.attempts| == |a.attempts| && (HasSucceeded(b) <==> HasSucceeded(a)))
    && (a.attempts != [] ==> b.run.contextSnapshot == a.run.contextSnapshot && b.snapshots == a.snapshots)
  }

  predicate Advances(a: RunTables, b: RunTables) {
    && AttemptsGrow(a.attempts, b.attempts)
    && EffectAdvances(a.effect, b.effect)
    && TaskAdvances(a.task, b.task)
    && RunAdvances(a, b)
    && a.snapshots <= b.snapshots
    && a.answers <= b.answers
    && a.artifacts <= b.artifacts
    && a.events <= b.events
    && |a.waits| <= |b.waits|
  }

  lemma AdvancesTransitive(a: RunTables, b: RunTables, c: RunTables)
    requires Advances(a, b) && Advances(b, c)
    ensures Advances(a, c)
  {
  }

  lemma ClaimAdvances(db: RunTables, n: Id, now: Instant, base: Id, worker: string, leaseSeconds: nat)
    requires TablesInv(db, n) && Claimable(db, now)
    ensures Advances(db, AfterClaim(db, now, base, worker, leaseSeconds))
  {
  }

  lemma StaleAdvances(db: RunTables, c: Claim, cls: ResultClass, effect: Option<Effect>)
    requires effect == db.effect || effect == MarkUnknown(db.effect, c.effectKey)
    ensures Advances(db, Stale(db, c, cls, effect))
  {
  }

  lemma BlockAdvances(db: RunTables, n: Id, base: Id, c: Claim, status: AttemptStatus, effect: Option<Effect>, t: Task)
    requires TablesInv(db, n) && HoldsLease(db, c)
    requires t == db.task.value.(rowVersion := t.rowVersion)
    requires effect == db.effect || effect == MarkUnknown(db.effect, c.effectKey)
    ensures Advances(db, Blocked(db, base, c, status, effect, t))
  {
  }

  lemma CompleteAdvances(db: RunTables, base: Id, c: Claim, result: ModelResult)
    requires HoldsLease(db, c)
    ensures Advances(db, AfterCompletion(db, base, c, result))
  {
  }

  lemma OpenAdvances(db: RunTables, n: Id, base: Id)
    requires TablesInv(db, n) && db.task.Some? && db.run.state == Draft && db.task.value.state in {Queued, Ready}
    ensures Advances(db, AfterOpen(db, base))
  {
  }

  lemma AnswerAdvances(db: RunTables, n: Id, now: Instant, base: Id, at: nat, source: Snapshot, input: AnswerInput)
    requires TablesInv(db, n) && db.task.Some? && at < |db.waits|
    requires AnswerAllowed(db.waits[at], db.run, db.task.value, input)
    requires source in db.snapshots && source.id == db.waits[at].contextSnapshot
    ensures Advances(db, AfterAnswer(db, now, base, at, source, input.note))
  {
    OnlyTheLastIsOpen(db, n, at, source);
  }

  lemma CancelAdvances(db: RunTables, base: Id)
    requires !IsTerminal(db.run.state)
    ensures Advances(db, AfterCancel(db, base))
  {
  }

  lemma BeginAdvances(db: RunTables, c: Claim)
    ensures Advances(db, BeginInvocation(db, c))
  {
  }

  lemma ProbeAdvances(db: RunTables, base: Id, index: nat)
    ensures Advances(db, AppendProbe(db, base, index))
  {
  }
}
