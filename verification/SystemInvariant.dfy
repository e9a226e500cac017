/** The rows of a run and its workers agree, whatever the interleaving. */
module SystemInvariant {
  import opened Common
  import opened Rows
  import opened Transactions
  import opened Invariants
  import opened Preservation
  import opened Monotone
  import opened TransactionFacts
  import opened Processes

  /** `context` is the snapshot the attempt's frozen manifest names. */
  predicate FrozenContext(db: RunTables, c: Claim, context: Snapshot) {
    context in db.snapshots && context.id == c.manifest.contextSnapshot
  }

  /** Where a worker stands decides whether its attempt has spent the invocation. */
  predicate PhaseInv(db: RunTables, calls: seq<ProviderCall>, spentBy: Option<nat>, p: Phase) {
    var mine := spentBy == Some(p.claim.attemptNumber);
    match p
    case Claimed(_) => !mine
    case ContextRead(c, context) => !mine && FrozenContext(db, c, context)
    case LeaseLost(_) => !mine
    case LeaseConfirmed(c, context) => !mine && FrozenContext(db, c, context)
    case InvocationRefused(_) => !mine
    case InvocationBegun(c, context) => mine && calls == [] && FrozenContext(db, c, context)
    case Returned(_, result) => mine && calls != [] && calls[0].reply == Some(result)
    case Raised(_) => true
  }

  predicate WorkerInv(db: RunTables, calls: seq<ProviderCall>, spentBy: Option<nat>, a: Id, p: Phase) {
    && p.claim.attempt == a
    && Issued(db, p.claim)
    && PhaseInv(db, calls, spentBy, p)
  }

  /** The provider is called at most once for the task, and only on behalf of the attempt that
      spent the invocation. */
  predicate SpendInv(db: RunTables, calls: seq<ProviderCall>, spentBy: Option<nat>) {
    && (spentBy.Some? <==> db.effect.Some? && db.effect.value.invocationCount == 1)
    && (spentBy.Some? ==> 1 <= spentBy.value <= |db.attempts|)
    && |calls| <= 1
    && (calls != [] ==>
          && spentBy.Some? && db.task.Some?
          && calls[0].attempt == db.attempts[spentBy.value - 1].id
          && calls[0].key == EffectKey(db.task.value.id, db.task.value.kind)
          && calls[0].context in db.snapshots
          && calls[0].context.id == db.attempts[spentBy.value - 1].manifest.contextSnapshot)
    && (HasSucceeded(db) ==> calls != [] && spentBy == Some(|db.attempts|) && Published(db, calls[0].reply))
  }

  /** The brief, and the effect if it says so, hold what the provider returned. */
  predicate Published(db: RunTables, reply: Option<ModelResult>) {
    && (forall a :: a in db.artifacts ==> Some(a.content) == reply)
    && (db.effect.Some? && db.effect.value.status.EffectSucceeded? ==> db.effect.value.output == reply)
  }

  predicate WorkersInv(s: RunSystem) {
    forall a :: a in s.workers ==> WorkerInv(s.db, s.calls, s.spentBy, a, s.workers[a])
  }

  predicate SystemInv(s: RunSystem, n: Id) {
    TablesInv(s.db, n) && SpendInv(s.db, s.calls, s.spentBy) && WorkersInv(s)
  }

  /** A run of the system only advances: rows as `Advances` says, the provider's log and the
      attempt that spent the invocation never taken back. */
  predicate SystemAdvances(s: RunSystem, s': RunSystem) {
    && Advances(s.db, s'.db)
    && s.calls <= s'.calls
    && (s.spentBy.Some? ==> s'.spentBy == s.spentBy)
  }

  lemma SystemAdvancesTransitive(a: RunSystem, b: RunSystem, c: RunSystem)
    requires SystemAdvances(a, b) && SystemAdvances(b, c)
    ensures SystemAdvances(a, c)
  {
    AdvancesTransitive(a.db, b.db, c.db);
  }

  lemma IssuedKept(db: RunTables, db': RunTables, c: Claim)
    requires Issued(db, c) && Advances(db, db')
    ensures Issued(db', c)
  {
  }

  /** A worker is untouched by what others commit, as long as the invocation is not spent meanwhile. */
  lemma WorkerKept(s: RunSystem, s': RunSystem, a: Id, p: Phase)
    requires WorkerInv(s.db, s.calls, s.spentBy, a, p)
    requires Advances(s.db, s'.db) && s'.calls == s.calls && s'.spentBy == s.spentBy
    ensures WorkerInv(s'.db, s'.calls, s'.spentBy, a, p)
  {
    IssuedKept(s.db, s'.db, p.claim);
    assert forall x :: x in s.db.snapshots ==> x in s'.db.snapshots;
  }

  lemma WorkersKept(s: RunSystem, s': RunSystem)
    requires WorkersInv(s)
    requires Advances(s.db, s'.db) && s'.calls == s.calls && s'.spentBy == s.spentBy
    requires forall a :: a in s'.workers ==> a in s.workers && s'.workers[a] == s.workers[a]
    ensures WorkersInv(s')
  {
    forall a | a in s'.workers ensures WorkerInv(s'.db, s'.calls, s'.spentBy, a, s'.workers[a]) {
      WorkerKept(s, s', a, s.workers[a]);
    }
  }

  lemma SucceededIsSettled(db: RunTables, n: Id)
    requires TablesInv(db, n)
    ensures HasSucceeded(db) ==> db.effect.Some? && !db.effect.value.status.EffectRunning?
  {
    hide LogInv, RunInv, Coupled, DistinctIds, LinksInv, ResolvedInv, LineageInv, ArtifactInv;
  }

  /** Transactions that neither spend the invocation nor succeed leave the spending record alone. */
  lemma SpendKept(db: RunTables, db': RunTables, calls: seq<ProviderCall>, spentBy: Option<nat>)
    requires SpendInv(db, calls, spentBy) && Advances(db, db')
    requires db'.effect.Some? && db'.effect.value.invocationCount == 1
             <==> db.effect.Some? && db.effect.value.invocationCount == 1
    requires HasSucceeded(db') ==> HasSucceeded(db) && |db'.attempts| == |db.attempts|
    requires db'.artifacts == db.artifacts
    requires HasSucceeded(db) ==> db.effect.Some? && !db.effect.value.status.EffectRunning?
    ensures SpendInv(db', calls, spentBy)
  {
  }
}
