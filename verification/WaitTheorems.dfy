/** The wait protocol and the context a run works from, after any script. */
module WaitTheorems {
  import opened Common
  import opened Rows
  import opened Transactions
  import opened Invariants
  import opened Preservation
  import opened Monotone
  import opened Processes
  import opened SystemInvariant
  import opened SystemSteps
  import opened ControlPlane
  import opened Theorems

  // ---------------------------------------------------------------- open waits

  lemma TaskRows(script: Script, k: Id)
    requires k in Reach(script).runs && Reach(script).runs[k].db.task.Some?
    ensures var db := Reach(script).runs[k].db;
            && Coupled(db.run, db.task.value) && RunInv(db.run)
            && LineageInv(db.run, db.task.value, db.waits, db.answers, db.snapshots)
            && DistinctIds(db.waits, db.answers, db.snapshots, db.snapshotAnswers, Reach(script).nextId)
  {
    hide After, LogInv, DistinctIds, LinksInv, ResolvedInv, LineageInv, Coupled, RunInv;
    RunReach(script, k);
  }

  lemma TasklessRows(script: Script, k: Id)
    requires k in Reach(script).runs && Reach(script).runs[k].db.task.None?
    ensures TasklessInv(Reach(script).runs[k].db)
  {
    hide After, LogInv, DistinctIds, LinksInv, ResolvedInv, TasklessInv, RunInv;
    RunReach(script, k);
  }

  /** An open wait still matches the run it will resume, and is the only one. */
  lemma OpenWaitMatchesRun(script: Script, k: Id, i: nat)
    requires k in Reach(script).runs
    requires var db := Reach(script).runs[k].db; i < |db.waits| && db.waits[i].status.Open?
    ensures var db := Reach(script).runs[k].db;
            && db.run.state == AwaitingFounderInput
            && db.run.rowVersion == db.waits[i].expectedRunRowVersion
            && db.run.contextSnapshot == db.waits[i].contextSnapshot
            && db.task.Some? && db.task.value.state == AwaitingInput && db.task.value.lease.None?
            && (forall j :: 0 <= j < |db.waits| && j != i ==> !db.waits[j].status.Open?)
  {
    hide After;
    if Reach(script).runs[k].db.task.Some? {
      TaskRows(script, k);
    } else {
      TasklessRows(script, k);
    }
  }

  /** What a founder who read the i-th wait would send. */
  function StoredAnswer(db: RunTables, i: nat, note: string): AnswerInput
    requires i < |db.waits|
  {
    var w := db.waits[i];
    AnswerInput(db.founder, w.id, w.request, w.requestVersion, w.workflowVersion, w.expectedRunRowVersion,
                w.schemaId, w.schemaVersion, "CONTINUE", note)
  }

  lemma StoredAnswerCommits(script: Script, k: Id, i: nat, now: Instant, base: Id, note: string)
    requires k in Reach(script).runs
    requires var db := Reach(script).runs[k].db; i < |db.waits| && db.waits[i].status.Open?
    requires 1 <= |note| <= 200
    ensures var db := Reach(script).runs[k].db;
            AnswerWait(db, now, base, StoredAnswer(db, i, note)).Committed?
  {
    hide After, AfterAnswer;
    var db := Reach(script).runs[k].db;
    OpenWaitMatchesRun(script, k, i);
    TaskRows(script, k);
    OpenIsLast(db, i, Reach(script).nextId);
    assert db.snapshots[i] in db.snapshots;
  }

  lemma OpenIsLast(db: RunTables, i: nat, n: Id)
    requires db.task.Some? && LineageInv(db.run, db.task.value, db.waits, db.answers, db.snapshots)
    requires DistinctIds(db.waits, db.answers, db.snapshots, db.snapshotAnswers, n)
    requires RunInv(db.run) && Coupled(db.run, db.task.value)
    requires i < |db.waits| && db.waits[i].status.Open?
    ensures i == |db.answers| && OpenFor(db.waits[i], db.run) && !db.run.cancellationRequested
    ensures db.waits[i].task == db.task.value.id && db.waits[i].contextSnapshot == db.snapshots[i].id
    ensures FindWait(db.waits, db.waits[i].id) == Some(i)
  {
    assert db.waits[i] in db.waits;
  }

  /** An answer commits exactly if it repeats what one open wait has stored. */
  lemma AnswerCommitsIff(script: Script, k: Id, now: Instant, base: Id, input: AnswerInput)
    requires k in Reach(script).runs
    ensures var db := Reach(script).runs[k].db;
            AnswerWait(db, now, base, input).Committed? <==>
              (1 <= |input.note| <= 200
               && exists i :: 0 <= i < |db.waits| && db.waits[i].status.Open? && input == StoredAnswer(db, i, input.note))
  {
    hide After, AfterAnswer, LineageInv, DistinctIds, LinksInv, ResolvedInv, Coupled;
    var db := Reach(script).runs[k].db;
    if 1 <= |input.note| <= 200
       && exists i :: 0 <= i < |db.waits| && db.waits[i].status.Open? && input == StoredAnswer(db, i, input.note) {
      var i :| 0 <= i < |db.waits| && db.waits[i].status.Open? && input == StoredAnswer(db, i, input.note);
      StoredAnswerCommits(script, k, i, now, base, input.note);
    }
    if AnswerWait(db, now, base, input).Committed? {
      var i := FindWait(db.waits, input.wait).value;
      assert input == StoredAnswer(db, i, input.note);
    }
  }

  /** The k-th answer belongs to the k-th wait, and the answered waits are exactly the resolved ones. */
  lemma AnswersAreResolvedWaits(script: Script, k: Id)
    requires k in Reach(script).runs
    ensures var db := Reach(script).runs[k].db;
            && |db.answers| <= |db.waits|
            && (forall i :: 0 <= i < |db.waits| ==> (db.waits[i].status.Resolved? <==> i < |db.answers|))
            && (forall i :: 0 <= i < |db.answers| ==> Answers(db.answers[i], db.waits[i]))
            && (forall i, j :: 0 <= i < j < |db.answers| ==> db.answers[i].wait != db.answers[j].wait)
  {
    hide After, Coupled;
    if Reach(script).runs[k].db.task.Some? {
      TaskRows(script, k);
    } else {
      TasklessRows(script, k);
    }
  }

  // ---------------------------------------------------------------- context lineage

  function AnswerIds(answers: seq<Answer>): (r: seq<Id>)
    ensures |r| == |answers|
  {
    seq(|answers|, i requires 0 <= i < |answers| => answers[i].id)
  }

  lemma {:induction false} SnapshotLists(answers: seq<Answer>, snapshots: seq<Snapshot>, j: nat)
    requires |snapshots| == |answers| + 1 && j <= |answers|
    requires snapshots[0].answerIds == []
    requires forall i :: 0 <= i < |answers| ==> snapshots[i + 1].answerIds == snapshots[i].answerIds + [answers[i].id]
    ensures snapshots[j].answerIds == AnswerIds(answers[..j])
  {
    if j > 0 {
      SnapshotLists(answers, snapshots, j - 1);
      assert snapshots[j].answerIds == snapshots[j - 1].answerIds + [answers[j - 1].id];
    }
  }

  /** The j-th snapshot lists the first j answers, so the run's snapshot lists them all and every
      earlier one a prefix; profile and goal are the same in all of them. */
  lemma SnapshotsListAnswers(script: Script, k: Id, j: nat)
    requires k in Reach(script).runs && j < |Reach(script).runs[k].db.snapshots|
    ensures var db := Reach(script).runs[k].db;
            && |db.snapshots| == |db.answers| + 1
            && db.snapshots[j].answerIds == AnswerIds(db.answers[..j])
            && db.run.contextSnapshot == db.snapshots[|db.answers|].id
            && db.snapshots[j].profileVersion == db.snapshots[0].profileVersion
            && db.snapshots[j].goalVersion == db.snapshots[0].goalVersion
            && (db.task.Some? ==>
                  && db.task.value.manifest.contextSnapshot == db.run.contextSnapshot
                  && db.task.value.manifest.answerIds == AnswerIds(db.answers)
                  && db.task.value.manifest.profileVersion == db.snapshots[0].profileVersion
                  && db.task.value.manifest.goalVersion == db.snapshots[0].goalVersion)
  {
    hide After, Coupled, DistinctIds, LinksInv, ResolvedInv;
    var db := Reach(script).runs[k].db;
    if db.task.Some? {
      TaskRows(script, k);
      SnapshotLists(db.answers, db.snapshots, j);
      SnapshotLists(db.answers, db.snapshots, |db.answers|);
      assert db.answers[..|db.answers|] == db.answers;
    } else {
      Untasked(script, k);
    }
  }

  lemma Untasked(script: Script, k: Id)
    requires k in Reach(script).runs && Reach(script).runs[k].db.task.None?
    ensures var db := Reach(script).runs[k].db;
            && |db.snapshots| == 1 && db.answers == [] && db.snapshots[0].answerIds == []
            && db.run.contextSnapshot == db.snapshots[0].id
  {
    hide After;
    TasklessRows(script, k);
  }

  /** From the first claim on the run's snapshot is fixed for good; every attempt's manifest names
      it, and so did whatever the provider was told. */
  lemma ContextIsFrozen(script: Script, more: Script, k: Id)
    requires k in Reach(script).runs && Reach(script).runs[k].db.attempts != []
    ensures k in Reach(script + more).runs
    ensures var db, s' := Reach(script).runs[k].db, Reach(script + more).runs[k];
            && s'.db.run.contextSnapshot == db.run.contextSnapshot && s'.db.snapshots == db.snapshots
            && LoadContext(db).Some? && LoadContext(s'.db) == LoadContext(db)
            && (forall i :: 0 <= i < |s'.db.attempts| ==> s'.db.attempts[i].manifest.contextSnapshot == db.run.contextSnapshot)
            && (forall c :: c in s'.calls ==> Some(c.context) == LoadContext(db))
  {
    hide After, PhaseInv;
    RunLater(script, more, k);
    AttemptsNameContext(script + more, k);
    CallsReadContext(script + more, k);
  }

  lemma AttemptsNameContext(script: Script, k: Id)
    requires k in Reach(script).runs && Reach(script).runs[k].db.attempts != []
    ensures var db := Reach(script).runs[k].db;
            && db.task.Some?
            && (forall i :: 0 <= i < |db.attempts| ==> db.attempts[i].manifest.contextSnapshot == db.run.contextSnapshot)
            && (forall i, j :: 0 <= i < j < |db.snapshots| ==> db.snapshots[i].id != db.snapshots[j].id)
            && LoadContext(db).Some?
  {
    hide After, LogInv, RunInv, Coupled, EffectInv, ArtifactInv, SpendInv, WorkersInv;
    RunReach(script, k);
    var db := Reach(script).runs[k].db;
    assert db.snapshots[|db.answers|] in db.snapshots;
  }

  lemma CallsReadContext(script: Script, k: Id)
    requires k in Reach(script).runs && Reach(script).runs[k].db.attempts != []
    ensures var s := Reach(script).runs[k];
            forall c :: c in s.calls ==> Some(c.context) == LoadContext(s.db)
  {
    hide After, LogInv, RunInv, Coupled, EffectInv, ArtifactInv, LineageInv, WorkersInv;
    RunReach(script, k);
    AttemptsNameContext(script, k);
    var s := Reach(script).runs[k];
    forall c | c in s.calls ensures Some(c.context) == LoadContext(s.db) {
      assert c == s.calls[0];
      SnapshotById(s.db.snapshots, c.context);
    }
  }

  lemma SnapshotById(snapshots: seq<Snapshot>, s: Snapshot)
    requires s in snapshots
    requires forall i, j :: 0 <= i < j < |snapshots| ==> snapshots[i].id != snapshots[j].id
    ensures FindSnapshot(snapshots, s.id) == Some(s)
  {
  }

  /** `loadContext` never raises for a worker: its claim froze the context it will read. */
  lemma LoadContextNeverRaises(script: Script, k: Id, a: Id)
    requires k in Reach(script).runs && a in Reach(script).runs[k].workers
    ensures var s := Reach(script).runs[k];
            && LoadContext(s.db).Some?
            && LoadContext(s.db).value.id == s.workers[a].claim.manifest.contextSnapshot
  {
    hide After, TablesInv, SpendInv, PhaseInv;
    RunReach(script, k);
    var s := Reach(script).runs[k];
    assert WorkerInv(s.db, s.calls, s.spentBy, a, s.workers[a]);
    ReadContext(s.db, Reach(script).nextId, s.workers[a].claim);
  }
}
