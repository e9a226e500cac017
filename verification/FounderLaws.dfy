/** When the founder's transactions take effect on a reachable run, which fault the others raise, and
    the rows they leave, without the functions that compute them. */
module FounderLaws {
  import opened Common
  import opened Rows
  import opened Transactions
  import opened Invariants
  import opened Preservation
  import opened Processes
  import opened SystemInvariant
  import opened ControlPlane
  import opened Theorems
  import opened WaitTheorems

  lemma RowsReached(script: Script, k: Id)
    requires k in Reach(script).runs
    ensures TablesInv(Reach(script).runs[k].db, Reach(script).nextId)
  {
    hide After, TablesInv, SpendInv, WorkersInv;
    RunReach(script, k);
  }

  // ---------------------------------------------------------------- opening a wait

  /** An opened wait stops a draft run at the version it records, and takes the task off the queue. */
  predicate OpenedRows(db: RunTables, db': RunTables, w: Wait) {
    && db.task.Some? && |db'.events| == |db.events| + 1
    && var t, id := db.task.value, db'.events[|db.events|].id;
       && w == Wait(w.id, t.id, db.run.workflowVersion, w.request, 1, AwaitingFounderInput, db.run.rowVersion + 1, Draft,
                    db.run.contextSnapshot, "durable-wait-response", "1.0", Open, None, None)
       && db' == db.(
            task := Some(t.(state := AwaitingInput, lease := None, rowVersion := t.rowVersion + 1)),
            run := db.run.(state := AwaitingFounderInput, rowVersion := db.run.rowVersion + 1),
            waits := db.waits + [w],
            nextSequence := db.nextSequence + 1,
            events := db.events + [Event(id, db.nextSequence,
                        InputRequested(w.id, w.request, db.run.workflowVersion, AwaitingFounderInput,
                                       db.run.rowVersion + 1, db.run.contextSnapshot))])
  }

  /** A wait opens exactly on the founder's draft run at the version the founder saw; the task of such
      a run can always wait. */
  lemma OpensIff(script: Script, k: Id, base: Id, input: OpenInput)
    requires k in Reach(script).runs
    ensures var db := Reach(script).runs[k].db;
            var mine := db.task.Some? && input.task == db.task.value.id;
            var seen := db.run.state == Draft && db.run.rowVersion == input.expectedRunVersion;
            match OpenWait(db, base, input)
            case Committed(db', w) =>
              input.actor == db.founder && mine && seen && !input.injectRollback && OpenedRows(db, db', w)
            case RolledBack(fault) =>
              fault == if input.actor != db.founder then NotFound
                       else if !mine then Conflict("task_missing")
                       else if !seen then Conflict("wait_open_precondition_failed")
                       else InjectedRollback
  {
    hide Reach, TablesInv;
    RowsReached(script, k);
    DraftsCanWait(Reach(script).runs[k].db, Reach(script).nextId);
  }

  lemma DraftsCanWait(db: RunTables, n: Id)
    requires TablesInv(db, n)
    ensures db.run.state == Draft && db.task.Some? ==> db.task.value.state in {Queued, Ready} && db.task.value.lease.None?
  {
    hide LogInv, LineageInv, DistinctIds, LinksInv, ResolvedInv, AttemptsInv, EffectInv, ArtifactInv;
  }

  /** The guards of `open` over any rows. */
  lemma OpenOverRows(db: RunTables, base: Id, input: OpenInput)
    ensures OpenWait(db, base, input).Committed? <==>
              && input.actor == db.founder && db.task.Some? && db.task.value.id == input.task
              && db.run.rowVersion == input.expectedRunVersion && db.run.state == Draft
              && (db.task.value.state == Queued || db.task.value.state == Ready) && db.task.value.lease.None?
              && !input.injectRollback
  {
  }

  // ---------------------------------------------------------------- answering it

  /** The rows of an accepted answer: the last wait is resolved by it, the run goes back to DRAFT on a
      snapshot that lists it last, and the task is due at once under that snapshot. */
  predicate AnsweredRows(db: RunTables, db': RunTables, now: Instant, note: string, id: Id) {
    var n := |db.answers|;
    && db.task.Some? && |db.waits| == n + 1 && |db.snapshots| == n + 1
    && |db'.snapshots| == n + 2 && |db'.events| == |db.events| + 1
    && var t, w, source, resumed, event := db.task.value, db.waits[n], db.snapshots[n], db'.snapshots[n + 1].id, db'.events[|db.events|].id;
       db' == db.(
         answers := db.answers + [Answer(id, w.id, w.request, 1, db.run.contextSnapshot, "durable-wait-response", "1.0", note)],
         snapshots := db.snapshots + [Snapshot(resumed, source.profileVersion, source.goalVersion, source.answerIds + [id])],
         snapshotAnswers := db.snapshotAnswers + [SnapshotAnswer(resumed, id, n)],
         task := Some(t.(state := Ready, availableAt := now, lease := None, rowVersion := t.rowVersion + 1,
                         manifest := t.manifest.(contextSnapshot := resumed, answerIds := source.answerIds + [id],
                                                 wait := Some(w.id)))),
         run := db.run.(state := Draft, contextSnapshot := resumed, rowVersion := db.run.rowVersion + 1),
         waits := db.waits[n := w.(status := Resolved, resolvedByEvent := Some(event), continuationTask := Some(t.id))],
         nextSequence := db.nextSequence + 1,
         events := db.events + [Event(event, db.nextSequence,
                     InputResolved(w.id, w.request, id, t.id, db.run.contextSnapshot, resumed, Draft))])
  }

  /** What an answer leaves if it commits, and the fault it raises if not; `AnswerCommitsIff` says when. */
  lemma AnswersLeave(script: Script, k: Id, now: Instant, base: Id, input: AnswerInput)
    requires k in Reach(script).runs
    ensures var db := Reach(script).runs[k].db;
            match AnswerWait(db, now, base, input)
            case Committed(db', id) => AnsweredRows(db, db', now, input.note, id)
            case RolledBack(fault) =>
              fault == if !(input.schemaId == "durable-wait-response" && input.schemaVersion == "1.0"
                            && input.decision == "CONTINUE" && 1 <= |input.note| <= 200) then ValidationFailed
                       else if input.actor != db.founder then NotFound
                       else if forall i :: 0 <= i < |db.waits| ==> db.waits[i].id != input.wait then Conflict("wait_missing")
                       else Conflict("wait_state_conflict")
  {
    hide Reach, TablesInv, AnsweredRows, AnswerWait;
    RowsReached(script, k);
    AnswerLaw(Reach(script).runs[k].db, Reach(script).nextId, now, base, input);
  }

  lemma AnswerLaw(db: RunTables, n: Id, now: Instant, base: Id, input: AnswerInput)
    requires TablesInv(db, n)
    ensures match AnswerWait(db, now, base, input)
            case Committed(db', id) => AnsweredRows(db, db', now, input.note, id)
            case RolledBack(fault) =>
              fault == if !(input.schemaId == "durable-wait-response" && input.schemaVersion == "1.0"
                            && input.decision == "CONTINUE" && 1 <= |input.note| <= 200) then ValidationFailed
                       else if input.actor != db.founder then NotFound
                       else if forall i :: 0 <= i < |db.waits| ==> db.waits[i].id != input.wait then Conflict("wait_missing")
                       else Conflict("wait_state_conflict")
  {
    hide TablesInv, AnsweredRows, AnswerAllowed, AfterAnswer;
    var found := FindWait(db.waits, input.wait);
    if found.Some? {
      assert db.waits[found.value] in db.waits;
      WaitRows(db, n, found.value);
      if AnswerAllowed(db.waits[found.value], db.run, db.task.value, input) {
        AnswerRowsLaw(db, n, now, base, found.value, input);
      }
    }
  }

  lemma WaitRows(db: RunTables, n: Id, i: nat)
    requires TablesInv(db, n) && i < |db.waits|
    ensures db.task.Some? && db.task.value.id == db.waits[i].task && FindSnapshot(db.snapshots, db.waits[i].contextSnapshot).Some?
    ensures db.task.Some? && LineageInv(db.run, db.task.value, db.waits, db.answers, db.snapshots)
  {
    hide LogInv, DistinctIds, LinksInv, ResolvedInv, AttemptsInv, EffectInv, ArtifactInv, Coupled;
    assert db.snapshots[i] in db.snapshots;
  }

  lemma AnswerRowsLaw(db: RunTables, n: Id, now: Instant, base: Id, at: nat, input: AnswerInput)
    requires TablesInv(db, n) && db.task.Some? && at < |db.waits|
    requires AnswerAllowed(db.waits[at], db.run, db.task.value, input)
    requires FindSnapshot(db.snapshots, db.waits[at].contextSnapshot).Some?
    ensures var source := FindSnapshot(db.snapshots, db.waits[at].contextSnapshot).value;
            AnsweredRows(db, AfterAnswer(db, now, base, at, source, input.note), now, input.note, base)
  {
    hide TablesInv, LineageInv;
    var source := FindSnapshot(db.snapshots, db.waits[at].contextSnapshot).value;
    OnlyTheLastIsOpen(db, n, at, source);
    WaitRows(db, n, at);
    Listed(db, at);
    LastWait(db.run, db.task.value, db.waits, db.answers, db.snapshots);
  }

  lemma Listed(db: RunTables, at: nat)
    requires db.task.Some? && LineageInv(db.run, db.task.value, db.waits, db.answers, db.snapshots) && at == |db.answers|
    ensures |db.snapshots[at].answerIds| == at
  {
    SnapshotLists(db.answers, db.snapshots, at);
  }

  lemma LastWait(run: Run, t: Task, waits: seq<Wait>, answers: seq<Answer>, snapshots: seq<Snapshot>)
    requires LineageInv(run, t, waits, answers, snapshots) && |waits| > |answers|
    ensures |waits| == |answers| + 1 && waits[|answers|].requestVersion == 1 && waits[|answers|].task == t.id
    ensures waits[|answers|].contextSnapshot == run.contextSnapshot && waits[|answers|].workflowVersion == run.workflowVersion
    ensures t.manifest.workflowVersion == run.workflowVersion
  {
  }

  /** The guard of `answer` over any rows. */
  lemma AnswerOverRows(w: Wait, run: Run, t: Task, input: AnswerInput)
    ensures AnswerAllowed(w, run, t, input) <==>
              && w.status == Open
              && (w.request, w.requestVersion, w.workflowVersion) == (input.request, input.requestVersion, input.workflowVersion)
              && (w.schemaId, w.schemaVersion) == (input.schemaId, input.schemaVersion)
              && (run.workflowVersion, run.state) == (w.workflowVersion, w.expectedRunState)
              && run.rowVersion == input.expectedRunVersion && run.rowVersion == w.expectedRunRowVersion
              && !run.cancellationRequested
              && t.state == AwaitingInput && t.lease == None
  {
  }

  // ---------------------------------------------------------------- canceling

  lemma TerminalStates(state: RunState)
    ensures IsTerminal(state) <==> state == RunCanceled || state == RunFailed || state == RunCompleted
  {
  }

  /** A canceled run: open waits, the unfinished task and the run itself are canceled together. */
  predicate CanceledRows(db: RunTables, db': RunTables) {
    && |db'.waits| == |db.waits| && |db'.events| == |db.events| + 1
    && (forall i :: 0 <= i < |db.waits| ==>
          db'.waits[i] == if db.waits[i].status == Open then db.waits[i].(status := WaitCanceled) else db.waits[i])
    && db' == db.(
         waits := db'.waits,
         task := if db.task.Some? && db.task.value.state != Succeeded
                 then Some(db.task.value.(state := TaskCanceled, lease := None, rowVersion := db.task.value.rowVersion + 1))
                 else db.task,
         run := db.run.(state := RunCanceled, stage := Terminal, cancellationRequested := true,
                        rowVersion := db.run.rowVersion + 1),
         nextSequence := db.nextSequence + 1,
         events := db.events + [Event(db'.events[|db.events|].id, db.nextSequence, CancelProbe(db.run.state, RunCanceled))])
  }

  /** Exactly a run that has not been canceled can be. */
  lemma CancelsIff(script: Script, k: Id, base: Id)
    requires k in Reach(script).runs
    ensures var db := Reach(script).runs[k].db;
            match CancelRun(db, base)
            case Committed(db', _) => db.run.state != RunCanceled && CanceledRows(db, db')
            case RolledBack(fault) => db.run.state == RunCanceled && fault == Conflict("run_terminal")
  {
    hide Reach, TablesInv;
    RowsReached(script, k);
    StatesReached(Reach(script).runs[k].db, Reach(script).nextId);
  }

  lemma StatesReached(db: RunTables, n: Id)
    requires TablesInv(db, n)
    ensures db.run.state != RunFailed && db.run.state != RunCompleted
    ensures db.task.Some? ==> db.task.value.state != TaskFailed && (db.task.value.state == TaskCanceled ==> db.run.state == RunCanceled)
  {
    hide LogInv, LineageInv, DistinctIds, LinksInv, ResolvedInv, AttemptsInv, EffectInv, ArtifactInv;
  }

  // ---------------------------------------------------------------- creating and probing

  /** A new run has one queued task, due at once, unless it waits for clarification and has none. */
  lemma CreatedRows(now: Instant, base: Id, founder: Id, profileVersion: Id, goalVersion: Id, workflowVersion: string,
                    needsClarification: bool)
    ensures var db := CreatedRun(now, base, founder, profileVersion, goalVersion, workflowVersion, needsClarification);
            && |db.snapshots| == 1 && |db.events| == 2
            && var snapshot, first, second := db.snapshots[0].id, db.events[0].id, db.events[1].id;
               var state := if needsClarification then AwaitingFounderInput else Draft;
               && first != second
               && db.founder == founder && db.snapshots == [Snapshot(snapshot, profileVersion, goalVersion, [])]
               && db.run == Run(state, Intake, 1, workflowVersion, snapshot, false)
               && (db.task.None? <==> needsClarification)
               && (db.task.Some? ==>
                     db.task.value == Task(db.task.value.id, "CREATE_PRODUCT_BRIEF", Queued, 0, 1, None, now,
                                           Manifest(snapshot, profileVersion, goalVersion, workflowVersion, [], None)))
               && db.attempts == [] && db.effect == None && db.waits == [] && db.answers == [] && db.artifacts == []
               && db.snapshotAnswers == [] && db.nextSequence == 3
               && db.events == [Event(first, 1, RunCreated(state, Intake, snapshot, if db.task.Some? then Some(db.task.value.id) else None)),
                                Event(second, 2, GoalQualificationRecorded(goalVersion))]
  {
  }

  lemma ProbeRows(db: RunTables, base: Id, index: nat)
    ensures AppendProbe(db, base, index)
            == db.(nextSequence := db.nextSequence + 1, events := db.events + [Event(base, db.nextSequence, SequenceProbe(index))])
  {
  }
}
