/** Every transaction keeps the invariant of the rows, and so never violates a declared constraint. */
module Preservation {
  import opened Common
  import opened Rows
  import opened Transactions
  import opened Invariants

  lemma CreatedRunInv(now: Instant, base: Id, founder: Id, profileVersion: Id, goalVersion: Id,
                      workflowVersion: string, needsClarification: bool)
    ensures TablesInv(CreatedRun(now, base, founder, profileVersion, goalVersion, workflowVersion, needsClarification),
                      base + IDS_PER_STEP)
  {
    var db := CreatedRun(now, base, founder, profileVersion, goalVersion, workflowVersion, needsClarification);
    var first := db.events[..1];
    assert db.events == first + [db.events[1]];
    ReplayAppend(first, db.events[1]);
    assert first == [] + [db.events[0]];
    ReplayAppend([], db.events[0]);
  }

  lemma Logged(db: RunTables, rows: RunTables, n: Id, id: Id, p: Payload)
    requires LogInv(db.nextSequence, db.events, ViewOf(db), n)
    requires rows.nextSequence == db.nextSequence && rows.events == db.events
    requires ViewOf(rows) == Fold(ViewOf(db), p)
    requires n <= id < n + IDS_PER_STEP
    ensures var out := Append(rows, id, p);
            LogInv(out.nextSequence, out.events, ViewOf(out), n + IDS_PER_STEP)
  {
    ReplayAppend(db.events, Event(id, db.nextSequence, p));
  }

  /** Events stay on the log, and only an answer resolves a wait. */
  lemma ResolvedKept(waits: seq<Wait>, events: seq<Event>, waits': seq<Wait>, e: Event)
    requires ResolvedInv(waits, events)
    requires forall i :: 0 <= i < |waits'| && waits'[i].resolvedByEvent.Some? ==>
               waits'[i].resolvedByEvent == Some(e.id)
               || (i < |waits| && waits[i].resolvedByEvent == waits'[i].resolvedByEvent)
    ensures ResolvedInv(waits', events + [e])
  {
    var after := events + [e];
    forall i | 0 <= i < |waits'| && waits'[i].resolvedByEvent.Some?
      ensures IsEvent(after, waits'[i].resolvedByEvent.value)
    {
      if waits'[i].resolvedByEvent == Some(e.id) {
        assert after[|events|].id == e.id;
      } else {
        var j :| 0 <= j < |events| && events[j].id == waits[i].resolvedByEvent.value;
        assert after[j].id == waits'[i].resolvedByEvent.value;
      }
    }
  }

  // ---------------------------------------------------------------- rows that only some statements touch

  lemma AttemptAdded(t: Task, attempts: seq<Attempt>, n: Id, t': Task, a: Attempt)
    requires AttemptsInv(t, attempts, n) && t.state in {Queued, Ready, Running}
    requires t' == t.(state := Running, lease := t'.lease, attemptCount := t.attemptCount + 1, rowVersion := t'.rowVersion)
    requires t'.lease.Some? && t'.lease.value.token == a.leaseToken
    requires a.number == |attempts| + 1 && a.manifest == t.manifest && a.status == AttemptRunning
    requires n <= a.id < n + IDS_PER_STEP && n <= a.leaseToken < n + IDS_PER_STEP
    ensures AttemptsInv(t', CloseRunning(attempts, None, Abandoned, LeaseExpired) + [a], n + IDS_PER_STEP)
  {
  }

  /** A stale worker closing its own attempt changes nothing the task depends on. */
  lemma AttemptAbandoned(t: Task, attempts: seq<Attempt>, n: Id, who: Id, cls: ResultClass)
    requires AttemptsInv(t, attempts, n)
    ensures AttemptsInv(t, CloseRunning(attempts, Some(who), Abandoned, cls), n + IDS_PER_STEP)
  {
    var out := CloseRunning(attempts, Some(who), Abandoned, cls);
    assert forall i :: 0 <= i < |out| ==> out[i].id == attempts[i].id && out[i].leaseToken == attempts[i].leaseToken;
    assert forall i :: 0 <= i < |out| ==> out[i].number == attempts[i].number && out[i].manifest == attempts[i].manifest;
  }

  /** The lease holder giving up: its attempt is the newest and the task is blocked with it. */
  lemma AttemptGivenUp(t: Task, attempts: seq<Attempt>, n: Id, t': Task, who: Id, status: AttemptStatus, cls: ResultClass)
    requires AttemptsInv(t, attempts, n) && t.state == Running
    requires t' == t.(state := TaskBlocked, lease := None, rowVersion := t'.rowVersion)
    requires status == Abandoned || status == AttemptFailed
    requires attempts[|attempts| - 1].id == who
    ensures AttemptsInv(t', CloseRunning(attempts, Some(who), status, cls), n + IDS_PER_STEP)
  {
    var out := CloseRunning(attempts, Some(who), status, cls);
    assert forall i :: 0 <= i < |out| ==> out[i].id == attempts[i].id && out[i].leaseToken == attempts[i].leaseToken;
    assert forall i :: 0 <= i < |out| ==> out[i].number == attempts[i].number && out[i].manifest == attempts[i].manifest;
  }

  lemma AttemptSucceeds(t: Task, attempts: seq<Attempt>, n: Id, t': Task, who: Id)
    requires AttemptsInv(t, attempts, n) && t.state == Running
    requires t' == t.(state := Succeeded, lease := None, rowVersion := t'.rowVersion)
    requires attempts[|attempts| - 1].id == who
    ensures AttemptsInv(t', CloseById(attempts, who, AttemptSucceeded, Success), n + IDS_PER_STEP)
  {
    var out := CloseById(attempts, who, AttemptSucceeded, Success);
    assert forall i :: 0 <= i < |out| ==> out[i].id == attempts[i].id && out[i].leaseToken == attempts[i].leaseToken;
    assert forall i :: 0 <= i < |out| ==> out[i].number == attempts[i].number && out[i].manifest == attempts[i].manifest;
  }

  /** A cancel takes the task away without touching its attempts. */
  lemma AttemptsCanceled(t: Task, attempts: seq<Attempt>, n: Id, t': Task)
    requires AttemptsInv(t, attempts, n) && t.state != Succeeded
    requires t' == t.(state := TaskCanceled, lease := None, rowVersion := t'.rowVersion)
    ensures AttemptsInv(t', attempts, n + IDS_PER_STEP)
  {
  }

  lemma LineageKept(run: Run, t: Task, waits: seq<Wait>, answers: seq<Answer>, snapshots: seq<Snapshot>, run': Run, t': Task)
    requires LineageInv(run, t, waits, answers, snapshots)
    requires t.state != AwaitingInput && t'.state != AwaitingInput
    requires t'.id == t.id && t'.manifest == t.manifest
    requires run'.contextSnapshot == run.contextSnapshot && run'.workflowVersion == run.workflowVersion
    requires run.state == RunCanceled ==> run'.state == RunCanceled
    ensures LineageInv(run', t', waits, answers, snapshots)
  {
  }

  lemma IdsGrow(waits: seq<Wait>, answers: seq<Answer>, snapshots: seq<Snapshot>, links: seq<SnapshotAnswer>, n: Id)
    requires DistinctIds(waits, answers, snapshots, links, n)
    ensures DistinctIds(waits, answers, snapshots, links, n + IDS_PER_STEP)
  {
  }

  predicate SameAttempts(a: seq<Attempt>, b: seq<Attempt>) {
    |a| == |b| && forall i :: 0 <= i < |a| ==> b[i].id == a[i].id
  }

  lemma EffectKept(t: Task, attempts: seq<Attempt>, effect: Option<Effect>, t': Task, attempts': seq<Attempt>, effect': Option<Effect>)
    requires EffectInv(t, attempts, effect)
    requires t'.id == t.id && t'.kind == t.kind && SameAttempts(attempts, attempts')
    requires effect' == effect || effect' == MarkUnknown(effect, EffectKey(t.id, t.kind))
    requires t.state == Succeeded <==> t'.state == Succeeded
    ensures EffectInv(t', attempts', effect')
  {
  }

  lemma ArtifactsKept(t: Task, attempts: seq<Attempt>, artifacts: seq<Artifact>, t': Task, attempts': seq<Attempt>)
    requires ArtifactInv(t, attempts, artifacts)
    requires t'.manifest == t.manifest && SameAttempts(attempts, attempts')
    requires t.state == Succeeded <==> t'.state == Succeeded
    ensures ArtifactInv(t', attempts', artifacts)
  {
  }

  lemma LineageAnswered(run: Run, t: Task, waits: seq<Wait>, answers: seq<Answer>, snapshots: seq<Snapshot>,
                        run': Run, t': Task, w: Wait, a: Answer, s: Snapshot)
    requires LineageInv(run, t, waits, answers, snapshots) && t.state == AwaitingInput
    requires var open := waits[|answers|];
             && w == open.(status := Resolved, resolvedByEvent := w.resolvedByEvent, continuationTask := Some(t.id))
             && w.resolvedByEvent.Some?
             && Answers(a, open)
    requires s == Snapshot(s.id, snapshots[|answers|].profileVersion, snapshots[|answers|].goalVersion,
                           snapshots[|answers|].answerIds + [a.id])
    requires run' == run.(state := Draft, contextSnapshot := s.id, rowVersion := run'.rowVersion)
    requires t'.id == t.id && t'.state == Ready
    requires t'.manifest == t.manifest.(contextSnapshot := s.id, answerIds := s.answerIds, wait := t'.manifest.wait,
                                        workflowVersion := run.workflowVersion)
    ensures LineageInv(run', t', waits[|answers| := w], answers + [a], snapshots + [s])
  {
  }

  lemma LineageOpened(run: Run, t: Task, waits: seq<Wait>, answers: seq<Answer>, snapshots: seq<Snapshot>,
                      run': Run, t': Task, w: Wait)
    requires LineageInv(run, t, waits, answers, snapshots)
    requires run.state == Draft && t.state != AwaitingInput
    requires run' == run.(state := AwaitingFounderInput, rowVersion := run.rowVersion + 1)
    requires t'.id == t.id && t'.manifest == t.manifest && t'.state == AwaitingInput
    requires OpenFor(w, run') && w.contextSnapshot == run.contextSnapshot && w.task == t.id && w.requestVersion == 1
    requires w.resolvedByEvent.None? && w.continuationTask.None?
    ensures LineageInv(run', t', waits + [w], answers, snapshots)
  {
  }

  lemma LineageCanceled(run: Run, t: Task, waits: seq<Wait>, answers: seq<Answer>, snapshots: seq<Snapshot>,
                        run': Run, t': Task)
    requires LineageInv(run, t, waits, answers, snapshots)
    requires run'.state == RunCanceled && run'.contextSnapshot == run.contextSnapshot && run'.workflowVersion == run.workflowVersion
    requires t'.id == t.id && t'.manifest == t.manifest && t'.state != AwaitingInput
    ensures LineageInv(run', t', CancelWaits(waits), answers, snapshots)
  {
    var out := CancelWaits(waits);
    assert forall i :: 0 <= i < |answers| ==> out[i] == waits[i];
  }

  /** The lease token decides which attempt is speaking: only the newest one can hold the lease. */
  lemma HolderIsNewest(t: Task, attempts: seq<Attempt>, n: Id, c: Claim)
    requires AttemptsInv(t, attempts, n)
    requires t.state == Running && t.lease.Some? && t.lease.value.token == c.leaseToken
    requires 1 <= c.attemptNumber <= |attempts|
    requires attempts[c.attemptNumber - 1].id == c.attempt && attempts[c.attemptNumber - 1].leaseToken == c.leaseToken
    ensures c.attemptNumber == |attempts|
  {
  }

  lemma AttemptsKept(t: Task, attempts: seq<Attempt>, n: Id)
    requires AttemptsInv(t, attempts, n)
    ensures AttemptsInv(t, attempts, n + IDS_PER_STEP)
  {
  }

  // ---------------------------------------------------------------- one lemma a transaction

  /** The attempt a claim speaks for is on record, under the token the claim was given. */
  predicate Issued(db: RunTables, c: Claim) {
    && 1 <= c.attemptNumber <= |db.attempts|
    && db.attempts[c.attemptNumber - 1].id == c.attempt
    && db.attempts[c.attemptNumber - 1].leaseToken == c.leaseToken
    && db.attempts[c.attemptNumber - 1].manifest == c.manifest
    && db.task.Some?
    && c.task == db.task.value.id && c.taskKind == db.task.value.kind
    && c.effectKey == EffectKey(c.task, c.taskKind)
  }

  lemma ClaimRows(db: RunTables, n: Id, now: Instant, worker: string, leaseSeconds: nat, t: Task)
    requires WithTaskInv(db, t, n) && db.task == Some(t) && Claimable(db, now)
    ensures var out := AfterClaim(db, now, n, worker, leaseSeconds);
            WithTaskInv(out, out.task.value, n + IDS_PER_STEP)
  {
    var out := AfterClaim(db, now, n, worker, leaseSeconds);
    var c := NewClaim(db, n);
    AttemptAdded(t, db.attempts, n, out.task.value,
                 Attempt(c.attempt, c.attemptNumber, t.manifest, c.leaseToken, AttemptRunning, Unclassified));
    LineageKept(db.run, t, db.waits, db.answers, db.snapshots, out.run, out.task.value);
  }

  lemma ClaimInv(db: RunTables, n: Id, now: Instant, worker: string, leaseSeconds: nat)
    requires TablesInv(db, n) && Claimable(db, now)
    ensures TablesInv(AfterClaim(db, now, n, worker, leaseSeconds), n + IDS_PER_STEP)
  {
    hide LogInv, LinksInv, ResolvedInv;
    var out := AfterClaim(db, now, n, worker, leaseSeconds);
    var c := NewClaim(db, n);
    var t, t' := db.task.value, out.task.value;
    ResolvedKept(db.waits, db.events, db.waits, out.events[|db.events|]);
    Logged(db, out.(nextSequence := db.nextSequence, events := db.events), n, n + 3,
           TaskStarted(t.id, c.attempt, c.attemptNumber, c.leaseToken, worker));
    IdsGrow(db.waits, db.answers, db.snapshots, db.snapshotAnswers, n);
    ClaimRows(db, n, now, worker, leaseSeconds, t);
  }

  lemma StaleRows(db: RunTables, n: Id, c: Claim, cls: ResultClass, effect: Option<Effect>, t: Task)
    requires WithTaskInv(db, t, n) && db.task == Some(t)
    requires effect == db.effect || effect == MarkUnknown(db.effect, EffectKey(t.id, t.kind))
    ensures WithTaskInv(Stale(db, c, cls, effect), t, n + IDS_PER_STEP)
  {
    var out := Stale(db, c, cls, effect).attempts;
    AttemptAbandoned(t, db.attempts, n, c.attempt, cls);
    EffectKept(t, db.attempts, db.effect, t, out, effect);
    ArtifactsKept(t, db.attempts, db.artifacts, t, out);
  }

  /** What a stale worker records is invisible to everyone else. */
  lemma StaleInv(db: RunTables, n: Id, c: Claim, cls: ResultClass, effect: Option<Effect>)
    requires TablesInv(db, n) && Issued(db, c)
    requires effect == db.effect || effect == MarkUnknown(db.effect, c.effectKey)
    ensures TablesInv(Stale(db, c, cls, effect), n + IDS_PER_STEP)
  {
    hide LinksInv, ResolvedInv;
    IdsGrow(db.waits, db.answers, db.snapshots, db.snapshotAnswers, n);
    StaleRows(db, n, c, cls, effect, db.task.value);
  }

  lemma BeginInv(db: RunTables, n: Id, c: Claim)
    requires TablesInv(db, n) && Issued(db, c) && MayInvoke(db, c)
    ensures TablesInv(BeginInvocation(db, c), n + IDS_PER_STEP)
  {
    hide LinksInv, ResolvedInv;
    IdsGrow(db.waits, db.answers, db.snapshots, db.snapshotAnswers, n);
    AttemptsKept(db.task.value, db.attempts, n);
  }

  lemma BlockRows(db: RunTables, n: Id, c: Claim, status: AttemptStatus, effect: Option<Effect>, t: Task)
    requires TablesInv(db, n) && HoldsLease(db, c) && Issued(db, c)
    requires status == Abandoned || status == AttemptFailed
    requires t == db.task.value.(rowVersion := t.rowVersion) && t.rowVersion > 0
    requires effect == db.effect || effect == MarkUnknown(db.effect, c.effectKey)
    ensures var out := Blocked(db, n, c, status, effect, t);
            WithTaskInv(out, out.task.value, n + IDS_PER_STEP)
  {
    hide LogInv, DistinctIds, LinksInv, ResolvedInv;
    var out := Blocked(db, n, c, status, effect, t);
    var before := db.task.value;
    HolderIsNewest(before, db.attempts, n, c);
    AttemptGivenUp(before, db.attempts, n, out.task.value, c.attempt, status, UnknownExternalOutcome);
    LineageKept(db.run, before, db.waits, db.answers, db.snapshots, out.run, out.task.value);
    EffectKept(before, db.attempts, db.effect, out.task.value, out.attempts, effect);
    ArtifactsKept(before, db.attempts, db.artifacts, out.task.value, out.attempts);
  }

  lemma BlockInv(db: RunTables, n: Id, c: Claim, status: AttemptStatus, effect: Option<Effect>, t: Task)
    requires TablesInv(db, n) && HoldsLease(db, c) && Issued(db, c)
    requires status == Abandoned || status == AttemptFailed
    requires t == db.task.value.(rowVersion := t.rowVersion) && t.rowVersion > 0
    requires effect == db.effect || effect == MarkUnknown(db.effect, c.effectKey)
    ensures TablesInv(Blocked(db, n, c, status, effect, t), n + IDS_PER_STEP)
  {
    hide LinksInv, ResolvedInv;
    var out := Blocked(db, n, c, status, effect, t);
    ResolvedKept(db.waits, db.events, db.waits, out.events[|db.events|]);
    Logged(db, out.(nextSequence := db.nextSequence, events := db.events), n, n,
           ReconciliationRequired(c.task, c.attempt, c.effectKey));
    IdsGrow(db.waits, db.answers, db.snapshots, db.snapshotAnswers, n);
    BlockRows(db, n, c, status, effect, t);
  }

  lemma CompleteRows(db: RunTables, n: Id, c: Claim, result: ModelResult, t: Task)
    requires WithTaskInv(db, t, n) && db.task == Some(t) && HoldsLease(db, c) && Issued(db, c)
    requires db.effect.Some? && db.effect.value.invocationCount == 1
    ensures var out := AfterCompletion(db, n, c, result);
            WithTaskInv(out, out.task.value, n + IDS_PER_STEP)
  {
    HolderIsNewest(t, db.attempts, n, c);
    var out := AfterCompletion(db, n, c, result);
    AttemptSucceeds(t, db.attempts, n, out.task.value, c.attempt);
    LineageKept(db.run, t, db.waits, db.answers, db.snapshots, out.run, out.task.value);
    assert SameAttempts(db.attempts, out.attempts);
  }

  lemma CompleteInv(db: RunTables, n: Id, c: Claim, result: ModelResult)
    requires TablesInv(db, n) && HoldsLease(db, c) && Issued(db, c)
    requires db.effect.Some? && db.effect.value.invocationCount == 1
    ensures TablesInv(AfterCompletion(db, n, c, result), n + IDS_PER_STEP)
  {
    hide LinksInv, ResolvedInv;
    var out := AfterCompletion(db, n, c, result);
    ResolvedKept(db.waits, db.events, db.waits, out.events[|db.events|]);
    Logged(db, out.(nextSequence := db.nextSequence, events := db.events), n, n + 2,
           BriefPublished(c.task, c.attempt, c.attemptNumber, n, n + 1));
    IdsGrow(db.waits, db.answers, db.snapshots, db.snapshotAnswers, n);
    CompleteRows(db, n, c, result, db.task.value);
  }

  lemma OpenInv(db: RunTables, n: Id)
    requires TablesInv(db, n) && db.task.Some? && db.run.state == Draft
    requires db.task.value.state in {Queued, Ready}
    ensures TablesInv(AfterOpen(db, n), n + IDS_PER_STEP)
  {
    hide LogInv, LineageInv, LinksInv, ResolvedInv, IsEvent, OpenFor;
    var out := AfterOpen(db, n);
    ResolvedKept(db.waits, db.events, out.waits, out.events[|db.events|]);
    var t, w := db.task.value, NewWait(db, n);
    Logged(db, out.(nextSequence := db.nextSequence, events := db.events), n, n + 2,
           InputRequested(w.id, w.request, w.workflowVersion, AwaitingFounderInput, w.expectedRunRowVersion, w.contextSnapshot));
    LineageOpened(db.run, t, db.waits, db.answers, db.snapshots, out.run, out.task.value, w);
  }

  lemma OnlyTheLastIsOpen(db: RunTables, n: Id, at: nat, source: Snapshot)
    requires TablesInv(db, n) && db.task.Some? && at < |db.waits| && db.waits[at].status.Open?
    requires source in db.snapshots && source.id == db.waits[at].contextSnapshot
    ensures at == |db.answers| && |db.snapshots| == at + 1 && source == db.snapshots[at]
    ensures db.task.value.state == AwaitingInput && OpenFor(db.waits[at], db.run)
  {
  }

  lemma AnswerIds(waits: seq<Wait>, answers: seq<Answer>, snapshots: seq<Snapshot>, links: seq<SnapshotAnswer>, n: Id,
                  at: nat, w: Wait, a: Answer, s: Snapshot, link: SnapshotAnswer)
    requires DistinctIds(waits, answers, snapshots, links, n)
    requires at < |waits| && w.id == waits[at].id
    requires n <= a.id < n + IDS_PER_STEP && n <= s.id < n + IDS_PER_STEP && link.snapshot == s.id
    ensures DistinctIds(waits[at := w], answers + [a], snapshots + [s], links + [link], n + IDS_PER_STEP)
  {
  }

  lemma LinksAnswered(answers: seq<Answer>, snapshots: seq<Snapshot>, links: seq<SnapshotAnswer>,
                      a: Answer, s: Snapshot, link: SnapshotAnswer)
    requires LinksInv(answers, snapshots, links) && link.snapshot == s.id && link.answer == a.id
    ensures LinksInv(answers + [a], snapshots + [s], links + [link])
  {
  }

  lemma AnswerRows(db: RunTables, n: Id, now: Instant, at: nat, source: Snapshot, input: AnswerInput)
    requires TablesInv(db, n) && db.task.Some? && at < |db.waits|
    requires AnswerAllowed(db.waits[at], db.run, db.task.value, input)
    requires at == |db.answers| && source == db.snapshots[at]
    ensures var out := AfterAnswer(db, now, n, at, source, input.note);
            out.task.Some? && WithTaskInv(out, out.task.value, n + IDS_PER_STEP)
  {
    hide LogInv, DistinctIds, LinksInv, ResolvedInv;
    var out := AfterAnswer(db, now, n, at, source, input.note);
    LineageAnswered(db.run, db.task.value, db.waits, db.answers, db.snapshots, out.run, out.task.value,
                    out.waits[at], out.answers[at], out.snapshots[at + 1]);
  }

  lemma AnswerInv(db: RunTables, n: Id, now: Instant, at: nat, source: Snapshot, input: AnswerInput)
    requires TablesInv(db, n) && db.task.Some? && at < |db.waits|
    requires AnswerAllowed(db.waits[at], db.run, db.task.value, input)
    requires source in db.snapshots && source.id == db.waits[at].contextSnapshot
    ensures TablesInv(AfterAnswer(db, now, n, at, source, input.note), n + IDS_PER_STEP)
    ensures at == |db.answers| && source == db.snapshots[at]
  {
    hide LogInv, LineageInv, LinksInv, ResolvedInv, AttemptsInv, EffectInv, ArtifactInv;
    var w := db.waits[at];
    OnlyTheLastIsOpen(db, n, at, source);
    var out := AfterAnswer(db, now, n, at, source, input.note);
    var answer, resumed := out.answers[at], out.snapshots[at + 1];
    ResolvedKept(db.waits, db.events, out.waits, out.events[|db.events|]);
    LinksAnswered(db.answers, db.snapshots, db.snapshotAnswers, answer, resumed, out.snapshotAnswers[|db.snapshotAnswers|]);
    Logged(db, out.(nextSequence := db.nextSequence, events := db.events), n, n + 2,
           InputResolved(w.id, w.request, answer.id, w.task, w.contextSnapshot, resumed.id, w.resumeRunState));
    AnswerIds(db.waits, db.answers, db.snapshots, db.snapshotAnswers, n, at, out.waits[at], answer, resumed,
              out.snapshotAnswers[|db.snapshotAnswers|]);
    AnswerRows(db, n, now, at, source, input);
  }

  lemma CancelRows(db: RunTables, n: Id)
    requires TablesInv(db, n) && !IsTerminal(db.run.state) && db.task.Some?
    ensures WithTaskInv(AfterCancel(db, n), AfterCancel(db, n).task.value, n + IDS_PER_STEP)
  {
    hide LogInv, DistinctIds, LinksInv, ResolvedInv;
    var out := AfterCancel(db, n);
    var t, t' := db.task.value, out.task.value;
    if t.state != Succeeded { AttemptsCanceled(t, db.attempts, n, t'); }
    LineageCanceled(db.run, t, db.waits, db.answers, db.snapshots, out.run, t');
  }

  lemma CanceledIds(waits: seq<Wait>, answers: seq<Answer>, snapshots: seq<Snapshot>, links: seq<SnapshotAnswer>, n: Id)
    requires DistinctIds(waits, answers, snapshots, links, n)
    ensures DistinctIds(CancelWaits(waits), answers, snapshots, links, n + IDS_PER_STEP)
  {
    var out := CancelWaits(waits);
    assert forall i :: 0 <= i < |out| ==> out[i].id == waits[i].id;
  }

  lemma CancelInv(db: RunTables, n: Id)
    requires TablesInv(db, n) && !IsTerminal(db.run.state)
    ensures TablesInv(AfterCancel(db, n), n + IDS_PER_STEP)
  {
    hide LinksInv, ResolvedInv;
    var out := AfterCancel(db, n);
    ResolvedKept(db.waits, db.events, out.waits, out.events[|db.events|]);
    Logged(db, out.(nextSequence := db.nextSequence, events := db.events), n, n, CancelProbe(db.run.state, RunCanceled));
    CanceledIds(db.waits, db.answers, db.snapshots, db.snapshotAnswers, n);
    if db.task.Some? {
      CancelRows(db, n);
    } else {
      assert CancelWaits(db.waits) == [];
    }
  }

  lemma ProbeInv(db: RunTables, n: Id, index: nat)
    requires TablesInv(db, n)
    ensures TablesInv(Append(db, n, SequenceProbe(index)), n + IDS_PER_STEP)
  {
    hide LinksInv, ResolvedInv;
    ResolvedKept(db.waits, db.events, db.waits, Event(n, db.nextSequence, SequenceProbe(index)));
    Logged(db, db, n, n, SequenceProbe(index));
    IdsGrow(db.waits, db.answers, db.snapshots, db.snapshotAnswers, n);
  }

  // ---------------------------------------------------------------- declared constraints

  lemma AttemptConstraintsFollow(t: Task, attempts: seq<Attempt>, effect: Option<Effect>, artifacts: seq<Artifact>, n: Id)
    requires AttemptsInv(t, attempts, n) && EffectInv(t, attempts, effect) && ArtifactInv(t, attempts, artifacts)
    ensures AttemptConstraints(Some(t), attempts, effect, artifacts)
  {
    if effect.Some? {
      assert attempts[0] in attempts;
    }
  }

  lemma WaitsFollow(run: Run, t: Task, waits: seq<Wait>, answers: seq<Answer>, snapshots: seq<Snapshot>, events: seq<Event>)
    requires LineageInv(run, t, waits, answers, snapshots) && ResolvedInv(waits, events)
    ensures forall w :: w in waits ==> WaitChecks(w) && WaitReferences(w, run, Some(t), snapshots, events)
    ensures forall i, j :: 0 <= i < j < |waits| ==> !(waits[i].status.Open? && waits[j].status.Open?)
  {
    hide IsEvent, FindSnapshot;
    forall w | w in waits ensures WaitChecks(w) && WaitReferences(w, run, Some(t), snapshots, events) {
      var i :| 0 <= i < |waits| && waits[i] == w;
      assert snapshots[i] in snapshots;
    }
  }

  lemma AnswersFollow(run: Run, t: Task, waits: seq<Wait>, answers: seq<Answer>, snapshots: seq<Snapshot>,
                      links: seq<SnapshotAnswer>, n: Id)
    requires LineageInv(run, t, waits, answers, snapshots) && DistinctIds(waits, answers, snapshots, links, n)
    ensures forall i, j :: 0 <= i < j < |answers| ==>
              answers[i].id != answers[j].id && answers[i].wait != answers[j].wait
    ensures forall a :: a in answers ==> AnswersOne(a, waits)
  {
    forall i, j | 0 <= i < j < |answers|
      ensures answers[i].id != answers[j].id && answers[i].wait != answers[j].wait
    {
      assert Answers(answers[i], waits[i]) && Answers(answers[j], waits[j]);
    }
    forall a | a in answers ensures AnswersOne(a, waits) {
      var i :| 0 <= i < |answers| && answers[i] == a;
      assert waits[i] in waits;
      assert Answers(answers[i], waits[i]);
    }
  }

  lemma LinksFollow(waits: seq<Wait>, answers: seq<Answer>, snapshots: seq<Snapshot>, links: seq<SnapshotAnswer>, n: Id)
    requires LinksInv(answers, snapshots, links) && DistinctIds(waits, answers, snapshots, links, n)
    ensures SnapshotConstraints(snapshots, answers, links)
  {
    forall l | l in links ensures FindSnapshot(snapshots, l.snapshot).Some? && IsAnswer(answers, l.answer) {
      var i :| 0 <= i < |links| && links[i] == l;
      assert snapshots[i + 1] in snapshots;
      assert answers[i].id == l.answer;
    }
  }

  lemma WithTaskFollow(db: RunTables, t: Task, n: Id)
    requires TablesInv(db, n) && db.task == Some(t)
    ensures AttemptConstraints(db.task, db.attempts, db.effect, db.artifacts)
    ensures WaitConstraints(db.run, db.task, db.waits, db.answers, db.snapshots, db.events)
    ensures FindSnapshot(db.snapshots, db.run.contextSnapshot).Some?
  {
    hide WaitChecks, WaitReferences, AnswersOne, FindSnapshot, AttemptConstraints, LinksInv, ResolvedInv, LogInv;
    AttemptConstraintsFollow(t, db.attempts, db.effect, db.artifacts, n);
    WaitsFollow(db.run, t, db.waits, db.answers, db.snapshots, db.events);
    AnswersFollow(db.run, t, db.waits, db.answers, db.snapshots, db.snapshotAnswers, n);
    assert db.snapshots[|db.answers|] in db.snapshots;
  }

  /** No unique index, foreign key or check constraint of these tables can fire. */
  lemma ConstraintsFollow(db: RunTables, n: Id)
    requires TablesInv(db, n)
    ensures ConstraintsHold(db)
  {
    hide LinksInv, SnapshotConstraints, ResolvedInv;
    LinksFollow(db.waits, db.answers, db.snapshots, db.snapshotAnswers, n);
    if db.task.Some? {
      WithTaskFollow(db, db.task.value, n);
    } else {
      assert db.snapshots[0] in db.snapshots;
    }
  }
}
