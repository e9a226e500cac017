/** The polling loop of a worker, running alone: it drains the queue and the outbox.

    The loop executes the same atomic actions as any other script of the control plane, so every
    theorem about scripts applies to it. The clock moves between any two actions as it likes. */
module WorkerLoop {
  import opened Common
  import opened Rows
  import opened Transactions
  import opened Invariants
  import opened Preservation
  import opened Processes
  import opened SystemInvariant
  import opened SystemSteps
  import opened ProjectionKeys
  import opened ControlPlane
  import opened PlaneSteps
  import opened EffectAgreement

  // ---------------------------------------------------------------- what is left to do

  predicate Unfinished(s: RunSystem) {
    && s.db.task.Some? && s.db.task.value.state in {Queued, Ready, RetryWait, Running}
    && !IsTerminal(s.db.run.state) && !s.db.run.cancellationRequested
  }

  function UnfinishedRuns(p: Plane): set<Id> {
    set k | k in p.runs && Unfinished(p.runs[k])
  }

  function Unpublished(outbox: map<Id, OutboxRow>): set<Id> {
    set e | e in outbox && !outbox[e].published
  }

  /** Each unfinished task is worth three iterations, each message one. */
  function Work(p: Plane): nat {
    3 * |UnfinishedRuns(p)| + |Unpublished(p.outbox)|
  }

  /** Nothing waits for an earlier worker's lease or for a later time. */
  predicate Startable(runs: map<Id, RunSystem>, now: Instant) {
    forall k :: k in runs && Unfinished(runs[k]) ==>
      if runs[k].db.task.value.state == Running
      then runs[k].db.task.value.lease.Some? && runs[k].db.task.value.lease.value.expiresAt < now
      else runs[k].db.task.value.availableAt <= now
  }

  predicate Deliverable(outbox: map<Id, OutboxRow>, now: Instant) {
    forall e :: e in outbox && !outbox[e].published ==>
      outbox[e].availableAt <= now && (outbox[e].leaseExpiresAt.None? || outbox[e].leaseExpiresAt.value < now)
  }

  predicate Quiet(p: Plane, now: Instant) {
    PlaneInv(p) && Startable(p.runs, now) && Deliverable(p.outbox, now)
  }

  lemma PostedWork(outbox: map<Id, OutboxRow>, k: Id, events: seq<Event>, from: nat, now: Instant)
    requires from <= |events| && Deliverable(outbox, now)
    ensures var out := Posted(outbox, k, events, from, now);
            Deliverable(out, now) && |Unpublished(out)| <= |Unpublished(outbox)| + |events| - from
    decreases |events| - from
  {
    if from < |events| {
      var e := events[from];
      var next := outbox[e.id := NewRow(Envelope(e.id, OfRun(k, e.sequence, e.payload)), now)];
      assert Unpublished(next) == Unpublished(outbox) + {e.id};
      PostedWork(next, k, events, from + 1, now);
    }
  }

  // ---------------------------------------------------------------- one attempt from claim to end

  /** The worker of claim `c` still holds its lease, to expire at `until`. */
  predicate Holds(s: RunSystem, c: Claim, until: Instant) {
    && c.attempt in s.workers && s.workers[c.attempt].claim == c
    && HoldsLease(s.db, c) && s.db.task.value.lease.value.expiresAt == until
    && !s.db.run.cancellationRequested
  }

  lemma ClaimHolds(s: RunSystem, n: Id, now: Instant, worker: string, leaseSeconds: nat)
    requires SystemInv(s, n) && Claimable(s.db, now)
    ensures var s' := Next(s, ClaimStep(worker, leaseSeconds), now, n);
            var c := NewClaim(s.db, n);
            && Holds(s', c, now + leaseSeconds) && s'.workers[c.attempt] == Claimed(c)
            && |s'.db.events| == |s.db.events| + 1
  {
    hide SpendInv, WorkersInv, LogInv, LineageInv, EffectInv, ArtifactInv, DistinctIds, LinksInv, ResolvedInv;
  }

  lemma LoadHolds(s: RunSystem, n: Id, now: Instant, c: Claim, until: Instant)
    requires SystemInv(s, n) && Holds(s, c, until) && s.workers[c.attempt] == Claimed(c)
    ensures var s' := Next(s, LoadContextStep(c.attempt), now, n);
            Holds(s', c, until) && s'.workers[c.attempt].ContextRead? && s'.db == s.db
  {
    assert WorkerInv(s.db, s.calls, s.spentBy, c.attempt, s.workers[c.attempt]);
    ReadContext(s.db, n, c);
    hide SystemInv, HoldsLease, LoadContext;
  }

  lemma CheckHolds(s: RunSystem, n: Id, now: Instant, c: Claim, until: Instant)
    requires Holds(s, c, until) && s.workers[c.attempt].ContextRead?
    ensures var s' := Next(s, CheckLeaseStep(c.attempt), now, n);
            && s'.db == s.db && Holds(s', c, until)
            && (s'.workers[c.attempt].LeaseConfirmed? || s'.workers[c.attempt].LeaseLost?)
            && (now < until ==> s'.workers[c.attempt].LeaseConfirmed?)
  {
    hide HoldsLease;
  }

  lemma BeginHolds(s: RunSystem, n: Id, now: Instant, c: Claim, until: Instant)
    requires Holds(s, c, until) && s.workers[c.attempt].LeaseConfirmed?
    ensures var s' := Next(s, BeginStep(c.attempt), now, n);
            && Holds(s', c, until) && |s'.db.events| == |s.db.events|
            && (s'.workers[c.attempt].InvocationBegun? || s'.workers[c.attempt].InvocationRefused?)
  {
  }

  lemma InvokeHolds(s: RunSystem, n: Id, now: Instant, c: Claim, until: Instant, reply: Option<ModelResult>)
    requires Holds(s, c, until) && s.workers[c.attempt].InvocationBegun?
    ensures var s' := Next(s, InvokeStep(c.attempt, reply), now, n);
            && Holds(s', c, until) && s'.db == s.db
            && (if reply.Some? then s'.workers[c.attempt].Returned? else s'.workers[c.attempt].Raised?)
  {
    hide HoldsLease;
  }

  /** Whichever way a lease holder ends, its task is finished and one event says so. */
  lemma EndsFinished(s: RunSystem, n: Id, now: Instant, c: Claim, until: Instant, step: Step)
    requires Holds(s, c, until)
    requires || (step == BlockStep(c.attempt) && s.workers[c.attempt].InvocationRefused?)
             || (step == CompleteStep(c.attempt) && s.workers[c.attempt].Returned?)
             || (step == FailStep(c.attempt) && s.workers[c.attempt].Raised?)
    ensures var s' := Next(s, step, now, n);
            !Unfinished(s') && |s'.db.events| == |s.db.events| + 1
  {
  }

  // ---------------------------------------------------------------- what an action does to the rest

  /** Only run `k` may differ, and at most `added` messages joined. */
  predicate Only(p: Plane, p': Plane, k: Id, now: Instant, added: nat) {
    && PlaneInv(p') && k in p'.runs && p'.runs == p.runs[k := p'.runs[k]]
    && |Unpublished(p'.outbox)| <= |Unpublished(p.outbox)| + added
    && Deliverable(p'.outbox, now)
  }

  lemma StepOnly(p: Plane, k: Id, step: Step, now: Instant, added: nat)
    requires PlaneInv(p) && k in p.runs && Deliverable(p.outbox, now)
    requires |Next(p.runs[k], step, now, p.nextId).db.events| <= |p.runs[k].db.events| + added
    ensures var p' := Do(p, InRun(k, step), now);
            Only(p, p', k, now, added) && p'.runs[k] == Next(p.runs[k], step, now, p.nextId)
  {
    hide Next, PlaneInv, Deliverable, Unpublished;
    InRunKeeps(p, k, step, now);
    StepSucceeds(p, k, step, now);
    var s' := Next(p.runs[k], step, now, p.nextId);
    PostedWork(p.outbox, k, s'.db.events, |p.runs[k].db.events|, now);
  }

  lemma OnlyThen(p: Plane, p': Plane, p'': Plane, k: Id, now: Instant, later: Instant, a: nat, b: nat)
    requires k in p.runs && Only(p, p', k, now, a) && Only(p', p'', k, later, b)
    ensures Only(p, p'', k, later, a + b)
  {
    hide PlaneInv, Deliverable, Unpublished;
  }

  lemma OnlySelf(p: Plane, k: Id, now: Instant)
    requires PlaneInv(p) && k in p.runs && Deliverable(p.outbox, now)
    ensures Only(p, p, k, now, 0)
  {
    hide PlaneInv, Deliverable;
  }

  /** From `start` to `p` to one action later. */
  lemma Goes(start: Plane, p: Plane, k: Id, step: Step, now: Instant, at: Instant, so: nat, added: nat)
    requires k in start.runs && Only(start, p, k, now, so) && now <= at
    requires |Next(p.runs[k], step, at, p.nextId).db.events| <= |p.runs[k].db.events| + added
    ensures var p' := Do(p, InRun(k, step), at);
            && Only(start, p', k, at, so + added)
            && p'.runs[k] == Next(p.runs[k], step, at, p.nextId)
            && SystemInv(p'.runs[k], p'.nextId)
  {
    hide Next, PlaneInv, Deliverable, Unpublished, Do;
    Later(p, now, at);
    StepOnly(p, k, step, at, added);
    OnlyThen(start, p, Do(p, InRun(k, step), at), k, now, at, so, added);
    RunInvariant(Do(p, InRun(k, step), at), k);
  }

  lemma RunInvariant(p: Plane, k: Id)
    requires PlaneInv(p) && k in p.runs
    ensures SystemInv(p.runs[k], p.nextId)
  {
    hide SystemInv;
  }

  lemma Later(p: Plane, now: Instant, later: Instant)
    requires now <= later
    ensures Deliverable(p.outbox, now) ==> Deliverable(p.outbox, later)
    ensures Startable(p.runs, now) ==> Startable(p.runs, later)
  {
  }

  /** With run `k` finished and two messages more, the work left has gone down by at least one. */
  lemma OneTaskLess(p: Plane, p': Plane, k: Id, now: Instant, later: Instant)
    requires Quiet(p, now) && now <= later && k in UnfinishedRuns(p)
    requires Only(p, p', k, later, 2) && !Unfinished(p'.runs[k])
    ensures Quiet(p', later) && Work(p') < Work(p)
  {
    hide PlaneInv, Deliverable, Unpublished, Claimable;
    Later(p, now, later);
    assert UnfinishedRuns(p') == UnfinishedRuns(p) - {k};
    StartableKept(p, p', k, later);
  }

  lemma StartableKept(p: Plane, p': Plane, k: Id, now: Instant)
    requires Startable(p.runs, now) && k in p'.runs && p'.runs == p.runs[k := p'.runs[k]] && !Unfinished(p'.runs[k])
    ensures Startable(p'.runs, now)
  {
    hide Claimable;
  }

  lemma OneMessageLess(p: Plane, p': Plane, event: Id, now: Instant, later: Instant)
    requires Quiet(p, now) && now <= later && event in p.outbox && !p.outbox[event].published
    requires PlaneInv(p') && p'.runs == p.runs && event in p'.outbox && p'.outbox[event].published
    requires p'.outbox == p.outbox[event := p'.outbox[event]]
    ensures Quiet(p', later) && Work(p') < Work(p)
  {
    hide PlaneInv, Claimable, Unfinished;
    Later(p, now, later);
    assert Unpublished(p'.outbox) == Unpublished(p.outbox) - {event};
    assert UnfinishedRuns(p') == UnfinishedRuns(p);
  }

  /** Claiming, consuming and marking a message in a row publishes it. */
  lemma PublishesMessage(p: Plane, event: Id, leaseSeconds: nat, claimed: Instant, consumed: Instant, marked: Instant)
    requires PlaneInv(p) && MessageClaimable(p, event, claimed)
    ensures var p1 := Do(p, ClaimMessage(event, leaseSeconds), claimed);
            var p2 := Do(p1, ConsumeMessage(p.nextId), consumed);
            var p' := Do(p2, MarkPublished(p.nextId), marked);
            && PlaneInv(p') && p'.runs == p.runs && event in p'.outbox
            && p'.outbox == p.outbox[event := p'.outbox[event]] && p'.outbox[event].published
            && event in p'.receipts
  {
    var p1 := Do(p, ClaimMessage(event, leaseSeconds), claimed);
    var p2 := Do(p1, ConsumeMessage(p.nextId), consumed);
    hide PlaneInv, ProjectionConflict, KeyOf;
    DoKeeps(p, ClaimMessage(event, leaseSeconds), claimed);
    DoKeeps(p1, ConsumeMessage(p.nextId), consumed);
    DoKeeps(p2, MarkPublished(p.nextId), marked);
    if event !in p1.receipts { NoProjectionConflict(p1, event); }
  }

  lemma StartsClaimable(p: Plane, k: Id, now: Instant)
    requires Quiet(p, now) && k in p.runs && Claimable(p.runs[k].db, now)
    ensures Only(p, p, k, now, 0) && SystemInv(p.runs[k], p.nextId)
  {
    hide Claimable, Deliverable, SystemInv, Startable;
    OnlySelf(p, k, now);
  }

  lemma CandidatesAreUnfinished(p: Plane, now: Instant)
    requires Quiet(p, now)
    ensures (set k | k in p.runs && Claimable(p.runs[k].db, now)) == UnfinishedRuns(p)
  {
    hide PlaneInv, Deliverable;
  }

  /** Between `start` and `p` only run `k` moved, posting `so` messages, and `c` holds its lease. */
  predicate Midway(start: Plane, p: Plane, k: Id, c: Claim, until: Instant, now: Instant, so: nat) {
    && k in start.runs && Only(start, p, k, now, so)
    && SystemInv(p.runs[k], p.nextId) && Holds(p.runs[k], c, until)
  }

  function PhaseOf(p: Plane, k: Id, c: Claim): Phase
    requires k in p.runs && c.attempt in p.runs[k].workers
  {
    p.runs[k].workers[c.attempt]
  }

  lemma PhaseIs(p: Plane, k: Id, c: Claim)
    requires k in p.runs && c.attempt in p.runs[k].workers
    ensures PhaseOf(p, k, c) == p.runs[k].workers[c.attempt]
  {
  }

  lemma MidwayWorks(start: Plane, p: Plane, k: Id, c: Claim, until: Instant, now: Instant, so: nat)
    requires Midway(start, p, k, c, until, now, so)
    ensures k in p.runs && c.attempt in p.runs[k].workers
  {
    hide SystemInv, HoldsLease, PlaneInv, Deliverable, Unpublished;
  }

  lemma ClaimableHasTask(db: RunTables, now: Instant)
    requires Claimable(db, now)
    ensures db.task.Some?
  {
  }

  lemma MidwayStarts(p: Plane, k: Id, now: Instant, worker: string, leaseSeconds: nat)
    requires Quiet(p, now) && k in p.runs && Claimable(p.runs[k].db, now)
    ensures var p' := Do(p, InRun(k, ClaimStep(worker, leaseSeconds)), now);
            var c := NewClaim(p.runs[k].db, p.nextId);
            Midway(p, p', k, c, now + leaseSeconds, now, 1) && PhaseOf(p', k, c) == Claimed(c)
  {
    hide Do, SystemInv, Next, Claimable, NewClaim;
    StartsClaimable(p, k, now);
    ClaimHolds(p.runs[k], p.nextId, now, worker, leaseSeconds);
    Goes(p, p, k, ClaimStep(worker, leaseSeconds), now, now, 0, 1);
    hide Only, Holds;
  }

  lemma MidwayLoads(start: Plane, p: Plane, k: Id, c: Claim, until: Instant, now: Instant, so: nat)
    requires Midway(start, p, k, c, until, now, so) && PhaseOf(p, k, c) == Claimed(c)
    ensures var p' := Do(p, InRun(k, LoadContextStep(c.attempt)), now);
            Midway(start, p', k, c, until, now, so) && PhaseOf(p', k, c).ContextRead?
  {
    hide Do, SystemInv, Next;
    LoadHolds(p.runs[k], p.nextId, now, c, until);
    Goes(start, p, k, LoadContextStep(c.attempt), now, now, so, 0);
    hide Only;
  }

  lemma MidwayChecks(start: Plane, p: Plane, k: Id, c: Claim, until: Instant, now: Instant, so: nat, at: Instant)
    requires Midway(start, p, k, c, until, now, so) && PhaseOf(p, k, c).ContextRead? && now <= at
    ensures var p' := Do(p, InRun(k, CheckLeaseStep(c.attempt)), at);
            && Midway(start, p', k, c, until, at, so)
            && (PhaseOf(p', k, c).LeaseConfirmed? || PhaseOf(p', k, c).LeaseLost?)
            && (at < until ==> PhaseOf(p', k, c).LeaseConfirmed?)
  {
    hide Do, SystemInv, Next;
    CheckHolds(p.runs[k], p.nextId, at, c, until);
    Goes(start, p, k, CheckLeaseStep(c.attempt), now, at, so, 0);
    hide Only;
  }

  lemma MidwayBegins(start: Plane, p: Plane, k: Id, c: Claim, until: Instant, now: Instant, so: nat)
    requires Midway(start, p, k, c, until, now, so) && PhaseOf(p, k, c).LeaseConfirmed?
    ensures var p' := Do(p, InRun(k, BeginStep(c.attempt)), now);
            && Midway(start, p', k, c, until, now, so)
            && (PhaseOf(p', k, c).InvocationBegun? || PhaseOf(p', k, c).InvocationRefused?)
  {
    hide Do, SystemInv, Next;
    BeginHolds(p.runs[k], p.nextId, now, c, until);
    Goes(start, p, k, BeginStep(c.attempt), now, now, so, 0);
    hide Only;
  }

  lemma MidwayInvokes(start: Plane, p: Plane, k: Id, c: Claim, until: Instant, now: Instant, so: nat, reply: Option<ModelResult>)
    requires Midway(start, p, k, c, until, now, so) && PhaseOf(p, k, c).InvocationBegun?
    ensures var p' := Do(p, InRun(k, InvokeStep(c.attempt, reply)), now);
            && Midway(start, p', k, c, until, now, so)
            && (if reply.Some? then PhaseOf(p', k, c).Returned? else PhaseOf(p', k, c).Raised?)
  {
    hide Do, SystemInv, Next;
    InvokeHolds(p.runs[k], p.nextId, now, c, until, reply);
    Goes(start, p, k, InvokeStep(c.attempt, reply), now, now, so, 0);
    hide Only;
  }

  lemma MidwayEnds(start: Plane, p: Plane, k: Id, c: Claim, until: Instant, now: Instant, so: nat, step: Step)
    requires Midway(start, p, k, c, until, now, so)
    requires || (step == BlockStep(c.attempt) && PhaseOf(p, k, c).InvocationRefused?)
             || (step == CompleteStep(c.attempt) && PhaseOf(p, k, c).Returned?)
             || (step == FailStep(c.attempt) && PhaseOf(p, k, c).Raised?)
    ensures var p' := Do(p, InRun(k, step), now);
            Only(start, p', k, now, so + 1) && !Unfinished(p'.runs[k])
  {
    hide Do, SystemInv, Next, Unfinished;
    EndsFinished(p.runs[k], p.nextId, now, c, until, step);
    Goes(start, p, k, step, now, now, so, 1);
    hide Only;
  }

  class Worker {
    const workerId: string
    const leaseSeconds: nat
    ghost const origin: Plane
    ghost var script: Script
    var plane: Plane
    var clock: Instant
    var stopped: bool

    constructor (workerId: string, leaseSeconds: nat, plane: Plane, clock: Instant)
      ensures this.plane == plane && this.clock == clock && this.leaseSeconds == leaseSeconds
      ensures Traced() && origin == plane
    {
      this.origin, this.script := plane, [];
      this.workerId, this.leaseSeconds, this.plane, this.clock, this.stopped := workerId, leaseSeconds, plane, clock, false;
    }

    /** What the loop has done so far is a script like any other. */
    ghost predicate Traced()
      reads this
    {
      plane == After(origin, script)
    }

    /** One transaction or call of this worker, at a time the clock reads. */
    method Act(a: Action, at: Instant)
      requires clock <= at
      modifies this`plane, this`clock, this`script
      ensures plane == Do(old(plane), a, at) && clock == at
      ensures old(Traced()) ==> Traced()
    {
      script := script + [(a, at)];
      assert script[..|script| - 1] == old(script);
      hide Do;
      plane := Do(plane, a, at);
      clock := at;
    }

    /** `publishOnce` */
    method PublishOnce() returns (published: bool)
      requires Quiet(plane, clock)
      modifies this`plane, this`clock, this`script
      ensures old(Traced()) ==> Traced()
      ensures clock >= old(clock) && Quiet(plane, clock)
      ensures published <==> Unpublished(old(plane.outbox)) != {}
      ensures published ==> Work(plane) < Work(old(plane))
      ensures !published ==> plane == old(plane)
    {
      var claimable := set e | e in plane.outbox && MessageClaimable(plane, e, clock);
      ghost var before, start := plane, clock;
      assert claimable == Unpublished(plane.outbox);
      if claimable == {} {
        return false;
      }
      var event :| event in claimable;
      var token := plane.nextId;
      hide Quiet, Do, MessageClaimable;
      assert PlaneInv(plane) && MessageClaimable(plane, event, clock);
      Act(ClaimMessage(event, leaseSeconds), clock);
      var consumed :| clock <= consumed;
      Act(ConsumeMessage(token), consumed);
      var marked :| clock <= marked;
      Act(MarkPublished(token), marked);
      PublishesMessage(before, event, leaseSeconds, start, consumed, marked);
      OneMessageLess(before, plane, event, start, clock);
      return true;
    }

    /** `claimTask`, `loadContext` and `isLeaseCurrent`, the lease being checked at time `checkedAt`. */
    method ClaimAndCheck(k: Id, checkedAt: Instant) returns (c: Claim, current: bool)
      requires Quiet(plane, clock) && k in plane.runs && Claimable(plane.runs[k].db, clock) && clock <= checkedAt
      modifies this`plane, this`clock, this`script
      ensures old(Traced()) ==> Traced()
      ensures clock == checkedAt
      ensures Midway(old(plane), plane, k, c, old(clock) + leaseSeconds, clock, 1)
      ensures current ==> PhaseOf(plane, k, c).LeaseConfirmed?
      ensures checkedAt < old(clock) + leaseSeconds ==> current
    {
      hide *;
      ghost var start, until := plane, clock + leaseSeconds;
      ClaimableHasTask(plane.runs[k].db, clock);
      c := NewClaim(plane.runs[k].db, plane.nextId);
      MidwayStarts(plane, k, clock, workerId, leaseSeconds);
      Act(InRun(k, ClaimStep(workerId, leaseSeconds)), clock);
      MidwayLoads(start, plane, k, c, until, clock, 1);
      Act(InRun(k, LoadContextStep(c.attempt)), clock);
      MidwayChecks(start, plane, k, c, until, clock, 1, checkedAt);
      Act(InRun(k, CheckLeaseStep(c.attempt)), checkedAt);
      MidwayWorks(start, plane, k, c, until, clock, 1);
      current := plane.runs[k].workers[c.attempt].LeaseConfirmed?;
      assert current == PhaseOf(plane, k, c).LeaseConfirmed? by { PhaseIs(plane, k, c); }
    }

    /** `beginModelInvocation` and what follows it. */
    method InvokeAndRecord(k: Id, c: Claim, reply: Option<ModelResult>, ghost start: Plane, ghost until: Instant)
      requires Midway(start, plane, k, c, until, clock, 1) && PhaseOf(plane, k, c).LeaseConfirmed?
      modifies this`plane, this`clock, this`script
      ensures old(Traced()) ==> Traced()
      ensures clock == old(clock) && Only(start, plane, k, clock, 2) && !Unfinished(plane.runs[k])
    {
      hide *;
      MidwayBegins(start, plane, k, c, until, clock, 1);
      Act(InRun(k, BeginStep(c.attempt)), clock);
      MidwayWorks(start, plane, k, c, until, clock, 1);
      if PhaseOf(plane, k, c).InvocationRefused? {
        MidwayEnds(start, plane, k, c, until, clock, 1, BlockStep(c.attempt));
        Act(InRun(k, BlockStep(c.attempt)), clock);
        return;
      }
      MidwayInvokes(start, plane, k, c, until, clock, 1, reply);
      Act(InRun(k, InvokeStep(c.attempt, reply)), clock);
      var last := if reply.Some? then CompleteStep(c.attempt) else FailStep(c.attempt);
      MidwayEnds(start, plane, k, c, until, clock, 1, last);
      Act(InRun(k, last), clock);
    }

    /** `processOnce`: whether there was a task to process. The provider answers or throws as it likes. */
    method ProcessOnce(checkedAt: Instant, reply: Option<ModelResult>) returns (processed: bool)
      requires Quiet(plane, clock) && clock <= checkedAt
      modifies this`plane, this`clock, this`script
      ensures old(Traced()) ==> Traced()
      ensures clock >= old(clock)
      ensures processed <==> UnfinishedRuns(old(plane)) != {}
      ensures processed && checkedAt < old(clock) + leaseSeconds ==>
                Quiet(plane, clock) && Work(plane) < Work(old(plane))
      ensures !processed ==> plane == old(plane) && clock == old(clock)
    {
      hide *;
      var candidates := set k | k in plane.runs && Claimable(plane.runs[k].db, clock);
      CandidatesAreUnfinished(plane, clock);
      if candidates == {} {
        return false;
      }
      var k :| k in candidates;
      ghost var start, claimedAt := plane, clock;
      var c, current := ClaimAndCheck(k, checkedAt);
      if !current {
        Act(InRun(k, AbandonStep(c.attempt)), clock);
        return true;
      }
      InvokeAndRecord(k, c, reply, start, claimedAt + leaseSeconds);
      OneTaskLess(start, plane, k, claimedAt, clock);
      return true;
    }

    /** `runLoop`, stopped once it finds nothing to do. The clock may move freely while a message is
        published; a lease is checked before it expires. */
    method RunLoop() returns (iterations: nat)
      requires Quiet(plane, clock) && leaseSeconds > 0
      modifies this
      ensures old(Traced()) ==> Traced()
      ensures iterations <= 3 * |UnfinishedRuns(old(plane))| + |Unpublished(old(plane.outbox))|
      ensures PlaneInv(plane)
      ensures forall k :: k in plane.runs ==> !Unfinished(plane.runs[k])
      ensures forall e :: e in plane.outbox ==> plane.outbox[e].published
    {
      iterations, stopped := 0, false;
      while !stopped
        invariant Quiet(plane, clock) && (old(Traced()) ==> Traced())
        invariant iterations + Work(plane) <= Work(old(plane))
        invariant stopped ==> UnfinishedRuns(plane) == {} && Unpublished(plane.outbox) == {}
        decreases !stopped, Work(plane)
      {
        hide Quiet, Work;
        var published := PublishOnce();
        var checkedAt :| clock <= checkedAt < clock + leaseSeconds;
        var reply: Option<ModelResult> := *;
        var processed := ProcessOnce(checkedAt, reply);
        if published || processed {
          iterations := iterations + 1;
        } else {
          stopped := true;
        }
      }
      hide PlaneInv, Unfinished;
      assert forall k :: k in plane.runs && Unfinished(plane.runs[k]) ==> k in UnfinishedRuns(plane);
      assert forall e :: e in plane.outbox && !plane.outbox[e].published ==> e in Unpublished(plane.outbox);
    }
  }
}
