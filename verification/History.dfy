/** What no action ever takes back, anywhere in the database: the base of every statement about
    what can still happen after a given moment. */
module History {
  import opened Common
  import opened Rows
  import opened Transactions
  import opened Invariants
  import opened Monotone
  import opened TransactionFacts
  import opened Processes
  import opened SystemInvariant
  import opened SystemSteps
  import opened ProjectionKeys
  import opened ControlPlane
  import opened PlaneSteps

  /** Messages keep their envelope, and a published message is never touched again. */
  predicate OutboxAdvances(a: map<Id, OutboxRow>, b: map<Id, OutboxRow>) {
    forall id :: id in a ==>
      && id in b && b[id].envelope == a[id].envelope
      && (a[id].published ==> b[id] == a[id])
  }

  predicate RunsAdvance(a: map<Id, RunSystem>, b: map<Id, RunSystem>) {
    forall k :: k in a ==> k in b && SystemAdvances(a[k], b[k])
  }

  predicate PlaneAdvances(p: Plane, p': Plane) {
    && RunsAdvance(p.runs, p'.runs)
    && OutboxAdvances(p.outbox, p'.outbox)
    && p.receipts <= p'.receipts
    && p.projections <= p'.projections
  }

  lemma SystemAdvancesSelf(s: RunSystem)
    ensures SystemAdvances(s, s)
  {
  }

  lemma RunsAdvanceSelf(runs: map<Id, RunSystem>)
    ensures RunsAdvance(runs, runs)
  {
    forall k | k in runs ensures SystemAdvances(runs[k], runs[k]) {
      SystemAdvancesSelf(runs[k]);
    }
  }

  lemma PlaneAdvancesTransitive(a: Plane, b: Plane, c: Plane)
    requires PlaneAdvances(a, b) && PlaneAdvances(b, c)
    ensures PlaneAdvances(a, c)
  {
    hide SystemAdvances;
    forall k | k in a.runs ensures k in c.runs && SystemAdvances(a.runs[k], c.runs[k]) {
      SystemAdvancesTransitive(a.runs[k], b.runs[k], c.runs[k]);
    }
  }

  lemma InRunAdvances(p: Plane, k: Id, step: Step, now: Instant)
    requires PlaneInv(p) && k in p.runs
    ensures PlaneAdvances(p, InRunNext(p, k, step, now))
  {
    hide Next, SystemInv, SystemAdvances, Numbered;
    var s, s' := p.runs[k], Next(p.runs[k], step, now, p.nextId);
    StepKeeps(s, p.nextId, step, now);
    StepSucceeds(p, k, step, now);
    RunsAdvanceSelf(p.runs);
    UnpostedOf(p, k, s', |s.db.events|);
    PostedExactly(p.outbox, k, s'.db.events, |s.db.events|, now);
  }

  lemma UnpostedOf(p: Plane, k: Id, s': RunSystem, from: nat)
    requires PlaneInv(p) && Successor(p, k, s', from)
    ensures Unposted(p.outbox, s'.db.events, from)
  {
  }

  lemma NewRunIsNew(p: Plane)
    requires PlaneInv(p)
    ensures p.nextId + IDS_PER_STEP !in p.runs
  {
  }

  lemma CreateAdvances(p: Plane, a: Action, now: Instant)
    requires PlaneInv(p) && a.CreateRun?
    ensures PlaneAdvances(p, CreateRunNext(p, a, now))
  {
    hide PlaneInv, TablesInv, SystemAdvances, Successor;
    NewRunIsNew(p);
    RowsForFacts(p, a, now);
    CreateSucceeds(p, p.nextId + IDS_PER_STEP, RowsFor(p, a, now));
    UnpostedOf(p, p.nextId + IDS_PER_STEP, Start(RowsFor(p, a, now)), 0);
    PostedExactly(p.outbox, p.nextId + IDS_PER_STEP, RowsFor(p, a, now).events, 0, now);
    RunsAdvanceSelf(p.runs);
  }

  lemma PublisherAdvances(p: Plane, a: Action, now: Instant)
    requires PlaneInv(p) && !a.CreateRun? && !a.InRun?
    ensures PlaneAdvances(p, Do(p, a, now))
  {
    hide SystemInv, SystemAdvances, ProjectionConflict, KeyOf;
    RunsAdvanceSelf(p.runs);
  }

  lemma DoAdvances(p: Plane, a: Action, now: Instant)
    requires PlaneInv(p)
    ensures PlaneAdvances(p, Do(p, a, now))
  {
    hide PlaneInv, PlaneAdvances;
    match a
    case CreateRun(_, _, _, _, _) => CreateAdvances(p, a, now);
    case InRun(k, step) => if k in p.runs { InRunAdvances(p, k, step, now); } else { PlaneAdvancesSelf(p); }
    case _ => PublisherAdvances(p, a, now);
  }

  lemma PlaneAdvancesSelf(p: Plane)
    ensures PlaneAdvances(p, p)
  {
    RunsAdvanceSelf(p.runs);
  }

  /** Between any state and any later one nothing has been taken back. */
  lemma {:induction false} Continues(p: Plane, script: Script)
    requires PlaneInv(p)
    ensures PlaneAdvances(p, After(p, script))
  {
    hide PlaneInv, PlaneAdvances, Do;
    if script == [] {
      PlaneAdvancesSelf(p);
    } else {
      var before := script[..|script| - 1];
      Continues(p, before);
      Reachable(p, before);
      DoAdvances(After(p, before), script[|script| - 1].0, script[|script| - 1].1);
      PlaneAdvancesTransitive(p, After(p, before), After(p, script));
    }
  }

  lemma {:induction false} AfterSplits(p: Plane, first: Script, rest: Script)
    ensures After(p, first + rest) == After(After(p, first), rest)
  {
    if rest == [] {
      assert first + rest == first;
    } else {
      var before := rest[..|rest| - 1];
      assert (first + rest)[..|first + rest| - 1] == first + before;
      AfterSplits(p, first, before);
    }
  }
}
