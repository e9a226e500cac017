/** Every event is posted once and projected at most once, after any script. */
module ProjectionTheorems {
  import opened Common
  import opened Rows
  import opened Transactions
  import opened Invariants
  import opened Processes
  import opened ProjectionKeys
  import opened ControlPlane
  import opened PlaneSteps
  import opened History
  import opened Theorems

  /** A row that speaks of a run carries one of that run's events. */
  lemma RowsCarryEvents(script: Script, id: Id)
    requires id in Reach(script).outbox && Reach(script).outbox[id].envelope.source.OfRun?
    ensures var p := Reach(script);
            var k, q := p.outbox[id].envelope.source.run, p.outbox[id].envelope.source.sequence;
            && k in p.runs && 1 <= q <= |p.runs[k].db.events|
            && p.runs[k].db.events[q - 1] == Event(id, q, p.outbox[id].envelope.source.payload)
  {
    hide After, RunsInv, ProjectionInv, AllPosted;
    ReachInv(script);
    var p := Reach(script);
    assert Carried(p.runs, id, p.outbox[id]);
    var k, q := p.outbox[id].envelope.source.run, p.outbox[id].envelope.source.sequence;
    RunCarries(p, k, p.nextId, q - 1);
  }

  /** Whether an outbox row speaks of the event numbered `sequence` in run `k`. */
  predicate IsAbout(m: OutboxRow, k: Id, sequence: nat) {
    m.envelope.source.OfRun? && m.envelope.source.run == k && m.envelope.source.sequence == sequence
  }

  /** Event i of run k has its outbox row under its id, and no other row speaks of it. */
  lemma EventsArePostedOnce(script: Script, k: Id, i: nat)
    requires k in Reach(script).runs && i < |Reach(script).runs[k].db.events|
    ensures var p := Reach(script);
            var e := p.runs[k].db.events[i];
            && e.id in p.outbox && p.outbox[e.id].envelope == Envelope(e.id, OfRun(k, i + 1, e.payload))
            && (forall id :: id in p.outbox ==> (IsAbout(p.outbox[id], k, i + 1) ==> id == e.id))
  {
    hide After, PlaneInv;
    ReachInv(script);
    var p := Reach(script);
    RunCarries(p, k, p.nextId, i);
    forall id | id in p.outbox && IsAbout(p.outbox[id], k, i + 1) ensures id == p.runs[k].db.events[i].id {
      RowsCarryEvents(script, id);
    }
  }

  /** Projections, receipts and publication: at most one projection an event, under a key no other
      event has; a receipt exactly if there is one; published only if there is one. */
  lemma ProjectedAtMostOnce(script: Script)
    ensures var p := Reach(script);
            && (forall i, j :: 0 <= i < j < |p.projections| ==>
                  p.projections[i].event != p.projections[j].event && p.projections[i].key != p.projections[j].key)
            && (forall e :: e in p.receipts <==> exists i :: 0 <= i < |p.projections| && p.projections[i].event == e)
            && (forall e :: e in p.outbox && p.outbox[e].published ==> e in p.receipts)
  {
    hide After, RunsInv, KeyOf, OutboxInv;
    ReachInv(script);
    var p := Reach(script);
    forall i, j | 0 <= i < j < |p.projections|
      ensures p.projections[i].event != p.projections[j].event && p.projections[i].key != p.projections[j].key
    {
      if p.projections[i].key == p.projections[j].key {
        DistinctKeys(p, p.projections[i].event, p.projections[j].event);
      }
    }
  }

  /** No two messages have the same projection key. */
  lemma KeysAreDistinct(script: Script, a: Id, b: Id)
    requires a in Reach(script).outbox && b in Reach(script).outbox && a != b
    ensures KeyOf(Reach(script).outbox[a].envelope) != KeyOf(Reach(script).outbox[b].envelope)
  {
    hide After, RunsInv, ProjectionInv, KeyOf, OutboxInv;
    ReachInv(script);
    if KeyOf(Reach(script).outbox[a].envelope) == KeyOf(Reach(script).outbox[b].envelope) {
      DistinctKeys(Reach(script), a, b);
    }
  }

  /** Whoever holds a message can consume it: the unique constraints never fire, and the event is
      projected if and only if it was not before. */
  lemma ConsumeNeverConflicts(script: Script, token: Id, now: Instant)
    requires var p := Reach(script); token in p.publishers && p.publishers[token].Holding?
    ensures var p, p' := Reach(script), Reach(script + [(ConsumeMessage(token), now)]);
            var event := p.publishers[token].event;
            && event in p.outbox
            && token in p'.publishers && p'.publishers[token] == Projected(event)
            && p'.receipts == p.receipts + {event}
            && p'.projections == (if event in p.receipts then p.projections
                                  else p.projections + [Projection(event, KeyOf(p.outbox[event].envelope))])
  {
    var after := script + [(ConsumeMessage(token), now)];
    assert after[..|script|] == script;
    assert Reach(after) == ConsumeNext(Reach(script), token);
    hide After, RunsInv, OutboxInv, KeyOf, ProjectionConflict;
    ReachInv(script);
    var event := Reach(script).publishers[token].event;
    if event !in Reach(script).receipts {
      NoProjectionConflict(Reach(script), event);
    }
  }

  /** A published message stays as it is: no lease, no claim, no reset, whatever happens. */
  lemma PublishedIsFinal(script: Script, more: Script, event: Id, now: Instant)
    requires event in Reach(script).outbox && Reach(script).outbox[event].published
    ensures event in Reach(script + more).outbox
    ensures Reach(script + more).outbox[event] == Reach(script).outbox[event]
    ensures !MessageClaimable(Reach(script + more), event, now)
  {
    hide After, PlaneInv, RunsAdvance;
    ReachInv(script);
    Continues(Reach(script), more);
    AfterSplits(Empty, script, more);
  }

  /** A projection is never withdrawn or rewritten, so one made is the only one ever made. */
  lemma ProjectedOnceEver(script: Script, more: Script, i: nat, j: nat)
    requires i < |Reach(script).projections| && j < |Reach(script + more).projections|
    requires Reach(script + more).projections[j].event == Reach(script).projections[i].event
    ensures i == j && Reach(script + more).projections[j] == Reach(script).projections[i]
  {
    hide After, PlaneInv, RunsAdvance, OutboxAdvances;
    ReachInv(script);
    Continues(Reach(script), more);
    AfterSplits(Empty, script, more);
    ProjectedAtMostOnce(script + more);
  }
}
