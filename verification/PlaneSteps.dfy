/** Every action keeps the invariant of the whole database. */
module PlaneSteps {
  import opened Common
  import opened Rows
  import opened Transactions
  import opened Invariants
  import opened Preservation
  import opened Monotone
  import opened Processes
  import opened SystemInvariant
  import opened SystemSteps
  import opened ProjectionKeys
  import opened ControlPlane

  // ---------------------------------------------------------------- ids only get used up

  lemma RowIdsGrow(t: Task, attempts: seq<Attempt>, n: Id, m: Id)
    requires AttemptsInv(t, attempts, n) && n <= m
    ensures AttemptsInv(t, attempts, m)
  {
  }

  lemma TablesGrow(db: RunTables, n: Id, m: Id)
    requires TablesInv(db, n) && n <= m
    ensures TablesInv(db, m)
  {
    hide LinksInv, ResolvedInv, LineageInv, EffectInv, ArtifactInv, Coupled;
    if db.task.Some? {
      RowIdsGrow(db.task.value, db.attempts, n, m);
    }
  }

  lemma SystemGrows(s: RunSystem, n: Id, m: Id)
    requires SystemInv(s, n) && n <= m
    ensures SystemInv(s, m)
  {
    TablesGrow(s.db, n, m);
  }

  // ---------------------------------------------------------------- events enter the outbox once

  /** The events appended from position `from` on: fresh, and not yet in the outbox. */
  predicate Unposted(outbox: map<Id, OutboxRow>, events: seq<Event>, from: nat) {
    && from <= |events|
    && (forall i :: from <= i < |events| ==> events[i].id !in outbox)
    && (forall i, j :: from <= i < j < |events| ==> events[i].id != events[j].id)
  }

  lemma PostedExactly(outbox: map<Id, OutboxRow>, k: Id, events: seq<Event>, from: nat, now: Instant)
    requires Unposted(outbox, events, from)
    ensures var out := Posted(outbox, k, events, from, now);
            && (forall id :: id in outbox ==> id in out && out[id] == outbox[id])
            && (forall i :: from <= i < |events| ==>
                  && events[i].id in out
                  && out[events[i].id] == NewRow(RunEnvelope(k, events[i]), now))
            && (forall id :: id in out ==> id in outbox || exists i :: from <= i < |events| && events[i].id == id)
    decreases |events| - from
  {
    if from < |events| {
      var e := events[from];
      PostedExactly(outbox[e.id := NewRow(RunEnvelope(k, e), now)], k, events, from + 1, now);
    }
  }

  /** Events a step appends take ids drawn by that step. */
  lemma StepAppendsFresh(s: RunSystem, n: Id, step: Step, now: Instant)
    ensures var events := Next(s, step, now, n).db.events;
            forall i :: |s.db.events| <= i < |events| ==> n <= events[i].id
  {
  }

  // ---------------------------------------------------------------- one lemma an action

  /** What the outbox owes when runs grow: old rows keep their envelope and publication. */
  predicate OutboxGrows(a: map<Id, OutboxRow>, b: map<Id, OutboxRow>) {
    forall id :: id in a ==>
      id in b && b[id].envelope == a[id].envelope && b[id].published == a[id].published
  }

  /** New rows are unpublished, so the projection is not concerned. */
  lemma ProjectionKept(p: Plane, p': Plane)
    requires ProjectionInv(p) && OutboxGrows(p.outbox, p'.outbox) && p.nextId <= p'.nextId
    requires p'.receipts == p.receipts && p'.projections == p.projections && p'.publishers == p.publishers
    requires forall id :: id in p'.outbox && id !in p.outbox ==> !p'.outbox[id].published
    ensures ProjectionInv(p')
  {
  }

  lemma RunCarries(p: Plane, k: Id, n: Id, i: nat)
    requires PlaneInv(p) && k in p.runs && i < |p.runs[k].db.events|
    ensures var e := p.runs[k].db.events[i];
            e.sequence == i + 1 && e.id < p.nextId && Carries(p.outbox, k, e)
  {
    assert SystemInv(p.runs[k], p.nextId);
  }

  /** The plane once run `k` is `s'` and its events from position `from` on are posted. */
  function Replaced(p: Plane, k: Id, s': RunSystem, from: nat, now: Instant): Plane
    requires from <= |s'.db.events|
  {
    p.(nextId := p.nextId + IDS_PER_ACTION, runs := p.runs[k := s'],
       outbox := Posted(p.outbox, k, s'.db.events, from, now))
  }

  /** `s'` is what run `k` becomes: a fresh run, or the old one with events appended. */
  predicate Successor(p: Plane, k: Id, s': RunSystem, from: nat) {
    && k < p.nextId + IDS_PER_ACTION
    && SystemInv(s', p.nextId + IDS_PER_ACTION)
    && from <= |s'.db.events|
    && (if k in p.runs then from == |p.runs[k].db.events| && p.runs[k].db.events <= s'.db.events else from == 0)
    && Numbered(s'.db.events, from, p.nextId)
  }

  /** Events numbered from 1 under distinct ids, those from position `from` on under ids from `n` up. */
  predicate Numbered(events: seq<Event>, from: nat, n: Id) {
    && (forall i :: from <= i < |events| ==> n <= events[i].id)
    && (forall i, j :: 0 <= i < j < |events| ==> events[i].id != events[j].id)
    && (forall i :: 0 <= i < |events| ==> events[i].sequence == i + 1 && events[i].id < n + IDS_PER_ACTION)
  }

  lemma ReplacedPosts(p: Plane, k: Id, s': RunSystem, from: nat, now: Instant)
    requires PlaneInv(p) && Successor(p, k, s', from)
    ensures AllPosted(Replaced(p, k, s', from, now).runs, Replaced(p, k, s', from, now).outbox)
  {
    var p' := Replaced(p, k, s', from, now);
    PostedExactly(p.outbox, k, s'.db.events, from, now);
    forall j, i | j in p'.runs && 0 <= i < |p'.runs[j].db.events|
      ensures Carries(p'.outbox, j, p'.runs[j].db.events[i])
    {
      if j != k || i < from { RunCarries(p, j, p.nextId, i); }
    }
  }

  lemma CarriedOn(p: Plane, k: Id, s': RunSystem, from: nat, id: Id)
    requires PlaneInv(p) && Successor(p, k, s', from) && id in p.outbox
    ensures id < p.nextId && Carried(p.runs[k := s'], id, p.outbox[id])
  {
    hide RunsInv, ProjectionInv, SystemInv, AllPosted;
    assert Carried(p.runs, id, p.outbox[id]);
  }

  lemma ReplacedCarries(p: Plane, k: Id, s': RunSystem, from: nat, now: Instant)
    requires PlaneInv(p) && Successor(p, k, s', from)
    ensures var p' := Replaced(p, k, s', from, now);
            forall id :: id in p'.outbox ==> id < p'.nextId && Carried(p'.runs, id, p'.outbox[id])
  {
    hide RunsInv, ProjectionInv, SystemInv, AllPosted;
    var p' := Replaced(p, k, s', from, now);
    PostedExactly(p.outbox, k, s'.db.events, from, now);
    forall id | id in p'.outbox ensures id < p'.nextId && Carried(p'.runs, id, p'.outbox[id]) {
      if id in p.outbox {
        CarriedOn(p, k, s', from, id);
      } else {
        var i :| from <= i < |s'.db.events| && s'.db.events[i].id == id;
        assert p'.outbox[s'.db.events[i].id].envelope == RunEnvelope(k, s'.db.events[i]);
      }
    }
  }

  lemma ReplacedProjects(p: Plane, k: Id, s': RunSystem, from: nat, now: Instant)
    requires PlaneInv(p) && Successor(p, k, s', from)
    ensures ProjectionInv(Replaced(p, k, s', from, now))
  {
    hide RunsInv, SystemInv, AllPosted, Carried;
    PostedExactly(p.outbox, k, s'.db.events, from, now);
    ProjectionKept(p, Replaced(p, k, s', from, now));
  }

  lemma RunsKept(p: Plane, k: Id, s': RunSystem, p': Plane)
    requires RunsInv(p) && p.nextId <= p'.nextId && k < p'.nextId && SystemInv(s', p'.nextId)
    requires p'.runs == p.runs[k := s']
    ensures RunsInv(p')
  {
    forall j | j in p'.runs ensures j < p'.nextId && SystemInv(p'.runs[j], p'.nextId) {
      if j != k { SystemGrows(p.runs[j], p.nextId, p'.nextId); }
    }
  }

  lemma ReplacedKeeps(p: Plane, k: Id, s': RunSystem, from: nat, now: Instant)
    requires PlaneInv(p) && Successor(p, k, s', from)
    ensures PlaneInv(Replaced(p, k, s', from, now))
  {
    ReplacedPosts(p, k, s', from, now);
    ReplacedCarries(p, k, s', from, now);
    ReplacedProjects(p, k, s', from, now);
    RunsKept(p, k, s', Replaced(p, k, s', from, now));
  }

  lemma StepNumbers(s: RunSystem, n: Id, step: Step, now: Instant)
    requires SystemInv(s, n)
    ensures Numbered(Next(s, step, now, n).db.events, |s.db.events|, n)
    ensures s.db.events <= Next(s, step, now, n).db.events
  {
    StepKeeps(s, n, step, now);
    StepAppendsFresh(s, n, step, now);
    NumberedLog(Next(s, step, now, n).db, n + IDS_PER_STEP);
  }

  lemma NumberedLog(db: RunTables, n: Id)
    requires TablesInv(db, n)
    ensures forall i, j :: 0 <= i < j < |db.events| ==> db.events[i].id != db.events[j].id
    ensures forall i :: 0 <= i < |db.events| ==> db.events[i].sequence == i + 1 && db.events[i].id < n
  {
  }

  lemma StepGrows(s: RunSystem, n: Id, step: Step, now: Instant)
    requires SystemInv(s, n)
    ensures SystemInv(Next(s, step, now, n), n + IDS_PER_ACTION)
  {
    StepKeeps(s, n, step, now);
    SystemGrows(Next(s, step, now, n), n + IDS_PER_STEP, n + IDS_PER_ACTION);
  }

  lemma Succession(p: Plane, k: Id, s': RunSystem)
    requires RunsInv(p) && k in p.runs && p.runs[k].db.events <= s'.db.events
    requires SystemInv(s', p.nextId + IDS_PER_ACTION)
    requires Numbered(s'.db.events, |p.runs[k].db.events|, p.nextId)
    ensures Successor(p, k, s', |p.runs[k].db.events|)
  {
  }

  lemma StepSucceeds(p: Plane, k: Id, step: Step, now: Instant)
    requires PlaneInv(p) && k in p.runs
    ensures Successor(p, k, Next(p.runs[k], step, now, p.nextId), |p.runs[k].db.events|)
  {
    hide Next, SystemInv;
    StepGrows(p.runs[k], p.nextId, step, now);
    StepNumbers(p.runs[k], p.nextId, step, now);
    Succession(p, k, Next(p.runs[k], step, now, p.nextId));
  }

  lemma InRunKeeps(p: Plane, k: Id, step: Step, now: Instant)
    requires PlaneInv(p) && k in p.runs
    ensures PlaneInv(InRunNext(p, k, step, now))
  {
    StepSucceeds(p, k, step, now);
    ReplacedKeeps(p, k, Next(p.runs[k], step, now, p.nextId), |p.runs[k].db.events|, now);
  }

  lemma OthersKept(p: Plane, n: Id)
    requires RunsInv(p) && p.nextId <= n
    ensures forall j :: j in p.runs ==> j < n && SystemInv(p.runs[j], n)
  {
    forall j | j in p.runs ensures j < n && SystemInv(p.runs[j], n) {
      SystemGrows(p.runs[j], p.nextId, n);
    }
  }

  lemma CreateSucceeds(p: Plane, k: Id, db: RunTables)
    requires PlaneInv(p) && k == p.nextId + IDS_PER_STEP
    requires TablesInv(db, p.nextId + IDS_PER_STEP) && db.attempts == []
    requires forall i :: 0 <= i < |db.events| ==> p.nextId <= db.events[i].id
    ensures Successor(p, k, Start(db), 0)
  {
    hide TablesInv, SystemInv, OutboxInv, ProjectionInv;
    TablesGrow(db, p.nextId + IDS_PER_STEP, p.nextId + IDS_PER_ACTION);
    StartInv(db, p.nextId + IDS_PER_ACTION);
    NumberedLog(db, p.nextId + IDS_PER_STEP);
  }

  /** The rows of the run action `a` creates. */
  function RowsFor(p: Plane, a: Action, now: Instant): RunTables
    requires a.CreateRun?
  {
    CreatedRun(now, p.nextId, a.founder, a.profileVersion, a.goalVersion, a.workflowVersion, a.needsClarification)
  }

  lemma RowsForFacts(p: Plane, a: Action, now: Instant)
    requires a.CreateRun?
    ensures TablesInv(RowsFor(p, a, now), p.nextId + IDS_PER_STEP) && RowsFor(p, a, now).attempts == []
    ensures var events := RowsFor(p, a, now).events;
            forall i :: 0 <= i < |events| ==> p.nextId <= events[i].id
  {
    hide TablesInv;
    CreatedRunInv(now, p.nextId, a.founder, a.profileVersion, a.goalVersion, a.workflowVersion, a.needsClarification);
  }

  lemma CreateKeeps(p: Plane, a: Action, now: Instant)
    requires PlaneInv(p) && a.CreateRun?
    ensures PlaneInv(CreateRunNext(p, a, now))
  {
    hide Successor, PlaneInv, TablesInv;
    RowsForFacts(p, a, now);
    CreateSucceeds(p, p.nextId + IDS_PER_STEP, RowsFor(p, a, now));
    ReplacedKeeps(p, p.nextId + IDS_PER_STEP, Start(RowsFor(p, a, now)), 0, now);
  }

  lemma CompanyPosted(p: Plane, p': Plane, row: OutboxRow)
    requires OutboxInv(p) && p'.runs == p.runs && p.nextId <= p'.nextId && p.nextId < p'.nextId
    requires p'.outbox == p.outbox[p.nextId := row] && row.envelope.event == p.nextId && row.envelope.source.OfCompany?
    ensures OutboxInv(p')
  {
    forall id | id in p'.outbox ensures id < p'.nextId && Carried(p'.runs, id, p'.outbox[id]) {
      if id in p.outbox { assert Carried(p.runs, id, p.outbox[id]); }
    }
    forall k, i | k in p'.runs && 0 <= i < |p'.runs[k].db.events|
      ensures Carries(p'.outbox, k, p'.runs[k].db.events[i])
    {
      assert Carries(p.outbox, k, p.runs[k].db.events[i]);
    }
  }

  lemma CompanyKeeps(p: Plane, kind: CompanyEvent, now: Instant)
    requires PlaneInv(p)
    ensures PlaneInv(Do(p, AppendCompanyEvent(kind), now))
  {
    hide SystemInv, KeyOf, AllPosted, Carried, ProjectionInv;
    var p' := Do(p, AppendCompanyEvent(kind), now);
    OthersKept(p, p'.nextId);
    CompanyPosted(p, p', p'.outbox[p.nextId]);
    ProjectionKept(p, p');
  }

  /** Publisher actions change leases and publication of outbox rows, never their envelopes. */
  lemma OutboxKept(p: Plane, p': Plane)
    requires OutboxInv(p) && p'.runs == p.runs && p.nextId <= p'.nextId
    requires p'.outbox.Keys == p.outbox.Keys
    requires forall id :: id in p.outbox ==> p'.outbox[id].envelope == p.outbox[id].envelope
    ensures OutboxInv(p')
  {
    forall id | id in p'.outbox ensures id < p'.nextId && Carried(p'.runs, id, p'.outbox[id]) {
      assert Carried(p.runs, id, p.outbox[id]);
    }
    forall k, i | k in p'.runs && 0 <= i < |p'.runs[k].db.events|
      ensures Carries(p'.outbox, k, p'.runs[k].db.events[i])
    {
      assert Carries(p.outbox, k, p.runs[k].db.events[i]);
    }
  }

  lemma ClaimMessageKeeps(p: Plane, event: Id, leaseSeconds: nat, now: Instant)
    requires PlaneInv(p)
    ensures PlaneInv(ClaimMessageNext(p, event, leaseSeconds, now))
  {
    var p' := ClaimMessageNext(p, event, leaseSeconds, now);
    OthersKept(p, p'.nextId);
    OutboxKept(p, p');
  }

  /** The unique constraints of the projection table cannot fire: keys are as distinct as events. */
  lemma DistinctKeys(p: Plane, a: Id, b: Id)
    requires OutboxInv(p) && a in p.outbox && b in p.outbox
    requires KeyOf(p.outbox[a].envelope) == KeyOf(p.outbox[b].envelope)
    ensures a == b
  {
    assert Carried(p.runs, a, p.outbox[a]) && Carried(p.runs, b, p.outbox[b]);
    KeyDetermines(p.outbox[a].envelope, p.outbox[b].envelope);
  }

  lemma NoProjectionConflict(p: Plane, event: Id)
    requires PlaneInv(p) && event in p.outbox && event !in p.receipts
    ensures !ProjectionConflict(p, event, KeyOf(p.outbox[event].envelope))
  {
    var mine := p.outbox[event].envelope;
    forall r | r in p.projections ensures r.event != event && r.key != KeyOf(mine) {
      var i :| 0 <= i < |p.projections| && p.projections[i] == r;
      if r.key == KeyOf(mine) { DistinctKeys(p, event, r.event); }
    }
  }

  lemma FirstReceipt(p: Plane, token: Id, event: Id)
    requires ProjectionInv(p) && token in p.publishers && p.publishers[token] == Holding(event)
    requires event in p.outbox && event !in p.receipts
    ensures ProjectionInv(p.(receipts := p.receipts + {event},
                             projections := p.projections + [Projection(event, KeyOf(p.outbox[event].envelope))],
                             publishers := p.publishers[token := Projected(event)]))
  {
    ReceiptsGrow(p.receipts, p.projections, Projection(event, KeyOf(p.outbox[event].envelope)));
  }

  lemma ConsumeKeeps(p: Plane, token: Id)
    requires PlaneInv(p)
    ensures PlaneInv(ConsumeNext(p, token))
  {
    if token in p.publishers && p.publishers[token].Holding? {
      var event := p.publishers[token].event;
      if event !in p.receipts {
        NoProjectionConflict(p, event);
        FirstReceipt(p, token, event);
      }
    }
    OutboxKept(p, ConsumeNext(p, token));
  }

  lemma ReceiptsGrow(receipts: set<Id>, projections: seq<Projection>, r: Projection)
    requires receipts == (set i | 0 <= i < |projections| :: projections[i].event)
    ensures var rs := projections + [r];
            receipts + {r.event} == (set i | 0 <= i < |rs| :: rs[i].event)
  {
    var rs := projections + [r];
    assert forall i :: 0 <= i < |projections| ==> rs[i] == projections[i];
    assert rs[|projections|] == r;
  }

  lemma PublishProjects(p: Plane, token: Id)
    requires ProjectionInv(p)
    ensures ProjectionInv(PublishNext(p, token))
  {
    hide KeyOf;
  }

  lemma PublishKeeps(p: Plane, token: Id)
    requires PlaneInv(p)
    ensures PlaneInv(PublishNext(p, token))
  {
    hide SystemInv, ProjectionInv, AllPosted, Carried;
    PublishProjects(p, token);
    OutboxKept(p, PublishNext(p, token));
  }

  lemma DoKeeps(p: Plane, a: Action, now: Instant)
    requires PlaneInv(p)
    ensures PlaneInv(Do(p, a, now))
  {
    match a
    case CreateRun(_, _, _, _, _) => CreateKeeps(p, a, now);
    case InRun(k, step) => if k in p.runs { InRunKeeps(p, k, step, now); }
    case AppendCompanyEvent(kind) => CompanyKeeps(p, kind, now);
    case ClaimMessage(event, leaseSeconds) => ClaimMessageKeeps(p, event, leaseSeconds, now);
    case ConsumeMessage(token) => ConsumeKeeps(p, token);
    case MarkPublished(token) => PublishKeeps(p, token);
    case PublisherCrash(token) => OutboxKept(p, Do(p, a, now));
  }

  /** Whatever happens, in whatever order, the invariant holds afterwards. */
  lemma {:induction false} Reachable(p: Plane, script: Script)
    requires PlaneInv(p)
    ensures PlaneInv(After(p, script))
  {
    if script != [] {
      var before := script[..|script| - 1];
      Reachable(p, before);
      DoKeeps(After(p, before), script[|script| - 1].0, script[|script| - 1].1);
    }
  }

  lemma EmptyInv()
    ensures PlaneInv(Empty)
  {
  }
}
