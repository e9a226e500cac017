/** The whole database as one interleaved transition system: every run with its workers, the outbox
    all their events go through, and the publishers that drain it into the local projection.

    An action is one transaction, or one call or crash between two of them. Actions carry the clock
    reading they see; nothing is assumed about successive readings. */
module ControlPlane {
  import opened Common
  import opened Rows
  import opened Transactions
  import opened Invariants
  import opened Preservation
  import opened Monotone
  import opened Processes
  import opened SystemInvariant
  import opened SystemSteps
  import opened ProjectionKeys

  datatype OutboxRow = OutboxRow(
    envelope: Envelope,
    availableAt: Instant,
    leaseToken: Option<Id>,
    leaseExpiresAt: Option<Instant>,
    published: bool,
    attempts: nat)

  datatype Projection = Projection(event: Id, key: string)

  /** A publisher, keyed by the lease token its claim was given. */
  datatype PublisherPhase =
    | Holding(event: Id)    // next: consume
    | Projected(event: Id)  // next: mark published

  /** `outbox` is keyed by event id, on which the table has a unique constraint. */
  datatype Plane = Plane(
    nextId: Id,
    runs: map<Id, RunSystem>,
    outbox: map<Id, OutboxRow>,
    receipts: set<Id>,
    projections: seq<Projection>,
    publishers: map<Id, PublisherPhase>)

  datatype Action =
    | CreateRun(founder: Id, profileVersion: Id, goalVersion: Id, workflowVersion: string, needsClarification: bool)
    | InRun(run: Id, step: Step)
    | AppendCompanyEvent(kind: CompanyEvent)
    | ClaimMessage(event: Id, leaseSeconds: nat)
    | ConsumeMessage(token: Id)
    | MarkPublished(token: Id)
    | PublisherCrash(token: Id)

  const Empty := Plane(0, map[], map[], {}, [], map[])

  /** One fresh id for a run, then enough for its first rows. */
  const IDS_PER_ACTION: nat := IDS_PER_STEP + 1

  function NewRow(e: Envelope, now: Instant): OutboxRow {
    OutboxRow(e, now, None, None, false, 0)
  }

  /** The outbox rows inserted with the events of run `k` from position `from` on. */
  function Posted(outbox: map<Id, OutboxRow>, k: Id, events: seq<Event>, from: nat, now: Instant): map<Id, OutboxRow>
    requires from <= |events|
    decreases |events| - from
  {
    if from == |events| then outbox
    else
      var e := events[from];
      Posted(outbox[e.id := NewRow(Envelope(e.id, OfRun(k, e.sequence, e.payload)), now)], k, events, from + 1, now)
  }

  function InRunNext(p: Plane, k: Id, step: Step, now: Instant): Plane
    requires k in p.runs
  {
    var s := p.runs[k];
    var s' := Next(s, step, now, p.nextId);
    p.(nextId := p.nextId + IDS_PER_ACTION,
       runs := p.runs[k := s'],
       outbox := if |s.db.events| <= |s'.db.events| then Posted(p.outbox, k, s'.db.events, |s.db.events|, now) else p.outbox)
  }

  function CreateRunNext(p: Plane, a: Action, now: Instant): Plane
    requires a.CreateRun?
  {
    var db := CreatedRun(now, p.nextId, a.founder, a.profileVersion, a.goalVersion, a.workflowVersion, a.needsClarification);
    var k := p.nextId + IDS_PER_STEP;
    p.(nextId := p.nextId + IDS_PER_ACTION,
       runs := p.runs[k := Start(db)],
       outbox := Posted(p.outbox, k, db.events, 0, now))
  }

  /** The row `claim` may pick: unpublished, available, and not under an unexpired lease. */
  predicate MessageClaimable(p: Plane, event: Id, now: Instant) {
    && event in p.outbox
    && var m := p.outbox[event];
       (!m.published
        && m.availableAt <= now
        && (m.leaseExpiresAt.None? || m.leaseExpiresAt.value < now))
  }

  function ClaimMessageNext(p: Plane, event: Id, leaseSeconds: nat, now: Instant): Plane {
    if MessageClaimable(p, event, now) then
      var m := p.outbox[event];
      p.(nextId := p.nextId + IDS_PER_ACTION,
         outbox := p.outbox[event := m.(leaseToken := Some(p.nextId), leaseExpiresAt := Some(now + leaseSeconds),
                                        attempts := m.attempts + 1)],
         publishers := p.publishers[p.nextId := Holding(event)])
    else p
  }

  /** The unique constraints on the projection table. */
  predicate ProjectionConflict(p: Plane, event: Id, key: string) {
    exists r :: r in p.projections && (r.event == event || r.key == key)
  }

  /** `consume`: a receipt, and on the first receipt a projection; a conflict rolls both back and
      makes `publishOnce` reject. */
  function ConsumeNext(p: Plane, token: Id): Plane {
    if token in p.publishers && p.publishers[token].Holding? && p.publishers[token].event in p.outbox then
      var event := p.publishers[token].event;
      var key := KeyOf(p.outbox[event].envelope);
      if event in p.receipts then
        p.(publishers := p.publishers[token := Projected(event)])
      else if ProjectionConflict(p, event, key) then
        p.(publishers := p.publishers - {token})
      else
        p.(receipts := p.receipts + {event},
           projections := p.projections + [Projection(event, key)],
           publishers := p.publishers[token := Projected(event)])
    else p
  }

  function PublishNext(p: Plane, token: Id): Plane {
    if token in p.publishers && p.publishers[token].Projected? then
      var event := p.publishers[token].event;
      var done := p.(publishers := p.publishers - {token});
      if event in p.outbox && p.outbox[event].leaseToken == Some(token) && !p.outbox[event].published
      then done.(outbox := p.outbox[event := p.outbox[event].(published := true, leaseToken := None, leaseExpiresAt := None)])
      else done
    else p
  }

  function Do(p: Plane, a: Action, now: Instant): Plane {
    match a
    case CreateRun(_, _, _, _, _) => CreateRunNext(p, a, now)
    case InRun(k, step) => if k in p.runs then InRunNext(p, k, step, now) else p
    case AppendCompanyEvent(kind) =>
      p.(nextId := p.nextId + IDS_PER_ACTION,
         outbox := p.outbox[p.nextId := NewRow(Envelope(p.nextId, OfCompany(kind)), now)])
    case ClaimMessage(event, leaseSeconds) => ClaimMessageNext(p, event, leaseSeconds, now)
    case ConsumeMessage(token) => ConsumeNext(p, token)
    case MarkPublished(token) => PublishNext(p, token)
    case PublisherCrash(token) => p.(publishers := p.publishers - {token})
  }

  /** A script: which action happens next, and what the clock then reads. */
  type Script = seq<(Action, Instant)>

  function After(p: Plane, script: Script): Plane {
    if script == [] then p
    else
      var last := script[|script| - 1];
      Do(After(p, script[..|script| - 1]), last.0, last.1)
  }

  // ---------------------------------------------------------------- the invariant

  predicate RunsInv(p: Plane) {
    forall k :: k in p.runs ==> k < p.nextId && SystemInv(p.runs[k], p.nextId)
  }

  /** The envelope of the i-th event of run k. */
  function RunEnvelope(k: Id, e: Event): Envelope {
    Envelope(e.id, OfRun(k, e.sequence, e.payload))
  }

  predicate Carries(outbox: map<Id, OutboxRow>, k: Id, e: Event) {
    e.id in outbox && outbox[e.id].envelope == RunEnvelope(k, e)
  }

  /** Every event of every run has its outbox row ... */
  predicate AllPosted(runs: map<Id, RunSystem>, outbox: map<Id, OutboxRow>) {
    forall k, i :: k in runs && 0 <= i < |runs[k].db.events| ==> Carries(outbox, k, runs[k].db.events[i])
  }

  /** ... and every outbox row about a run carries one of its events. */
  predicate Carried(runs: map<Id, RunSystem>, event: Id, m: OutboxRow) {
    && m.envelope.event == event
    && match m.envelope.source
       case OfCompany(_) => true
       case OfRun(k, sequence, _) =>
         && k in runs && 1 <= sequence <= |runs[k].db.events|
         && m.envelope == RunEnvelope(k, runs[k].db.events[sequence - 1])
  }

  predicate OutboxInv(p: Plane) {
    && AllPosted(p.runs, p.outbox)
    && (forall event :: event in p.outbox ==> event < p.nextId && Carried(p.runs, event, p.outbox[event]))
  }

  predicate ProjectionInv(p: Plane) {
    && p.receipts <= p.outbox.Keys
    && p.receipts == (set i | 0 <= i < |p.projections| :: p.projections[i].event)
    && (forall i, j :: 0 <= i < j < |p.projections| ==> p.projections[i].event != p.projections[j].event)
    && (forall i :: 0 <= i < |p.projections| ==>
          && p.projections[i].event in p.outbox
          && p.projections[i].key == KeyOf(p.outbox[p.projections[i].event].envelope))
    && (forall event :: event in p.outbox && p.outbox[event].published ==> event in p.receipts)
    && (forall t :: t in p.publishers ==>
          && t < p.nextId && p.publishers[t].event in p.outbox
          && (p.publishers[t].Projected? ==> p.publishers[t].event in p.receipts))
  }

  predicate PlaneInv(p: Plane) {
    RunsInv(p) && OutboxInv(p) && ProjectionInv(p)
  }
}
