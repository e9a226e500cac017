/** What the consumer's tables say after any deliveries, forged or genuine, repeated or crashed. */
module ConsumerTheorems {
  import opened Common
  import opened DeliveryValidation
  import opened Consumer

  // ---------------------------------------------------------------- the published events

  /** The constraints on events and messages: one index entry an event, one message an event. */
  ghost predicate WellFormed(s: Source) {
    && (forall id :: id in s.events ==>
          && s.events[id].id == id
          && (s.events[id].run.Some? && s.events[id].sequence.Some? ==>
                (s.events[id].company, s.events[id].run.value, s.events[id].sequence.value) in s.bySequence
                && s.bySequence[(s.events[id].company, s.events[id].run.value, s.events[id].sequence.value)] == id))
    && (forall c, r, n :: (c, r, n) in s.bySequence ==>
          var id := s.bySequence[(c, r, n)];
          id in s.events && s.events[id].company == c && s.events[id].run == Some(r) && s.events[id].sequence == Some(n))
    && (forall m :: m in s.outbox ==>
          s.outbox[m].event in s.events && s.events[s.outbox[m].event].company == s.outbox[m].company)
    && (forall m, m' :: m in s.outbox && m' in s.outbox && s.outbox[m].event == s.outbox[m'].event ==> m == m')
  }

  /** Events and messages are immutable: a later database holds all of them unchanged. Evidence may change. */
  ghost predicate Extends(s: Source, s': Source) {
    && (forall id :: id in s.events ==> id in s'.events && s'.events[id] == s.events[id])
    && (forall k :: k in s.bySequence ==> k in s'.bySequence && s'.bySequence[k] == s.bySequence[k])
    && (forall m :: m in s.outbox ==> m in s'.outbox && s'.outbox[m] == s.outbox[m])
  }

  // ---------------------------------------------------------------- histories

  /** `pending` are committed deliveries whose process has yet to acknowledge, or dies first. */
  datatype System = System(source: Source, tables: Tables, pending: set<(Id, Id)>)

  datatype Step =
    | Deliver(candidate: Candidate)
    | Acknowledges(message: Id, event: Id)
    | Crashes(message: Id, event: Id)
    | Publishes(source: Source)

  datatype World = World(js: Platform, isUuid: string -> bool)

  ghost function Next(w: World, s: System, step: Step): System {
    match step
    case Deliver(candidate) =>
      var (tables, outcome) := ValidateAndApply(w.js, w.isUuid, s.source, s.tables, candidate);
      s.(tables := tables,
         pending := if outcome.Applied? || outcome.Deduped?
                    then s.pending + {(candidate.message, s.source.outbox[candidate.message].event)} else s.pending)
    case Acknowledges(m, e) =>
      if (m, e) in s.pending
      then s.(tables := Acknowledge(s.tables, s.source, m, e), pending := s.pending - {(m, e)}) else s
    case Crashes(m, e) => s.(pending := s.pending - {(m, e)})
    case Publishes(source) => if WellFormed(source) && Extends(s.source, source) then s.(source := source) else s
  }

  ghost function After(w: World, s: System, steps: seq<Step>): System {
    if steps == [] then s else Next(w, After(w, s, steps[..|steps| - 1]), steps[|steps| - 1])
  }

  function Fresh(source: Source): System {
    System(source, Empty, {})
  }

  // ---------------------------------------------------------------- the invariant

  /** The event with this number in this run. */
  predicate Numbered(s: Source, key: RunKey, n: int) {
    (key.company, key.run, n) in s.bySequence
  }

  function EventAt(s: Source, key: RunKey, n: int): Id
    requires Numbered(s, key, n)
  {
    s.bySequence[(key.company, key.run, n)]
  }

  /** What reading the run's first n events in order leaves of its gate. */
  function GateAfter(s: Source, key: RunKey, n: nat): Option<Gate> {
    if n == 0 then None
    else if Numbered(s, key, n) && EventAt(s, key, n) in s.events && s.events[EventAt(s, key, n)].kind.ApprovalDecided?
    then Some(GateOf(s.events[EventAt(s, key, n)], n))
    else GateAfter(s, key, n - 1)
  }

  predicate Received(s: Source, inbox: map<Id, Value>, id: Id) {
    id in inbox && id in s.events && inbox[id] == s.events[id].payloadDigest
  }

  /** Only known events, under their digest, and in a run none beyond the offset ... */
  predicate InboxWithin(s: Source, t: Tables) {
    forall id :: id in t.inbox ==>
      && Received(s, t.inbox, id)
      && (RunScoped(s.events[id]) ==>
            s.events[id].sequence.value <= Last(t, RunKey(s.events[id].company, s.events[id].run.value)))
  }

  /** ... and every event up to the offset. */
  predicate InboxReaches(s: Source, t: Tables, key: RunKey) {
    && Last(t, key) >= 0
    && forall n :: 1 <= n <= Last(t, key) ==> Numbered(s, key, n) && EventAt(s, key, n) in t.inbox
  }

  predicate GateFolded(s: Source, t: Tables, key: RunKey) {
    && Last(t, key) >= 0
    && GateAfter(s, key, Last(t, key)) == (if key in t.gates then Some(t.gates[key]) else None)
    && (key in t.gates ==> t.gates[key].lastSequence <= Last(t, key))
  }

  ghost predicate OffsetsInv(s: Source, t: Tables) {
    forall key :: InboxReaches(s, t, key) && GateFolded(s, t, key)
  }

  /** A deferred message's event has not been received; an acknowledged one's has. */
  predicate MessagesInv(s: Source, t: Tables, pending: set<(Id, Id)>) {
    && (forall m :: m in t.deferred ==>
          && m in s.outbox && t.deferred[m].event == s.outbox[m].event
          && t.deferred[m].event in s.events && t.deferred[m].event !in t.inbox
          && s.events[t.deferred[m].event].sequence == Some(t.deferred[m].sequence)
          && s.events[t.deferred[m].event].run == Some(t.deferred[m].run.run)
          && s.events[t.deferred[m].event].company == t.deferred[m].run.company
          && 0 < t.deferred[m].sequence)
    && (forall m :: m in t.acknowledged ==> m in s.outbox && t.acknowledged[m] == s.outbox[m].event && t.acknowledged[m] in t.inbox)
    && t.published == t.acknowledged.Keys
    && (forall d :: d in pending ==> d.0 in s.outbox && d.1 == s.outbox[d.0].event && d.1 in t.inbox)
  }

  predicate NoRegression(t: Tables) {
    forall q :: q in t.quarantine ==> q.1 != SequenceRegression && q.1 != InboxDigestMismatch
  }

  ghost predicate Inv(s: System) {
    && WellFormed(s.source)
    && InboxWithin(s.source, s.tables)
    && OffsetsInv(s.source, s.tables)
    && MessagesInv(s.source, s.tables, s.pending)
    && NoRegression(s.tables)
  }

  // ---------------------------------------------------------------- applying keeps it

  /** A run-scoped event already received has a number up to the offset; one not received, beyond it. */
  lemma ReceivedIff(s: Source, t: Tables, e: Event)
    requires WellFormed(s) && InboxWithin(s, t) && OffsetsInv(s, t)
    requires e.id in s.events && s.events[e.id] == e && RunScoped(e)
    ensures var last := Last(t, RunKey(e.company, e.run.value));
            last >= 0 && (e.id in t.inbox <==> e.sequence.value <= last)
            && (e.id in t.inbox ==> t.inbox[e.id] == e.payloadDigest)
  {
    var key := RunKey(e.company, e.run.value);
    assert InboxReaches(s, t, key);
    assert EventAt(s, key, e.sequence.value) == e.id;
    if e.id in t.inbox { assert Received(s, t.inbox, e.id); }
  }

  lemma OffsetRowOnly(t: Tables, key: RunKey)
    ensures var t' := WithOffset(t, key);
            t'.(offsets := t.offsets) == t && (forall k :: Last(t', k) == Last(t, k))
  {
  }

  lemma LastSame(t: Tables, t': Tables)
    requires t'.offsets == t.offsets
    ensures forall key :: Last(t', key) == Last(t, key)
  {
  }

  /** What `applyInOrder` leaves of the tables when it does not apply. */
  lemma NotApplied(t: Tables, id: Id, m: OutboxMessage, e: Event)
    requires RunScoped(e) && !ApplyInOrder(t, id, m, e).1.Applied?
    ensures var after := ApplyInOrder(t, id, m, e).0;
            && after.inbox == t.inbox && after.gates == t.gates
            && after.acknowledged == t.acknowledged && after.published == t.published
            && (forall key :: Last(after, key) == Last(t, key))
  {
    hide Last, ApplyInOrder;
    var withRow := WithOffset(t, RunKey(e.company, e.run.value));
    OffsetRowOnly(t, RunKey(e.company, e.run.value));
    NotAppliedRows(t, id, m, e);
    LastSame(withRow, ApplyInOrder(t, id, m, e).0);
  }

  lemma NotAppliedRows(t: Tables, id: Id, m: OutboxMessage, e: Event)
    requires RunScoped(e) && !ApplyInOrder(t, id, m, e).1.Applied?
    ensures var after, withRow := ApplyInOrder(t, id, m, e).0, WithOffset(t, RunKey(e.company, e.run.value));
            && after.offsets == withRow.offsets && after.inbox == withRow.inbox && after.gates == withRow.gates
            && after.acknowledged == withRow.acknowledged && after.published == withRow.published
  {
    hide WithOffset, Advanced, Last, SuppliedMessage;
  }

  lemma AppliedTables(t: Tables, id: Id, m: OutboxMessage, e: Event)
    requires RunScoped(e) && ApplyInOrder(t, id, m, e).1.Applied?
    ensures var mine, n, after := RunKey(e.company, e.run.value), e.sequence.value, ApplyInOrder(t, id, m, e).0;
            && n == Last(t, mine) + 1 && Last(after, mine) == n
            && (forall key :: key != mine ==> Last(after, key) == Last(t, key))
            && e.id !in t.inbox && after.inbox == t.inbox[e.id := e.payloadDigest]
            && after.gates == (if e.kind.ApprovalDecided? then WithGate(t.gates, mine, GateOf(e, n)) else t.gates)
            && after.deferred == t.deferred - {id}
            && after.acknowledged == t.acknowledged && after.published == t.published && after.quarantine == t.quarantine
  {
    OffsetRowOnly(t, RunKey(e.company, e.run.value));
    hide WithOffset, WithGate, GateOf;
  }

  /** So neither regression nor a digest mismatch can be found in a run. */
  lemma InOrderOutcome(s: Source, t: Tables, id: Id, m: OutboxMessage, e: Event)
    requires WellFormed(s) && InboxWithin(s, t) && OffsetsInv(s, t)
    requires e.id in s.events && s.events[e.id] == e && RunScoped(e)
    ensures var last, (after, r) := Last(t, RunKey(e.company, e.run.value)), ApplyInOrder(t, id, m, e);
            && (r.Deduped? <==> e.sequence.value <= last)
            && (r.Applied? <==> e.sequence.value == last + 1)
            && (r.DeferredGap? <==> e.sequence.value > last + 1)
            && (r.DeferredGap? ==> r.expected == last + 1)
            && after.quarantine == t.quarantine
  {
    hide WellFormed, InboxWithin, OffsetsInv, QuarantineKnown, WithOffset, Advanced;
    OffsetRowOnly(t, RunKey(e.company, e.run.value));
    ReceivedIff(s, t, e);
    if ApplyInOrder(t, id, m, e).1.Applied? { AppliedTables(t, id, m, e); }
  }

  lemma GateStep(s: Source, t: Tables, e: Event)
    requires WellFormed(s) && e.id in s.events && s.events[e.id] == e && RunScoped(e)
    requires var key := RunKey(e.company, e.run.value); GateFolded(s, t, key) && e.sequence.value == Last(t, key) + 1
    ensures var key, n := RunKey(e.company, e.run.value), e.sequence.value;
            var gates := if e.kind.ApprovalDecided? then WithGate(t.gates, key, GateOf(e, n)) else t.gates;
            && GateAfter(s, key, n) == (if key in gates then Some(gates[key]) else None)
            && (key in gates ==> gates[key].lastSequence <= n)
            && (forall other :: other != key ==> (other in gates <==> other in t.gates)
                                                 && (other in gates ==> gates[other] == t.gates[other]))
  {
    var key := RunKey(e.company, e.run.value);
    assert EventAt(s, key, e.sequence.value) == e.id;
  }

  lemma AppliedOffsets(s: Source, t: Tables, id: Id, m: OutboxMessage, e: Event)
    requires WellFormed(s) && OffsetsInv(s, t)
    requires e.id in s.events && s.events[e.id] == e && RunScoped(e)
    requires ApplyInOrder(t, id, m, e).1.Applied?
    ensures OffsetsInv(s, ApplyInOrder(t, id, m, e).0)
  {
    hide ApplyInOrder, GateAfter, Last;
    AppliedTables(t, id, m, e);
    var after := ApplyInOrder(t, id, m, e).0;
    var mine := RunKey(e.company, e.run.value);
    assert InboxReaches(s, t, mine) && GateFolded(s, t, mine);
    GateStep(s, t, e);
    forall key ensures InboxReaches(s, after, key) && GateFolded(s, after, key) {
      assert InboxReaches(s, t, key) && GateFolded(s, t, key);
      if key == mine { assert EventAt(s, key, e.sequence.value) == e.id; }
    }
  }

  lemma InOrderOffsets(s: Source, t: Tables, id: Id, m: OutboxMessage, e: Event)
    requires WellFormed(s) && OffsetsInv(s, t)
    requires e.id in s.events && s.events[e.id] == e && RunScoped(e)
    ensures OffsetsInv(s, ApplyInOrder(t, id, m, e).0)
  {
    hide ApplyInOrder, GateAfter, Last, WellFormed;
    if ApplyInOrder(t, id, m, e).1.Applied? {
      AppliedOffsets(s, t, id, m, e);
    } else {
      NotApplied(t, id, m, e);
      var after := ApplyInOrder(t, id, m, e).0;
      forall key ensures InboxReaches(s, after, key) && GateFolded(s, after, key) {
        assert InboxReaches(s, t, key) && GateFolded(s, t, key);
      }
    }
  }

  lemma InOrderInbox(s: Source, t: Tables, id: Id, m: OutboxMessage, e: Event)
    requires WellFormed(s) && InboxWithin(s, t)
    requires e.id in s.events && s.events[e.id] == e && RunScoped(e)
    ensures InboxWithin(s, ApplyInOrder(t, id, m, e).0)
  {
    hide ApplyInOrder, Last, WellFormed;
    if ApplyInOrder(t, id, m, e).1.Applied? {
      AppliedTables(t, id, m, e);
    } else {
      NotApplied(t, id, m, e);
    }
  }

  /** A deferral adds only a message whose event is still to come. */
  lemma DeferredTables(t: Tables, id: Id, m: OutboxMessage, e: Event)
    requires RunScoped(e) && !ApplyInOrder(t, id, m, e).1.Applied?
    ensures var (after, r) := ApplyInOrder(t, id, m, e);
            || after.deferred == t.deferred
            || (r.DeferredGap? && after.deferred == t.deferred[id := Deferred(e.id, RunKey(e.company, e.run.value), e.sequence.value)])
  {
    OffsetRowOnly(t, RunKey(e.company, e.run.value));
    hide WithOffset, Advanced, QuarantineKnown;
  }

  /** An event received takes its message out of deferral and lets it be acknowledged. */
  lemma MessageReceived(s: Source, t: Tables, pending: set<(Id, Id)>, t': Tables, id: Id, digest: Value)
    requires WellFormed(s) && MessagesInv(s, t, pending) && id in s.outbox
    requires t'.inbox == t.inbox[s.outbox[id].event := digest]
    requires t'.deferred == t.deferred - {id}
    requires t'.acknowledged == t.acknowledged && t'.published == t.published
    ensures MessagesInv(s, t', pending + {(id, s.outbox[id].event)})
  {
  }

  lemma MessageKept(s: Source, t: Tables, pending: set<(Id, Id)>, t': Tables, id: Id)
    requires MessagesInv(s, t, pending) && id in s.outbox
    requires t'.inbox == t.inbox && t'.deferred == t.deferred
    requires t'.acknowledged == t.acknowledged && t'.published == t.published
    ensures MessagesInv(s, t', pending)
    ensures s.outbox[id].event in t.inbox ==> MessagesInv(s, t', pending + {(id, s.outbox[id].event)})
  {
  }

  lemma MessageDeferred(s: Source, t: Tables, pending: set<(Id, Id)>, t': Tables, id: Id, e: Event)
    requires WellFormed(s) && MessagesInv(s, t, pending) && id in s.outbox && s.outbox[id].event == e.id
    requires e.id in s.events && s.events[e.id] == e && RunScoped(e) && e.id !in t.inbox
    requires t'.deferred == t.deferred[id := Deferred(e.id, RunKey(e.company, e.run.value), e.sequence.value)]
    requires t'.inbox == t.inbox && t'.acknowledged == t.acknowledged && t'.published == t.published
    ensures MessagesInv(s, t', pending)
  {
  }

  lemma InOrderMessages(s: Source, t: Tables, pending: set<(Id, Id)>, id: Id, m: OutboxMessage, e: Event)
    requires WellFormed(s) && InboxWithin(s, t) && OffsetsInv(s, t) && MessagesInv(s, t, pending)
    requires e.id in s.events && s.events[e.id] == e && RunScoped(e)
    requires id in s.outbox && s.outbox[id] == m && m.event == e.id
    ensures var (after, r) := ApplyInOrder(t, id, m, e);
            MessagesInv(s, after, if r.Applied? || r.Deduped? then pending + {(id, e.id)} else pending)
  {
    hide ApplyInOrder, InboxWithin, OffsetsInv, Last, MessagesInv, WellFormed;
    InOrderOutcome(s, t, id, m, e);
    ReceivedIff(s, t, e);
    var (after, r) := ApplyInOrder(t, id, m, e);
    if r.Applied? {
      AppliedTables(t, id, m, e);
      MessageReceived(s, t, pending, after, id, e.payloadDigest);
    } else {
      NotApplied(t, id, m, e);
      DeferredTables(t, id, m, e);
      if after.deferred == t.deferred {
        MessageKept(s, t, pending, after, id);
      } else {
        MessageDeferred(s, t, pending, after, id, e);
      }
    }
  }

  /** More events in the inbox, offsets and gates as they were. */
  lemma OffsetsKept(s: Source, t: Tables, t': Tables)
    requires OffsetsInv(s, t)
    requires t'.offsets == t.offsets && t'.gates == t.gates && t.inbox.Keys <= t'.inbox.Keys
    ensures OffsetsInv(s, t')
  {
    hide GateAfter;
    forall key ensures InboxReaches(s, t', key) && GateFolded(s, t', key) {
      assert InboxReaches(s, t, key) && GateFolded(s, t, key);
    }
  }

  lemma WithinKept(s: Source, t: Tables, t': Tables)
    requires InboxWithin(s, t) && t'.inbox == t.inbox && t'.offsets == t.offsets
    ensures InboxWithin(s, t')
  {
  }

  lemma ValidEvent(w: World, s: Source, candidate: Candidate, m: OutboxMessage)
    requires Validate(w.js, s, candidate, m).Valid?
    ensures var e := Validate(w.js, s, candidate, m).event;
            && m.event in s.events && e == s.events[m.event] && SchemaValid(e)
            && (RunScoped(e) || CompanyScoped(e)) && !(RunScoped(e) && CompanyScoped(e))
  {
    hide EnvelopeMatches, CompanyScopedDenial, HasExactKeys, Is;
  }

  /** Whatever a delivery is found to be, its reason is one a forger can cause. */
  lemma InvalidReason(w: World, s: Source, candidate: Candidate, m: OutboxMessage)
    requires Validate(w.js, s, candidate, m).Invalid?
    ensures Validate(w.js, s, candidate, m).reason !in {SequenceRegression, InboxDigestMismatch, OutboxNotFound}
  {
    hide EnvelopeMatches, CompanyScopedDenial, HasExactKeys, Is;
  }

  lemma QuarantineKeeps(s: System, candidate: Candidate, reason: Reason, row: Quarantined)
    requires Inv(s) && reason != SequenceRegression && reason != InboxDigestMismatch
    ensures Inv(s.(tables := Quarantine(s.tables, candidate, reason, row)))
  {
    hide WellFormed, Quarantine, SuppliedMessage, OffsetsInv, InboxWithin;
    OffsetsKept(s.source, s.tables, Quarantine(s.tables, candidate, reason, row));
    WithinKept(s.source, s.tables, Quarantine(s.tables, candidate, reason, row));
  }

  lemma CompanyNotDeferred(s: System, id: Id, e: Event)
    requires Inv(s) && e.id in s.source.events && s.source.events[e.id] == e && CompanyScoped(e)
    requires id in s.source.outbox && s.source.outbox[id].event == e.id
    ensures s.tables.deferred - {id} == s.tables.deferred
  {
    hide WellFormed, InboxWithin, OffsetsInv, NoRegression;
  }

  lemma CompanyReceives(s: System, id: Id, e: Event)
    requires Inv(s) && e.id in s.source.events && s.source.events[e.id] == e && CompanyScoped(e)
    requires id in s.source.outbox && s.source.outbox[id].event == e.id && e.id !in s.tables.inbox
    ensures Inv(s.(tables := s.tables.(inbox := s.tables.inbox[e.id := e.payloadDigest]), pending := s.pending + {(id, e.id)}))
  {
    hide WellFormed, OffsetsInv, MessagesInv;
    var after := s.tables.(inbox := s.tables.inbox[e.id := e.payloadDigest]);
    OffsetsKept(s.source, s.tables, after);
    CompanyNotDeferred(s, id, e);
    MessageReceived(s.source, s.tables, s.pending, after, id, e.payloadDigest);
  }

  lemma CompanyKeeps(s: System, id: Id, m: OutboxMessage, e: Event)
    requires Inv(s) && e.id in s.source.events && s.source.events[e.id] == e && CompanyScoped(e)
    requires id in s.source.outbox && s.source.outbox[id] == m && m.event == e.id
    ensures var (after, r) := ApplyCompanyScoped(s.tables, id, m, e);
            Inv(s.(tables := after, pending := if r.Applied? || r.Deduped? then s.pending + {(id, e.id)} else s.pending))
  {
    hide WellFormed, OffsetsInv, MessagesInv, QuarantineKnown;
    if e.id in s.tables.inbox {
      assert Received(s.source, s.tables.inbox, e.id);
      MessageKept(s.source, s.tables, s.pending, s.tables, id);
    } else {
      CompanyReceives(s, id, e);
    }
  }

  lemma InOrderKeeps(s: System, id: Id, m: OutboxMessage, e: Event)
    requires Inv(s) && e.id in s.source.events && s.source.events[e.id] == e && RunScoped(e)
    requires id in s.source.outbox && s.source.outbox[id] == m && m.event == e.id
    ensures var (after, r) := ApplyInOrder(s.tables, id, m, e);
            Inv(s.(tables := after, pending := if r.Applied? || r.Deduped? then s.pending + {(id, e.id)} else s.pending))
  {
    hide ApplyInOrder, WellFormed, InboxWithin, OffsetsInv, MessagesInv;
    InOrderOutcome(s.source, s.tables, id, m, e);
    InOrderInbox(s.source, s.tables, id, m, e);
    InOrderOffsets(s.source, s.tables, id, m, e);
    InOrderMessages(s.source, s.tables, s.pending, id, m, e);
  }

  lemma DeliverKeeps(w: World, s: System, candidate: Candidate)
    requires Inv(s)
    ensures Inv(Next(w, s, Deliver(candidate)))
  {
    hide Inv, Validate, Quarantine, ApplyInOrder, ApplyCompanyScoped;
    if candidate.message !in s.source.outbox {
      QuarantineKeeps(s, candidate, OutboxNotFound, Quarantined(ClaimedEvent(w.isUuid, candidate), None, None));
    } else {
      var m := s.source.outbox[candidate.message];
      KnownEvent(s);
      match Validate(w.js, s.source, candidate, m)
      case Invalid(reason) =>
        InvalidReason(w, s.source, candidate, m);
        QuarantineKeeps(s, candidate, reason, Quarantined(ClaimedEvent(w.isUuid, candidate), Some(m.company), None));
      case Valid(e) =>
        ValidEvent(w, s.source, candidate, m);
        if RunScoped(e) {
          InOrderKeeps(s, candidate.message, m, e);
        } else {
          CompanyKeeps(s, candidate.message, m, e);
        }
    }
  }

  lemma KnownEvent(s: System)
    requires Inv(s)
    ensures forall id :: id in s.source.events ==> s.source.events[id].id == id
  {
  }

  lemma AcknowledgeKeeps(w: World, s: System, m: Id, e: Id)
    requires Inv(s)
    ensures Inv(Next(w, s, Acknowledges(m, e))) && Inv(Next(w, s, Crashes(m, e)))
  {
    hide WellFormed, InboxWithin, OffsetsInv;
    var after := Acknowledge(s.tables, s.source, m, e);
    OffsetsKept(s.source, s.tables, after);
    WithinKept(s.source, s.tables, after);
  }

  lemma {:induction false} GateExtended(s: Source, s': Source, key: RunKey, n: nat)
    requires WellFormed(s) && Extends(s, s')
    requires forall i :: 1 <= i <= n ==> Numbered(s, key, i)
    ensures GateAfter(s', key, n) == GateAfter(s, key, n)
  {
    if n > 0 {
      assert Numbered(s, key, n);
      GateExtended(s, s', key, n - 1);
    }
  }

  lemma OffsetsExtended(s: Source, s': Source, t: Tables)
    requires WellFormed(s) && Extends(s, s') && OffsetsInv(s, t)
    ensures OffsetsInv(s', t)
  {
    hide WellFormed, GateAfter;
    forall key ensures InboxReaches(s', t, key) && GateFolded(s', t, key) {
      assert InboxReaches(s, t, key) && GateFolded(s, t, key);
      GateExtended(s, s', key, Last(t, key));
      forall n | 1 <= n <= Last(t, key) ensures Numbered(s', key, n) && EventAt(s', key, n) in t.inbox {
        assert Numbered(s, key, n) && EventAt(s, key, n) in t.inbox;
      }
    }
  }

  lemma WithinExtended(s: Source, s': Source, t: Tables)
    requires Extends(s, s') && InboxWithin(s, t)
    ensures InboxWithin(s', t)
  {
    forall id | id in t.inbox ensures Received(s', t.inbox, id) {
      assert Received(s, t.inbox, id);
    }
  }

  lemma MessagesExtended(s: Source, s': Source, t: Tables, pending: set<(Id, Id)>)
    requires Extends(s, s') && MessagesInv(s, t, pending)
    ensures MessagesInv(s', t, pending)
  {
  }

  lemma PublishKeeps(w: World, s: System, source: Source)
    requires Inv(s)
    ensures Inv(Next(w, s, Publishes(source)))
  {
    hide WellFormed, Extends, OffsetsInv, MessagesInv, InboxWithin;
    if WellFormed(source) && Extends(s.source, source) {
      OffsetsExtended(s.source, source, s.tables);
      WithinExtended(s.source, source, s.tables);
      MessagesExtended(s.source, source, s.tables, s.pending);
    }
  }

  lemma {:induction false} Runs(w: World, s: System, steps: seq<Step>)
    requires Inv(s)
    ensures Inv(After(w, s, steps))
  {
    if steps != [] {
      var before, step := After(w, s, steps[..|steps| - 1]), steps[|steps| - 1];
      Runs(w, s, steps[..|steps| - 1]);
      hide Inv, Next;
      match step
      case Deliver(candidate) => DeliverKeeps(w, before, candidate);
      case Acknowledges(m, e) => AcknowledgeKeeps(w, before, m, e);
      case Crashes(m, e) => AcknowledgeKeeps(w, before, m, e);
      case Publishes(source) => PublishKeeps(w, before, source);
    }
  }

  lemma Reachable(w: World, source: Source, steps: seq<Step>)
    requires WellFormed(source)
    ensures Inv(After(w, Fresh(source), steps))
  {
    hide After, Inv, WellFormed;
    FreshInv(source);
    Runs(w, Fresh(source), steps);
  }

  lemma FreshInv(source: Source)
    requires WellFormed(source)
    ensures Inv(Fresh(source))
  {
    forall key ensures InboxReaches(source, Empty, key) && GateFolded(source, Empty, key) { }
  }

  // ---------------------------------------------------------------- theorems

  predicate InRun(e: Event, key: RunKey) {
    RunScoped(e) && e.company == key.company && e.run == Some(key.run)
  }

  /** In every run the inbox holds exactly the events numbered 1 to the offset, each under its digest,
      and the gate is what reading them in order makes of it. */
  lemma InboxIsPrefix(w: World, source: Source, steps: seq<Step>, key: RunKey)
    requires WellFormed(source)
    ensures var s := After(w, Fresh(source), steps);
            var last := Last(s.tables, key);
            && last >= 0
            && (forall n :: 1 <= n <= last ==> Numbered(s.source, key, n) && EventAt(s.source, key, n) in s.tables.inbox)
            && (forall id :: id in s.tables.inbox ==> Received(s.source, s.tables.inbox, id))
            && (forall id :: id in s.tables.inbox && InRun(s.source.events[id], key) ==>
                  1 <= s.source.events[id].sequence.value <= last)
            && GateAfter(s.source, key, last) == (if key in s.tables.gates then Some(s.tables.gates[key]) else None)
  {
    hide After, WellFormed, MessagesInv, NoRegression, GateAfter;
    Reachable(w, source, steps);
    var s := After(w, Fresh(source), steps);
    assert InboxReaches(s.source, s.tables, key) && GateFolded(s.source, s.tables, key);
  }

  /** Acknowledged or published means received; deferred means not received; the two reasons that
      would show a broken order are never recorded. */
  lemma MessagesAgree(w: World, source: Source, steps: seq<Step>)
    requires WellFormed(source)
    ensures var t := After(w, Fresh(source), steps).tables;
            && (forall m :: m in t.acknowledged ==> t.acknowledged[m] in t.inbox)
            && (forall m :: m in t.published ==> m in t.acknowledged)
            && (forall m :: m in t.deferred ==> t.deferred[m].event !in t.inbox && m !in t.acknowledged)
            && (forall q :: q in t.quarantine ==> q.1 != SequenceRegression && q.1 != InboxDigestMismatch)
  {
    hide After, WellFormed, InboxWithin, OffsetsInv;
    Reachable(w, source, steps);
  }

  /** A gate moves only after the policy decision that the approval names has been received: it is the
      event right before, and the one that caused the approval. Counters number events from 1. */
  lemma GateFollowsPolicy(w: World, source: Source, steps: seq<Step>, candidate: Candidate)
    requires WellFormed(source)
    requires var s := After(w, Fresh(source), steps);
             && candidate.message in s.source.outbox
             && Validate(w.js, s.source, candidate, s.source.outbox[candidate.message]).Valid?
             && Validate(w.js, s.source, candidate, s.source.outbox[candidate.message]).event.kind.ApprovalDecided?
    requires var s := After(w, Fresh(source), steps);
             && (forall k :: k in s.source.bySequence ==> k.2 >= 1)
             && ValidateAndApply(w.js, w.isUuid, s.source, s.tables, candidate).1.Applied?
    ensures var s := After(w, Fresh(source), steps);
            var e := Validate(w.js, s.source, candidate, s.source.outbox[candidate.message]).event;
            && RunScoped(e) && e.causation in s.tables.inbox && e.causation in s.source.events
            && var prior := s.source.events[e.causation];
               && prior.kind.PolicyDecided? && prior.run == e.run
               && prior.sequence == Some(e.sequence.value - 1)
               && Is(e.payload, "policy_decision_id", Str(prior.aggregate))
  {
    hide After, Validate, MessagesInv, ApplyInOrder, GateFolded, InboxWithin, NoRegression;
    Reachable(w, source, steps);
    var s := After(w, Fresh(source), steps);
    var m := s.source.outbox[candidate.message];
    var e := Validate(w.js, s.source, candidate, m).event;
    ValidApprovalFollowsPolicy(w.js, s.source, candidate, m);
    AppliedTables(s.tables, candidate.message, m, e);
    assert InboxReaches(s.source, s.tables, RunKey(e.company, e.run.value));
    assert Numbered(s.source, RunKey(e.company, e.run.value), e.sequence.value - 1);
    PriorInRun(s, e);
  }

  lemma PriorInRun(s: System, e: Event)
    requires WellFormed(s.source) && RunScoped(e)
    requires (e.company, e.run.value, e.sequence.value - 1) in s.source.bySequence
    ensures var prior := s.source.bySequence[(e.company, e.run.value, e.sequence.value - 1)];
            && prior in s.source.events && s.source.events[prior].run == e.run
            && s.source.events[prior].sequence == Some(e.sequence.value - 1)
  {
  }

  /** A delivery of a valid run event is applied exactly if it is the next, deduplicated exactly if it
      is an earlier one, and deferred exactly if it is a later one. */
  lemma ValidDeliveryOutcome(w: World, source: Source, steps: seq<Step>, candidate: Candidate)
    requires WellFormed(source)
    requires var s := After(w, Fresh(source), steps);
             && candidate.message in s.source.outbox
             && Validate(w.js, s.source, candidate, s.source.outbox[candidate.message]).Valid?
             && RunScoped(Validate(w.js, s.source, candidate, s.source.outbox[candidate.message]).event)
    ensures var s := After(w, Fresh(source), steps);
            var e := Validate(w.js, s.source, candidate, s.source.outbox[candidate.message]).event;
            var last := Last(s.tables, RunKey(e.company, e.run.value));
            ValidateAndApply(w.js, w.isUuid, s.source, s.tables, candidate).1
            == (if e.sequence.value == last + 1 then Applied
                else if e.sequence.value <= last then Deduped else DeferredGap(last + 1))
  {
    hide After, Validate, WellFormed, InboxWithin, OffsetsInv, ApplyInOrder;
    Reachable(w, source, steps);
    var s := After(w, Fresh(source), steps);
    var m := s.source.outbox[candidate.message];
    ValidEvent(w, s.source, candidate, m);
    KnownEvent(s);
    InOrderOutcome(s.source, s.tables, candidate.message, m, Validate(w.js, s.source, candidate, m).event);
  }
}
