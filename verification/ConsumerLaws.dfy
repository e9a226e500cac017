/** What a delivery does to the consumer's tables, and what the gate then says, in the terms of the
    events and their payloads. */
module ConsumerLaws {
  import opened Common
  import opened DeliveryValidation
  import opened Consumer
  import opened ConsumerTheorems
  import opened DeliveryLaws

  function Field(v: Value, key: string): Value {
    if v.Obj? && key in v.fields then v.fields[key] else Null
  }

  function LastSequence(t: Tables, key: RunKey): int {
    if key in t.offsets then t.offsets[key] else 0
  }

  /** What an approval's payload makes of the gate. */
  function GateStatus(payload: Value): string {
    if Field(payload, "decision") == Str("APPROVE") then "APPROVED" else "REVISION_REQUESTED"
  }

  // ---------------------------------------------------------------- the gate

  /** The run's n-th event decides an approval. */
  predicate DecidesAt(s: Source, key: RunKey, n: int) {
    && (key.company, key.run, n) in s.bySequence
    && var id := s.bySequence[(key.company, key.run, n)];
       id in s.events && s.events[id].kind == ApprovalDecided
  }

  /** What a gate row must say for the n-th event, an approval, to be the latest: APPROVED exactly if
      its payload's decision is APPROVE. */
  predicate Tells(s: Source, key: RunKey, n: int, g: Gate)
    requires DecidesAt(s, key, n)
  {
    var payload := s.events[s.bySequence[(key.company, key.run, n)]].payload;
    && g.lastSequence == n
    && (g.status == "APPROVED" || g.status == "REVISION_REQUESTED")
    && (g.status == "APPROVED" <==> Field(payload, "decision") == Str("APPROVE"))
    && g.decisionRecord == Field(payload, "decision_record_id")
  }

  lemma {:induction false} LatestDecision(s: Source, key: RunKey, n: nat)
    ensures match GateAfter(s, key, n)
            case None => forall i :: 1 <= i <= n ==> !DecidesAt(s, key, i)
            case Some(g) =>
              && 1 <= g.lastSequence <= n && DecidesAt(s, key, g.lastSequence) && Tells(s, key, g.lastSequence, g)
              && forall i :: g.lastSequence < i <= n ==> !DecidesAt(s, key, i)
  {
    if n > 0 && !DecidesAt(s, key, n) {
      LatestDecision(s, key, n - 1);
    }
  }

  /** A run has a gate row exactly if an approval is among its received events, and the row tells of
      the latest of them. */
  lemma GateTellsLatest(w: World, source: Source, steps: seq<Step>, key: RunKey)
    requires WellFormed(source)
    ensures var s := After(w, Fresh(source), steps);
            var last := LastSequence(s.tables, key);
            && (key in s.tables.gates <==> exists n :: 1 <= n <= last && DecidesAt(s.source, key, n))
            && (key in s.tables.gates ==>
                  var g := s.tables.gates[key];
                  && 1 <= g.lastSequence <= last && DecidesAt(s.source, key, g.lastSequence)
                  && Tells(s.source, key, g.lastSequence, g)
                  && forall n :: g.lastSequence < n <= last ==> !DecidesAt(s.source, key, n))
  {
    hide After, WellFormed, DecidesAt, Tells, GateAfter;
    InboxIsPrefix(w, source, steps, key);
    var s := After(w, Fresh(source), steps);
    LatestDecision(s.source, key, LastSequence(s.tables, key));
  }

  // ---------------------------------------------------------------- deliveries

  /** The tables after a valid event of a run, by where it stands to the last one received. */
  predicate RunEventRows(t: Tables, t': Tables, id: Id, e: Event, key: RunKey, n: int) {
    var last := LastSequence(t, key);
    if n == last + 1 then
      t' == t.(inbox := t.inbox[e.id := e.payloadDigest],
               offsets := t.offsets[key := n],
               deferred := t.deferred - {id},
               gates := if e.kind == ApprovalDecided
                        then t.gates[key := Gate(n, GateStatus(e.payload), Field(e.payload, "decision_record_id"))]
                        else t.gates)
    else
      t' == t.(offsets := t.offsets[key := last],
               deferred := if n <= last then t.deferred else t.deferred[id := Deferred(e.id, key, n)])
  }

  /** A valid run event is applied if it is the next, deferred if it is too early, and otherwise changes
      nothing but that its run has an offset row. */
  lemma RunEventDelivered(w: World, source: Source, steps: seq<Step>, candidate: Candidate)
    requires WellFormed(source)
    requires var s := After(w, Fresh(source), steps);
             && candidate.message in s.source.outbox
             && Validate(w.js, s.source, candidate, s.source.outbox[candidate.message]).Valid?
             && Validate(w.js, s.source, candidate, s.source.outbox[candidate.message]).event.run.Some?
    ensures var s := After(w, Fresh(source), steps);
            var e := Validate(w.js, s.source, candidate, s.source.outbox[candidate.message]).event;
            && e.sequence.Some?
            && RunEventRows(s.tables, ValidateAndApply(w.js, w.isUuid, s.source, s.tables, candidate).0, candidate.message, e,
                            RunKey(e.company, e.run.value), e.sequence.value)
  {
    hide After, Validate, Inv, ApplyInOrder, WellFormed, RunEventRows;
    Reachable(w, source, steps);
    var s := After(w, Fresh(source), steps);
    var m := s.source.outbox[candidate.message];
    ValidEvent(w, s.source, candidate, m);
    KnownEvent(s);
    RunEventLaw(s, candidate.message, m, Validate(w.js, s.source, candidate, m).event);
  }

  lemma RunEventLaw(s: System, id: Id, m: OutboxMessage, e: Event)
    requires Inv(s) && e.id in s.source.events && s.source.events[e.id] == e && RunScoped(e)
    requires id in s.source.outbox && s.source.outbox[id] == m && m.event == e.id
    ensures RunEventRows(s.tables, ApplyInOrder(s.tables, id, m, e).0, id, e, RunKey(e.company, e.run.value), e.sequence.value)
  {
    hide WellFormed, InboxWithin, OffsetsInv, MessagesInv, QuarantineKnown;
    var key := RunKey(e.company, e.run.value);
    InOrderOutcome(s.source, s.tables, id, m, e);
    assert OffsetsInv(s.source, s.tables);
    GateBehind(s.source, s.tables, key);
    DeferredBefore(s, id, e);
    ReceivedIff(s.source, s.tables, e);
  }

  lemma GateBehind(s: Source, t: Tables, key: RunKey)
    requires OffsetsInv(s, t)
    ensures key in t.gates ==> t.gates[key].lastSequence <= LastSequence(t, key)
  {
    hide InboxReaches, GateAfter;
    assert GateFolded(s, t, key);
  }

  lemma DeferredBefore(s: System, id: Id, e: Event)
    requires Inv(s) && e.id in s.source.events && s.source.events[e.id] == e && RunScoped(e)
    requires id in s.source.outbox && s.source.outbox[id].event == e.id
    ensures id in s.tables.deferred ==> s.tables.deferred[id] == Deferred(e.id, RunKey(e.company, e.run.value), e.sequence.value)
  {
    hide WellFormed, InboxWithin, OffsetsInv;
  }

  /** A valid event of no run is received, once. */
  lemma CompanyEventDelivered(w: World, source: Source, steps: seq<Step>, candidate: Candidate)
    requires WellFormed(source)
    requires var s := After(w, Fresh(source), steps);
             && candidate.message in s.source.outbox
             && Validate(w.js, s.source, candidate, s.source.outbox[candidate.message]).Valid?
             && Validate(w.js, s.source, candidate, s.source.outbox[candidate.message]).event.run.None?
    ensures var s := After(w, Fresh(source), steps);
            var e := Validate(w.js, s.source, candidate, s.source.outbox[candidate.message]).event;
            ValidateAndApply(w.js, w.isUuid, s.source, s.tables, candidate)
            == (s.tables.(inbox := s.tables.inbox[e.id := e.payloadDigest]), if e.id in s.tables.inbox then Deduped else Applied)
  {
    hide After, Validate, WellFormed, OffsetsInv, MessagesInv;
    Reachable(w, source, steps);
    var s := After(w, Fresh(source), steps);
    var m := s.source.outbox[candidate.message];
    ValidEvent(w, s.source, candidate, m);
    KnownEvent(s);
    var e := Validate(w.js, s.source, candidate, m).event;
    if e.id in s.tables.inbox {
      assert Received(s.source, s.tables.inbox, e.id);
      assert s.tables.inbox[e.id := e.payloadDigest] == s.tables.inbox;
    }
  }

  /** A delivery of no known message, or one that fails a check, leaves one quarantine row: the first
      under what was supplied and the reason. It says which event was claimed, if that is a UUID, and
      whose message it was. */
  lemma ForgeryQuarantined(js: Platform, isUuid: string -> bool, source: Source, t: Tables, candidate: Candidate, reason: Reason)
    requires if candidate.message in source.outbox
             then Validate(js, source, candidate, source.outbox[candidate.message]) == Invalid(reason)
             else reason == OutboxNotFound
    ensures var supplied := Obj(map["outbox_message_id" := Str(candidate.message),
                                    "delivered_envelope" := match candidate.envelope
                                      case Some(v) => v
                                      case None => Obj(map["source" := Str("AUTHORITATIVE_OUTBOX")])]);
            var claimed := match candidate.envelope
                           case Some(v) => (match Field(v, "event_id") case Str(id) => if isUuid(id) then Some(id) else None case _ => None)
                           case None => None;
            var company := if candidate.message in source.outbox then Some(source.outbox[candidate.message].company) else None;
            && ValidateAndApply(js, isUuid, source, t, candidate)
               == (t.(quarantine := if (supplied, reason) in t.quarantine then t.quarantine
                                    else t.quarantine[(supplied, reason) := Quarantined(claimed, company, None)]),
                   QuarantinedFor(reason))
  {
    hide Validate;
  }

  // ---------------------------------------------------------------- acknowledgement

  /** What is acknowledged is published and the other way round. */
  lemma AcknowledgedIsPublished(w: World, source: Source, steps: seq<Step>)
    requires WellFormed(source)
    ensures var t := After(w, Fresh(source), steps).tables; t.published == t.acknowledged.Keys
  {
    hide After, WellFormed, InboxWithin, OffsetsInv;
    Reachable(w, source, steps);
  }

  /** A process that has applied a message or found it applied acknowledges it: its event is recorded,
      its message published, and nothing else changes. */
  lemma Acknowledged(w: World, source: Source, steps: seq<Step>, m: Id, e: Id)
    requires WellFormed(source) && (m, e) in After(w, Fresh(source), steps).pending
    ensures var s := After(w, Fresh(source), steps);
            Next(w, s, Acknowledges(m, e))
            == s.(tables := s.tables.(acknowledged := s.tables.acknowledged[m := e], published := s.tables.published + {m}),
                  pending := s.pending - {(m, e)})
  {
    hide After, WellFormed, InboxWithin, OffsetsInv;
    Reachable(w, source, steps);
  }

  /** The first acknowledgement of a message stays, over any tables. */
  lemma FirstAcknowledgementStays(t: Tables, source: Source, m: Id, e: Id)
    ensures m in t.acknowledged ==> Acknowledge(t, source, m, e).acknowledged == t.acknowledged
    ensures m !in t.acknowledged ==> Acknowledge(t, source, m, e).acknowledged == t.acknowledged[m := e]
  {
  }

  /** Exactly an applied or deduplicated delivery is left for its process to acknowledge. */
  lemma DeliveredPends(w: World, s: System, candidate: Candidate)
    ensures var (t, outcome) := ValidateAndApply(w.js, w.isUuid, s.source, s.tables, candidate);
            var s' := Next(w, s, Deliver(candidate));
            && s' == s.(tables := t, pending := s'.pending)
            && (outcome == Applied || outcome == Deduped ==>
                  candidate.message in s.source.outbox
                  && s'.pending == s.pending + {(candidate.message, s.source.outbox[candidate.message].event)})
            && (outcome != Applied && outcome != Deduped ==> s'.pending == s.pending)
  {
    hide Validate, ApplyInOrder, ApplyCompanyScoped, Quarantine;
  }

  /** An approval is applied only if its evidence agrees, so the gate then says what the authoritative
      gate said and names the decision record. */
  lemma AppliedApprovalAgrees(w: World, source: Source, steps: seq<Step>, candidate: Candidate)
    requires WellFormed(source)
    requires var s := After(w, Fresh(source), steps);
             && candidate.message in s.source.outbox
             && Validate(w.js, s.source, candidate, s.source.outbox[candidate.message]).Valid?
             && Validate(w.js, s.source, candidate, s.source.outbox[candidate.message]).event.kind == ApprovalDecided
             && ValidateAndApply(w.js, w.isUuid, s.source, s.tables, candidate).1 == Applied
    ensures var s := After(w, Fresh(source), steps);
            var e := Validate(w.js, s.source, candidate, s.source.outbox[candidate.message]).event;
            var after := ValidateAndApply(w.js, w.isUuid, s.source, s.tables, candidate).0;
            && e.run.Some? && e.sequence.Some? && (e.company, e.aggregate) in s.source.approvals
            && RunKey(e.company, e.run.value) in after.gates
            && var evidence := s.source.approvals[(e.company, e.aggregate)];
               after.gates[RunKey(e.company, e.run.value)] == Gate(e.sequence.value, evidence.gateStatus, Str(evidence.id))
  {
    hide After, Inv, WellFormed, ValidateAndApply, RunEventRows;
    var s := After(w, Fresh(source), steps);
    var m := s.source.outbox[candidate.message];
    ApprovalEvidenceAgrees(w, s.source, candidate, m);
    RunEventDelivered(w, source, steps, candidate);
    ValidDeliveryOutcome(w, source, steps, candidate);
    var e := Validate(w.js, s.source, candidate, m).event;
    hide Validate;
    AppliedGate(s.tables, ValidateAndApply(w.js, w.isUuid, s.source, s.tables, candidate).0, candidate.message, e);
  }

  lemma AppliedGate(t: Tables, t': Tables, id: Id, e: Event)
    requires RunScoped(e) && e.kind == ApprovalDecided
    requires var key := RunKey(e.company, e.run.value);
             RunEventRows(t, t', id, e, key, e.sequence.value) && e.sequence.value == LastSequence(t, key) + 1
    ensures var key := RunKey(e.company, e.run.value);
            && key in t'.gates
            && t'.gates[key] == Gate(e.sequence.value, GateStatus(e.payload), Field(e.payload, "decision_record_id"))
  {
  }

  lemma ApprovalEvidenceAgrees(w: World, s: Source, candidate: Candidate, m: OutboxMessage)
    requires Validate(w.js, s, candidate, m).Valid? && Validate(w.js, s, candidate, m).event.kind == ApprovalDecided
    ensures var e := Validate(w.js, s, candidate, m).event;
            && RunScoped(e) && (e.company, e.aggregate) in s.approvals
            && var d := s.approvals[(e.company, e.aggregate)];
               && d.gateStatus == GateStatus(e.payload)
               && Field(e.payload, "decision_record_id") == Str(d.id)
  {
    hide Validate, Describes, PolicyHolds;
    ValidIff(w.js, s, candidate, m);
  }
}
