/** `Gate01OutboxConsumerProbe`: applying a run's events in order, once, under any deliveries.

    One consumer key. Applying a delivery and acknowledging it are two transactions; a crash may come
    between them, and the same message may be delivered again at any time. */
module Consumer {
  import opened Common
  import opened DeliveryValidation

  datatype RunKey = RunKey(company: Id, run: Id)

  /** A row of `gate01_projection`. */
  datatype Gate = Gate(lastSequence: int, status: string, decisionRecord: Value)

  /** A row of `consumer_deferred_messages`. */
  datatype Deferred = Deferred(event: Id, run: RunKey, sequence: int)

  /** A row of `consumer_quarantine`, under its unique key: the supplied message and the reason. */
  datatype Quarantined = Quarantined(claimedEvent: Option<Id>, company: Option<Id>, run: Option<Id>)

  /** `inbox` holds the digest under which each event was received; `published` the messages whose
      `published_at` is set. */
  datatype Tables = Tables(
    offsets: map<RunKey, int>,
    inbox: map<Id, Value>,
    gates: map<RunKey, Gate>,
    deferred: map<Id, Deferred>,
    quarantine: map<(Value, Reason), Quarantined>,
    acknowledged: map<Id, Id>,
    published: set<Id>)

  datatype Outcome = Applied | Deduped | DeferredGap(expected: int) | QuarantinedFor(reason: Reason)

  const Empty := Tables(map[], map[], map[], map[], map[], map[], {})

  function Last(t: Tables, key: RunKey): int {
    if key in t.offsets then t.offsets[key] else 0
  }

  /** What names a quarantined message: the message id and the envelope that came with it. */
  function SuppliedMessage(candidate: Candidate): Value {
    Obj(map["outbox_message_id" := Str(candidate.message),
            "delivered_envelope" := if candidate.envelope.Some? then candidate.envelope.value
                                    else Obj(map["source" := Str("AUTHORITATIVE_OUTBOX")])])
  }

  function ClaimedEvent(isUuid: string -> bool, candidate: Candidate): Option<Id> {
    if candidate.envelope.Some? && candidate.envelope.value.Obj? && "event_id" in candidate.envelope.value.fields
       && candidate.envelope.value.fields["event_id"].Str? && isUuid(candidate.envelope.value.fields["event_id"].text)
    then Some(candidate.envelope.value.fields["event_id"].text) else None
  }

  /** `quarantine`: the first row under a supplied message and reason stays. */
  function Quarantine(t: Tables, candidate: Candidate, reason: Reason, row: Quarantined): (r: Tables)
    ensures r.(quarantine := t.quarantine) == t
    ensures r.quarantine.Keys == t.quarantine.Keys + {(SuppliedMessage(candidate), reason)}
  {
    var key := (SuppliedMessage(candidate), reason);
    if key in t.quarantine then t else t.(quarantine := t.quarantine[key := row])
  }

  function QuarantineKnown(t: Tables, id: Id, m: OutboxMessage, e: Event, reason: Reason): (r: Tables)
    ensures r.(quarantine := t.quarantine) == t
  {
    Quarantine(t, Candidate(id, Some(m.envelope)), reason, Quarantined(Some(e.id), Some(m.company), e.run))
  }

  function GateOf(e: Event, sequence: int): Gate {
    Gate(sequence, if Is(e.payload, "decision", Str("APPROVE")) then "APPROVED" else "REVISION_REQUESTED",
         if e.payload.Obj? && "decision_record_id" in e.payload.fields then e.payload.fields["decision_record_id"] else Null)
  }

  /** The upsert that only moves a gate forward. */
  function WithGate(gates: map<RunKey, Gate>, key: RunKey, g: Gate): map<RunKey, Gate> {
    if key !in gates || gates[key].lastSequence < g.lastSequence then gates[key := g] else gates
  }

  /** The offset row, inserted at 0 if missing. */
  function WithOffset(t: Tables, key: RunKey): Tables {
    if key in t.offsets then t else t.(offsets := t.offsets[key := 0])
  }

  /** The event received as the next of its run. */
  function Advanced(t: Tables, id: Id, key: RunKey, e: Event, sequence: int): Tables {
    t.(inbox := t.inbox[e.id := e.payloadDigest],
       gates := if e.kind.ApprovalDecided? then WithGate(t.gates, key, GateOf(e, sequence)) else t.gates,
       offsets := t.offsets[key := sequence],
       deferred := t.deferred - {id})
  }

  /** `applyInOrder` */
  function ApplyInOrder(t0: Tables, id: Id, m: OutboxMessage, e: Event): (Tables, Outcome)
    requires RunScoped(e)
  {
    var key, sequence := RunKey(e.company, e.run.value), e.sequence.value;
    var t, last := WithOffset(t0, key), Last(t0, key);
    if e.id in t.inbox then
      if t.inbox[e.id] != e.payloadDigest then
        (QuarantineKnown(t, id, m, e, InboxDigestMismatch), QuarantinedFor(InboxDigestMismatch))
      else if sequence > last then
        (QuarantineKnown(t, id, m, e, SequenceRegression), QuarantinedFor(SequenceRegression))
      else (t, Deduped)
    else if sequence > last + 1 then
      (if id in t.deferred then t else t.(deferred := t.deferred[id := Deferred(e.id, key, sequence)]),
       DeferredGap(last + 1))
    else if sequence < last + 1 then
      (QuarantineKnown(t, id, m, e, SequenceRegression), QuarantinedFor(SequenceRegression))
    else (Advanced(t, id, key, e, sequence), Applied)
  }

  /** `applyCompanyScoped` */
  function ApplyCompanyScoped(t: Tables, id: Id, m: OutboxMessage, e: Event): (Tables, Outcome) {
    if e.id in t.inbox then
      if t.inbox[e.id] != e.payloadDigest then
        (QuarantineKnown(t, id, m, e, InboxDigestMismatch), QuarantinedFor(InboxDigestMismatch))
      else (t, Deduped)
    else (t.(inbox := t.inbox[e.id := e.payloadDigest]), Applied)
  }

  /** `validateAndApply` */
  function ValidateAndApply(js: Platform, isUuid: string -> bool, source: Source, t: Tables, candidate: Candidate): (Tables, Outcome) {
    if candidate.message !in source.outbox then
      (Quarantine(t, candidate, OutboxNotFound, Quarantined(ClaimedEvent(isUuid, candidate), None, None)),
       QuarantinedFor(OutboxNotFound))
    else
      var m := source.outbox[candidate.message];
      match Validate(js, source, candidate, m)
      case Invalid(reason) =>
        (Quarantine(t, candidate, reason, Quarantined(ClaimedEvent(isUuid, candidate), Some(m.company), None)),
         QuarantinedFor(reason))
      case Valid(e) =>
        if RunScoped(e) then ApplyInOrder(t, candidate.message, m, e)
        else ApplyCompanyScoped(t, candidate.message, m, e)
  }

  /** `acknowledge` */
  function Acknowledge(t: Tables, source: Source, id: Id, event: Id): Tables {
    t.(acknowledged := if id in t.acknowledged then t.acknowledged else t.acknowledged[id := event],
       published := if id in source.outbox && source.outbox[id].event == event then t.published + {id} else t.published)
  }

  datatype ConsumeResult =
    | Finished(outcome: Outcome)          // APPLIED and DEDUPED are acknowledged, the others not
    | CrashedAfterCommit

  /** The service, statement by statement. */
  class Probe {
    const js: Platform
    const isUuid: string -> bool
    var offsets: map<RunKey, int>
    var inbox: map<Id, Value>
    var gates: map<RunKey, Gate>
    var deferred: map<Id, Deferred>
    var quarantine: map<(Value, Reason), Quarantined>
    var acknowledged: map<Id, Id>
    var published: set<Id>

    constructor (js: Platform, isUuid: string -> bool)
      ensures Contents() == Empty && this.js == js && this.isUuid == isUuid
    {
      this.js, this.isUuid := js, isUuid;
      offsets, inbox, gates, deferred := map[], map[], map[], map[];
      quarantine, acknowledged, published := map[], map[], {};
    }

    function Contents(): Tables
      reads this
    {
      Tables(offsets, inbox, gates, deferred, quarantine, acknowledged, published)
    }

    method InsertQuarantine(candidate: Candidate, reason: Reason, row: Quarantined)
      modifies this`quarantine
      ensures Contents() == Quarantine(old(Contents()), candidate, reason, row)
    {
      var key := (SuppliedMessage(candidate), reason);
      if key !in quarantine {
        quarantine := quarantine[key := row];
      }
    }

    method InOrder(id: Id, m: OutboxMessage, e: Event) returns (r: Outcome)
      requires RunScoped(e)
      modifies this
      ensures (Contents(), r) == ApplyInOrder(old(Contents()), id, m, e)
    {
      var key := RunKey(e.company, e.run.value);
      if key !in offsets {
        offsets := offsets[key := 0];
      }
      var lastSequence, runSequence := offsets[key], e.sequence.value;
      var expectedSequence := lastSequence + 1;
      if e.id in inbox {
        if inbox[e.id] != e.payloadDigest {
          InsertQuarantine(Candidate(id, Some(m.envelope)), InboxDigestMismatch, Quarantined(Some(e.id), Some(m.company), e.run));
          return QuarantinedFor(InboxDigestMismatch);
        }
        if runSequence > lastSequence {
          InsertQuarantine(Candidate(id, Some(m.envelope)), SequenceRegression, Quarantined(Some(e.id), Some(m.company), e.run));
          return QuarantinedFor(SequenceRegression);
        }
        return Deduped;
      }
      if runSequence > expectedSequence {
        if id !in deferred {
          deferred := deferred[id := Deferred(e.id, key, runSequence)];
        }
        return DeferredGap(expectedSequence);
      }
      if runSequence < expectedSequence {
        InsertQuarantine(Candidate(id, Some(m.envelope)), SequenceRegression, Quarantined(Some(e.id), Some(m.company), e.run));
        return QuarantinedFor(SequenceRegression);
      }
      inbox := inbox[e.id := e.payloadDigest];
      if e.kind.ApprovalDecided? {
        gates := WithGate(gates, key, GateOf(e, runSequence));
      }
      if offsets[key] == lastSequence {
        offsets := offsets[key := runSequence];
      }
      deferred := deferred - {id};
      return Applied;
    }

    method OfCompany(id: Id, m: OutboxMessage, e: Event) returns (r: Outcome)
      modifies this`inbox, this`quarantine
      ensures (Contents(), r) == ApplyCompanyScoped(old(Contents()), id, m, e)
    {
      if e.id in inbox {
        if inbox[e.id] != e.payloadDigest {
          InsertQuarantine(Candidate(id, Some(m.envelope)), InboxDigestMismatch, Quarantined(Some(e.id), Some(m.company), e.run));
          return QuarantinedFor(InboxDigestMismatch);
        }
        return Deduped;
      }
      inbox := inbox[e.id := e.payloadDigest];
      return Applied;
    }

    method Apply(source: Source, candidate: Candidate) returns (r: Outcome)
      modifies this
      ensures (Contents(), r) == ValidateAndApply(js, isUuid, source, old(Contents()), candidate)
    {
      if candidate.message !in source.outbox {
        InsertQuarantine(candidate, OutboxNotFound, Quarantined(ClaimedEvent(isUuid, candidate), None, None));
        return QuarantinedFor(OutboxNotFound);
      }
      var m := source.outbox[candidate.message];
      var checked := Validate(js, source, candidate, m);
      hide Validate;
      if checked.Invalid? {
        InsertQuarantine(candidate, checked.reason, Quarantined(ClaimedEvent(isUuid, candidate), Some(m.company), None));
        return QuarantinedFor(checked.reason);
      }
      if RunScoped(checked.event) {
        r := InOrder(candidate.message, m, checked.event);
      } else {
        r := OfCompany(candidate.message, m, checked.event);
      }
    }

    method Ack(source: Source, id: Id, event: Id)
      modifies this`acknowledged, this`published
      ensures Contents() == Acknowledge(old(Contents()), source, id, event)
    {
      if id !in acknowledged {
        acknowledged := acknowledged[id := event];
      }
      if id in source.outbox && source.outbox[id].event == event {
        published := published + {id};
      }
    }

    /** `consume` */
    method Consume(source: Source, candidate: Candidate, crashAfterProjectionCommit: bool) returns (r: ConsumeResult)
      modifies this
      ensures var (after, outcome) := ValidateAndApply(js, isUuid, source, old(Contents()), candidate);
              if !outcome.Applied? && !outcome.Deduped? then
                r == Finished(outcome) && Contents() == after
              else if outcome.Applied? && crashAfterProjectionCommit then
                r.CrashedAfterCommit? && Contents() == after
              else
                && candidate.message in source.outbox
                && r == Finished(outcome)
                && Contents() == Acknowledge(after, source, candidate.message, source.outbox[candidate.message].event)
    {
      var outcome := Apply(source, candidate);
      hide Validate, Quarantine, ApplyInOrder, ApplyCompanyScoped;
      if outcome.DeferredGap? || outcome.QuarantinedFor? {
        return Finished(outcome);
      }
      if outcome.Applied? && crashAfterProjectionCommit {
        return CrashedAfterCommit;
      }
      Ack(source, candidate.message, source.outbox[candidate.message].event);
      return Finished(outcome);
    }
  }
}
