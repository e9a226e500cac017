/** What the consumer checks of a delivery before it looks at its own tables, reason by reason in the
    order of the code. */
module DeliveryValidation {
  import opened Common

  type Id = string
  type Instant = int

  /** A JSON value. Objects have no key order, so equal values are what equal canonical digests mean:
      a digest is represented by the value digested. */
  datatype Value =
    | Null
    | Bool(truth: bool)
    | Num(number: int)
    | Str(text: string)
    | Arr(items: seq<Value>)
    | Obj(fields: map<string, Value>)

  /** `safeDigest`: null is digested as an object that says so. */
  function SafeDigest(v: Value): Value {
    if v.Null? then Obj(map["value" := Null]) else v
  }

  /** `Number` and `Date.parse`. */
  datatype Platform = Platform(toNumber: Value -> Option<int>, parseInstant: string -> Option<Instant>)

  datatype EventType = PolicyDecided | ApprovalDecided | OtherType(name: string)

  function TypeText(t: EventType): string {
    match t
    case PolicyDecided => "policy.decided"
    case ApprovalDecided => "approval.decided"
    case OtherType(name) => name
  }

  datatype Event = Event(
    id: Id, schema: string, kind: EventType, company: Id, run: Option<Id>, sequence: Option<int>,
    aggregateType: string, aggregate: Id, correlation: Id, causation: Id, occurredAt: Instant,
    payload: Value, payloadDigest: Value)

  datatype OutboxMessage = OutboxMessage(company: Id, event: Id, topic: string, envelope: Value, envelopeDigest: Value)

  datatype PolicyEvidence = PolicyEvidence(
    id: Id, command: Id, schema: string, result: string, reasonCode: string, binding: Value,
    expires: bool, maximumUses: int, run: Option<Id>, gate: Option<Id>, artifact: Option<Id>, artifactVersion: Option<Id>)

  datatype ApprovalEvidence = ApprovalEvidence(
    id: Id, policyDecision: Id, decision: string, gate: Id, artifactVersion: Id,
    continuation: Id, continuationKind: string, gateStatus: string)

  /** `bySequence` is the unique index on company, run and sequence. Evidence is found by company and id. */
  datatype Source = Source(
    outbox: map<Id, OutboxMessage>,
    events: map<Id, Event>,
    bySequence: map<(Id, Id, int), Id>,
    policies: map<(Id, Id), PolicyEvidence>,
    approvals: map<(Id, Id), ApprovalEvidence>)

  datatype Reason =
    | OutboxNotFound | EnvelopeDigestMismatch | EventNotFound | EventSchemaInvalid | EnvelopeEventMismatch
    | PayloadDigestMismatch | PayloadSchemaInvalid | CausationInvalid | SequenceRegression | InboxDigestMismatch

  /** A delivery names a message; it may carry its own copy of the envelope. */
  datatype Candidate = Candidate(message: Id, envelope: Option<Value>)

  datatype Checked = Valid(event: Event) | Invalid(reason: Reason)

  const MAX_SAFE_INTEGER := 9007199254740991

  predicate HasExactKeys(v: Value, keys: set<string>) {
    v.Obj? && v.fields.Keys == keys
  }

  /** `record[key] === value` on a record known to have the key or not. */
  predicate Is(v: Value, key: string, value: Value) {
    v.Obj? && key in v.fields && v.fields[key] == value
  }

  function OrNull(id: Option<Id>): Value {
    if id.Some? then Str(id.value) else Null
  }

  predicate CompanyScoped(e: Event) {
    e.run.None? && e.sequence.None?
  }

  predicate RunScoped(e: Event) {
    e.run.Some? && e.sequence.Some? && 0 < e.sequence.value <= MAX_SAFE_INTEGER
  }

  predicate SchemaValid(e: Event) {
    && e.schema == "domain-event/v1"
    && (CompanyScoped(e) || RunScoped(e))
    && (CompanyScoped(e) ==> e.kind.PolicyDecided?)
    && (e.kind.PolicyDecided? || e.kind.ApprovalDecided?)
  }

  const ENVELOPE_KEYS := {"schema_version", "event_id", "event_type", "company_id", "run_id", "run_sequence",
                          "correlation_id", "causation_id", "occurred_at", "payload"}

  predicate EnvelopeMatches(js: Platform, envelope: Value, e: Event, topic: string) {
    && HasExactKeys(envelope, ENVELOPE_KEYS) && e.payload.Obj?
    && Is(envelope, "schema_version", Num(1))
    && Is(envelope, "event_id", Str(e.id))
    && Is(envelope, "event_type", Str(TypeText(e.kind)))
    && Is(envelope, "company_id", Str(e.company))
    && Is(envelope, "run_id", OrNull(e.run))
    && (if e.sequence.None? then Is(envelope, "run_sequence", Null)
        else "run_sequence" in envelope.fields && js.toNumber(envelope.fields["run_sequence"]) == e.sequence)
    && Is(envelope, "correlation_id", Str(e.correlation))
    && Is(envelope, "causation_id", Str(e.causation))
    && "occurred_at" in envelope.fields && envelope.fields["occurred_at"].Str?
    && js.parseInstant(envelope.fields["occurred_at"].text) == Some(e.occurredAt)
    && "payload" in envelope.fields && SafeDigest(envelope.fields["payload"]) == e.payloadDigest
    && topic == TypeText(e.kind)
  }

  /** `validateDelivery` */
  function Validate(js: Platform, source: Source, candidate: Candidate, m: OutboxMessage): Checked {
    var delivered := if candidate.envelope.None? then m.envelope else candidate.envelope.value;
    if SafeDigest(m.envelope) != m.envelopeDigest || SafeDigest(delivered) != m.envelopeDigest
    then Invalid(EnvelopeDigestMismatch)
    else if m.event !in source.events || source.events[m.event].company != m.company then Invalid(EventNotFound)
    else
      var e := source.events[m.event];
      if !SchemaValid(e) then Invalid(EventSchemaInvalid)
      else if SafeDigest(e.payload) != e.payloadDigest then Invalid(PayloadDigestMismatch)
      else if !EnvelopeMatches(js, delivered, e, m.topic) then Invalid(EnvelopeEventMismatch)
      else if e.kind.PolicyDecided? then ValidatePolicy(source, e)
      else ValidateApproval(source, e)
  }

  function ValidatePolicy(source: Source, e: Event): Checked {
    var keys := {"schema_version", "policy_decision_id", "result", "reason_code"}
                + if e.run.None? then {"action_class", "resource_class", "supplied_reference_digest"} else {};
    if !HasExactKeys(e.payload, keys) || !Is(e.payload, "schema_version", Num(1)) then Invalid(PayloadSchemaInvalid)
    else if e.aggregateType != "PolicyDecision" || (e.company, e.aggregate) !in source.policies then Invalid(PayloadSchemaInvalid)
    else
      var decision := source.policies[(e.company, e.aggregate)];
      if decision.schema != "policy-decision/v1"
         || !Is(e.payload, "policy_decision_id", Str(decision.id))
         || !Is(e.payload, "result", Str(decision.result))
         || !Is(e.payload, "reason_code", Str(decision.reasonCode))
      then Invalid(PayloadSchemaInvalid)
      else if e.causation != decision.command then Invalid(CausationInvalid)
      else if e.run.None? && !CompanyScopedDenial(e, decision) then Invalid(PayloadSchemaInvalid)
      else Valid(e)
  }

  predicate HexDigest(s: string) {
    |s| == 64 && forall c :: c in s ==> '0' <= c <= '9' || 'a' <= c <= 'f'
  }

  /** `validateCompanyScopedDenial`; its last three tests are implied by the exact key list. */
  predicate CompanyScopedDenial(e: Event, decision: PolicyEvidence) {
    && e.sequence.None?
    && decision.result == "DENY" && Is(e.payload, "result", Str("DENY"))
    && decision.maximumUses == 0 && !decision.expires
    && decision.run.None? && decision.gate.None? && decision.artifact.None? && decision.artifactVersion.None?
    && HasExactKeys(decision.binding, {"actor_type", "actor_version", "company_id", "action_class", "resource_class",
                                       "supplied_reference_digest"})
    && Is(decision.binding, "company_id", Str(e.company))
    && (forall key :: key in {"action_class", "resource_class", "supplied_reference_digest"} ==>
          key in decision.binding.fields && Is(e.payload, key, decision.binding.fields[key]))
    && decision.binding.fields["supplied_reference_digest"].Str?
    && HexDigest(decision.binding.fields["supplied_reference_digest"].text)
  }

  const APPROVAL_KEYS := {"schema_version", "decision_record_id", "policy_decision_id", "decision", "gate",
                          "gate_instance_id", "artifact_version_id", "resulting_run_state", "continuation_intent_id"}

  function ValidateApproval(source: Source, e: Event): Checked {
    if !HasExactKeys(e.payload, APPROVAL_KEYS) || !Is(e.payload, "schema_version", Num(1)) || !Is(e.payload, "gate", Str("GATE-01"))
    then Invalid(PayloadSchemaInvalid)
    else if e.aggregateType != "GateInstance" || (e.company, e.aggregate) !in source.approvals then Invalid(PayloadSchemaInvalid)
    else
      var d := source.approvals[(e.company, e.aggregate)];
      var approved := d.decision == "APPROVE";
      if !Is(e.payload, "decision_record_id", Str(d.id))
         || !Is(e.payload, "policy_decision_id", Str(d.policyDecision))
         || !Is(e.payload, "decision", Str(d.decision))
         || !Is(e.payload, "gate_instance_id", Str(d.gate))
         || !Is(e.payload, "artifact_version_id", Str(d.artifactVersion))
         || !Is(e.payload, "continuation_intent_id", Str(d.continuation))
         || !Is(e.payload, "resulting_run_state", Str(if approved then "DESIGNING" else "QUALIFYING"))
         || d.continuationKind != (if approved then "START_DESIGN_FROM_BRIEF" else "REVISE_PRODUCT_BRIEF")
         || d.gateStatus != (if approved then "APPROVED" else "REVISION_REQUESTED")
      then Invalid(PayloadSchemaInvalid)
      else if e.run.None? || e.sequence.None? || (e.company, e.run.value, e.sequence.value - 1) !in source.bySequence
      then Invalid(CausationInvalid)
      else
        var priorId := source.bySequence[(e.company, e.run.value, e.sequence.value - 1)];
        if priorId !in source.events || priorId != e.causation
           || !source.events[priorId].kind.PolicyDecided? || source.events[priorId].aggregate != d.policyDecision
        then Invalid(CausationInvalid)
        else Valid(e)
  }

  /** What a consumer that trusts a valid delivery relies on: it speaks of the stored event, number by
      number, under the digest of that event's payload. */
  lemma ValidEnvelopeDescribesEvent(js: Platform, source: Source, candidate: Candidate, m: OutboxMessage)
    requires Validate(js, source, candidate, m).Valid?
    ensures var e := Validate(js, source, candidate, m).event;
            && m.event in source.events && e == source.events[m.event] && e.company == m.company
            && e.schema == "domain-event/v1" && (CompanyScoped(e) || RunScoped(e))
            && m.envelope.Obj? && m.envelope.fields.Keys == ENVELOPE_KEYS
            && m.envelope.fields["event_id"] == Str(e.id)
            && m.envelope.fields["event_type"] == Str(m.topic)
            && m.envelope.fields["company_id"] == Str(e.company)
            && m.envelope.fields["run_id"] == OrNull(e.run)
            && (e.sequence.Some? ==> js.toNumber(m.envelope.fields["run_sequence"]) == e.sequence)
            && SafeDigest(m.envelope.fields["payload"]) == SafeDigest(e.payload) == e.payloadDigest
  {
    OnlyTheStoredEnvelope(js, source, candidate, m);
    KeysOf(m.envelope);
    hide ValidatePolicy, ValidateApproval;
    ValidKeeps(source, source.events[m.event]);
  }

  lemma KeysOf(v: Value)
    requires v.Obj? && v.fields.Keys == ENVELOPE_KEYS
    ensures "event_id" in v.fields && "event_type" in v.fields && "company_id" in v.fields && "run_id" in v.fields
    ensures "run_sequence" in v.fields && "payload" in v.fields
  {
  }

  lemma ValidKeeps(source: Source, e: Event)
    ensures ValidatePolicy(source, e).Valid? ==> ValidatePolicy(source, e).event == e
    ensures ValidateApproval(source, e).Valid? ==> ValidateApproval(source, e).event == e
  {
  }

  /** A valid approval follows, in its run, the policy decision that caused it and that it names. */
  lemma ValidApprovalFollowsPolicy(js: Platform, source: Source, candidate: Candidate, m: OutboxMessage)
    requires Validate(js, source, candidate, m).Valid? && Validate(js, source, candidate, m).event.kind.ApprovalDecided?
    ensures var e := Validate(js, source, candidate, m).event;
            && RunScoped(e) && (e.company, e.run.value, e.sequence.value - 1) in source.bySequence
            && var prior := source.bySequence[(e.company, e.run.value, e.sequence.value - 1)];
               && prior == e.causation && prior in source.events && source.events[prior].kind.PolicyDecided?
               && Is(e.payload, "policy_decision_id", Str(source.events[prior].aggregate))
  {
    hide EnvelopeMatches, ValidatePolicy;
    ValidKeeps(source, source.events[m.event]);
  }

  /** A delivery that carries an envelope other than the stored one is not valid; one that carries the
      stored one, or none, fares alike. Null and the object that stands for it share a digest, but
      neither is an envelope. */
  lemma OnlyTheStoredEnvelope(js: Platform, source: Source, candidate: Candidate, m: OutboxMessage)
    ensures Validate(js, source, candidate, m).Valid? ==> candidate.envelope in {None, Some(m.envelope)}
    ensures candidate.envelope == Some(m.envelope) ==>
              Validate(js, source, candidate, m) == Validate(js, source, candidate.(envelope := None), m)
  {
    hide ValidatePolicy, ValidateApproval;
    assert "schema_version" in ENVELOPE_KEYS && "schema_version" !in map["value" := Null].Keys;
  }
}
