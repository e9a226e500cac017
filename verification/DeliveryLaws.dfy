/** Which deliveries are valid, said of the documents: the envelope and the payload have to be exactly
    the objects that the stored event and its evidence determine. */
module DeliveryLaws {
  import opened Common
  import opened DeliveryValidation

  function Digest(v: Value): Value {
    if v == Null then Obj(map["value" := Null]) else v
  }

  function KindText(k: EventType): string {
    match k
    case PolicyDecided => "policy.decided"
    case ApprovalDecided => "approval.decided"
    case OtherType(name) => name
  }

  function IdOrNull(id: Option<Id>): Value {
    match id case Some(x) => Str(x) case None => Null
  }

  /** The one envelope an event can have, up to how its number and its instant are written and to what
      its payload's digest leaves open. */
  predicate Describes(js: Platform, envelope: Value, e: Event) {
    && envelope.Obj? && "run_sequence" in envelope.fields && "occurred_at" in envelope.fields && "payload" in envelope.fields
    && var number, instant, payload := envelope.fields["run_sequence"], envelope.fields["occurred_at"], envelope.fields["payload"];
       && envelope == Obj(map[
            "schema_version" := Num(1), "event_id" := Str(e.id), "event_type" := Str(KindText(e.kind)),
            "company_id" := Str(e.company), "run_id" := IdOrNull(e.run), "run_sequence" := number,
            "correlation_id" := Str(e.correlation), "causation_id" := Str(e.causation), "occurred_at" := instant,
            "payload" := payload])
       && (if e.sequence == None then number == Null else js.toNumber(number) == e.sequence)
       && instant.Str? && js.parseInstant(instant.text) == Some(e.occurredAt)
       && Digest(payload) == e.payloadDigest
  }

  /** An event that a run or, if it decides a policy, a company may have. */
  predicate Schema(e: Event) {
    && e.schema == "domain-event/v1"
    && match (e.run, e.sequence)
       case (Some(_), Some(n)) => 1 <= n <= 9007199254740991 && (e.kind == PolicyDecided || e.kind == ApprovalDecided)
       case (None, None) => e.kind == PolicyDecided
       case _ => false
  }

  /** The payload of a policy decision of a run. */
  function PolicyPayload(d: PolicyEvidence): Value {
    Obj(map["schema_version" := Num(1), "policy_decision_id" := Str(d.id), "result" := Str(d.result),
            "reason_code" := Str(d.reasonCode)])
  }

  /** The payload of a refusal that concerns no run; its last three fields repeat what the decision was
      bound to. */
  function DenialPayload(d: PolicyEvidence, action: Value, resource: Value, reference: Value): Value {
    Obj(map["schema_version" := Num(1), "policy_decision_id" := Str(d.id), "result" := Str(d.result),
            "reason_code" := Str(d.reasonCode), "action_class" := action, "resource_class" := resource,
            "supplied_reference_digest" := reference])
  }

  /** A denial's payload repeats three fields of its own choosing. */
  predicate IsDenial(payload: Value, d: PolicyEvidence) {
    && payload.Obj? && "action_class" in payload.fields && "resource_class" in payload.fields
    && "supplied_reference_digest" in payload.fields
    && payload == DenialPayload(d, payload.fields["action_class"], payload.fields["resource_class"],
                                payload.fields["supplied_reference_digest"])
  }

  /** A refusal: usable never, bound to this company and to no run, gate or artifact, for a reference
      given by its SHA-256 digest in lower case. */
  predicate Refuses(e: Event, d: PolicyEvidence, action: Value, resource: Value, reference: Value) {
    && d.result == "DENY" && d.maximumUses == 0 && !d.expires
    && d.run == None && d.gate == None && d.artifact == None && d.artifactVersion == None
    && d.binding.Obj? && "actor_type" in d.binding.fields && "actor_version" in d.binding.fields
    && d.binding == Obj(map["actor_type" := d.binding.fields["actor_type"], "actor_version" := d.binding.fields["actor_version"],
                            "company_id" := Str(e.company), "action_class" := action, "resource_class" := resource,
                            "supplied_reference_digest" := reference])
    && reference.Str? && |reference.text| == 64
    && (forall c :: c in reference.text ==> c in "0123456789abcdef")
  }

  predicate PolicyHolds(source: Source, e: Event) {
    && e.aggregateType == "PolicyDecision" && (e.company, e.aggregate) in source.policies
    && var d := source.policies[(e.company, e.aggregate)];
       && d.schema == "policy-decision/v1" && e.causation == d.command
       && if e.run.Some? then e.payload == PolicyPayload(d)
          else
            IsDenial(e.payload, d)
            && Refuses(e, d, e.payload.fields["action_class"], e.payload.fields["resource_class"],
                       e.payload.fields["supplied_reference_digest"])
  }

  /** The payload of a founder's decision. */
  function ApprovalPayload(d: ApprovalEvidence): Value {
    Obj(map["schema_version" := Num(1), "decision_record_id" := Str(d.id), "policy_decision_id" := Str(d.policyDecision),
            "decision" := Str(d.decision), "gate" := Str("GATE-01"), "gate_instance_id" := Str(d.gate),
            "artifact_version_id" := Str(d.artifactVersion), "continuation_intent_id" := Str(d.continuation),
            "resulting_run_state" := Str(if d.decision == "APPROVE" then "DESIGNING" else "QUALIFYING")])
  }

  predicate ApprovalHolds(source: Source, e: Event) {
    && e.aggregateType == "GateInstance" && (e.company, e.aggregate) in source.approvals
    && e.run.Some? && e.sequence.Some?
    && var d, prior := source.approvals[(e.company, e.aggregate)], (e.company, e.run.value, e.sequence.value - 1);
       && e.payload == ApprovalPayload(d)
       && (d.continuationKind, d.gateStatus) == (if d.decision == "APPROVE" then ("START_DESIGN_FROM_BRIEF", "APPROVED")
                                                 else ("REVISE_PRODUCT_BRIEF", "REVISION_REQUESTED"))
       && prior in source.bySequence && source.bySequence[prior] == e.causation
       && e.causation in source.events && source.events[e.causation].kind == PolicyDecided
       && source.events[e.causation].aggregate == d.policyDecision
  }

  lemma MatchDescribes(js: Platform, v: Value, e: Event, topic: string)
    requires EnvelopeMatches(js, v, e, topic)
    ensures Describes(js, v, e) && topic == KindText(e.kind) && e.payload.Obj?
  {
    assert v.fields.Keys == {"schema_version", "event_id", "event_type", "company_id", "run_id", "run_sequence",
                             "correlation_id", "causation_id", "occurred_at", "payload"};
  }

  lemma EnvelopeIff(js: Platform, v: Value, e: Event, topic: string)
    ensures EnvelopeMatches(js, v, e, topic) <==> Describes(js, v, e) && topic == KindText(e.kind) && e.payload.Obj?
  {
    if EnvelopeMatches(js, v, e, topic) {
      MatchDescribes(js, v, e, topic);
    }
  }

  lemma ReferenceIff(text: string)
    ensures HexDigest(text) <==> |text| == 64 && forall c :: c in text ==> c in "0123456789abcdef"
  {
    forall c ensures '0' <= c <= '9' || 'a' <= c <= 'f' <==> c in "0123456789abcdef" {
      HexChars(c);
    }
  }

  lemma HexChars(c: char)
    ensures '0' <= c <= '9' || 'a' <= c <= 'f' <==> c in "0123456789abcdef"
  {
    var digits := "0123456789abcdef";
    if '0' <= c <= '9' { assert digits[c as int - '0' as int] == c; }
    if 'a' <= c <= 'f' { assert digits[10 + (c as int - 'a' as int)] == c; }
  }

  lemma DenialIff(e: Event, d: PolicyEvidence, action: Value, resource: Value, reference: Value)
    requires e.run == None && e.sequence == None && e.payload == DenialPayload(d, action, resource, reference)
    ensures CompanyScopedDenial(e, d) <==> Refuses(e, d, action, resource, reference)
  {
    hide HexDigest;
    if reference.Str? { ReferenceIff(reference.text); }
  }

  lemma PolicyPayloadIff(payload: Value, d: PolicyEvidence)
    ensures payload == PolicyPayload(d) <==>
              && HasExactKeys(payload, {"schema_version", "policy_decision_id", "result", "reason_code"} + {})
              && Is(payload, "schema_version", Num(1)) && Is(payload, "policy_decision_id", Str(d.id))
              && Is(payload, "result", Str(d.result)) && Is(payload, "reason_code", Str(d.reasonCode))
  {
  }

  lemma DenialPayloadIff(payload: Value, d: PolicyEvidence)
    ensures IsDenial(payload, d) <==>
              && HasExactKeys(payload, {"schema_version", "policy_decision_id", "result", "reason_code"}
                                       + {"action_class", "resource_class", "supplied_reference_digest"})
              && Is(payload, "schema_version", Num(1)) && Is(payload, "policy_decision_id", Str(d.id))
              && Is(payload, "result", Str(d.result)) && Is(payload, "reason_code", Str(d.reasonCode))
  {
  }

  lemma PolicyIff(source: Source, e: Event)
    requires Schema(e) && e.kind == PolicyDecided
    ensures ValidatePolicy(source, e).Valid? <==> PolicyHolds(source, e)
    ensures ValidatePolicy(source, e).Valid? ==> ValidatePolicy(source, e).event == e && e.payload.Obj?
  {
    hide CompanyScopedDenial, Refuses, HasExactKeys, Is, PolicyPayload, DenialPayload;
    if (e.company, e.aggregate) in source.policies {
      var d := source.policies[(e.company, e.aggregate)];
      PolicyPayloadIff(e.payload, d);
      DenialPayloadIff(e.payload, d);
      PayloadObject(e.payload, d);
      if e.run.None? && IsDenial(e.payload, d) {
        DenialIff(e, d, e.payload.fields["action_class"], e.payload.fields["resource_class"],
                  e.payload.fields["supplied_reference_digest"]);
      }
    }
  }

  lemma PayloadObject(payload: Value, d: PolicyEvidence)
    ensures payload == PolicyPayload(d) ==> payload.Obj?
  {
  }

  lemma ApprovalPayloadIff(payload: Value, d: ApprovalEvidence)
    ensures payload == ApprovalPayload(d) <==>
              && HasExactKeys(payload, APPROVAL_KEYS) && Is(payload, "schema_version", Num(1)) && Is(payload, "gate", Str("GATE-01"))
              && Is(payload, "decision_record_id", Str(d.id)) && Is(payload, "policy_decision_id", Str(d.policyDecision))
              && Is(payload, "decision", Str(d.decision)) && Is(payload, "gate_instance_id", Str(d.gate))
              && Is(payload, "artifact_version_id", Str(d.artifactVersion))
              && Is(payload, "continuation_intent_id", Str(d.continuation))
              && Is(payload, "resulting_run_state", Str(if d.decision == "APPROVE" then "DESIGNING" else "QUALIFYING"))
  {
  }

  lemma ApprovalIff(source: Source, e: Event)
    requires Schema(e)
    ensures ValidateApproval(source, e).Valid? <==> ApprovalHolds(source, e)
    ensures ValidateApproval(source, e).Valid? ==> ValidateApproval(source, e).event == e && e.payload.Obj?
  {
    hide HasExactKeys, Is, ApprovalPayload;
    IsObject(source, e);
    if (e.company, e.aggregate) in source.approvals {
      ApprovalPayloadIff(e.payload, source.approvals[(e.company, e.aggregate)]);
    }
  }

  lemma IsObject(source: Source, e: Event)
    ensures ValidateApproval(source, e).Valid? ==> e.payload.Obj?
  {
    hide Is;
  }

  lemma SchemaIff(e: Event)
    ensures SchemaValid(e) <==> Schema(e)
  {
  }

  /** A delivery is valid exactly if all of this holds, and then it delivers the stored event. */
  lemma ValidIff(js: Platform, source: Source, candidate: Candidate, m: OutboxMessage)
    ensures var delivered := match candidate.envelope case Some(v) => v case None => m.envelope;
            var checked := Validate(js, source, candidate, m);
            && (checked.Valid? <==>
                  && Digest(m.envelope) == m.envelopeDigest && Digest(delivered) == m.envelopeDigest
                  && m.event in source.events
                  && var e := source.events[m.event];
                     && e.company == m.company && Schema(e) && Digest(e.payload) == e.payloadDigest
                     && Describes(js, delivered, e) && m.topic == KindText(e.kind)
                     && if e.kind == PolicyDecided then PolicyHolds(source, e) else ApprovalHolds(source, e))
            && (checked.Valid? ==> checked.event == source.events[m.event])
  {
    hide EnvelopeMatches, Describes, ValidatePolicy, ValidateApproval, PolicyHolds, ApprovalHolds, SchemaValid, Schema;
    if m.event in source.events {
      var e := source.events[m.event];
      SchemaIff(e);
      EnvelopeIff(js, if candidate.envelope.Some? then candidate.envelope.value else m.envelope, e, m.topic);
      if Schema(e) {
        ApprovalIff(source, e);
        if e.kind == PolicyDecided { PolicyIff(source, e); }
        HoldsOfObject(source, e);
      }
    }
  }

  lemma HoldsOfObject(source: Source, e: Event)
    ensures PolicyHolds(source, e) || ApprovalHolds(source, e) ==> e.payload.Obj?
  {
  }

  /** Which check a delivery fails first. */
  lemma ReasonIff(js: Platform, source: Source, candidate: Candidate, m: OutboxMessage)
    requires Validate(js, source, candidate, m).Invalid?
    ensures var delivered := match candidate.envelope case Some(v) => v case None => m.envelope;
            var reason := Validate(js, source, candidate, m).reason;
            var digests := Digest(m.envelope) == m.envelopeDigest && Digest(delivered) == m.envelopeDigest;
            var known := digests && m.event in source.events && source.events[m.event].company == m.company;
            var schema := known && Schema(source.events[m.event]);
            var intact := schema && Digest(source.events[m.event].payload) == source.events[m.event].payloadDigest;
            var described := intact && Describes(js, delivered, source.events[m.event])
                             && m.topic == KindText(source.events[m.event].kind) && source.events[m.event].payload.Obj?;
            && (reason == EnvelopeDigestMismatch <==> !digests)
            && (reason == EventNotFound <==> digests && !known)
            && (reason == EventSchemaInvalid <==> known && !schema)
            && (reason == PayloadDigestMismatch <==> schema && !intact)
            && (reason == EnvelopeEventMismatch <==> intact && !described)
            && (reason == PayloadSchemaInvalid || reason == CausationInvalid <==> described)
            && (reason == CausationInvalid <==> described && CausedOtherwise(source, source.events[m.event]))
  {
    hide EnvelopeMatches, Describes, ValidatePolicy, ValidateApproval, SchemaValid, Schema, CausedOtherwise;
    if m.event in source.events {
      var e := source.events[m.event];
      SchemaIff(e);
      EnvelopeIff(js, if candidate.envelope.Some? then candidate.envelope.value else m.envelope, e, m.topic);
      CausationIff(source, e);
    }
  }

  /** The payload agrees with its evidence, but the event names another cause than it should. */
  predicate CausedOtherwise(source: Source, e: Event) {
    if e.kind == PolicyDecided then
      && e.aggregateType == "PolicyDecision" && (e.company, e.aggregate) in source.policies
      && var d := source.policies[(e.company, e.aggregate)];
         && d.schema == "policy-decision/v1" && e.causation != d.command
         && if e.run.Some? then e.payload == PolicyPayload(d)
            else IsDenial(e.payload, d)
    else
      && e.aggregateType == "GateInstance" && (e.company, e.aggregate) in source.approvals
      && var d := source.approvals[(e.company, e.aggregate)];
         && e.payload == ApprovalPayload(d)
         && (d.continuationKind, d.gateStatus) == (if d.decision == "APPROVE" then ("START_DESIGN_FROM_BRIEF", "APPROVED")
                                                   else ("REVISE_PRODUCT_BRIEF", "REVISION_REQUESTED"))
         && !ApprovalHolds(source, e)
  }

  lemma CausationIff(source: Source, e: Event)
    ensures e.kind == PolicyDecided ==>
              (ValidatePolicy(source, e) == Invalid(CausationInvalid) <==> CausedOtherwise(source, e))
              && (ValidatePolicy(source, e).Invalid? ==> ValidatePolicy(source, e).reason in {PayloadSchemaInvalid, CausationInvalid})
    ensures e.kind != PolicyDecided && Schema(e) ==>
              (ValidateApproval(source, e) == Invalid(CausationInvalid) <==> CausedOtherwise(source, e))
              && (ValidateApproval(source, e).Invalid? ==> ValidateApproval(source, e).reason in {PayloadSchemaInvalid, CausationInvalid})
  {
    hide CompanyScopedDenial, HasExactKeys, Is, PolicyPayload, DenialPayload;
    if (e.company, e.aggregate) in source.policies {
      PolicyPayloadIff(e.payload, source.policies[(e.company, e.aggregate)]);
      DenialPayloadIff(e.payload, source.policies[(e.company, e.aggregate)]);
    }
    if e.kind != PolicyDecided && Schema(e) {
      ApprovalCausation(source, e);
    }
    hide ValidateApproval, ApprovalPayload, ApprovalHolds;
  }

  lemma ApprovalCausation(source: Source, e: Event)
    requires e.kind != PolicyDecided && Schema(e)
    ensures ValidateApproval(source, e) == Invalid(CausationInvalid) <==> CausedOtherwise(source, e)
    ensures ValidateApproval(source, e).Invalid? ==> ValidateApproval(source, e).reason in {PayloadSchemaInvalid, CausationInvalid}
  {
    hide HasExactKeys, Is, ApprovalPayload;
    if (e.company, e.aggregate) in source.approvals {
      ApprovalPayloadIff(e.payload, source.approvals[(e.company, e.aggregate)]);
    }
  }
}
