/** `OutboxPublisherService` as the code writes it: claim a message, consume it, mark it published.

    A publisher that stops or fails between two of these leaves the message to a later claim. */
module OutboxPublisher {
  import opened Common
  import opened Rows
  import opened ProjectionKeys
  import opened ControlPlane

  datatype PublishResult =
    | Idle                     // publishOnce resolved to false
    | Stopped(event: Id)       // stopAfterConsumerCommit
    | Published(event: Id)
    | Rejected(event: Id)      // consume raised

  class Publisher {
    var nextId: Id
    var outbox: map<Id, OutboxRow>
    var receipts: set<Id>
    var projections: seq<Projection>

    constructor (p: Plane)
      ensures nextId == p.nextId && outbox == p.outbox && receipts == p.receipts && projections == p.projections
    {
      nextId, outbox, receipts, projections := p.nextId, p.outbox, p.receipts, p.projections;
    }

    /** These tables as a plane whose only publisher is this one. */
    function Tables(publishers: map<Id, PublisherPhase>): Plane
      reads this
    {
      Plane(nextId, map[], outbox, receipts, projections, publishers)
    }

    /** `claim`: any row the query may return, with a fresh lease token. */
    method Claim(now: Instant, leaseSeconds: nat, wanted: Option<Id>) returns (message: Option<(Id, Id)>)
      modifies this
      ensures message.None? ==>
                Tables(map[]) == old(Tables(map[]))
                && forall e :: MessageClaimable(old(Tables(map[])), e, now) ==> wanted.Some? && e != wanted.value
      ensures message.Some? ==>
                var (event, token) := message.value;
                && MessageClaimable(old(Tables(map[])), event, now) && (wanted.Some? ==> event == wanted.value)
                && token == old(nextId)
                && Tables(map[token := Holding(event)]) == ClaimMessageNext(old(Tables(map[])), event, leaseSeconds, now)
    {
      var candidates := set e |
          e in outbox && !outbox[e].published && outbox[e].availableAt <= now
          && (outbox[e].leaseExpiresAt.None? || outbox[e].leaseExpiresAt.value < now)
          && (wanted.None? || e == wanted.value);
      if candidates == {} {
        assert forall e :: MessageClaimable(Tables(map[]), e, now) && (wanted.None? || e == wanted.value) ==> e in candidates;
        return None;
      }
      var event :| event in candidates;
      var token := nextId;
      nextId := nextId + IDS_PER_ACTION;
      var m := outbox[event];
      outbox := outbox[event := m.(leaseToken := Some(token), leaseExpiresAt := Some(now + leaseSeconds),
                                   attempts := m.attempts + 1)];
      return Some((event, token));
    }

    /** `consume`: a receipt, and with the first receipt a projection; a conflict rolls back. */
    method Consume(event: Id, token: Id) returns (ok: bool)
      requires event in outbox
      modifies this`receipts, this`projections
      ensures ok == !(event !in old(receipts) && ProjectionConflict(old(Tables(map[])), event, KeyOf(outbox[event].envelope)))
      ensures Tables(if ok then map[token := Projected(event)] else map[]) == ConsumeNext(old(Tables(map[token := Holding(event)])), token)
    {
      if event in receipts {
        return true;
      }
      receipts := receipts + {event};
      var projectionKey := KeyOf(outbox[event].envelope);
      if exists r :: r in projections && (r.event == event || r.key == projectionKey) {
        receipts := receipts - {event};
        return false;
      }
      projections := projections + [Projection(event, projectionKey)];
      return true;
    }

    /** The last transaction: mark the message, unless its lease has been taken over meanwhile. */
    method MarkPublished(event: Id, token: Id)
      modifies this`outbox
      ensures Tables(map[]) == PublishNext(old(Tables(map[token := Projected(event)])), token)
    {
      if event in outbox && outbox[event].leaseToken == Some(token) && !outbox[event].published {
        outbox := outbox[event := outbox[event].(published := true, leaseToken := None, leaseExpiresAt := None)];
      }
    }

    /** `publishOnce` */
    method PublishOnce(now: Instant, leaseSeconds: nat, wanted: Option<Id>, stopAfterConsumerCommit: bool)
      returns (r: PublishResult)
      modifies this
      ensures r.Idle? ==>
                Tables(map[]) == old(Tables(map[]))
                && forall e :: MessageClaimable(old(Tables(map[])), e, now) ==> wanted.Some? && e != wanted.value
      ensures !r.Idle? ==>
                && MessageClaimable(old(Tables(map[])), r.event, now) && (wanted.Some? ==> r.event == wanted.value)
                && r.event in outbox && outbox == old(outbox)[r.event := outbox[r.event]]
                && outbox[r.event].envelope == old(outbox)[r.event].envelope
                && outbox[r.event].published == r.Published?
                && (outbox[r.event].leaseToken.None? <==> r.Published?)
      ensures r.Stopped? ==> stopAfterConsumerCommit
      ensures r.Published? ==> !stopAfterConsumerCommit
      ensures r.Stopped? || r.Published? ==>
                && receipts == old(receipts) + {r.event}
                && projections == old(projections)
                     + (if r.event in old(receipts) then [] else [Projection(r.event, KeyOf(outbox[r.event].envelope))])
      ensures r.Rejected? ==>
                && receipts == old(receipts) && projections == old(projections)
                && r.event !in receipts && ProjectionConflict(old(Tables(map[])), r.event, KeyOf(outbox[r.event].envelope))
    {
      var message := Claim(now, leaseSeconds, wanted);
      if message.None? {
        return Idle;
      }
      var (event, token) := message.value;
      hide KeyOf;
      var ok := Consume(event, token);
      if !ok {
        return Rejected(event);
      }
      if stopAfterConsumerCommit {
        return Stopped(event);
      }
      MarkPublished(event, token);
      return Published(event);
    }
  }
}
