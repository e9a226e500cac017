/** How a message gets into the outbox, who may lease it and when, and what publishing leaves of it,
    said of the rows. */
module OutboxLaws {
  import opened Common
  import opened Rows
  import opened Transactions
  import opened Invariants
  import opened Processes
  import opened SystemInvariant
  import opened SystemSteps
  import opened ProjectionKeys
  import opened ControlPlane
  import opened PlaneSteps
  import opened History
  import opened Theorems

  /** A row fresh from its transaction: due at once, nobody's, never tried. */
  predicate Posts(p': Plane, e: Envelope, now: Instant) {
    e.event in p'.outbox && p'.outbox[e.event] == OutboxRow(e, now, None, None, false, 0)
  }

  /** The text a projection is unique under. */
  lemma KeyTexts(e: Id, k: Id, q: nat, p: Payload, kind: CompanyEvent)
    ensures KeyOf(Envelope(e, OfRun(k, q, p))) == RunTypeName(p) + ":" + Numeral(k) + ":" + Numeral(q)
    ensures KeyOf(Envelope(e, OfCompany(kind))) == CompanyTypeName(kind) + ":company:" + Numeral(e)
  {
    hide RunTypeName, CompanyTypeName, Numeral, Join;
    Written(RunTypeName(p), Numeral(k), Numeral(q));
    Written(CompanyTypeName(kind), "company", Numeral(e));
    Regrouped(CompanyTypeName(kind), Numeral(e));
  }

  lemma Written(a: string, b: string, c: string)
    ensures Join(a, b, c) == a + ":" + b + ":" + c
  {
  }

  lemma Regrouped(a: string, c: string)
    ensures a + ":" + "company" + ":" + c == a + ":company:" + c
  {
    assert ":" + "company" + ":" == ":company:";
    assert a + ":" + "company" + ":" + c == a + (":" + "company" + ":") + c;
  }

  /** A text of digits read as a decimal number. */
  function Value(t: string): int {
    if t == [] then 0 else Value(t[..|t| - 1]) * 10 + (t[|t| - 1] as int - '0' as int)
  }

  /** Numbers are printed in decimal. */
  lemma {:induction false} NumeralReads(n: nat)
    ensures Value(Numeral(n)) == n
  {
    var t := Numeral(n);
    assert t[|t| - 1] as int - '0' as int == n % 10;
    if n >= 10 {
      NumeralReads(n / 10);
      assert t[..|t| - 1] == Numeral(n / 10);
    } else {
      assert t[..0] == [];
    }
  }

  /** The names of the event types. */
  lemma TypesAreNamed(p: Payload, kind: CompanyEvent)
    ensures (RunTypeName(p) == "run_created" <==> p.RunCreated?)
            && (RunTypeName(p) == "goal_qualification_recorded" <==> p.GoalQualificationRecorded?)
            && (RunTypeName(p) == "task_started" <==> p.TaskStarted?)
            && (RunTypeName(p) == "model_outcome_reconciliation_required" <==> p.ReconciliationRequired?)
            && (RunTypeName(p) == "product_brief_published" <==> p.BriefPublished?)
            && (RunTypeName(p) == "founder_input_requested" <==> p.InputRequested?)
            && (RunTypeName(p) == "founder_input_resolved" <==> p.InputResolved?)
            && (RunTypeName(p) == "durability_cancel_probe" <==> p.CancelProbe?)
            && (RunTypeName(p) == "durability_sequence_probe" <==> p.SequenceProbe?)
    ensures (CompanyTypeName(kind) == "company_created" <==> kind == CompanyCreated)
            && (CompanyTypeName(kind) == "company_profile_version_created" <==> kind == ProfileVersionCreated)
            && (CompanyTypeName(kind) == "attachment_ingested" <==> kind == AttachmentIngested)
            && (CompanyTypeName(kind) == "attachment_rejected" <==> kind == AttachmentRejected)
  {
  }

  // ---------------------------------------------------------------- leasing

  /** Unpublished, due, and not under a lease that lasts. */
  predicate Free(m: OutboxRow, now: Instant) {
    && !m.published && m.availableAt <= now
    && (m.leaseExpiresAt.None? || m.leaseExpiresAt.value < now)
  }

  /** A message is leased exactly if it is free, under a token nobody has had and for the time asked. */
  lemma LeasesIff(p: Plane, event: Id, leaseSeconds: nat, now: Instant)
    ensures var p' := Do(p, ClaimMessage(event, leaseSeconds), now);
            if event in p.outbox && Free(p.outbox[event], now) then
              && p.nextId < p'.nextId
              && p' == p.(nextId := p'.nextId,
                          outbox := p.outbox[event := p.outbox[event].(leaseToken := Some(p.nextId),
                                                                      leaseExpiresAt := Some(now + leaseSeconds),
                                                                      attempts := p.outbox[event].attempts + 1)],
                          publishers := p.publishers[p.nextId := Holding(event)])
            else p' == p
  {
  }

  /** While a lease lasts nothing happens to its message but that its holder publishes it. */
  lemma LeaseIsExclusive(script: Script, event: Id, a: Action, now: Instant)
    requires event in Reach(script).outbox && Reach(script).outbox[event].leaseExpiresAt.Some?
    requires now <= Reach(script).outbox[event].leaseExpiresAt.value
    ensures var m, p' := Reach(script).outbox[event], Do(Reach(script), a, now);
            && event in p'.outbox
            && (p'.outbox[event] == m
                || (a.MarkPublished? && m.leaseToken == Some(a.token)
                    && p'.outbox[event] == m.(published := true, leaseToken := None, leaseExpiresAt := None)))
  {
    hide After, PlaneInv, Do;
    ReachInv(script);
    LeaseKept(Reach(script), event, a, now);
  }

  /** Runs add messages and leave those there are alone. */
  lemma RunLeavesMessages(p: Plane, event: Id, k: Id, step: Step, now: Instant)
    requires PlaneInv(p) && event in p.outbox && k in p.runs
    ensures var p' := InRunNext(p, k, step, now);
            event in p'.outbox && p'.outbox[event] == p.outbox[event]
  {
    hide Next, PlaneInv, Successor, Unposted;
    var s, s' := p.runs[k], Next(p.runs[k], step, now, p.nextId);
    StepSucceeds(p, k, step, now);
    SuccessorGrows(p, k, s', |s.db.events|);
    UnpostedOf(p, k, s', |s.db.events|);
    PostedExactly(p.outbox, k, s'.db.events, |s.db.events|, now);
  }

  lemma CreationLeavesMessages(p: Plane, event: Id, a: Action, now: Instant)
    requires PlaneInv(p) && event in p.outbox && a.CreateRun?
    ensures var p' := CreateRunNext(p, a, now);
            event in p'.outbox && p'.outbox[event] == p.outbox[event]
  {
    hide PlaneInv, Successor, Unposted, TablesInv, CreatedRun;
    var k, db := p.nextId + IDS_PER_STEP, RowsFor(p, a, now);
    RowsForFacts(p, a, now);
    CreateSucceeds(p, k, db);
    NewRunIsNew(p);
    UnpostedOf(p, k, Start(db), 0);
    PostedExactly(p.outbox, k, db.events, 0, now);
  }

  lemma SuccessorGrows(p: Plane, k: Id, s': RunSystem, from: nat)
    requires Successor(p, k, s', from)
    ensures from <= |s'.db.events|
  {
    hide SystemInv, Numbered;
  }

  lemma LeaseKept(p: Plane, event: Id, a: Action, now: Instant)
    requires PlaneInv(p) && event in p.outbox && p.outbox[event].leaseExpiresAt.Some?
    requires now <= p.outbox[event].leaseExpiresAt.value
    ensures var m, p' := p.outbox[event], Do(p, a, now);
            && event in p'.outbox
            && (p'.outbox[event] == m
                || (a.MarkPublished? && m.leaseToken == Some(a.token)
                    && p'.outbox[event] == m.(published := true, leaseToken := None, leaseExpiresAt := None)))
  {
    hide KeyOf, ProjectionConflict, PlaneInv, InRunNext, CreateRunNext;
    match a
    case InRun(k, step) => if k in p.runs { RunLeavesMessages(p, event, k, step, now); }
    case CreateRun(_, _, _, _, _) => CreationLeavesMessages(p, event, a, now);
    case _ => MessageIsOld(p, event);
  }

  lemma MessageIsOld(p: Plane, event: Id)
    requires PlaneInv(p) && event in p.outbox
    ensures event < p.nextId
  {
    hide SystemInv, ProjectionInv, AllPosted;
  }

  // ---------------------------------------------------------------- publishing

  /** A publisher marks its message exactly if it still holds the lease; either way it is done. */
  lemma MarksIff(p: Plane, token: Id, now: Instant)
    requires token in p.publishers && p.publishers[token].Projected?
    ensures var event, p' := p.publishers[token].event, Do(p, MarkPublished(token), now);
            && p' == p.(outbox := p'.outbox, publishers := p.publishers - {token})
            && p'.outbox == (if event in p.outbox && p.outbox[event].leaseToken == Some(token) && !p.outbox[event].published
                             then p.outbox[event := p.outbox[event].(published := true, leaseToken := None, leaseExpiresAt := None)]
                             else p.outbox)
  {
  }

  /** What an action appends to a run is in the outbox as it was appended. */
  lemma AppendedIsPosted(script: Script, k: Id, step: Step, now: Instant, i: nat)
    requires k in Reach(script).runs
    requires var p' := Do(Reach(script), InRun(k, step), now);
             k in p'.runs && |Reach(script).runs[k].db.events| <= i < |p'.runs[k].db.events|
    ensures var p' := Do(Reach(script), InRun(k, step), now);
            var e := p'.runs[k].db.events[i];
            Posts(p', Envelope(e.id, OfRun(k, i + 1, e.payload)), now)
  {
    hide After, SystemInv, Next;
    ReachInv(script);
    var p := Reach(script);
    var s, s' := p.runs[k], Next(p.runs[k], step, now, p.nextId);
    StepSucceeds(p, k, step, now);
    UnpostedOf(p, k, s', |s.db.events|);
    PostedExactly(p.outbox, k, s'.db.events, |s.db.events|, now);
    hide PlaneInv, Reach;
  }

  lemma CompanyEventIsPosted(p: Plane, kind: CompanyEvent, now: Instant)
    ensures var p' := Do(p, AppendCompanyEvent(kind), now);
            && Posts(p', Envelope(p.nextId, OfCompany(kind)), now)
            && p' == p.(nextId := p'.nextId, outbox := p.outbox[p.nextId := p'.outbox[p.nextId]])
  {
  }
}
