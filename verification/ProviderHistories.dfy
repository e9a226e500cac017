/** The provider runtime over whole histories, from an empty store. */
module ProviderHistories {
  import opened Common
  import opened ProviderStore
  import opened ProviderRuntime
  import opened ProviderTheorems
  import opened ProviderFences

  // ---------------------------------------------------------------- one step

  /** A later record: nothing taken back, and a commit only from the first generations. */
  predicate Later(r: Record, r': Record) {
    Succeeds(r, r') && (Commits(r, r') ==> FirstGenerations(r))
  }

  predicate AllLater(c: Contents, c': Contents) {
    forall id :: id in c.records ==> id in c'.records && Later(c.records[id], c'.records[id])
  }

  lemma TouchedLater(c: Contents, c': Contents, id: Id)
    requires Keyed(c) && Touches(c, c', id)
    requires Commits(c.records[id], c'.records[id]) ==> FirstGenerations(c.records[id])
    ensures AllLater(c, c')
  {
    hide Listed;
  }

  lemma TouchedStore(c: Contents, c': Contents, id: Id)
    requires StoreInv(c) && Touches(c, c', id)
    ensures StoreInv(c')
  {
    hide Touches, Listed, Effects;
    TouchedKeys(c, c', id);
    TouchedBalance(c, c', id);
    TouchedEffects(c, c', id);
  }

  /** Record `id` becomes `r`, in flight or at rest as `executing` now says. */
  lemma ExecutionsPut(s: System, s': System, id: Id)
    requires Executions(s) && id in s'.store.records && s'.store.records == s.store.records[id := s'.store.records[id]]
    requires s'.reconciling == s.reconciling && s'.tickets == s.tickets
    requires s'.signals.Keys == s'.executing.Keys
    requires forall other :: other != id ==> (other in s'.executing <==> other in s.executing)
    requires forall other :: other in s'.executing && other != id ==>
               s'.executing[other] == s.executing[other] && s'.signals[other] == s.signals[other]
    requires if id in s'.executing then Flight(s'.store.records, id, s'.executing[id], s'.signals[id])
             else AtRest(s'.store.records[id])
    ensures Executions(s')
  {
    FlightsPut(s, s', id);
    hide AtRest, Flight, Flights;
  }

  lemma TouchedRecords(c: Contents, c': Contents, id: Id)
    requires Touches(c, c', id)
    ensures id in c'.records && c'.records == c.records[id := c'.records[id]]
  {
    hide Succeeds, Commits;
  }

  lemma FlightsPut(s: System, s': System, id: Id)
    requires Flights(s.store.records, s.executing, s.signals)
    requires id in s'.store.records && s'.store.records == s.store.records[id := s'.store.records[id]]
    requires s'.signals.Keys == s'.executing.Keys
    requires forall other :: other in s'.executing && other != id ==>
               other in s.executing && s'.executing[other] == s.executing[other] && s'.signals[other] == s.signals[other]
    requires id in s'.executing ==> Flight(s'.store.records, id, s'.executing[id], s'.signals[id])
    ensures Flights(s'.store.records, s'.executing, s'.signals)
  {
    hide InFlight, FirstRead;
    forall other | other in s'.executing ensures Flight(s'.store.records, other, s'.executing[other], s'.signals[other]) {
      if other != id { assert Flight(s.store.records, other, s.executing[other], s.signals[other]); }
    }
  }

  /** A call in flight ends. */
  lemma EndedKeeps(s: System, c': Contents, id: Id)
    requires Inv(s) && Touches(s.store, c', id) && AtRest(c'.records[id])
    ensures Inv(s.(store := c', executing := s.executing - {id}, signals := s.signals - {id}))
  {
    hide StoreInv, AtRest, Executions, Touches;
    TouchedStore(s.store, c', id);
    TouchedRecords(s.store, c', id);
    SignalKeys(s);
    ExecutionsPut(s, s.(store := c', executing := s.executing - {id}, signals := s.signals - {id}), id);
  }

  lemma SignalKeys(s: System)
    requires Executions(s)
    ensures s.signals.Keys == s.executing.Keys
  {
    hide Rests, Tickets, Flight;
  }

  /** A record that is not in flight changes and comes to rest. */
  lemma RestedKeeps(s: System, c': Contents, id: Id)
    requires Inv(s) && id !in s.executing && Touches(s.store, c', id) && AtRest(c'.records[id])
    ensures Inv(s.(store := c'))
  {
    hide StoreInv, AtRest, Flights, Rests, Tickets, Succeeds;
    TouchedStore(s.store, c', id);
    SignalKeys(s);
    ExecutionsPut(s, s.(store := c'), id);
  }

  lemma RepairsBounded(s: System, id: Id)
    requires Inv(s) && id in s.store.records
    ensures s.store.records[id].repairs <= 1
    ensures id in s.executing ==> InFlight(s.store.records[id]) && FirstRead(s.executing[id]) && s.executing[id].request.invocation == id
    ensures id !in s.executing ==> AtRest(s.store.records[id])
    ensures Keyed(s.store)
  {
    hide Listed, Balanced, Effects, AtRest, InFlight, FirstRead, Tickets;
    if id in s.executing { assert Flight(s.store.records, id, s.executing[id], s.signals[id]); }
  }

  lemma AnswerKeeps(s: System, id: Id, reply: Reply)
    requires Inv(s)
    ensures Inv(AnswerNext(s, id, reply).0) && AllLater(s.store, AnswerNext(s, id, reply).0.store)
  {
    hide Inv, Touches, AtRest, AfterInvoke;
    if id in s.executing {
      InStore(s, id);
      RepairsBounded(s, id);
      InvokeEnds(s.store, s.executing[id], reply);
      var c' := AfterInvoke(s.store, s.executing[id], reply).0;
      EndedKeeps(s, c', id);
      TouchedLater(s.store, c', id);
    } else {
      LaterSelf(s);
    }
  }

  lemma InStore(s: System, id: Id)
    requires Inv(s) && id in s.executing
    ensures id in s.store.records
  {
    hide StoreInv, Rests, Tickets;
    assert Flight(s.store.records, id, s.executing[id], s.signals[id]);
  }

  lemma LaterSelf(s: System)
    requires Inv(s)
    ensures AllLater(s.store, s.store)
  {
    hide Listed, Balanced, Effects, Executions;
  }

  lemma AnsweredKeeps(s: System, ticket: nat, reply: Reply)
    requires Inv(s)
    ensures Inv(AnsweredNext(s, ticket, reply).0) && AllLater(s.store, AnsweredNext(s, ticket, reply).0.store)
  {
    hide Inv, Touches, AtRest, AfterLookup, FirstGenerations;
    LaterSelf(s);
    if ticket in s.reconciling {
      TicketInStore(s, ticket);
      var k := s.reconciling[ticket];
      var id := k.request.invocation;
      RepairsBounded(s, id);
      var (c', r) := AfterLookup(s.store, k, reply);
      if id in s.executing {
        LookupRaises(s.store, k, reply);
      } else {
        LookupEnds(s.store, k, reply);
        if r.Some? {
          RestedKeeps(s, c', id);
          TouchedLater(s.store, c', id);
        }
      }
      TicketUsed(s.(store := c'), ticket);
    }
  }

  lemma LookupRaises(c: Contents, k: Reconciliation, reply: Reply)
    requires k.request.invocation in c.records && InFlight(c.records[k.request.invocation])
    ensures AfterLookup(c, k, reply) == (c, None)
  {
    hide AfterReconciled, Reconciled;
  }

  lemma TicketInStore(s: System, ticket: nat)
    requires Inv(s) && ticket in s.reconciling
    ensures s.reconciling[ticket].request.invocation in s.store.records
  {
    hide StoreInv, Flights, Rests;
  }

  lemma TicketUsed(s: System, ticket: nat)
    requires Inv(s)
    ensures Inv(s.(reconciling := s.reconciling - {ticket}))
  {
    hide StoreInv, Flights, Rests;
  }

  lemma ExecuteKeeps(s: System, q: Request, o: Options)
    requires Inv(s) && FreshlyNamed(s, Execute(q, o))
    ensures Inv(ExecuteNext(s, q, o).0) && AllLater(s.store, ExecuteNext(s, q, o).0.store)
  {
    hide Inv, Refusal, Later;
    LaterSelf(s);
    if Refusal(q.invocation, o).None? && Found(s.store, q).Created? {
      KeyKnown(s, q);
      StoreOf(s);
      ReservedInv(s.store, q);
      Dispatched(s, q, o);
    }
  }

  lemma KeyKnown(s: System, q: Request)
    requires Inv(s) && Found(s.store, q).Created?
    ensures q.logicalKey !in s.store.keys
  {
    hide Listed, Balanced, Effects, Executions;
  }

  lemma StoreOf(s: System)
    requires Inv(s)
    ensures StoreInv(s.store)
  {
    hide StoreInv, Executions;
  }

  lemma Dispatched(s: System, q: Request, o: Options)
    requires Inv(s) && q.invocation !in s.store.records
    requires BeginDispatch(Reserved(s.store, q), q.invocation).Some?
    requires var c' := BeginDispatch(Reserved(s.store, q), q.invocation).value;
             StoreInv(c') && c'.records == s.store.records[q.invocation := Started(q)]
    ensures var c' := BeginDispatch(Reserved(s.store, q), q.invocation).value;
            && Inv(s.(store := c',
                      executing := s.executing[q.invocation := Execution(q, o, 1, 0, 0)],
                      signals := s.signals[q.invocation := false]))
            && AllLater(s.store, c')
  {
    hide StoreInv, BeginDispatch, Reserved, Executions;
    var c' := BeginDispatch(Reserved(s.store, q), q.invocation).value;
    var s' := s.(store := c', executing := s.executing[q.invocation := Execution(q, o, 1, 0, 0)],
                 signals := s.signals[q.invocation := false]);
    SignalKeys(s);
    ExecutionsPut(s, s', q.invocation);
    LaterSelf(s);
    NewIsLater(s.store, c', q.invocation);
  }

  lemma NewIsLater(c: Contents, c': Contents, id: Id)
    requires AllLater(c, c) && id !in c.records && id in c'.records && c'.records == c.records[id := c'.records[id]]
    ensures AllLater(c, c')
  {
    hide Later;
  }

  lemma GenerationsKeep(s: System, id: Id, c': Contents, signals: map<Id, bool>)
    requires Inv(s) && Touches(s.store, c', id)
    requires c'.records[id].committed == s.store.records[id].committed
    requires id in s.executing ==> InFlight(c'.records[id])
    requires id !in s.executing ==> AtRest(c'.records[id])
    requires signals.Keys == s.signals.Keys
    requires forall other :: other in signals && other != id ==> signals[other] == s.signals[other]
    requires id in signals ==> (signals[id] <==> c'.records[id].cancellation > 0)
    ensures Inv(s.(store := c', signals := signals)) && AllLater(s.store, c')
  {
    RepairsBounded(s, id);
    TouchedLater(s.store, c', id);
    TouchedStore(s.store, c', id);
    SignalKeys(s);
    hide StoreInv, AtRest, InFlight, Executions, Succeeds, Later;
    ExecutionsPut(s, s.(store := c', signals := signals), id);
  }

  lemma CancelKeeps(s: System, id: Id)
    requires Inv(s)
    ensures Inv(CancelNext(s, id).0) && AllLater(s.store, CancelNext(s, id).0.store)
  {
    hide Inv, Touches, AllLater;
    LaterSelf(s);
    if id in s.store.records {
      RepairsBounded(s, id);
      GenerationsTouch(s.store, id);
      SignalsOf(s);
      GenerationsKeep(s, id, Cancel(s.store, id).value, if id in s.signals then s.signals[id := true] else s.signals);
    }
  }

  lemma SignalsOf(s: System)
    requires Inv(s)
    ensures s.signals.Keys == s.executing.Keys
    ensures forall id :: id in s.signals ==> id in s.store.records && (s.signals[id] <==> s.store.records[id].cancellation > 0)
  {
    hide StoreInv, AtRest, InFlight, Rests, Tickets;
    forall id | id in s.signals ensures id in s.store.records && (s.signals[id] <==> s.store.records[id].cancellation > 0) {
      assert Flight(s.store.records, id, s.executing[id], s.signals[id]);
    }
  }

  /** Losing the lease, going terminal or starting a repair leaves the state alone. */
  lemma StateStands(s: System, id: Id, c': Contents)
    requires Inv(s) && Touches(s.store, c', id)
    requires c'.records[id].state == s.store.records[id].state && c'.records[id].committed == s.store.records[id].committed
    requires c'.records[id].cancellation == s.store.records[id].cancellation
    ensures Inv(s.(store := c')) && AllLater(s.store, c')
  {
    RepairsBounded(s, id);
    SignalsOf(s);
    hide StoreInv, Executions, Touches, AllLater;
    GenerationsKeep(s, id, c', s.signals);
  }

  lemma MarkKeeps(s: System, step: Step)
    requires Inv(s) && (step.LoseLeaseStep? || step.MarkTerminalStep?)
    ensures Inv(Next(s, step).0) && AllLater(s.store, Next(s, step).0.store)
  {
    hide Inv, Touches, AllLater;
    LaterSelf(s);
    var id := if step.LoseLeaseStep? then step.lost else step.marked;
    if id in s.store.records {
      RepairsBounded(s, id);
      GenerationsTouch(s.store, id);
      StateStands(s, id, if step.LoseLeaseStep? then LoseLease(s.store, id).value else MarkTerminal(s.store, id).value);
    }
  }

  lemma RepairKeeps(s: System, id: Id, repair: Id, reservation: Id)
    requires Inv(s)
    ensures var after := StoreNext(s, BeginRepair(s.store, id, repair, reservation)).0;
            Inv(after) && AllLater(s.store, after.store)
  {
    hide Inv, Touches, AllLater;
    LaterSelf(s);
    if BeginRepair(s.store, id, repair, reservation).Some? {
      RepairTouches(s.store, id, repair, reservation);
      StateStands(s, id, BeginRepair(s.store, id, repair, reservation).value);
    }
  }

  lemma ReconcileKeeps(s: System, q: Request)
    requires Inv(s)
    ensures Inv(ReconcileNext(s, q).0) && AllLater(s.store, ReconcileNext(s, q).0.store)
  {
    LaterSelf(s);
    hide StoreInv, Flights, Rests, AllLater, Tickets;
    if q.invocation in s.store.records {
      TicketIssued(s.store.records, s.reconciling, s.tickets, Reconciliation(q, s.store.records[q.invocation]));
    }
  }

  lemma TicketIssued(records: map<Id, Record>, reconciling: map<nat, Reconciliation>, tickets: nat, k: Reconciliation)
    requires Tickets(records, reconciling, tickets) && k.request.invocation in records
    ensures Tickets(records, reconciling[tickets := k], tickets + 1)
  {
  }

  lemma StepKeeps(s: System, step: Step)
    requires Inv(s) && FreshlyNamed(s, step)
    ensures Inv(Next(s, step).0) && AllLater(s.store, Next(s, step).0.store)
  {
    hide Inv, AllLater, ExecuteNext, AnswerNext, ReconcileNext, AnsweredNext, CancelNext;
    match step
    case Execute(q, o) => ExecuteKeeps(s, q, o);
    case Answer(id, reply) => AnswerKeeps(s, id, reply);
    case Reconcile(q) => ReconcileKeeps(s, q);
    case Answered(ticket, reply) => AnsweredKeeps(s, ticket, reply);
    case CancelStep(id) => CancelKeeps(s, id);
    case LoseLeaseStep(_) => MarkKeeps(s, step);
    case MarkTerminalStep(_) => MarkKeeps(s, step);
    case BeginRepairStep(id, repair, reservation) => RepairKeeps(s, id, repair, reservation);
  }

  // ---------------------------------------------------------------- histories

  lemma WellNamedPrefix(s: System, steps: seq<Step>)
    requires steps != [] && WellNamed(s, steps)
    ensures WellNamed(s, steps[..|steps| - 1])
    ensures FreshlyNamed(After(s, steps[..|steps| - 1]), steps[|steps| - 1])
  {
    hide After, FreshlyNamed;
    var before := steps[..|steps| - 1];
    forall i | 0 <= i < |before| ensures FreshlyNamed(After(s, before[..i]), before[i]) {
      assert before[..i] == steps[..i];
    }
  }

  lemma {:induction false} Reachable(steps: seq<Step>)
    requires WellNamed(Idle, steps)
    ensures Inv(After(Idle, steps))
  {
    if steps == [] {
      IdleInv();
    } else {
      hide Inv, Next, WellNamed, FreshlyNamed;
      WellNamedPrefix(Idle, steps);
      Reachable(steps[..|steps| - 1]);
      StepKeeps(After(Idle, steps[..|steps| - 1]), steps[|steps| - 1]);
    }
  }

  lemma IdleInv()
    ensures Inv(Idle)
  {
  }

  lemma LaterTransitive(a: Contents, b: Contents, c: Contents)
    requires Keyed(a) && AllLater(a, b) && AllLater(b, c)
    ensures AllLater(a, c)
  {
    hide Listed;
    forall id | id in a.records ensures id in c.records && Later(a.records[id], c.records[id]) {
      assert Later(a.records[id], b.records[id]) && Later(b.records[id], c.records[id]);
    }
  }

  /** Between any two moments of a history no record takes anything back. */
  lemma {:induction false} Onward(steps: seq<Step>, i: nat)
    requires WellNamed(Idle, steps) && i <= |steps|
    ensures AllLater(After(Idle, steps[..i]).store, After(Idle, steps).store)
  {
    hide Inv, Next, WellNamed, FreshlyNamed, AllLater;
    if i == |steps| {
      assert steps[..i] == steps;
      Reachable(steps);
      LaterSelf(After(Idle, steps));
    } else {
      var before := steps[..|steps| - 1];
      WellNamedPrefix(Idle, steps);
      assert before[..i] == steps[..i];
      Onward(before, i);
      Reachable(before);
      StepKeeps(After(Idle, before), steps[|steps| - 1]);
      PrefixKeyed(steps, i);
      LaterTransitive(After(Idle, steps[..i]).store, After(Idle, before).store, After(Idle, steps).store);
    }
  }

  lemma {:induction false} PrefixKeyed(steps: seq<Step>, i: nat)
    requires WellNamed(Idle, steps) && i <= |steps|
    ensures Keyed(After(Idle, steps[..i]).store)
  {
    hide After, FreshlyNamed, Keyed, Balanced, Effects, Executions;
    forall j | 0 <= j < i ensures FreshlyNamed(After(Idle, steps[..i][..j]), steps[..i][j]) {
      assert steps[..i][..j] == steps[..j];
    }
    Reachable(steps[..i]);
  }

  // ---------------------------------------------------------------- theorems

  /** At every await each ledger counter is the sum of what the records show: one provider call a
      logical key, one of each effect a commit. */
  lemma LedgerIsConserved(steps: seq<Step>)
    requires WellNamed(Idle, steps)
    ensures var c := After(Idle, steps).store;
            && Listed(c.order, c.records)
            && c.ledger.providerCalls == |c.keys| == |c.order|
            && c.ledger.reservations == Total(c.order, c.records, ReservationsOf)
            && c.ledger.retrySchedules == Total(c.order, c.records, RetriesOf)
            && c.ledger.repairInvocations == Total(c.order, c.records, RepairsOf)
            && (forall id :: id in c.records ==> c.records[id].repairs <= 1)
            && c.ledger.candidateCommits == Total(c.order, c.records, CommitsOf)
            && c.ledger.artifactEffects == c.ledger.taskEffects == c.ledger.stateEffects == c.ledger.candidateCommits
  {
    hide After, Executions, Effects, Total, Listed;
    Reachable(steps);
  }

  /** Each invocation is committed at most once, with one artifact and one task to show for it. */
  lemma CommittedAtMostOnce(steps: seq<Step>)
    requires WellNamed(Idle, steps)
    ensures var c := After(Idle, steps).store;
            && c.tasks == c.artifacts
            && (forall i, j :: 0 <= i < j < |c.artifacts| ==> c.artifacts[i].0 != c.artifacts[j].0)
            && (forall id, x :: (id, x) in c.artifacts <==> id in c.records && c.records[id].committed == Some(x))
  {
    hide After, Executions, Keyed, Balanced;
    Reachable(steps);
    var c := After(Idle, steps).store;
    forall id, x ensures (id, x) in c.artifacts <==> id in c.records && c.records[id].committed == Some(x) {
      if id in c.records && c.records[id].committed == Some(x) {
        var i :| 0 <= i < |c.artifacts| && c.artifacts[i].0 == id;
        assert c.artifacts[i] == (id, x);
      }
    }
  }

  /** A record canceled, reassigned or marked terminal before it commits never commits; one committed
      keeps what it committed. */
  lemma FencedForGood(steps: seq<Step>, i: nat, id: Id)
    requires WellNamed(Idle, steps) && i <= |steps| && id in After(Idle, steps[..i]).store.records
    ensures id in After(Idle, steps).store.records
    ensures var r, r' := After(Idle, steps[..i]).store.records[id], After(Idle, steps).store.records[id];
            && (!FirstGenerations(r) && r.committed.None? ==> r'.committed.None?)
            && (r.committed.Some? ==> r'.committed == r.committed)
            && r.lease <= r'.lease && r.cancellation <= r'.cancellation && r.terminal <= r'.terminal
  {
    hide After, WellNamed;
    Onward(steps, i);
  }

  /** Whether a step's receipt is about the record it names: not if a check before the reservation
      refused, nor if the key was taken by another request. */
  predicate PastReservation(s: System, step: Step) {
    step.Execute? ==> Refusal(step.request.invocation, step.options).None? && !Found(s.store, step.request).Collision?
  }

  /** A receipt says SUCCEEDED, and says committed, exactly if the record it names is committed at that
      moment and the call got past the reservation. */
  lemma ReceiptsTellCommits(steps: seq<Step>, step: Step)
    requires WellNamed(Idle, steps) && FreshlyNamed(After(Idle, steps), step)
    requires Next(After(Idle, steps), step).1.Receipted?
    ensures var s := After(Idle, steps);
            var (s', r) := (Next(s, step).0, Next(s, step).1.receipt);
            && (r.status.ResultSucceeded? <==>
                  PastReservation(s, step) && r.invocation in s'.store.records && s'.store.records[r.invocation].committed.Some?)
            && (r.committed <==> r.status.ResultSucceeded?)
  {
    hide After, Inv, AnswerNext, AnsweredNext, ExecuteNext, Refusal, Found;
    Reachable(steps);
    var s := After(Idle, steps);
    match step
    case Execute(q, o) => ExecuteReceipt(s, q, o);
    case Answer(id, reply) => AnswerReceipt(s, id, reply);
    case Answered(ticket, reply) => AnsweredReceipt(s, ticket, reply);
    case _ =>
  }

  lemma FoundRecord(s: System, q: Request)
    requires Inv(s)
    ensures match Found(s.store, q)
            case Duplicate(r) => r.invocation in s.store.records && s.store.records[r.invocation] == r
            case ToReconcile(r) => r.invocation in s.store.records && s.store.records[r.invocation] == r && r.committed.None?
            case _ => true
  {
    hide Listed, Balanced, Effects, Executions;
    if !Found(s.store, q).Created? { RepairsBounded(s, s.store.keys[q.logicalKey]); }
  }

  lemma ExecuteReceipt(s: System, q: Request, o: Options)
    requires Inv(s) && ExecuteNext(s, q, o).1.Receipted?
    ensures var (s', r) := (ExecuteNext(s, q, o).0, ExecuteNext(s, q, o).1.receipt);
            && s' == s
            && (r.status.ResultSucceeded? <==>
                  PastReservation(s, Execute(q, o)) && r.invocation in s.store.records && s.store.records[r.invocation].committed.Some?)
            && (r.committed <==> r.status.ResultSucceeded?)
  {
    hide Inv, BeginDispatch, Found;
    FoundRecord(s, q);
  }

  lemma AnswerReceipt(s: System, id: Id, reply: Reply)
    requires Inv(s) && AnswerNext(s, id, reply).1.Receipted?
    ensures var (s', r) := (AnswerNext(s, id, reply).0, AnswerNext(s, id, reply).1.receipt);
            && r.invocation in s'.store.records
            && (r.status.ResultSucceeded? <==> s'.store.records[r.invocation].committed.Some?)
            && (r.committed <==> r.status.ResultSucceeded?)
  {
    hide Inv, AtRest, AfterInvoke;
    InStore(s, id);
    RepairsBounded(s, id);
    InvokeEnds(s.store, s.executing[id], reply);
  }

  lemma AnsweredReceipt(s: System, ticket: nat, reply: Reply)
    requires Inv(s) && AnsweredNext(s, ticket, reply).1.Receipted?
    ensures var (s', r) := (AnsweredNext(s, ticket, reply).0, AnsweredNext(s, ticket, reply).1.receipt);
            && r.invocation in s'.store.records
            && (r.status.ResultSucceeded? <==> s'.store.records[r.invocation].committed.Some?)
            && (r.committed <==> r.status.ResultSucceeded?)
  {
    hide Inv, AtRest, AfterLookup;
    TicketInStore(s, ticket);
    var k := s.reconciling[ticket];
    RepairsBounded(s, k.request.invocation);
    if k.request.invocation in s.executing {
      LookupRaises(s.store, k, reply);
    } else {
      LookupEnds(s.store, k, reply);
    }
  }

  /** A cancel reaches the provider call in flight, and only that: its signal is aborted exactly if the
      record has been canceled since. */
  lemma SignalsFollowCancellation(steps: seq<Step>, id: Id)
    requires WellNamed(Idle, steps) && id in After(Idle, steps).signals
    ensures var s := After(Idle, steps);
            id in s.executing && id in s.store.records && (s.signals[id] <==> s.store.records[id].cancellation > 0)
  {
    hide After, Inv;
    Reachable(steps);
    SignalsOf(After(Idle, steps));
  }

  const Sample := Request("key", "digest", "attempt", "invocation", Some(10), ["reservation"])
  const Passed := Options(false, false, false, false, false, false, false, false, 1, 1)
  const Canceled := Passed.(preCanceled := true)
  const Output := Returned(Result(ResultSucceeded, None), true, true, Some("{}"))

  const SampleRun := [Execute(Sample, Passed), Answer("invocation", Output)]

  lemma SampleDispatches()
    ensures var s := After(Idle, SampleRun[..1]);
            && s.store.keys == map["key" := "invocation"]
            && s.store.records == map["invocation" := Started(Sample)]
            && s.executing == map["invocation" := Execution(Sample, Passed, 1, 0, 0)]
  {
    assert SampleRun[..1] == [Execute(Sample, Passed)] && SampleRun[..1][..0] == [];
    assert After(Idle, SampleRun[..1]) == Next(Idle, SampleRun[0]).0;
  }

  lemma SampleCommits()
    ensures WellNamed(Idle, SampleRun)
    ensures var s := After(Idle, SampleRun);
            && s.store.keys == map["key" := "invocation"]
            && "invocation" in s.store.records
            && s.store.records["invocation"].committed == Some("{}")
            && s.store.records["invocation"].requestDigest == "digest"
  {
    SampleDispatches();
    assert SampleRun[..0] == [];
    assert After(Idle, SampleRun) == Next(After(Idle, SampleRun[..1]), SampleRun[1]).0;
    hide After;
  }

  /** Why the reservation matters: a call refused before it is told CANCELED although its invocation has
      been committed, and a colliding one FAILED. */
  lemma RefusedThoughCommitted()
    ensures WellNamed(Idle, SampleRun)
    ensures var s := After(Idle, SampleRun);
            && "invocation" in s.store.records && s.store.records["invocation"].committed == Some("{}")
            && Next(s, Execute(Sample, Canceled)).1
               == Receipted(FailureReceipt("invocation", "PRE_DISPATCH_CANCELED").(status := ResultCanceled))
            && Next(s, Execute(Sample.(digest := "other"), Passed)).1
               == Receipted(FailureReceipt("invocation", "IDEMPOTENCY_COLLISION"))
  {
    SampleCommits();
    hide After, WellNamed;
  }
}
