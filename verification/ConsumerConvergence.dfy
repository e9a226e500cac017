/** Redelivering everything often enough brings a run up to date, in whatever order. */
module ConsumerConvergence {
  import opened Common
  import opened DeliveryValidation
  import opened Consumer
  import opened ConsumerTheorems

  /** `messages[i]` carries the valid event numbered i + 1, and the run has no other events. */
  ghost predicate AllValid(w: World, s: Source, key: RunKey, messages: seq<Id>) {
    && (forall i :: 0 <= i < |messages| ==>
          && Numbered(s, key, i + 1)
          && messages[i] in s.outbox && s.outbox[messages[i]].event == EventAt(s, key, i + 1)
          && Validate(w.js, s, Candidate(messages[i], None), s.outbox[messages[i]]).Valid?)
    && (forall n :: Numbered(s, key, n) ==> 1 <= n <= |messages|)
  }

  /** Deliveries, acknowledgements and crashes, in which each message is delivered at least once as it is
      stored. Any other delivery may occur in between, forged ones included. */
  predicate Pass(s: Source, messages: seq<Id>, steps: seq<Step>) {
    && (forall step :: step in steps ==> !step.Publishes?)
    && (forall i :: 0 <= i < |messages| ==> Delivered(s, messages[i], steps))
  }

  predicate Delivered(s: Source, message: Id, steps: seq<Step>) {
    exists j :: 0 <= j < |steps| && DeliversStored(s, message, steps[j])
  }

  predicate DeliversStored(s: Source, message: Id, step: Step) {
    && step.Deliver? && step.candidate.message == message && message in s.outbox
    && (step.candidate.envelope == None || step.candidate.envelope == Some(s.outbox[message].envelope))
  }

  lemma {:induction false} AfterSplits(w: World, s: System, first: seq<Step>, rest: seq<Step>)
    ensures After(w, s, first + rest) == After(w, After(w, s, first), rest)
  {
    hide Next;
    if rest == [] {
      assert first + rest == first;
    } else {
      assert (first + rest)[..|first + rest| - 1] == first + rest[..|rest| - 1];
      AfterSplits(w, s, first, rest[..|rest| - 1]);
    }
  }

  lemma StepAdvances(w: World, s: System, step: Step, key: RunKey)
    requires Inv(s) && !step.Publishes?
    ensures var s' := Next(w, s, step);
            s'.source == s.source && Last(s'.tables, key) >= Last(s.tables, key)
  {
    hide Inv, Validate, ApplyInOrder, Quarantine;
    if step.Deliver? && step.candidate.message in s.source.outbox {
      var m := s.source.outbox[step.candidate.message];
      if Validate(w.js, s.source, step.candidate, m).Valid? {
        var e := Validate(w.js, s.source, step.candidate, m).event;
        if RunScoped(e) { InOrderAdvances(s.tables, step.candidate.message, m, e, key); }
      }
    }
  }

  lemma InOrderAdvances(t: Tables, id: Id, m: OutboxMessage, e: Event, key: RunKey)
    requires RunScoped(e)
    ensures Last(ApplyInOrder(t, id, m, e).0, key) >= Last(t, key)
  {
    hide ApplyInOrder, Last;
    if ApplyInOrder(t, id, m, e).1.Applied? {
      AppliedTables(t, id, m, e);
    } else {
      NotApplied(t, id, m, e);
    }
  }

  lemma {:induction false} LastRises(w: World, s: System, steps: seq<Step>, key: RunKey)
    requires Inv(s) && forall step :: step in steps ==> !step.Publishes?
    ensures var s' := After(w, s, steps);
            Inv(s') && s'.source == s.source && Last(s'.tables, key) >= Last(s.tables, key)
  {
    hide Inv, Next, Last;
    Runs(w, s, steps);
    if steps != [] {
      var before := steps[..|steps| - 1];
      LastRises(w, s, before, key);
      StepAdvances(w, After(w, s, before), steps[|steps| - 1], key);
    }
  }

  lemma NeverBeyond(w: World, s: System, key: RunKey, messages: seq<Id>)
    requires Inv(s) && AllValid(w, s.source, key, messages)
    ensures 0 <= Last(s.tables, key) <= |messages|
  {
    hide WellFormed, InboxWithin, MessagesInv, Validate, GateFolded;
    assert InboxReaches(s.source, s.tables, key);
    if Last(s.tables, key) > 0 { assert Numbered(s.source, key, Last(s.tables, key)); }
  }

  /** Delivering the next message applies it. */
  lemma NextIsApplied(w: World, s: System, step: Step, key: RunKey, messages: seq<Id>)
    requires Inv(s) && AllValid(w, s.source, key, messages)
    requires 0 <= Last(s.tables, key) < |messages| && DeliversStored(s.source, messages[Last(s.tables, key)], step)
    ensures Last(Next(w, s, step).tables, key) == Last(s.tables, key) + 1
  {
    hide Inv, Validate, ApplyInOrder, Last;
    var n := Last(s.tables, key);
    var id, m := messages[n], s.source.outbox[messages[n]];
    OnlyTheStoredEnvelope(w.js, s.source, step.candidate, m);
    assert step.candidate.(envelope := None) == Candidate(id, None);
    ValidEvent(w, s.source, step.candidate, m);
    var e := Validate(w.js, s.source, step.candidate, m).event;
    EventOfNumber(s, key, n + 1, e);
    KnownEvent(s);
    InvParts(s);
    InOrderOutcome(s.source, s.tables, id, m, e);
    AppliedTables(s.tables, id, m, e);
  }

  lemma InvParts(s: System)
    requires Inv(s)
    ensures WellFormed(s.source) && InboxWithin(s.source, s.tables) && OffsetsInv(s.source, s.tables)
  {
    hide WellFormed, InboxWithin, OffsetsInv, MessagesInv;
  }

  lemma EventOfNumber(s: System, key: RunKey, n: int, e: Event)
    requires Inv(s) && Numbered(s.source, key, n) && SchemaValid(e)
    requires EventAt(s.source, key, n) in s.source.events && s.source.events[EventAt(s.source, key, n)] == e
    ensures RunScoped(e) && RunKey(e.company, e.run.value) == key && e.sequence.value == n
  {
    hide InboxWithin, MessagesInv, OffsetsInv;
  }

  /** A pass gets at least one event further. */
  lemma PassAdvances(w: World, s: System, steps: seq<Step>, key: RunKey, messages: seq<Id>)
    requires Inv(s) && AllValid(w, s.source, key, messages) && Pass(s.source, messages, steps)
    ensures var s' := After(w, s, steps);
            && Inv(s') && s'.source == s.source
            && Last(s'.tables, key) <= |messages|
            && (Last(s.tables, key) == |messages| || Last(s'.tables, key) > Last(s.tables, key) >= 0)
            && Last(s'.tables, key) >= Last(s.tables, key)
  {
    hide Inv, AllValid, After, Next, Last, DeliversStored;
    NeverBeyond(w, s, key, messages);
    LastRises(w, s, steps, key);
    NeverBeyond(w, After(w, s, steps), key, messages);
    var n := Last(s.tables, key);
    if n < |messages| {
      assert Delivered(s.source, messages[n], steps);
      var j :| 0 <= j < |steps| && DeliversStored(s.source, messages[n], steps[j]);
      var before, upTo, rest := steps[..j], steps[..j + 1], steps[j + 1..];
      LastRises(w, s, before, key);
      assert steps == upTo + rest;
      AfterSplits(w, s, upTo, rest);
      OneMore(w, s, steps, j);
      LastRises(w, s, upTo, key);
      LastRises(w, After(w, s, upTo), rest, key);
      if Last(After(w, s, before).tables, key) == n {
        NextIsApplied(w, After(w, s, before), steps[j], key, messages);
      } else {
        StepAdvances(w, After(w, s, before), steps[j], key);
      }
    }
  }

  lemma OneMore(w: World, s: System, steps: seq<Step>, j: nat)
    requires j < |steps|
    ensures After(w, s, steps[..j + 1]) == Next(w, After(w, s, steps[..j]), steps[j])
  {
    assert steps[..j + 1][..j] == steps[..j];
    hide Next;
  }

  function Flatten(passes: seq<seq<Step>>): seq<Step> {
    if passes == [] then [] else Flatten(passes[..|passes| - 1]) + passes[|passes| - 1]
  }

  /** After k passes at least k events are applied, or all of them. */
  lemma {:induction false} PassesAdvance(w: World, s: System, passes: seq<seq<Step>>, key: RunKey, messages: seq<Id>)
    requires Inv(s) && AllValid(w, s.source, key, messages)
    requires forall p :: p in passes ==> Pass(s.source, messages, p)
    ensures var s' := After(w, s, Flatten(passes));
            && Inv(s') && s'.source == s.source
            && Last(s'.tables, key) <= |messages|
            && (Last(s'.tables, key) == |messages| || Last(s'.tables, key) >= |passes|)
  {
    hide Inv, AllValid, After, Pass, Last;
    if passes == [] {
      NothingDone(w, s);
      NeverBeyond(w, s, key, messages);
    } else {
      var before, last := passes[..|passes| - 1], passes[|passes| - 1];
      PassesAdvance(w, s, before, key, messages);
      AfterSplits(w, s, Flatten(before), last);
      PassAdvances(w, After(w, s, Flatten(before)), last, key, messages);
    }
  }

  lemma NothingDone(w: World, s: System)
    ensures After(w, s, []) == s
  {
  }

  /** If all n events of a run are valid, n passes over its messages, each in any order and with any
      repetition, leave the offset at n and nothing of the run deferred. */
  lemma Converges(w: World, source: Source, steps: seq<Step>, passes: seq<seq<Step>>, key: RunKey, messages: seq<Id>)
    requires WellFormed(source)
    requires var s := After(w, Fresh(source), steps);
             && AllValid(w, s.source, key, messages)
             && (forall p :: p in passes ==> Pass(s.source, messages, p))
             && |passes| >= |messages|
    ensures var s' := After(w, Fresh(source), steps + Flatten(passes));
            && Last(s'.tables, key) == |messages|
            && (forall m :: m in s'.tables.deferred ==> s'.tables.deferred[m].run != key)
  {
    hide Inv, AllValid, After, Pass, WellFormed;
    Reachable(w, source, steps);
    AfterSplits(w, Fresh(source), steps, Flatten(passes));
    PassesAdvance(w, After(w, Fresh(source), steps), passes, key, messages);
    NothingDeferred(w, After(w, Fresh(source), steps + Flatten(passes)), key, messages);
  }

  lemma NothingDeferred(w: World, s: System, key: RunKey, messages: seq<Id>)
    requires Inv(s) && AllValid(w, s.source, key, messages) && Last(s.tables, key) == |messages|
    ensures forall m :: m in s.tables.deferred ==> s.tables.deferred[m].run != key
  {
    hide InboxWithin, Validate, GateFolded;
    assert InboxReaches(s.source, s.tables, key);
    forall m | m in s.tables.deferred && s.tables.deferred[m].run == key ensures false {
      DeferredIsNumbered(s, m);
    }
  }

  lemma DeferredIsNumbered(s: System, m: Id)
    requires Inv(s) && m in s.tables.deferred
    ensures var d := s.tables.deferred[m];
            Numbered(s.source, d.run, d.sequence) && EventAt(s.source, d.run, d.sequence) == d.event
            && d.event !in s.tables.inbox && d.sequence >= 1
  {
    hide InboxWithin, OffsetsInv;
  }
}
