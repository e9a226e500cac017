/** Answers go through the command executor: a founder who repeats an answer under its key gets the
    first reply again, long after the wait has been resolved, and the run is answered once.

    Between the calls the run's workers, the founder's other commands and the clock do what they like. */
module AnswerCommands {
  import opened Common
  import opened Rows
  import opened Transactions
  import opened Invariants
  import opened Preservation
  import opened Monotone
  import opened TransactionFacts
  import opened Processes
  import opened SystemInvariant
  import opened SystemSteps
  import E = CommandExecutor

  const OPERATION := "durability-spike.wait.answer"
  const ACCEPTED := 202

  /** How a request and a reply are written: any functions of what they say. */
  datatype Texts = Texts(request: AnswerInput -> string, reply: (RunTables, Id) -> string)

  datatype Act =
    | Ask(input: AnswerInput, key: string)
    | Other(step: Step)      // answers are given through the executor only

  function AnswerCommand(texts: Texts, input: AnswerInput, key: string, now: Instant, base: Id): E.Command<RunSystem> {
    E.Command(E.Key(input.actor, OPERATION, key), texts.request(input),
      (s: RunSystem) =>
        match AnswerWait(s.db, now, base, input)
        case Committed(db, id) => Some(E.Done(s.(db := db), ACCEPTED, texts.reply(s.db, id)))
        case RolledBack(_) => None)
  }

  /** The shape of an answer is checked before the executor is called. */
  function Happens(texts: Texts, a: Act, now: Instant, base: Id): E.Happening<RunSystem> {
    match a
    case Ask(input, key) =>
      if WellShaped(input) then E.Call(AnswerCommand(texts, input, key, now, base))
      else E.Elsewhere((s: RunSystem) => s)
    case Other(step) =>
      E.Elsewhere((s: RunSystem) => if step.AnswerStep? then s else Next(s, step, now, base))
  }

  /** The i-th act draws its ids from `BaseOf(n, i)`. */
  function BaseOf(n: Id, i: nat): Id {
    n + i * IDS_PER_STEP
  }

  function HistoryOf(texts: Texts, acts: seq<(Act, Instant)>, n: Id): (r: seq<E.Happening<RunSystem>>)
    ensures |r| == |acts|
  {
    seq(|acts|, i requires 0 <= i < |acts| => Happens(texts, acts[i].0, acts[i].1, BaseOf(n, i)))
  }

  /** The run, its workers and the idempotency records once the first `i` acts are done. */
  function At(texts: Texts, s: RunSystem, acts: seq<(Act, Instant)>, n: Id, i: nat): E.Database<RunSystem>
    requires i <= |acts|
  {
    E.After(E.Database(s, map[]), HistoryOf(texts, acts, n)[..i])
  }

  lemma AtNext(texts: Texts, s: RunSystem, acts: seq<(Act, Instant)>, n: Id, i: nat)
    requires i < |acts|
    ensures At(texts, s, acts, n, i + 1)
            == E.Step(At(texts, s, acts, n, i), Happens(texts, acts[i].0, acts[i].1, BaseOf(n, i)))
  {
    var h := HistoryOf(texts, acts, n);
    assert h[..i + 1][..i] == h[..i];
  }

  /** Through the executor or not, what happens is a step of the run's system or nothing. */
  lemma HappensInSystem(texts: Texts, db: E.Database<RunSystem>, a: Act, now: Instant, n: Id)
    requires SystemInv(db.world, n)
    ensures Steps(db.world, E.Step(db, Happens(texts, a, now, n)).world, n)
  {
    hide Steps, SystemInv, AnswerWait, WellShaped;
    Idle(db.world, n);
    match a
    case Ask(input, key) => AnswerSteps(db.world, n, now, input);
    case Other(step) => hide Next; StepKeeps(db.world, n, step, now);
  }

  lemma AtStart(texts: Texts, s: RunSystem, acts: seq<(Act, Instant)>, n: Id)
    ensures At(texts, s, acts, n, 0) == E.Database(s, map[])
  {
    hide HistoryOf;
    assert HistoryOf(texts, acts, n)[..0] == [];
  }

  lemma Reflexive(s: RunSystem, n: Id)
    requires SystemInv(s, n)
    ensures SystemAdvances(s, s)
  {
    hide SystemInv, SystemAdvances;
    Idle(s, n);
  }

  /** So every theorem about steps holds of these histories, and nothing is taken back. */
  lemma {:induction false} AtAdvances(texts: Texts, s: RunSystem, acts: seq<(Act, Instant)>, n: Id, i: nat, j: nat)
    requires SystemInv(s, n) && i <= j <= |acts|
    ensures SystemInv(At(texts, s, acts, n, j).world, BaseOf(n, j))
    ensures SystemAdvances(At(texts, s, acts, n, i).world, At(texts, s, acts, n, j).world)
    decreases j
  {
    hide SystemInv, SystemAdvances, At, Happens;
    var now := At(texts, s, acts, n, j).world;
    if j == 0 {
      AtStart(texts, s, acts, n);
      Reflexive(s, n);
    } else {
      var last := if i < j then i else j - 1;
      AtAdvances(texts, s, acts, n, last, j - 1);
      AtNext(texts, s, acts, n, j - 1);
      HappensInSystem(texts, At(texts, s, acts, n, j - 1), acts[j - 1].0, acts[j - 1].1, BaseOf(n, j - 1));
      if i < j {
        SystemAdvancesTransitive(At(texts, s, acts, n, i).world, At(texts, s, acts, n, j - 1).world, now);
      } else {
        Reflexive(now, BaseOf(n, j));
      }
    }
  }

  // ---------------------------------------------------------------- retries

  predicate IsAsk(acts: seq<(Act, Instant)>, i: int) {
    0 <= i < |acts| && acts[i].0.Ask? && WellShaped(acts[i].0.input)
  }

  /** What the i-th act, an answer, is told. */
  function ReplyTo(texts: Texts, s: RunSystem, acts: seq<(Act, Instant)>, n: Id, i: nat): E.Response
    requires IsAsk(acts, i)
  {
    E.Run(At(texts, s, acts, n, i), AnswerCommand(texts, acts[i].0.input, acts[i].0.key, acts[i].1, BaseOf(n, i))).1
  }

  predicate Accepted(texts: Texts, s: RunSystem, acts: seq<(Act, Instant)>, n: Id, i: int) {
    IsAsk(acts, i) && E.Executed(ReplyTo(texts, s, acts, n, i))
  }

  /** Two answers by one founder under one key. */
  predicate Repeats(acts: seq<(Act, Instant)>, i: int, j: int) {
    && i < j && IsAsk(acts, i) && IsAsk(acts, j)
    && acts[i].0.input.actor == acts[j].0.input.actor && acts[i].0.key == acts[j].0.key
  }

  lemma CommittedAnswer(db: RunTables, now: Instant, base: Id, input: AnswerInput)
    requires AnswerWait(db, now, base, input).Committed?
    ensures var out := AnswerWait(db, now, base, input);
            && out.value == base
            && |out.tables.answers| == |db.answers| + 1
            && out.tables.answers[|db.answers|].id == base && out.tables.answers[|db.answers|].wait == input.wait
  {
    hide WellShaped, AnswerAllowed;
  }

  lemma ExecutedAnswer(texts: Texts, db: E.Database<RunSystem>, input: AnswerInput, key: string, now: Instant, base: Id)
    requires E.Executed(E.Run(db, AnswerCommand(texts, input, key, now, base)).1)
    ensures var out := AnswerWait(db.world.db, now, base, input);
            var (after, reply) := E.Run(db, AnswerCommand(texts, input, key, now, base));
            && out.Committed? && after.world.db == out.tables
            && reply == E.Replied(ACCEPTED, texts.reply(db.world.db, out.value), false)
  {
    hide AnswerWait;
  }

  /** What an accepted answer leaves: one answer row more, for the wait it names. */
  lemma AcceptedAnswer(texts: Texts, s: RunSystem, acts: seq<(Act, Instant)>, n: Id, i: nat)
    requires Accepted(texts, s, acts, n, i)
    ensures var db, db' := At(texts, s, acts, n, i).world.db, At(texts, s, acts, n, i + 1).world.db;
            && ReplyTo(texts, s, acts, n, i) == E.Replied(ACCEPTED, texts.reply(db, BaseOf(n, i)), false)
            && |db'.answers| == |db.answers| + 1
            && db'.answers[|db.answers|].id == BaseOf(n, i)
            && db'.answers[|db.answers|].wait == acts[i].0.input.wait
  {
    hide At, BaseOf, AnswerWait, E.Run, AnswerCommand, WellShaped;
    var db, input, now, base := At(texts, s, acts, n, i), acts[i].0.input, acts[i].1, BaseOf(n, i);
    AtNext(texts, s, acts, n, i);
    ExecutedAnswer(texts, db, input, acts[i].0.key, now, base);
    CommittedAnswer(db.world.db, now, base, input);
  }

  lemma Replays(texts: Texts, s: RunSystem, acts: seq<(Act, Instant)>, n: Id, i: nat, j: nat)
    requires Repeats(acts, i, j) && Accepted(texts, s, acts, n, i)
    requires ReplyTo(texts, s, acts, n, i).status != 0
    ensures var first, again := ReplyTo(texts, s, acts, n, i), ReplyTo(texts, s, acts, n, j);
            again == (if texts.request(acts[j].0.input) == texts.request(acts[i].0.input)
                      then E.Replied(first.status, first.body, true) else E.KeyReused)
    ensures At(texts, s, acts, n, j + 1) == At(texts, s, acts, n, j)
  {
    hide WellShaped;
    E.RetriesAreReplayed(E.Database(s, map[]), HistoryOf(texts, acts, n), i, j);
    hide E.Run, E.After;
  }

  lemma AnsweredOnce(s: RunSystem, s': RunSystem, n: Id, k: nat)
    requires SystemAdvances(s, s') && SystemInv(s', n) && k < |s.db.answers|
    ensures k < |s'.db.answers| && s'.db.answers[k] == s.db.answers[k]
    ensures forall m :: 0 <= m < |s'.db.answers| ==> (s'.db.answers[m].wait == s'.db.answers[k].wait <==> m == k)
  {
    hide TablesInv, SpendInv, WorkersInv, AttemptsGrow, EffectAdvances, TaskAdvances, RunAdvances;
    ConstraintsFollow(s'.db, n);
  }

  lemma RowsOf(s: RunSystem, n: Id)
    requires SystemInv(s, n)
    ensures TablesInv(s.db, n)
  {
    hide TablesInv, SpendInv, WorkersInv;
  }

  /** The database alone would not take the answer twice: its wait is resolved. */
  lemma AnsweredWaitRefuses(db: RunTables, n: Id, k: nat, now: Instant, base: Id, input: AnswerInput)
    requires TablesInv(db, n) && k < |db.answers| && input.wait == db.answers[k].wait
    ensures AnswerWait(db, now, base, input).RolledBack?
  {
    hide LogInv, RunInv, LinksInv, ResolvedInv, Coupled, AttemptsInv, EffectInv, ArtifactInv, WellShaped, AfterAnswer;
    assert db.task.Some?;
    assert Answers(db.answers[k], db.waits[k]);
  }

  /** An answer repeated under its key, whatever has happened to the run since, is told what it was
      told first, and a different one is turned away; neither changes anything, and the wait has the
      one answer. */
  lemma RepeatedAnswer(texts: Texts, s: RunSystem, acts: seq<(Act, Instant)>, n: Id, i: nat, j: nat)
    requires SystemInv(s, n) && Repeats(acts, i, j) && Accepted(texts, s, acts, n, i)
    ensures var first := At(texts, s, acts, n, i).world.db;
            var same := texts.request(acts[j].0.input) == texts.request(acts[i].0.input);
            && ReplyTo(texts, s, acts, n, i) == E.Replied(202, texts.reply(first, BaseOf(n, i)), false)
            && ReplyTo(texts, s, acts, n, j)
               == (if same then E.Replied(202, texts.reply(first, BaseOf(n, i)), true) else E.KeyReused)
            && At(texts, s, acts, n, j + 1) == At(texts, s, acts, n, j)
    ensures var answers := At(texts, s, acts, n, j).world.db.answers;
            exists k :: 0 <= k < |answers| && answers[k].id == BaseOf(n, i)
                        && forall m :: 0 <= m < |answers| ==> (answers[m].wait == acts[i].0.input.wait <==> m == k)
    ensures acts[j].0.input.wait == acts[i].0.input.wait ==>
              AnswerWait(At(texts, s, acts, n, j).world.db, acts[j].1, BaseOf(n, j), acts[j].0.input).RolledBack?
  {
    hide SystemInv, SystemAdvances, TablesInv, At, BaseOf, ReplyTo, WellShaped, AnswerWait;
    AcceptedAnswer(texts, s, acts, n, i);
    Replays(texts, s, acts, n, i, j);
    AtAdvances(texts, s, acts, n, i + 1, j);
    AnsweredOnce(At(texts, s, acts, n, i + 1).world, At(texts, s, acts, n, j).world, BaseOf(n, j),
                 |At(texts, s, acts, n, i).world.db.answers|);
    RowsOf(At(texts, s, acts, n, j).world, BaseOf(n, j));
    if acts[j].0.input.wait == acts[i].0.input.wait {
      AnsweredWaitRefuses(At(texts, s, acts, n, j).world.db, BaseOf(n, j), |At(texts, s, acts, n, i).world.db.answers|,
                    acts[j].1, BaseOf(n, j), acts[j].0.input);
    }
  }

  // ---------------------------------------------------------------- records and answers

  lemma OtherStepsKeepAnswers(s: RunSystem, step: Step, now: Instant, base: Id)
    requires !step.AnswerStep?
    ensures Next(s, step, now, base).db.answers == s.db.answers
  {
    hide HoldsLease, Claimable, LeaseCurrent, MayInvoke, BlockedRun, CloseRunning, CloseById, MarkUnknown, CancelWaits;
  }

  predicate AllReplayable(records: map<E.Key, E.Record>) {
    forall k :: k in records ==> E.Replayable(records[k])
  }

  lemma RecordedOnce(texts: Texts, db: E.Database<RunSystem>, a: Act, now: Instant, base: Id)
    requires AllReplayable(db.records)
    ensures var after := E.Step(db, Happens(texts, a, now, base));
            && AllReplayable(after.records)
            && |after.world.db.answers| - |db.world.db.answers| == |after.records| - |db.records|
  {
    hide AnswerWait, Next, WellShaped;
    match a
    case Ask(input, key) =>
      var c := AnswerCommand(texts, input, key, now, base);
      if WellShaped(input) && E.Executed(E.Run(db, c).1) {
        ExecutedAnswer(texts, db, input, key, now, base);
        CommittedAnswer(db.world.db, now, base, input);
        assert E.Run(db, c).0.records.Keys == db.records.Keys + {c.key};
      } else if WellShaped(input) {
        E.OthersChangeNothing(db, c);
      }
    case Other(step) =>
      if !step.AnswerStep? { OtherStepsKeepAnswers(db.world, step, now, base); }
  }

  /** Every idempotency record of an answer stands for one answer row, and every answer for one record. */
  lemma {:induction false} AnswersAreRecorded(texts: Texts, s: RunSystem, acts: seq<(Act, Instant)>, n: Id, i: nat)
    requires i <= |acts|
    ensures AllReplayable(At(texts, s, acts, n, i).records)
    ensures |At(texts, s, acts, n, i).world.db.answers| == |s.db.answers| + |At(texts, s, acts, n, i).records|
  {
    hide At, Happens, E.Step, AllReplayable;
    if i == 0 {
      AtStart(texts, s, acts, n);
      EmptyReplayable();
    } else {
      AnswersAreRecorded(texts, s, acts, n, i - 1);
      AtNext(texts, s, acts, n, i - 1);
      RecordedOnce(texts, At(texts, s, acts, n, i - 1), acts[i - 1].0, acts[i - 1].1, BaseOf(n, i - 1));
    }
  }

  lemma EmptyReplayable()
    ensures AllReplayable(map[])
  {
  }
}
