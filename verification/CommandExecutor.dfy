/** `CommandExecutor.run`: a command executes once per actor, operation and key, unless it reports 0.

    `World` is whatever the commands read and write. A command that raises, or whose transaction
    cannot commit, is one whose execution yields nothing. Request digests are injective, so the
    canonical text of the request stands for its digest. */
module CommandExecutor {
  import opened Common

  datatype Key = Key(actor: nat, operation: string, idempotencyKey: string)

  datatype RecordState = Processing | Completed

  /** A row of `idempotency_records`. */
  datatype Record = Record(request: string, state: RecordState, status: Option<int>, body: Option<string>)

  datatype Done<W> = Done(world: W, status: int, body: string)

  datatype Command<!W> = Command(key: Key, request: string, execute: W -> Option<Done<W>>)

  datatype Database<W> = Database(world: W, records: map<Key, Record>)

  datatype Response =
    | Replied(status: int, body: string, replayed: bool)
    | KeyReused
    | Raised

  /** A record whose result a retry gets. JavaScript takes a status of 0 for absent. */
  predicate Replayable(r: Record) {
    r.state.Completed? && r.status.Some? && r.status.value != 0 && r.body.Some?
  }

  /** The database after the call, and what the caller gets. */
  function Run<W>(db: Database<W>, c: Command<W>): (Database<W>, Response) {
    var records := if c.key in db.records then db.records
                   else db.records[c.key := Record(c.request, Processing, None, None)];
    var record := records[c.key];
    if record.request != c.request then (db, KeyReused)
    else if Replayable(record)
    then (db.(records := records), Replied(record.status.value, record.body.value, true))
    else match c.execute(db.world)
      case None => (db, Raised)
      case Some(done) =>
        (Database(done.world, records[c.key := record.(state := Completed, status := Some(done.status), body := Some(done.body))]),
         Replied(done.status, done.body, false))
  }

  /** A key nobody has used executes: its result is the reply and what its record keeps. */
  lemma UnusedKeyExecutes<W>(db: Database<W>, c: Command<W>)
    requires c.key !in db.records
    ensures Run(db, c) == match c.execute(db.world)
                          case None => (db, Raised)
                          case Some(Done(world, status, body)) =>
                            (Database(world, db.records[c.key := Record(c.request, Completed, Some(status), Some(body))]),
                             Replied(status, body, false))
  {
    match c.execute(db.world)
    case None =>
    case Some(d) => assert Run(db, c).0.records == db.records[c.key := Record(c.request, Completed, Some(d.status), Some(d.body))];
  }

  class Executor<W> {
    var world: W
    var records: map<Key, Record>

    constructor (world: W)
      ensures this.world == world && this.records == map[]
    {
      this.world, this.records := world, map[];
    }

    /** `run`, inside its transaction; every raise rolls back. */
    method Execute(c: Command<W>) returns (r: Response)
      modifies this
      ensures (Database(world, records), r) == Run(old(Database(world, records)), c)
    {
      var saved := records;
      if c.key !in records {
        records := records[c.key := Record(c.request, Processing, None, None)];
      }
      var record := records[c.key];
      if record.request != c.request {
        records := saved;
        return KeyReused;
      }
      if Replayable(record) {
        return Replied(record.status.value, record.body.value, true);
      }
      var result := c.execute(world);
      if result.None? {
        records := saved;
        return Raised;
      }
      world := result.value.world;
      records := records[c.key := record.(state := Completed, status := Some(result.value.status),
                                          body := Some(result.value.body))];
      return Replied(result.value.status, result.value.body, false);
    }
  }

  // ---------------------------------------------------------------- histories of calls

  /** A call, or anything else that other code does to the world meanwhile. */
  datatype Happening<!W> =
    | Call(command: Command<W>)
    | Elsewhere(change: W -> W)

  function Step<W>(db: Database<W>, h: Happening<W>): Database<W> {
    match h
    case Call(c) => Run(db, c).0
    case Elsewhere(change) => db.(world := change(db.world))
  }

  function After<W>(db: Database<W>, history: seq<Happening<W>>): Database<W> {
    if history == [] then db else Step(After(db, history[..|history| - 1]), history[|history| - 1])
  }

  predicate IsCall<W>(history: seq<Happening<W>>, i: int) {
    0 <= i < |history| && history[i].Call?
  }

  function ResponseTo<W>(db: Database<W>, history: seq<Happening<W>>, i: nat): Response
    requires IsCall(history, i)
  {
    Run(After(db, history[..i]), history[i].command).1
  }

  predicate Executed(r: Response) {
    r.Replied? && !r.replayed
  }

  predicate ExecutedAt<W>(db: Database<W>, history: seq<Happening<W>>, i: int) {
    IsCall(history, i) && Executed(ResponseTo(db, history, i))
  }

  /** Whatever does not execute changes nothing, not even the records. */
  lemma OthersChangeNothing<W>(db: Database<W>, c: Command<W>)
    requires !Executed(Run(db, c).1)
    ensures Run(db, c).0 == db
  {
  }

  lemma {:induction false} AfterFirst<W>(db: Database<W>, history: seq<Happening<W>>)
    requires history != []
    ensures After(db, history) == After(Step(db, history[0]), history[1..])
  {
    var before := history[..|history| - 1];
    if before == [] {
      assert After(db, before) == db;
    } else {
      AfterFirst(db, before);
      assert history[1..][..|history| - 2] == before[1..];
    }
  }

  /** No record is left PROCESSING. */
  predicate Complete(records: map<Key, Record>) {
    forall k :: k in records ==> records[k].state.Completed? && records[k].status.Some? && records[k].body.Some?
  }

  lemma {:induction false} NoProcessingSurvives<W>(db: Database<W>, history: seq<Happening<W>>)
    requires Complete(db.records)
    ensures Complete(After(db, history).records)
  {
    if history != [] {
      NoProcessingSurvives(db, history[..|history| - 1]);
    }
  }

  /** Records are only added and keep their request; a replayable one is never rewritten. */
  predicate Keeps(records: map<Key, Record>, records': map<Key, Record>, k: Key)
    requires k in records
  {
    && k in records' && records'[k].request == records[k].request
    && (Replayable(records[k]) ==> records'[k] == records[k])
  }

  lemma RecordStays<W>(db: Database<W>, h: Happening<W>, k: Key)
    requires k in db.records
    ensures Keeps(db.records, Step(db, h).records, k)
  {
  }

  lemma {:induction false} RecordsStay<W>(db: Database<W>, history: seq<Happening<W>>, i: nat, k: Key)
    requires i <= |history| && k in After(db, history[..i]).records
    ensures Keeps(After(db, history[..i]).records, After(db, history).records, k)
  {
    hide Step, Run;
    if i == |history| {
      assert history[..i] == history;
    } else {
      var before := history[..|history| - 1];
      assert before[..i] == history[..i];
      RecordsStay(db, before, i, k);
      RecordStays(After(db, before), history[|history| - 1], k);
    }
  }

  /** What call `i` has left under its key is still there, as `RecordsStay` says, when call `j` runs. */
  lemma StillThere<W>(db: Database<W>, history: seq<Happening<W>>, i: nat, j: nat)
    requires i < j < |history| && ExecutedAt(db, history, i)
    ensures var records := After(db, history[..j]).records;
            var c, first := history[i].command, ResponseTo(db, history, i);
            && c.key in records && records[c.key].request == c.request
            && (first.status != 0 ==>
                  records[c.key] == Record(c.request, Completed, Some(first.status), Some(first.body)))
  {
    assert history[..i + 1][..i] == history[..i] && history[..j][..i + 1] == history[..i + 1];
    RecordsStay(db, history[..j], i + 1, history[i].command.key);
  }

  /** Call `j` comes later under the same key. */
  predicate Retries<W>(history: seq<Happening<W>>, i: int, j: int) {
    i < j && IsCall(history, i) && IsCall(history, j) && history[i].command.key == history[j].command.key
  }

  /** Once a call has executed, whatever it reported, a later call that asks for something else under
      its key is turned away, and if it reported a status other than 0, one that asks for the same gets
      the stored result; either way nothing changes. */
  lemma RetriesAreReplayed<W>(db: Database<W>, history: seq<Happening<W>>, i: nat, j: nat)
    requires Retries(history, i, j) && ExecutedAt(db, history, i)
    ensures var same := history[j].command.request == history[i].command.request;
            var first, again := ResponseTo(db, history, i), ResponseTo(db, history, j);
            && (!same ==> again == KeyReused)
            && (same && first.status != 0 ==> again == Replied(first.status, first.body, true))
            && (!same || first.status != 0 ==> After(db, history[..j + 1]) == After(db, history[..j]))
  {
    StillThere(db, history, i, j);
    assert history[..j + 1][..j] == history[..j];
    if !ExecutedAt(db, history, j) {
      OthersChangeNothing(After(db, history[..j]), history[j].command);
    }
  }

  /** Exactly when a later call of the same command is answered from the first: it reported a status
      other than 0. */
  lemma RetryReplaysIff<W>(db: Database<W>, history: seq<Happening<W>>, i: nat, j: nat)
    requires Retries(history, i, j) && ExecutedAt(db, history, i)
    requires history[i].command.request == history[j].command.request
    ensures var first := ResponseTo(db, history, i);
            ResponseTo(db, history, j) == Replied(first.status, first.body, true) <==> first.status != 0
  {
    RetriesAreReplayed(db, history, i, j);
  }

  /** So two executed calls share a key only if they are one request and the earlier reported 0. */
  lemma ExecutedOncePerKey<W>(db: Database<W>, history: seq<Happening<W>>, i: nat, j: nat)
    requires Retries(history, i, j) && ExecutedAt(db, history, i) && ExecutedAt(db, history, j)
    ensures history[i].command.request == history[j].command.request && ResponseTo(db, history, i).status == 0
  {
    RetriesAreReplayed(db, history, i, j);
  }

  // ---------------------------------------------------------------- the history without records

  /** Each key belongs to the first request that went through under it, and is done once that
      request has reported a status other than 0. */
  function Deduplicated<W>(world: W, owner: map<Key, string>, done: set<Key>, history: seq<Happening<W>>): W
    decreases |history|
  {
    if history == [] then world
    else match history[0]
      case Elsewhere(change) => Deduplicated(change(world), owner, done, history[1..])
      case Call(c) =>
        if c.key in done || (c.key in owner && owner[c.key] != c.request)
        then Deduplicated(world, owner, done, history[1..])
        else match c.execute(world)
          case None => Deduplicated(world, owner, done, history[1..])
          case Some(d) =>
            Deduplicated(d.world, owner[c.key := c.request], if d.status != 0 then done + {c.key} else done, history[1..])
  }

  function Owners(records: map<Key, Record>): map<Key, string> {
    map k | k in records :: records[k].request
  }

  function Settled(records: map<Key, Record>): set<Key> {
    set k | k in records && Replayable(records[k])
  }

  /** What an execution makes of owners and settled keys. */
  lemma ExecutionSettles<W>(db: Database<W>, c: Command<W>)
    requires Executed(Run(db, c).1)
    ensures var records := Run(db, c).0.records;
            && Owners(records) == Owners(db.records)[c.key := c.request]
            && Settled(records) == if Run(db, c).1.status != 0 then Settled(db.records) + {c.key} else Settled(db.records)
  {
  }

  lemma {:induction false} RefinesDeduplicated<W>(db: Database<W>, history: seq<Happening<W>>)
    ensures After(db, history).world == Deduplicated(db.world, Owners(db.records), Settled(db.records), history)
    decreases |history|
  {
    if history != [] {
      AfterFirst(db, history);
      RefinesDeduplicated(Step(db, history[0]), history[1..]);
      if history[0].Call? {
        if Executed(Run(db, history[0].command).1) {
          ExecutionSettles(db, history[0].command);
        } else {
          OthersChangeNothing(db, history[0].command);
        }
      }
    }
  }

  /** Any history leaves what it leaves without records, and no PROCESSING record. */
  lemma DeduplicationRefinement<W>(world: W, history: seq<Happening<W>>)
    ensures After(Database(world, map[]), history).world == Deduplicated(world, map[], {}, history)
    ensures Complete(After(Database(world, map[]), history).records)
  {
    var db := Database(world, map[]);
    assert Owners(db.records) == map[] && Settled(db.records) == {};
    RefinesDeduplicated(db, history);
    NoProcessingSurvives(db, history);
  }

  /** The history in which each key counts once, for its first call that goes through. */
  function OncePerKey<W>(world: W, done: set<Key>, history: seq<Happening<W>>): W
    decreases |history|
  {
    if history == [] then world
    else match history[0]
      case Elsewhere(change) => OncePerKey(change(world), done, history[1..])
      case Call(c) =>
        if c.key in done then OncePerKey(world, done, history[1..])
        else match c.execute(world)
          case None => OncePerKey(world, done, history[1..])
          case Some(d) => OncePerKey(d.world, done + {c.key}, history[1..])
  }

  /** No call of this history reports 0. */
  predicate NoneReportsZero<W>(db: Database<W>, history: seq<Happening<W>>) {
    forall i :: 0 <= i < |history| && ExecutedAt(db, history, i) ==> ResponseTo(db, history, i).status != 0
  }

  lemma {:induction false} NoneLater<W>(db: Database<W>, history: seq<Happening<W>>)
    requires history != [] && NoneReportsZero(db, history)
    ensures NoneReportsZero(Step(db, history[0]), history[1..])
    ensures ExecutedAt(db, history, 0) ==> Run(db, history[0].command).1.status != 0
  {
    var next, rest := Step(db, history[0]), history[1..];
    assert history[..0] == [];
    forall i | 0 <= i < |rest| && ExecutedAt(next, rest, i) ensures ResponseTo(next, rest, i).status != 0 {
      AfterFirst(db, history[..i + 1]);
      assert history[..i + 1][1..] == rest[..i];
      assert ExecutedAt(db, history, i + 1);
    }
  }

  lemma {:induction false} RefinesOncePerKey<W>(db: Database<W>, history: seq<Happening<W>>)
    requires NoneReportsZero(db, history)
    requires forall k :: k in db.records ==> Replayable(db.records[k])
    ensures After(db, history).world == OncePerKey(db.world, db.records.Keys, history)
    decreases |history|
  {
    if history != [] {
      AfterFirst(db, history);
      NoneLater(db, history);
      var next := Step(db, history[0]);
      assert history[..0] == [];
      if history[0].Call? {
        var c := history[0].command;
        if Executed(Run(db, c).1) {
          assert ExecutedAt(db, history, 0);
          assert next.records.Keys == db.records.Keys + {c.key};
        } else {
          OthersChangeNothing(db, c);
        }
      }
      RefinesOncePerKey(next, history[1..]);
    }
  }

  /** As long as nothing that executes reports 0, only each key's first successful call counts. */
  lemma EachKeyCountsOnce<W>(world: W, history: seq<Happening<W>>)
    requires NoneReportsZero(Database(world, map[]), history)
    ensures After(Database(world, map[]), history).world == OncePerKey(world, {}, history)
  {
    var db := Database(world, map[]);
    assert db.records.Keys == {};
    RefinesOncePerKey(db, history);
  }

  /** A counter whose command reports status 0 is counted twice. */
  lemma StatusZeroExecutesTwice()
    ensures var count := Call(Command(Key(0, "count", "k"), "{}", (n: int) => Some(Done(n + 1, 0, "{}"))));
            After(Database(0, map[]), [count, count]).world == 2
  {
    var count := Call(Command(Key(0, "count", "k"), "{}", (n: int) => Some(Done(n + 1, 0, "{}"))));
    assert [count, count][..1] == [count] && [count][..0] == [];
    assert After(Database(0, map[]), [count]) == Step(Database(0, map[]), count);
  }
}
