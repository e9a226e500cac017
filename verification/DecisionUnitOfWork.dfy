/** `PostgresDecisionUnitOfWork.execute`: authority is checked and locked before any receipt is looked
    at; a decision and its receipt commit together; retries replay the receipt. The hook may raise at
    any failpoint. Digests are injective, so the digested request stands for its digest. */
module DecisionUnitOfWork {
  import opened Common

  type Id = nat
  type Instant = nat

  datatype Session = Session(founder: Id, subject: string, active: bool, expiresAt: Instant, version: nat)
  datatype Founder = Founder(subject: string, active: bool, authorityVersion: nat)
  datatype Company = Company(currentFounder: Id, active: bool, rowVersion: nat)

  /** The rows that say who may decide. Other transactions change them between calls. */
  datatype Authorities = Authorities(sessions: map<Id, Session>, founders: map<Id, Founder>, companies: map<Id, Company>)

  /** What `lockCurrentAuthority` returns. */
  datatype Authority = Authority(session: Id, sessionVersion: nat, founder: Id, authorityVersion: nat,
                                 company: Id, companyRowVersion: nat)

  datatype AuthorityInput = AuthorityInput(session: Id, subject: string, company: Id)

  datatype Failure =
    | AuthenticationRequired | AuthorityForbidden | IdempotencyConflict | InvalidContext
    | WorkRaised | HookRaised

  datatype Stage = AfterAuthorityLock | AfterReceiptLock | BeforeReceiptWrite | AfterReceiptWrite | AfterCommitBeforeReturn

  /** A JSON body: an object with its fields, or anything else. */
  datatype Body = Fields(fields: map<string, string>) | NotAnObject(text: string)

  datatype ReceiptKey = ReceiptKey(company: Id, founder: Id, idempotencyKey: string)
  datatype Receipt = Receipt(session: Id, request: string, status: int, body: Body)

  datatype Done<W> = Done(world: W, status: int, body: Body)

  datatype Call<!W> = Call(
    authority: AuthorityInput,
    idempotencyKey: string,
    request: string,
    now: Instant,
    raises: set<Stage>,
    work: (W, Authority) -> Option<Done<W>>)

  datatype Database<W> = Database(authorities: Authorities, world: W, receipts: map<ReceiptKey, Receipt>)

  datatype Result =
    | Returned(status: int, body: Body, replayed: bool)
    | Failed(failure: Failure)

  datatype Checked = Current(authority: Authority) | Denied(failure: Failure)

  /** `lockCurrentAuthority` */
  function CurrentAuthority(rows: Authorities, input: AuthorityInput, now: Instant): Checked {
    if input.session !in rows.sessions then Denied(AuthenticationRequired)
    else
      var session := rows.sessions[input.session];
      if session.subject != input.subject || !session.active || session.expiresAt <= now then Denied(AuthenticationRequired)
      else if session.founder !in rows.founders then Denied(AuthorityForbidden)
      else
        var founder := rows.founders[session.founder];
        if founder.subject != input.subject || !founder.active then Denied(AuthorityForbidden)
        else if input.company !in rows.companies then Denied(AuthorityForbidden)
        else
          var company := rows.companies[input.company];
          if company.currentFounder != session.founder || !company.active then Denied(AuthorityForbidden)
          else Current(Authority(input.session, session.version, session.founder, founder.authorityVersion,
                                 input.company, company.rowVersion))
  }

  /** `asReplay` */
  function AsReplay(body: Body): Option<Body> {
    if body.Fields? then Some(Fields(body.fields["replayed" := "true"])) else None
  }

  function KeyOf(a: Authority, idempotencyKey: string): ReceiptKey {
    ReceiptKey(a.company, a.founder, idempotencyKey)
  }

  /** The database after the call, and what its caller sees. */
  function Transact<W>(db: Database<W>, c: Call<W>): (Database<W>, Result) {
    match CurrentAuthority(db.authorities, c.authority, c.now)
    case Denied(failure) => (db, Failed(failure))
    case Current(authority) =>
      if AfterAuthorityLock in c.raises then (db, Failed(HookRaised))
      else if KeyOf(authority, c.idempotencyKey) in db.receipts
      then Replay(db, c, db.receipts[KeyOf(authority, c.idempotencyKey)])
      else Decide(db, c, authority)
  }

  function Replay<W>(db: Database<W>, c: Call<W>, receipt: Receipt): (Database<W>, Result) {
    if receipt.request != c.request then (db, Failed(IdempotencyConflict))
    else if AfterReceiptLock in c.raises then (db, Failed(HookRaised))
    else match AsReplay(receipt.body)
      case None => (db, Failed(InvalidContext))
      case Some(body) =>
        (db, if AfterCommitBeforeReturn in c.raises then Failed(HookRaised) else Returned(receipt.status, body, true))
  }

  function Decide<W>(db: Database<W>, c: Call<W>, authority: Authority): (Database<W>, Result) {
    if AfterReceiptLock in c.raises then (db, Failed(HookRaised))
    else match c.work(db.world, authority)
      case None => (db, Failed(WorkRaised))
      case Some(done) =>
        if BeforeReceiptWrite in c.raises || AfterReceiptWrite in c.raises then (db, Failed(HookRaised))
        else
          (db.(world := done.world,
               receipts := db.receipts[KeyOf(authority, c.idempotencyKey) :=
                                         Receipt(authority.session, c.request, done.status, done.body)]),
           if AfterCommitBeforeReturn in c.raises then Failed(HookRaised) else Returned(done.status, done.body, false))
  }

  class UnitOfWork<W> {
    var authorities: Authorities
    var world: W
    var receipts: map<ReceiptKey, Receipt>

    constructor (authorities: Authorities, world: W)
      ensures Contents() == Database(authorities, world, map[])
    {
      this.authorities, this.world, this.receipts := authorities, world, map[];
    }

    function Contents(): Database<W>
      reads this
    {
      Database(authorities, world, receipts)
    }

    /** `execute`: the transaction, its rollback on any raise, and the failpoint after the commit. */
    method Execute(c: Call<W>) returns (r: Result)
      modifies this`world, this`receipts
      ensures (Contents(), r) == Transact(old(Contents()), c)
    {
      var savedWorld, savedReceipts := world, receipts;
      r := Transaction(c);
      if r.Failed? {
        world, receipts := savedWorld, savedReceipts;
        return;
      }
      if AfterCommitBeforeReturn in c.raises {
        r := Failed(HookRaised);
      }
    }

    /** The body of the try block; `Failed` is a raise out of it. */
    method Transaction(c: Call<W>) returns (r: Result)
      modifies this`world, this`receipts
      ensures var quiet := c.(raises := c.raises - {AfterCommitBeforeReturn});
              var (after, answer) := Transact(old(Contents()), quiet);
              r == answer && (r.Returned? ==> Contents() == after)
    {
      var checked := CurrentAuthority(authorities, c.authority, c.now);
      if checked.Denied? {
        return Failed(checked.failure);
      }
      var authority := checked.authority;
      if AfterAuthorityLock in c.raises {
        return Failed(HookRaised);
      }
      var key := KeyOf(authority, c.idempotencyKey);
      if key in receipts && receipts[key].request != c.request {
        return Failed(IdempotencyConflict);
      }
      if AfterReceiptLock in c.raises {
        return Failed(HookRaised);
      }
      if key in receipts {
        var body := AsReplay(receipts[key].body);
        return if body.Some? then Returned(receipts[key].status, body.value, true) else Failed(InvalidContext);
      }
      var result := c.work(world, authority);
      if result.None? {
        return Failed(WorkRaised);
      }
      world := result.value.world;
      if BeforeReceiptWrite in c.raises {
        return Failed(HookRaised);
      }
      receipts := receipts[key := Receipt(authority.session, c.request, result.value.status, result.value.body)];
      if AfterReceiptWrite in c.raises {
        return Failed(HookRaised);
      }
      return Returned(result.value.status, result.value.body, false);
    }
  }

  // ---------------------------------------------------------------- one call

  /** A caller without current authority learns nothing about receipts or earlier decisions, and
      changes nothing. */
  lemma AuthorityBeforeReceipts<W>(db: Database<W>, other: Database<W>, c: Call<W>)
    requires CurrentAuthority(db.authorities, c.authority, c.now).Denied? && other.authorities == db.authorities
    ensures Transact(db, c).1 == Transact(other, c).1 && Transact(db, c).0 == db && Transact(other, c).0 == other
  {
  }

  predicate RaisesBeforeCommit<W>(c: Call<W>) {
    || AfterAuthorityLock in c.raises || AfterReceiptLock in c.raises
    || BeforeReceiptWrite in c.raises || AfterReceiptWrite in c.raises
  }

  /** Either nothing changed, or the decision and its receipt were committed together. */
  predicate CommittedBy<W>(db: Database<W>, c: Call<W>) {
    && CurrentAuthority(db.authorities, c.authority, c.now).Current?
    && var authority := CurrentAuthority(db.authorities, c.authority, c.now).authority;
       && KeyOf(authority, c.idempotencyKey) !in db.receipts
       && !RaisesBeforeCommit(c)
       && c.work(db.world, authority).Some?
  }

  lemma AllOrNothing<W>(db: Database<W>, c: Call<W>)
    ensures var (after, r) := Transact(db, c);
            if CommittedBy(db, c) then
              var authority := CurrentAuthority(db.authorities, c.authority, c.now).authority;
              var key, done := KeyOf(authority, c.idempotencyKey), c.work(db.world, authority).value;
              && after.world == done.world && after.authorities == db.authorities
              && after.receipts == db.receipts[key := Receipt(authority.session, c.request, done.status, done.body)]
              && (r == Returned(done.status, done.body, false) || (r == Failed(HookRaised) && AfterCommitBeforeReturn in c.raises))
            else
              after == db && !(r.Returned? && !r.replayed)
  {
  }

  // ---------------------------------------------------------------- histories

  datatype Event<!W> =
    | Called(call: Call<W>)
    | AuthoritiesChanged(authorities: Authorities)

  function Step<W>(db: Database<W>, e: Event<W>): Database<W> {
    match e
    case Called(c) => Transact(db, c).0
    case AuthoritiesChanged(rows) => db.(authorities := rows)
  }

  function After<W>(db: Database<W>, events: seq<Event<W>>): Database<W> {
    if events == [] then db else Step(After(db, events[..|events| - 1]), events[|events| - 1])
  }

  /** The same history with no receipts kept: each key counts for its first call that is authorized,
      raises nowhere before its commit and completes its work. A raise after the commit counts. */
  function Deduplicated<W>(rows: Authorities, world: W, done: set<ReceiptKey>, events: seq<Event<W>>): W
    decreases |events|
  {
    if events == [] then world
    else match events[0]
      case AuthoritiesChanged(changed) => Deduplicated(changed, world, done, events[1..])
      case Called(c) =>
        match CurrentAuthority(rows, c.authority, c.now)
        case Denied(_) => Deduplicated(rows, world, done, events[1..])
        case Current(authority) =>
          var key := KeyOf(authority, c.idempotencyKey);
          var result := c.work(world, authority);
          if key !in done && !RaisesBeforeCommit(c) && result.Some?
          then Deduplicated(rows, result.value.world, done + {key}, events[1..])
          else Deduplicated(rows, world, done, events[1..])
  }

  lemma {:induction false} AfterFirst<W>(db: Database<W>, events: seq<Event<W>>)
    requires events != []
    ensures After(db, events) == After(Step(db, events[0]), events[1..])
  {
    var before := events[..|events| - 1];
    if before == [] {
      assert After(db, before) == db;
    } else {
      AfterFirst(db, before);
      assert events[1..][..|events| - 2] == before[1..];
    }
  }

  lemma {:induction false} RefinesDeduplicated<W>(db: Database<W>, events: seq<Event<W>>)
    ensures After(db, events).world == Deduplicated(db.authorities, db.world, db.receipts.Keys, events)
    decreases |events|
  {
    if events != [] {
      AfterFirst(db, events);
      if events[0].Called? {
        AllOrNothing(db, events[0].call);
        if CommittedBy(db, events[0].call) {
          var authority := CurrentAuthority(db.authorities, events[0].call.authority, events[0].call.now).authority;
          var key := KeyOf(authority, events[0].call.idempotencyKey);
          assert Step(db, events[0]).receipts.Keys == db.receipts.Keys + {key};
        }
        hide Transact, AsReplay;
      }
      RefinesDeduplicated(Step(db, events[0]), events[1..]);
    }
  }

  lemma {:induction false} ReceiptsStay<W>(db: Database<W>, events: seq<Event<W>>, i: nat, key: ReceiptKey)
    requires i <= |events| && key in After(db, events[..i]).receipts
    ensures key in After(db, events).receipts && After(db, events).receipts[key] == After(db, events[..i]).receipts[key]
  {
    if i == |events| {
      assert events[..i] == events;
    } else {
      var before := events[..|events| - 1];
      assert before[..i] == events[..i];
      ReceiptsStay(db, before, i, key);
      if events[|events| - 1].Called? { AllOrNothing(After(db, before), events[|events| - 1].call); }
    }
  }

  /** After a decision has committed, even if its caller never heard of it, an authorized retry that
      is not interrupted replays it exactly if the stored body is an object; a different request under
      the same key is a conflict; and no later call under that key changes anything. */
  lemma RetriesReplay<W>(db: Database<W>, events: seq<Event<W>>, i: nat, c: Call<W>)
    requires i < |events| && events[i].Called? && CommittedBy(After(db, events[..i]), events[i].call)
    requires var before := After(db, events[..i]);
             var first := events[i].call;
             var was := CurrentAuthority(before.authorities, first.authority, first.now).authority;
             var current := CurrentAuthority(After(db, events).authorities, c.authority, c.now);
             current.Current? && KeyOf(current.authority, c.idempotencyKey) == KeyOf(was, first.idempotencyKey)
    ensures var before, first := After(db, events[..i]), events[i].call;
            var was := CurrentAuthority(before.authorities, first.authority, first.now).authority;
            var done := first.work(before.world, was).value;
            var (after, r) := Transact(After(db, events), c);
            && after == After(db, events)
            && (c.raises == {} && c.request != first.request ==> r == Failed(IdempotencyConflict))
            && (c.raises == {} && c.request == first.request ==>
                  (done.body.Fields? <==> r.Returned?)
                  && (r.Returned? ==> r == Returned(done.status, Fields(done.body.fields["replayed" := "true"]), true)))
  {
    var before, first := After(db, events[..i]), events[i].call;
    var was := CurrentAuthority(before.authorities, first.authority, first.now).authority;
    var key := KeyOf(was, first.idempotencyKey);
    AllOrNothing(before, first);
    assert events[..i + 1][..i] == events[..i];
    ReceiptsStay(db, events, i + 1, key);
  }

  /** A decision whose body is an array is committed, but its retry is refused as invalid. */
  lemma ArrayBodyIsNotReplayed()
    ensures var rows := Authorities(map[1 := Session(2, "founder", true, 10, 1)], map[2 := Founder("founder", true, 1)],
                                    map[3 := Company(2, true, 1)]);
            var c := Call(AuthorityInput(1, "founder", 3), "k", "{}", 0, {},
                          (n: int, a: Authority) => Some(Done(n + 1, 200, NotAnObject("[]"))));
            var (once, first) := Transact(Database(rows, 0, map[]), c);
            first == Returned(200, NotAnObject("[]"), false) && Transact(once, c) == (once, Failed(InvalidContext))
  {
  }
}
