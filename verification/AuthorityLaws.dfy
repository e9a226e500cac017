/** Who may decide, said of the rows of sessions, founders and companies, and what a decision call does
    for them and for anybody else. */
module AuthorityLaws {
  import opened Common
  import opened DecisionUnitOfWork

  /** The session exists, is active, is the caller's and has not expired. */
  predicate Authenticated(rows: Authorities, input: AuthorityInput, now: Instant) {
    && input.session in rows.sessions
    && var s := rows.sessions[input.session];
       s.active && s.subject == input.subject && now < s.expiresAt
  }

  /** Its founder exists, is active and is the caller, and is the current founder of a company that is
      active. */
  predicate Entitled(rows: Authorities, input: AuthorityInput) {
    && input.session in rows.sessions
    && var f := rows.sessions[input.session].founder;
       && f in rows.founders && rows.founders[f].active && rows.founders[f].subject == input.subject
       && input.company in rows.companies && rows.companies[input.company].active
       && rows.companies[input.company].currentFounder == f
  }

  predicate MayDecide(rows: Authorities, input: AuthorityInput, now: Instant) {
    Authenticated(rows, input, now) && Entitled(rows, input)
  }

  /** What the work is told about its authority. */
  function Told(rows: Authorities, input: AuthorityInput): Authority
    requires Entitled(rows, input)
  {
    var s := rows.sessions[input.session];
    Authority(input.session, s.version, s.founder, rows.founders[s.founder].authorityVersion,
              input.company, rows.companies[input.company].rowVersion)
  }

  /** One receipt for each company, founder and idempotency key. */
  function ReceiptOf<W>(db: Database<W>, c: Call<W>): Option<Receipt>
    requires Entitled(db.authorities, c.authority)
  {
    var key := ReceiptKey(c.authority.company, db.authorities.sessions[c.authority.session].founder, c.idempotencyKey);
    if key in db.receipts then Some(db.receipts[key]) else None
  }

  /** Whatever has happened before: a call is refused as unauthenticated exactly if its session is not
      good, as forbidden exactly if the session is but its founder or company is not, and a refused call
      changes nothing. */
  lemma RefusedIff<W>(db: Database<W>, c: Call<W>)
    ensures var (after, r) := Transact(db, c);
            && (r == Failed(AuthenticationRequired) <==> !Authenticated(db.authorities, c.authority, c.now))
            && (r == Failed(AuthorityForbidden) <==>
                  Authenticated(db.authorities, c.authority, c.now) && !Entitled(db.authorities, c.authority))
            && (!MayDecide(db.authorities, c.authority, c.now) ==> after == db)
  {
  }

  /** What a call that may decide does: it replays its receipt, conflicts with it, raises where its
      hook or its work raises, or decides under the authority it was given. */
  lemma DecidesAs<W>(db: Database<W>, c: Call<W>)
    requires MayDecide(db.authorities, c.authority, c.now)
    ensures var (after, r) := Transact(db, c);
            var authority, receipt := Told(db.authorities, c.authority), ReceiptOf(db, c);
            var work := c.work(db.world, authority);
            var late := AfterCommitBeforeReturn in c.raises;
            if AfterAuthorityLock in c.raises then (after, r) == (db, Failed(HookRaised))
            else if receipt.Some? then
              && after == db
              && r == (if receipt.value.request != c.request then Failed(IdempotencyConflict)
                       else if AfterReceiptLock in c.raises then Failed(HookRaised)
                       else match receipt.value.body
                            case NotAnObject(_) => Failed(InvalidContext)
                            case Fields(fields) =>
                              if late then Failed(HookRaised)
                              else Returned(receipt.value.status, Fields(fields["replayed" := "true"]), true))
            else if AfterReceiptLock in c.raises then (after, r) == (db, Failed(HookRaised))
            else if work.None? then (after, r) == (db, Failed(WorkRaised))
            else if BeforeReceiptWrite in c.raises || AfterReceiptWrite in c.raises then (after, r) == (db, Failed(HookRaised))
            else
              && after == Database(db.authorities, work.value.world,
                                   db.receipts[ReceiptKey(authority.company, authority.founder, c.idempotencyKey) :=
                                                 Receipt(authority.session, c.request, work.value.status, work.value.body)])
              && r == if late then Failed(HookRaised) else Returned(work.value.status, work.value.body, false)
  {
  }

  lemma {:induction false} AuthoritiesStand<W>(db: Database<W>, events: seq<Event<W>>, i: nat)
    requires i < |events| && events[i].AuthoritiesChanged?
    requires forall m :: i < m < |events| ==> events[m].Called?
    ensures After(db, events).authorities == events[i].authorities
  {
    hide Transact;
    var before, last := events[..|events| - 1], events[|events| - 1];
    if i < |events| - 1 {
      assert forall m :: i < m < |before| ==> before[m] == events[m];
      AuthoritiesStand(db, before, i);
      AllOrNothing(After(db, before), last.call);
    }
  }

  /** Once a change has taken away the session, the founder or the founder's place in the company, every
      later call that relies on them is refused and changes nothing, until the next change. */
  lemma DismissalHolds<W>(db: Database<W>, events: seq<Event<W>>, i: nat, j: nat)
    requires i < j < |events| && events[i].AuthoritiesChanged? && events[j].Called?
    requires forall m :: i < m < j ==> events[m].Called?
    requires !MayDecide(events[i].authorities, events[j].call.authority, events[j].call.now)
    ensures After(db, events[..j + 1]) == After(db, events[..j])
    ensures Transact(After(db, events[..j]), events[j].call).1 in {Failed(AuthenticationRequired), Failed(AuthorityForbidden)}
  {
    hide Transact, Authenticated, Entitled;
    AuthoritiesStand(db, events[..j], i);
    RefusedIff(After(db, events[..j]), events[j].call);
    assert events[..j + 1][..j] == events[..j];
  }

  /** In particular a replaced founder, or one of an inactive company, whichever session is used. */
  lemma FormerFounderIsOut<W>(db: Database<W>, events: seq<Event<W>>, i: nat, j: nat, founder: Id)
    requires i < j < |events| && events[i].AuthoritiesChanged? && events[j].Called?
    requires forall m :: i < m < j ==> events[m].Called?
    requires var rows, input := events[i].authorities, events[j].call.authority;
             && (input.session in rows.sessions ==> rows.sessions[input.session].founder == founder)
             && (input.company in rows.companies && rows.companies[input.company].active ==>
                   rows.companies[input.company].currentFounder != founder)
    ensures After(db, events[..j + 1]) == After(db, events[..j])
    ensures !Transact(After(db, events[..j]), events[j].call).1.Returned?
  {
    hide Transact;
    DismissalHolds(db, events, i, j);
  }
}
