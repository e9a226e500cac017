/** The in-memory store of provider invocations: what each of its methods makes of its records and of
    its ledger, under the default controls. `None` is a failed assertion: the call raises. */
module ProviderStore {
  import opened Common

  type Id = string
  type Instant = int

  datatype State =
    | Ready | Dispatching | Dispatched | RetryWait | ReconciliationRequired
    | Canceled | Blocked | Succeeded | Failed

  datatype Phase = NotDispatched | WasDispatched | Uncertain

  datatype Status = ResultSucceeded | ResultFailed | ResultCanceled | ResultUnknown

  datatype Classification = RateLimited | Validation | RefusalSafety | OtherFailure(name: string)

  /** `retryAfter` is absent, or a text that parses to a time or to none. */
  datatype Failure = Failure(classification: Classification, phase: Phase, retryAfter: Option<Option<Instant>>,
                             reconciliationRequired: bool)

  datatype Result = Result(status: Status, failure: Option<Failure>)

  datatype Request = Request(logicalKey: string, digest: string, attempt: Id, invocation: Id, deadline: Option<Instant>,
                             reservations: seq<Id>)

  /** A candidate output; its digest is injective, so it stands for its digest. */
  type Candidate = string

  datatype Record = Record(
    logicalKey: string,
    requestDigest: string,
    attempt: Id,
    invocation: Id,
    state: State,
    phase: Phase,
    lease: nat,
    cancellation: nat,
    terminal: nat,
    repairs: nat,
    retries: nat,
    result: Option<Result>,
    nextAttemptAt: Option<Instant>,
    reservations: seq<Id>,
    committed: Option<Candidate>)

  datatype Ledger = Ledger(
    providerCalls: nat,
    reservations: nat,
    retrySchedules: nat,
    repairInvocations: nat,
    reconciliations: nat,
    candidateCommits: nat,
    artifactEffects: nat,
    taskEffects: nat,
    stateEffects: nat)

  /** `order` lists the invocations as inserted, which is how a JavaScript map iterates. */
  datatype Contents = Contents(
    keys: map<string, Id>,
    order: seq<Id>,
    records: map<Id, Record>,
    ledger: Ledger,
    artifacts: seq<(Id, Candidate)>,
    tasks: seq<(Id, Candidate)>)

  const Empty := Contents(map[], [], map[], Ledger(0, 0, 0, 0, 0, 0, 0, 0, 0), [], [])

  function NewRecord(q: Request): Record {
    Record(q.logicalKey, q.digest, q.attempt, q.invocation, Ready, NotDispatched, 1, 0, 0, 0, 0, None, None,
           q.reservations, None)
  }

  datatype Reservation = Created | Duplicate(earlier: Record) | Collision(other: Record) | ToReconcile(unknown: Record)

  /** What a reservation under this key finds. */
  function Found(c: Contents, q: Request): Reservation {
    if q.logicalKey !in c.keys || c.keys[q.logicalKey] !in c.records then Created
    else
      var existing := c.records[c.keys[q.logicalKey]];
      if existing.requestDigest != q.digest then Collision(existing)
      else if existing.state == ReconciliationRequired then ToReconcile(existing)
      else Duplicate(existing)
  }

  /** `reserve`, for a key not seen before under an invocation not seen before. */
  function Reserved(c: Contents, q: Request): Contents {
    c.(keys := c.keys[q.logicalKey := q.invocation],
       order := c.order + [q.invocation],
       records := c.records[q.invocation := NewRecord(q)],
       ledger := c.ledger.(reservations := c.ledger.reservations + |q.reservations|))
  }

  function Put(c: Contents, id: Id, r: Record): Contents {
    c.(records := c.records[id := r])
  }

  function BeginDispatch(c: Contents, id: Id): Option<Contents> {
    if id !in c.records || c.records[id].state != Ready then None
    else Some(Put(c, id, c.records[id].(state := Dispatching, phase := WasDispatched))
              .(ledger := c.ledger.(providerCalls := c.ledger.providerCalls + 1)))
  }

  function PhaseIn(failure: Option<Failure>): Phase {
    if failure.Some? then failure.value.phase else Uncertain
  }

  function RecordResult(c: Contents, id: Id, result: Result): Option<Contents> {
    if id !in c.records then None
    else
      var r := c.records[id].(result := Some(result));
      Some(Put(c, id,
        if r.state == Canceled then r.(phase := Uncertain)
        else match result.status
          case ResultUnknown => r.(state := ReconciliationRequired, phase := PhaseIn(result.failure))
          case ResultFailed => r.(state := Failed)
          case ResultCanceled => r.(state := Canceled)
          case ResultSucceeded => r.(state := Dispatched)))
  }

  function Cancel(c: Contents, id: Id): Option<Contents> {
    if id !in c.records then None
    else Some(Put(c, id, c.records[id].(cancellation := c.records[id].cancellation + 1, state := Canceled)))
  }

  function LoseLease(c: Contents, id: Id): Option<Contents> {
    if id !in c.records then None
    else Some(Put(c, id, c.records[id].(lease := c.records[id].lease + 1)))
  }

  function MarkTerminal(c: Contents, id: Id): Option<Contents> {
    if id !in c.records then None
    else Some(Put(c, id, c.records[id].(terminal := c.records[id].terminal + 1)))
  }

  function MarkValidationFailed(c: Contents, id: Id): Option<Contents> {
    if id !in c.records then None else Some(Put(c, id, c.records[id].(state := Failed)))
  }

  predicate RetryAllowed(r: Record, next: Option<Instant>, deadline: Option<Instant>, budget: int, maximum: int) {
    && next.Some? && deadline.Some? && next.value <= deadline.value
    && budget > 0 && r.retries < maximum
  }

  /** `scheduleRetry`; without effect if the hint is out of bounds or the retries are used up. */
  function ScheduleRetry(c: Contents, id: Id, next: Option<Instant>, deadline: Option<Instant>, budget: int, maximum: int): Option<Contents> {
    if id !in c.records then None
    else
      var r := c.records[id];
      if !RetryAllowed(r, next, deadline, budget, maximum) then Some(c)
      else Some(Put(c, id, r.(retries := r.retries + 1, nextAttemptAt := next, state := RetryWait))
                .(ledger := c.ledger.(retrySchedules := c.ledger.retrySchedules + 1)))
  }

  function BeginRepair(c: Contents, id: Id, repair: Id, reservation: Id): Option<Contents> {
    if id !in c.records || c.records[id].repairs >= 1 || repair == id || reservation in c.records[id].reservations then None
    else Some(Put(c, id, c.records[id].(repairs := c.records[id].repairs + 1))
              .(ledger := c.ledger.(repairInvocations := c.ledger.repairInvocations + 1)))
  }

  function Reconciled(r: Record, result: Option<Result>): Record {
    if result.None? then r.(state := Blocked)
    else match result.value.status
      case ResultSucceeded => r.(result := result, state := Dispatched)
      case ResultUnknown => r.(result := result, state := ReconciliationRequired, phase := PhaseIn(result.value.failure))
      case ResultFailed => r.(result := result, state := Blocked)
      case ResultCanceled => r.(result := result, state := Blocked)
  }

  function MarkReconciled(c: Contents, id: Id, result: Option<Result>): Option<Contents> {
    if id !in c.records || c.records[id].state != ReconciliationRequired then None
    else Some(Put(c, id, Reconciled(c.records[id], result))
              .(ledger := c.ledger.(reconciliations := c.ledger.reconciliations + 1)))
  }

  function MarkReconciliationRequired(c: Contents, id: Id): Option<Contents> {
    if id !in c.records then None
    else Some(Put(c, id, c.records[id].(state := ReconciliationRequired, phase := Uncertain)))
  }

  /** The fence: the generations are those the caller started from, and a result has been recorded. */
  predicate MayCommit(c: Contents, id: Id, lease: nat, cancellation: nat, terminal: nat) {
    && id in c.records
    && c.records[id].lease == lease && c.records[id].cancellation == cancellation && c.records[id].terminal == terminal
    && c.records[id].state == Dispatched
  }

  function Committed(c: Contents, id: Id, candidate: Candidate): Contents
    requires id in c.records
  {
    Put(c, id, c.records[id].(state := Succeeded, committed := Some(candidate)))
    .(ledger := c.ledger.(candidateCommits := c.ledger.candidateCommits + 1,
                          artifactEffects := c.ledger.artifactEffects + 1,
                          taskEffects := c.ledger.taskEffects + 1,
                          stateEffects := c.ledger.stateEffects + 1),
      artifacts := c.artifacts + [(id, candidate)],
      tasks := c.tasks + [(id, candidate)])
  }
}
