/** The text keys of the local projection: `type:run:sequence`, or `type:company:event` for an event
    that belongs to no run. */
module ProjectionKeys {
  import opened Common
  import opened Rows

  /** Event types appended outside any run. */
  datatype CompanyEvent = CompanyCreated | ProfileVersionCreated | AttachmentIngested | AttachmentRejected

  datatype Source =
    | OfRun(run: Id, sequence: nat, payload: Payload)
    | OfCompany(kind: CompanyEvent)

  datatype Envelope = Envelope(event: Id, source: Source)

  function CompanyTypeName(kind: CompanyEvent): (r: string)
    ensures ':' !in r
  {
    match kind
    case CompanyCreated => "company_created"
    case ProfileVersionCreated => "company_profile_version_created"
    case AttachmentIngested => "attachment_ingested"
    case AttachmentRejected => "attachment_rejected"
  }

  function RunTypeName(p: Payload): (r: string)
    ensures ':' !in r
  {
    match p
    case RunCreated(_, _, _, _) => "run_created"
    case GoalQualificationRecorded(_) => "goal_qualification_recorded"
    case TaskStarted(_, _, _, _, _) => "task_started"
    case ReconciliationRequired(_, _, _) => "model_outcome_reconciliation_required"
    case BriefPublished(_, _, _, _, _) => "product_brief_published"
    case InputRequested(_, _, _, _, _, _) => "founder_input_requested"
    case InputResolved(_, _, _, _, _, _, _) => "founder_input_resolved"
    case CancelProbe(_, _) => "durability_cancel_probe"
    case SequenceProbe(_) => "durability_sequence_probe"
  }

  function TypeName(source: Source): (r: string)
    ensures ':' !in r
  {
    match source
    case OfCompany(kind) => CompanyTypeName(kind)
    case OfRun(_, _, p) => RunTypeName(p)
  }

  function Digit(d: nat): char
    requires d < 10
  {
    "0123456789"[d]
  }

  /** Decimal text of a number, most significant digit first. Ids are printed the same way. */
  function Numeral(n: nat): (r: string)
    ensures r != []
    ensures forall c :: c in r ==> '0' <= c <= '9'
  {
    if n < 10 then [Digit(n)] else Numeral(n / 10) + [Digit(n % 10)]
  }

  lemma {:induction false} NumeralInjective(m: nat, n: nat)
    requires Numeral(m) == Numeral(n)
    ensures m == n
  {
    var a, b := Numeral(m), Numeral(n);
    assert a[|a| - 1] == Digit(m % 10) && b[|b| - 1] == Digit(n % 10);
    if m >= 10 && n >= 10 {
      assert a[..|a| - 1] == Numeral(m / 10) && b[..|b| - 1] == Numeral(n / 10);
      NumeralInjective(m / 10, n / 10);
    }
  }

  /** `[a, b, c].join(':')` */
  function Join(a: string, b: string, c: string): string {
    a + ":" + b + ":" + c
  }

  function KeyOf(e: Envelope): string {
    match e.source
    case OfRun(run, sequence, _) => Join(TypeName(e.source), Numeral(run), Numeral(sequence))
    case OfCompany(_) => Join(TypeName(e.source), "company", Numeral(e.event))
  }

  lemma SplitAtColon(a: string, x: string, b: string, y: string)
    requires a + ":" + x == b + ":" + y
    requires ':' !in a && ':' !in b
    ensures a == b && x == y
  {
    var s := a + ":" + x;
    assert s[|a|] == ':' && s[|b|] == ':';
    assert s[..|a|] == a && s[..|b|] == b;
    assert s[|a| + 1..] == x && s[|b| + 1..] == y;
  }

  lemma JoinInjective(a: string, b: string, c: string, a': string, b': string, c': string)
    requires Join(a, b, c) == Join(a', b', c')
    requires ':' !in a && ':' !in a' && ':' !in b && ':' !in b'
    ensures a == a' && b == b' && c == c'
  {
    assert Join(a, b, c) == a + ":" + (b + ":" + c);
    assert Join(a', b', c') == a' + ":" + (b' + ":" + c');
    SplitAtColon(a, b + ":" + c, a', b' + ":" + c');
    SplitAtColon(b, c, b', c');
  }

  /** Two envelopes share a key only if they are the same event, or the same place in the same run. */
  lemma KeyDetermines(e: Envelope, f: Envelope)
    requires KeyOf(e) == KeyOf(f)
    ensures match e.source
            case OfRun(run, sequence, _) => f.source.OfRun? && f.source.run == run && f.source.sequence == sequence
            case OfCompany(_) => f.source.OfCompany? && f.event == e.event
  {
    var er := if e.source.OfRun? then Numeral(e.source.run) else "company";
    var fr := if f.source.OfRun? then Numeral(f.source.run) else "company";
    var es := Numeral(if e.source.OfRun? then e.source.sequence else e.event);
    var fs := Numeral(if f.source.OfRun? then f.source.sequence else f.event);
    JoinInjective(TypeName(e.source), er, es, TypeName(f.source), fr, fs);
    NumeralInjective(if e.source.OfRun? then e.source.sequence else e.event,
                     if f.source.OfRun? then f.source.sequence else f.event);
    assert "company"[0] == 'c';
    if e.source.OfRun? && f.source.OfRun? {
      NumeralInjective(e.source.run, f.source.run);
    }
  }
}
