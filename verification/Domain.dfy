/** Rows of the event database, and the entitlement rule that governs a scan. */
module Domain {
  datatype Option<+T> = None | Some(value: T)

  function Get<K, V>(m: map<K, V>, k: K): Option<V> {
    if k in m then Some(m[k]) else None
  }

  // Identifiers are random UUIDs in the platform; only equality matters here.
  type Id = nat
  // A QR hash is an injective image of the credential.
  type Hash = nat
  type Time = int
  // Go's zero instant, which stands for a time that was not given.
  const ZERO_TIME: Time := 0

  const MAX_INT32: int := 0x7fff_ffff

  /** Go's conversion to a 32-bit integer: keep the low 32 bits, read as two's complement. */
  function ToInt32(n: int): int {
    var low := n % 0x1_0000_0000;
    if low > MAX_INT32 then low - 0x1_0000_0000 else low
  }

  datatype Status = Draft | Submitted | Accepted | Waitlisted | Rejected | Withdrawn
  datatype PassStatus = Active | Revoked | Replaced
  datatype Attendance = Confirmed | Declined
  datatype Outcome = Redeemed | AlreadyExhausted | NotEntitled | OutsideWindow | InvalidPass | RevokedPass

  predicate IsDecision(status: Status) {
    status.Accepted? || status.Waitlisted? || status.Rejected?
  }

  datatype Checkpoint = Checkpoint(
    cycle: Id, activity: Option<Id>, slug: string, name: string, opensAt: Option<Time>, closesAt: Option<Time>,
    defaultAllowed: bool, defaultMax: int, active: bool)

  datatype Application = Application(
    cycle: Id, applicant: Id, applicantName: string, status: Status,
    current: Option<Id>, releasedAt: Option<Time>)

  datatype Decision = Decision(
    application: Id, outcome: Status, supersedes: Option<Id>, decidedBy: Id,
    releasedBy: Option<Id>, releasedAt: Option<Time>)

  datatype Response = Response(status: Attendance, version: nat)
  datatype Attendee = Attendee(application: Id, cycle: Id, user: Id, name: string)
  datatype Pass = Pass(attendee: Id, hash: Hash, status: PassStatus, replacedBy: Option<Id>)
  datatype Override = Override(cycle: Id, allowed: bool, max: int)

  /** One row of the idempotency ledger: a safe snapshot of the answer given to a scan. */
  datatype LedgerRow = LedgerRow(
    scanner: Id, checkpoint: Id, hash: Hash, pass: Option<Id>, attendee: Option<Id>, outcome: Outcome,
    attendeeName: Option<string>, passStatus: Option<PassStatus>, checkpointName: string, redemption: Option<Id>)

  datatype Redemption = Redemption(
    id: Id, pass: Id, attendee: Id, checkpoint: Id, cycle: Id, ordinal: int, scanner: Id, key: Id)

  datatype Audit =
    | RedemptionRecorded(scanner: Id, subject: Id, checkpoint: Id, attendee: Option<Id>, pass: Option<Id>,
                         redemption: Option<Id>, key: Id, outcome: Outcome)
    | PassIssued(actor: Id, newPass: Id, holder: Id)
    | PassReissued(actor: Id, priorPass: Id, holder: Id, newPass: Id)
    | PassRevoked(actor: Id, priorPass: Id, holder: Id)
    | DecisionRecorded(actor: Id, decision: Id, application: Id, verdict: Status)
    | DecisionReleased(actor: Id, decision: Id, application: Id, verdict: Status)
    | AttendeeCreated(actor: Id, holder: Id, application: Id)
    | RsvpChanged(actor: Id, application: Id, decision: Id, answer: Attendance, version: nat)
    | EntitlementOverridden(actor: Id, holder: Id, checkpoint: Id, allowed: bool, max: int)
    | EntitlementRemoved(actor: Id, holder: Id, checkpoint: Id)
    | CheckpointUpdated(actor: Id, checkpoint: Id)

  // The outbox is keyed by its deduplication key; a repeated key is ignored.
  datatype EmailKey = DecisionReleaseEmail(decision: Id) | PassLinkEmail(pass: Id)

  datatype Store = Store(
    checkpoints: map<Id, Checkpoint>,
    slugs: map<(Id, string), Id>,       // unique index: (cycle, slug) -> checkpoint
    activities: map<Id, Id>,            // activity -> cycle
    applications: map<Id, Application>,
    decisions: map<Id, Decision>,
    responses: map<Id, Response>,       // by decision
    attendees: map<Id, Attendee>,
    attendeeOf: map<Id, Id>,            // unique index: application -> attendee
    passes: map<Id, Pass>,
    qrIndex: map<Hash, Id>,             // unique index: QR hash -> pass
    overrides: map<(Id, Id), Override>, // by (attendee, checkpoint)
    ledger: map<Id, LedgerRow>,         // by idempotency key
    redemptions: seq<Redemption>,       // append-only
    audits: seq<Audit>,                 // append-only
    outbox: map<EmailKey, Id>)

  /** The cached test for a released acceptance, as scans and pass locks make it. */
  predicate Visible(app: Application) {
    app.status.Accepted? && app.releasedAt.Some?
  }

  /** How many redemptions one attendee has at one checkpoint. */
  function Count(rs: seq<Redemption>, attendee: Id, checkpoint: Id): (n: nat)
    ensures n <= |rs|
  {
    if rs == [] then 0
    else
      var last := rs[|rs| - 1];
      Count(rs[..|rs| - 1], attendee, checkpoint)
      + (if last.attendee == attendee && last.checkpoint == checkpoint then 1 else 0)
  }

  lemma CountAppend(rs: seq<Redemption>, r: Redemption, attendee: Id, checkpoint: Id)
    ensures Count(rs + [r], attendee, checkpoint)
         == Count(rs, attendee, checkpoint) + (if r.attendee == attendee && r.checkpoint == checkpoint then 1 else 0)
  {
    assert (rs + [r])[..|rs|] == rs;
  }

  // ---- Entitlements ---------------------------------------------------------

  datatype Effective = Effective(allowed: bool, max: int)

  /** An override replaces both checkpoint defaults; a negative maximum is clamped to zero. */
  function Resolve(defaultAllowed: bool, defaultMax: int, override: Option<Override>): Effective {
    var result :=
      match override
      case Some(o) => Effective(o.allowed, o.max)
      case None => Effective(defaultAllowed, defaultMax);
    if result.max < 0 then result.(max := 0) else result
  }

  /** The rule in force for one attendee at one checkpoint; an override counts within the checkpoint's own cycle. */
  function EffectiveRule(s: Store, attendee: Id, checkpoint: Id): Effective
    requires checkpoint in s.checkpoints
  {
    var cp := s.checkpoints[checkpoint];
    var o := Get(s.overrides, (attendee, checkpoint));
    Resolve(cp.defaultAllowed, cp.defaultMax, if o.Some? && o.value.cycle == cp.cycle then o else None)
  }

  /** The uses one attendee may make of one checkpoint in a store; zero when access is denied. */
  function Allowance(s: Store, attendee: Id, checkpoint: Id): (n: int)
    ensures 0 <= n
  {
    if checkpoint !in s.checkpoints then 0
    else
      var e := EffectiveRule(s, attendee, checkpoint);
      if e.allowed then e.max else 0
  }
}
