/** The locking discipline of every program: what is still needed is held, and what is read is protected. */
module Discipline {
  import opened Domain
  import opened Protocol
  import opened Transactions

  function Own(r: Resource): set<Lock> {
    {Lock(r, false)}
  }

  function ClaimLocks(claim: Claim): set<Lock> {
    if claim.outcome.Redeemed? && claim.pass.Some? then Own(AttendeeRow(claim.pass.value.attendee)) else {}
  }

  function RedeemLocks(pc: RedeemPc): set<Lock> {
    match pc
    case ROverride(_, locked) => Own(AttendeeRow(locked.attendee))
    case RCount(_, locked, _) => Own(AttendeeRow(locked.attendee))
    case RApplication(_, _, row, _) => Own(AttendeeRow(row.attendee))
    case RKey(_, claim) => ClaimLocks(claim)
    case REntry(_, claim) => ClaimLocks(claim)
    case _ => {}
  }

  function PassLocks(pc: PassPc): set<Lock> {
    match pc
    case POwner(_) => {}
    case PAttendee(_) => {}
    case PApplication(attendee, _) => Own(AttendeeRow(attendee))
    case PRsvp(attendee, holder) => Own(AttendeeRow(attendee)) + Own(ApplicationRow(holder.application))
    case PActive(attendee, _, _) => Own(AttendeeRow(attendee))
    case PCurrent(attendee, _, _) => Own(AttendeeRow(attendee))
    case PInsert(attendee, _, prior, _) =>
      Own(AttendeeRow(attendee)) + (if prior.Some? then Own(PassRow(prior.value.0)) else {})
    case PHash(attendee, _, prior, made) =>
      Own(AttendeeRow(attendee)) + Own(PassRow(made.id)) + (if prior.Some? then Own(PassRow(prior.value.0)) else {})
  }

  /** The exclusive locks a program still relies on, read off its program point. */
  function Locked(next: Next): set<Lock> {
    match next
    case Run(Redeeming(q, _, pc)) => RedeemLocks(pc) + (if pc.REntry? then Own(KeySlot(q.key)) else {})
    case Run(Entitling(e, EApplication(_, _))) => Own(AttendeeRow(e.attendee))
    case Run(Entitling(e, EOverride(_))) => Own(AttendeeRow(e.attendee))
    case Run(Updating(u, UGiveUp(_))) => Own(CheckpointRow(u.checkpoint))
    case Run(Updating(u, UTake(cp))) => Own(CheckpointRow(u.checkpoint)) + Own(SlugSlot(cp.cycle, cp.slug))
    case Run(Passing(_, pc)) => PassLocks(pc)
    case Run(Recording(d, DInsert(_))) => Own(ApplicationRow(d.application))
    case Run(Recording(d, DHolder(_))) => Own(ApplicationRow(d.application)) + Own(DecisionRow(d.decision))
    case Run(Recording(d, DAttendee(_))) => Own(ApplicationRow(d.application)) + Own(DecisionRow(d.decision))
    case Run(Releasing(_, decision, _, LApplication(_, _))) => Own(DecisionRow(decision))
    case Run(Responding(r, AResponse)) => Own(ApplicationRow(r.application))
    case Finish(effect, _) => WriteLocks(effect)
    case _ => {}
  }

  /** The values whose absence the program has assumed without holding a lock on them. */
  function Assumed(next: Next): set<Resource> {
    match next
    case Run(Redeeming(q, _, RFind)) => {}
    case Run(Redeeming(q, _, RKey(_, claim))) =>
      if claim.outcome.InvalidPass? then {KeyRow(q.key), HashIndex(q.hash)} else {KeyRow(q.key)}
    case Run(Redeeming(q, _, _)) => {KeyRow(q.key)}
    case Finish(LogScan(k, row, _, _), _) =>
      if row.outcome.InvalidPass? then {KeyRow(k), HashIndex(row.hash)} else {KeyRow(k)}
    case _ => {}
  }

  predicate Alive(next: Next) {
    next.Run? || next.Finish?
  }

  /** One step keeps the discipline: the locks relied upon afterwards were relied upon before or are acquired now, the
      value read is permanent once found or covered by a lock, and an absence read without a lock is remembered. */
  ghost predicate Disciplined(tx: Tx, v: View) {
    var a := Wants(tx);
    var next := Resume(tx, v);
    Alive(next) ==>
      && Locked(next) <= Locked(Run(tx)) + Acquired(a, v)
      && (!Snapshot(a.res) ==> Guarded(Locked(Run(tx)) + Acquired(a, v), Cover(a.res)))
      && Assumed(Run(tx)) <= Assumed(next)
      && (Snapshot(a.res) && !Found(v) ==> a.res in Assumed(next))
  }

  lemma ScanFindsDisciplined(q: RedeemInput, n: Attempt, pc: RedeemPc, v: View)
    requires pc.RFind? || pc.RCheckpoint? || pc.RHash?
    ensures Disciplined(Redeeming(q, n, pc), v)
  {
  }

  lemma ScanLocksDisciplined(q: RedeemInput, n: Attempt, pc: RedeemPc, v: View)
    requires pc.RPass? || pc.RAttendee?
    ensures Disciplined(Redeeming(q, n, pc), v)
  {
  }

  lemma ScanHolderDisciplined(q: RedeemInput, n: Attempt, pc: RedeemPc, v: View)
    requires pc.RApplication?
    ensures Disciplined(Redeeming(q, n, pc), v)
  {
  }

  lemma ScanJudgesDisciplined(q: RedeemInput, n: Attempt, pc: RedeemPc, v: View)
    requires pc.ROverride? || pc.RCount?
    ensures Disciplined(Redeeming(q, n, pc), v)
  {
  }

  lemma ScanRecordsDisciplined(q: RedeemInput, n: Attempt, pc: RedeemPc, v: View)
    requires pc.RKey? || pc.REntry?
    ensures Disciplined(Redeeming(q, n, pc), v)
  {
  }

  lemma RedeemDisciplined(q: RedeemInput, n: Attempt, pc: RedeemPc, v: View)
    ensures Disciplined(Redeeming(q, n, pc), v)
  {
    if pc.RKey? || pc.REntry? { ScanRecordsDisciplined(q, n, pc, v); }
    else if pc.ROverride? || pc.RCount? { ScanJudgesDisciplined(q, n, pc, v); }
    else if pc.RApplication? { ScanHolderDisciplined(q, n, pc, v); }
    else if pc.RPass? || pc.RAttendee? { ScanLocksDisciplined(q, n, pc, v); }
    else { ScanFindsDisciplined(q, n, pc, v); }
  }

  lemma EntitlingDisciplined(tx: Tx, v: View)
    requires tx.Entitling?
    ensures Disciplined(tx, v)
  {
  }

  lemma UpdatingDisciplined(tx: Tx, v: View)
    requires tx.Updating?
    ensures Disciplined(tx, v)
  {
  }

  lemma PassFindsDisciplined(p: PassInput, pc: PassPc, v: View)
    requires pc.POwner? || pc.PAttendee? || pc.PApplication? || pc.PRsvp? || pc.PActive?
    ensures Disciplined(Passing(p, pc), v)
  {
  }

  lemma PassWritesDisciplined(p: PassInput, pc: PassPc, v: View)
    requires pc.PCurrent? || pc.PInsert? || pc.PHash?
    ensures Disciplined(Passing(p, pc), v)
  {
  }

  lemma PassDisciplined(p: PassInput, pc: PassPc, v: View)
    ensures Disciplined(Passing(p, pc), v)
  {
    if pc.PCurrent? || pc.PInsert? || pc.PHash? { PassWritesDisciplined(p, pc, v); }
    else { PassFindsDisciplined(p, pc, v); }
  }

  lemma RecordingDisciplined(tx: Tx, v: View)
    requires tx.Recording?
    ensures Disciplined(tx, v)
  {
  }

  lemma AnsweringDisciplined(tx: Tx, v: View)
    requires tx.Releasing? || tx.Responding?
    ensures Disciplined(tx, v)
  {
  }

  lemma StepDisciplined(tx: Tx, v: View)
    ensures Disciplined(tx, v)
  {
    match tx
    case Redeeming(q, n, pc) => RedeemDisciplined(q, n, pc, v);
    case Passing(p, pc) => PassDisciplined(p, pc, v);
    case Entitling(_, _) => EntitlingDisciplined(tx, v);
    case Updating(_, _) => UpdatingDisciplined(tx, v);
    case Recording(_, _) => RecordingDisciplined(tx, v);
    case _ => AnsweringDisciplined(tx, v);
  }

  lemma BeginDisciplined(call: Call, n: Attempt)
    ensures Locked(Begin(call, n)) == {} && Assumed(Begin(call, n)) == {}
  {
  }
}
