/** The services' transactions as programs: at each program point, which statement runs next (Wants) and what the
    transaction does with the answer (Resume). Locals read so far are carried by the program point. */
module Transactions {
  import opened Domain
  import opened Protocol
  import opened Text

  // ---- Requests -------------------------------------------------------------

  // A malformed credential has validQR false and a sentinel hash.
  datatype RedeemInput = RedeemInput(scanner: Id, key: Id, checkpoint: Id, hash: Hash, validQR: bool)

  // With no rule the override is deleted, otherwise replaced.
  datatype EntitlementInput = EntitlementInput(actor: Id, attendee: Id, checkpoint: Id, rule: Option<(bool, int)>)

  datatype CheckpointInput = CheckpointInput(actor: Id, checkpoint: Id, fields: Checkpoint)

  datatype NewPass = NewPass(id: Id, hash: Hash)
  datatype PassInput =
    | Issue(actor: Id, attendee: Id, made: NewPass)
    | Reissue(actor: Id, pass: Id, made: NewPass)
    | Revoke(actor: Id, pass: Id)

  // The identifiers of the rows to insert are drawn by the caller.
  datatype DecisionInput = DecisionInput(actor: Id, application: Id, outcome: Status, decision: Id, attendee: Id)

  datatype RsvpInput = RsvpInput(user: Id, application: Id, decision: Id, status: Attendance, version: int)

  datatype Call =
    | Redeem(q: RedeemInput)
    | Entitle(e: EntitlementInput)
    | UpdateCheckpoint(u: CheckpointInput)
    | OnPass(p: PassInput)
    | Record(d: DecisionInput)
    | Release(actor: Id, decision: Id)
    | Respond(r: RsvpInput)

  /** What one attempt draws: the transaction's start time, and an identifier for a possible redemption. */
  datatype Attempt = Attempt(now: Time, redemption: Id)

  datatype Result = Result(
    outcome: Outcome, attendee: Option<string>, pass: Option<PassStatus>,
    checkpoint: Id, checkpointName: string, redemption: Option<Id>)

  datatype Reply =
    | Done
    | Scan(result: Result)
    | PassIs(id: Id, status: PassStatus)
    | DecisionIs(decided: Id, releasedAt: Option<Time>)
    | RsvpIs(answer: Attendance, version: nat)

  datatype Error =
    | NotFound | InvalidInput | IdempotencyConflict | CheckpointNotFound | RsvpRequired | ActivePassExists
    | NotSubmitted | InvalidOutcome | Conflict | Internal

  // ---- Programs -------------------------------------------------------------

  /** A pass as the scan's three-row lock returns it. */
  datatype LockedPass = LockedPass(id: Id, attendee: Id, cycle: Id, name: string, status: PassStatus)
  datatype Claim = Claim(outcome: Outcome, pass: Option<LockedPass>, ordinal: int)

  datatype RedeemPc =
    | RFind
    | RCheckpoint
    | RHash(cp: Checkpoint)
    | RPass(cp: Checkpoint, pass: Id)
    | RAttendee(cp: Checkpoint, pass: Id, row: Pass)
    | RApplication(cp: Checkpoint, pass: Id, row: Pass, holder: Attendee)
    | ROverride(cp: Checkpoint, locked: LockedPass)
    | RCount(cp: Checkpoint, locked: LockedPass, max: int)
    | RKey(cp: Checkpoint, claim: Claim)
    | REntry(cp: Checkpoint, claim: Claim)

  datatype EntitlePc =
    | ECheckpoint
    | EAttendee(cycle: Id)
    | EApplication(cycle: Id, holder: Attendee)
    | EOverride(cycle: Id)

  datatype UpdatePc = UCycle | UActivity(cycle: Id) | ULock(cycle: Id) | UGiveUp(cp: Checkpoint) | UTake(cp: Checkpoint)

  datatype PassPc =
    | POwner(pass: Id)
    | PAttendee(attendee: Id)
    | PApplication(attendee: Id, holder: Attendee)
    | PRsvp(attendee: Id, holder: Attendee)
    | PActive(attendee: Id, holder: Attendee, made: NewPass)
    | PCurrent(attendee: Id, holder: Attendee, pass: Id)
    | PInsert(attendee: Id, holder: Attendee, prior: Option<(Id, Pass)>, made: NewPass)
    | PHash(attendee: Id, holder: Attendee, prior: Option<(Id, Pass)>, made: NewPass)

  datatype RecordPc =
    | DApplication
    | DInsert(app: Application)
    | DHolder(app: Application)
    | DAttendee(app: Application)

  datatype ReleasePc =
    | LOwner
    | LDecision(application: Id)
    | LApplication(application: Id, row: Decision)

  datatype RespondPc = AApplication | AResponse

  datatype Tx =
    | Redeeming(q: RedeemInput, n: Attempt, rp: RedeemPc)
    | Entitling(e: EntitlementInput, ep: EntitlePc)
    | Updating(u: CheckpointInput, up: UpdatePc)
    | Passing(p: PassInput, pp: PassPc)
    | Recording(d: DecisionInput, dp: RecordPc)
    | Releasing(actor: Id, decision: Id, now: Time, lp: ReleasePc)
    | Responding(r: RsvpInput, vp: RespondPc)

  /** Finish: ready to commit. Fail: rolled back. Again: a unique violation, to be attempted afresh. */
  datatype Next =
    | Run(tx: Tx)
    | Finish(effect: Effect, reply: Reply)
    | Fail(error: Error)
    | Again

  // ---- Recording a scan -------------------------------------------------------

  function ClaimedPass(claim: Claim): Option<LockedPass> {
    if claim.outcome.InvalidPass? then None else claim.pass
  }

  function ScanResult(q: RedeemInput, n: Attempt, cp: Checkpoint, claim: Claim): Result {
    var pass := ClaimedPass(claim);
    Result(claim.outcome,
           if pass.Some? then Some(pass.value.name) else None,
           if pass.Some? then Some(pass.value.status) else None,
           q.checkpoint, cp.name,
           if claim.outcome.Redeemed? then Some(n.redemption) else None)
  }

  function ScanEffect(q: RedeemInput, n: Attempt, cp: Checkpoint, claim: Claim): Effect {
    var pass := ClaimedPass(claim);
    var id := if pass.Some? then Some(pass.value.id) else None;
    var holder := if pass.Some? then Some(pass.value.attendee) else None;
    var redemption := if claim.outcome.Redeemed? then Some(n.redemption) else None;
    LogScan(
      q.key,
      LedgerRow(q.scanner, q.checkpoint, q.hash, id, holder, claim.outcome,
                if pass.Some? then Some(pass.value.name) else None,
                if pass.Some? then Some(pass.value.status) else None, cp.name, redemption),
      if claim.outcome.Redeemed? && pass.Some?
      then Some(Redemption(n.redemption, pass.value.id, pass.value.attendee, q.checkpoint, cp.cycle, claim.ordinal,
                           q.scanner, q.key))
      else None,
      RedemptionRecorded(q.scanner, if redemption.Some? then redemption.value else q.checkpoint, q.checkpoint,
                         holder, id, redemption, q.key, claim.outcome))
  }

  /** Decodes a persisted ledger row into the answer it stands for. */
  function ResultFromRow(row: LedgerRow): Result {
    var shown := row.pass.Some? && row.attendeeName.Some? && row.passStatus.Some?;
    Result(row.outcome, if shown then row.attendeeName else None, if shown then row.passStatus else None,
           row.checkpoint, row.checkpointName, row.redemption)
  }

  predicate Open(cp: Checkpoint, now: Time) {
    !(cp.opensAt.Some? && now < cp.opensAt.value) && !(cp.closesAt.Some? && !(now < cp.closesAt.value))
  }

  // ---- Starting a call --------------------------------------------------------

  /** The fields as they are stored: slug and name trimmed. */
  function Tidy(f: Checkpoint): Checkpoint {
    f.(slug := Trim(f.slug), name := Trim(f.name))
  }

  predicate ValidCheckpoint(f: Checkpoint) {
    && !Blank(f.slug) && !Blank(f.name) && 0 <= f.defaultMax <= MAX_INT32
    && f.opensAt != Some(ZERO_TIME) && f.closesAt != Some(ZERO_TIME)
    && (f.opensAt.Some? && f.closesAt.Some? ==> f.opensAt.value < f.closesAt.value)
  }

  function Begin(call: Call, n: Attempt): Next {
    match call
    case Redeem(q) => Run(Redeeming(q, n, RFind))
    case Entitle(e) =>
      if e.rule.Some? && (e.rule.value.1 < 0 || e.rule.value.1 > MAX_INT32) then Fail(InvalidInput)
      else Run(Entitling(e, ECheckpoint))
    case UpdateCheckpoint(u) => if ValidCheckpoint(u.fields) then Run(Updating(u, UCycle)) else Fail(InvalidInput)
    case OnPass(Issue(actor, attendee, made)) => Run(Passing(call.p, PAttendee(attendee)))
    case OnPass(Reissue(actor, pass, made)) => Run(Passing(call.p, POwner(pass)))
    case OnPass(Revoke(actor, pass)) => Run(Passing(call.p, POwner(pass)))
    case Record(d) => if IsDecision(d.outcome) then Run(Recording(d, DApplication)) else Fail(InvalidOutcome)
    case Release(actor, decision) => Run(Releasing(actor, decision, n.now, LOwner))
    case Respond(r) => if r.version < 0 then Fail(InvalidInput) else Run(Responding(r, AApplication))
  }

  // ---- The next statement -------------------------------------------------------

  function WantsRedeem(q: RedeemInput, n: Attempt, pc: RedeemPc): Access {
    match pc
    case RFind => Access(KeyRow(q.key), ForUpdate)
    case RCheckpoint => Access(CheckpointRow(q.checkpoint), ForShare)
    case RHash(_) => Access(HashIndex(q.hash), Plain)
    case RPass(_, pass) => Access(PassRow(pass), ForUpdate)
    case RAttendee(_, _, row) => Access(AttendeeRow(row.attendee), ForUpdate)
    case RApplication(_, _, _, holder) => Access(ApplicationRow(holder.application), ForUpdate)
    case ROverride(_, locked) => Access(OverrideRow(locked.attendee, q.checkpoint), ForUpdate)
    case RCount(_, locked, _) => Access(Usage(locked.attendee, q.checkpoint), Plain)
    case RKey(_, _) => Access(KeySlot(q.key), Insert)
    case REntry(_, _) => Access(RedemptionSlot(n.redemption), Insert)
  }

  function WantsPass(p: PassInput, pc: PassPc): Access {
    match pc
    case POwner(pass) => Access(PassOwner(pass), Plain)
    case PAttendee(attendee) => Access(AttendeeRow(attendee), ForUpdate)
    case PApplication(_, holder) => Access(ApplicationRow(holder.application), ForUpdate)
    case PRsvp(_, holder) => Access(ConfirmedRsvp(holder.application), Plain)
    case PActive(attendee, _, _) => Access(ActivePass(attendee), Plain)
    case PCurrent(_, _, pass) => Access(PassRow(pass), ForUpdate)
    case PInsert(_, _, _, made) => Access(PassRow(made.id), Insert)
    case PHash(_, _, _, made) => Access(HashSlot(made.hash), Insert)
  }

  function Wants(tx: Tx): Access {
    match tx
    case Redeeming(q, n, pc) => WantsRedeem(q, n, pc)
    case Entitling(e, ECheckpoint) => Access(CheckpointRow(e.checkpoint), ForUpdate)
    case Entitling(e, EAttendee(_)) => Access(AttendeeRow(e.attendee), ForUpdate)
    case Entitling(e, EApplication(_, holder)) => Access(ApplicationRow(holder.application), ForUpdate)
    case Entitling(e, EOverride(_)) =>
        Access(OverrideRow(e.attendee, e.checkpoint), if e.rule.Some? then Upsert else ForUpdate)
    case Updating(u, UCycle) => Access(CheckpointCycle(u.checkpoint), Plain)
    case Updating(u, UActivity(_)) =>
        Access(ActivityRow(if u.fields.activity.Some? then u.fields.activity.value else 0), ForShare)
    case Updating(u, ULock(_)) => Access(CheckpointRow(u.checkpoint), ForUpdate)
    // The update claims the index slot it leaves, then the one it enters, waiting for whoever has claimed that.
    case Updating(u, UGiveUp(cp)) => Access(SlugSlot(cp.cycle, cp.slug), Upsert)
    case Updating(u, UTake(cp)) => Access(SlugSlot(cp.cycle, Trim(u.fields.slug)), Upsert)
    case Passing(p, pc) => WantsPass(p, pc)
    case Recording(d, DApplication) => Access(ApplicationRow(d.application), ForUpdate)
    case Recording(d, DInsert(_)) => Access(DecisionRow(d.decision), Insert)
    case Recording(d, DHolder(_)) => Access(AttendeeOf(d.application), Plain)
    case Recording(d, DAttendee(_)) => Access(AttendeeRow(d.attendee), Insert)
    case Releasing(_, decision, _, LOwner) => Access(DecisionOwner(decision), Plain)
    case Releasing(_, decision, _, LDecision(_)) => Access(DecisionRow(decision), ForUpdate)
    case Releasing(_, decision, _, LApplication(application, _)) => Access(ApplicationRow(application), ForUpdate)
    case Responding(r, AApplication) => Access(ApplicationRow(r.application), ForUpdate)
    case Responding(r, AResponse) => Access(ResponseOf(r.application), Plain)
  }

  // ---- What the transaction does with the answer ----------------------------------

  function AfterLocks(q: RedeemInput, n: Attempt, cp: Checkpoint, locked: LockedPass, eligible: bool): Next {
    if locked.status.Revoked? && eligible then Run(Redeeming(q, n, RKey(cp, Claim(RevokedPass, Some(locked), 0))))
    else if !locked.status.Active? || !eligible then Run(Redeeming(q, n, RKey(cp, Claim(InvalidPass, None, 0))))
    else if !cp.active then Run(Redeeming(q, n, RKey(cp, Claim(OutsideWindow, Some(locked), 0))))
    else if cp.cycle != locked.cycle then Run(Redeeming(q, n, RKey(cp, Claim(NotEntitled, Some(locked), 0))))
    else if !Open(cp, n.now) then Run(Redeeming(q, n, RKey(cp, Claim(OutsideWindow, Some(locked), 0))))
    else Run(Redeeming(q, n, ROverride(cp, locked)))
  }

  function ResumeRedeem(q: RedeemInput, n: Attempt, pc: RedeemPc, v: View): Next {
    match (pc, v)
    case (RFind, VLedger(Some(row))) =>
      if row.checkpoint != q.checkpoint || row.hash != q.hash then Fail(IdempotencyConflict)
      else Finish(Nothing, Scan(ResultFromRow(row)))
    case (RFind, VLedger(None)) => Run(Redeeming(q, n, RCheckpoint))
    case (RCheckpoint, VCheckpoint(None)) => Fail(CheckpointNotFound)
    case (RCheckpoint, VCheckpoint(Some(cp))) =>
      if q.validQR then Run(Redeeming(q, n, RHash(cp)))
      else Run(Redeeming(q, n, RKey(cp, Claim(InvalidPass, None, 0))))
    case (RHash(cp), VId(None)) => Run(Redeeming(q, n, RKey(cp, Claim(InvalidPass, None, 0))))
    case (RHash(cp), VId(Some(pass))) => Run(Redeeming(q, n, RPass(cp, pass)))
    case (RPass(cp, pass), VPass(Some(row))) => Run(Redeeming(q, n, RAttendee(cp, pass, row)))
    case (RAttendee(cp, pass, row), VAttendee(Some(holder))) =>
        Run(Redeeming(q, n, RApplication(cp, pass, row, holder)))
    case (RApplication(cp, pass, row, holder), VApplication(Some(app))) =>
      AfterLocks(q, n, cp, LockedPass(pass, row.attendee, holder.cycle, holder.name, row.status), Visible(app))
    case (ROverride(cp, locked), VOverride(o)) =>
      var matching := if o.Some? && o.value.cycle == locked.cycle then o else None;
      var effective := Resolve(cp.defaultAllowed, cp.defaultMax, matching);
      if effective.allowed then Run(Redeeming(q, n, RCount(cp, locked, effective.max)))
      else Run(Redeeming(q, n, RKey(cp, Claim(NotEntitled, Some(locked), 0))))
    case (RCount(cp, locked, max), VCount(committed)) =>
      if committed >= max then Run(Redeeming(q, n, RKey(cp, Claim(AlreadyExhausted, Some(locked), 0))))
      else Run(Redeeming(q, n, RKey(cp, Claim(Redeemed, Some(locked), ToInt32(committed + 1)))))
    case (RKey(cp, claim), VLedger(Some(_))) => Again
    case (RKey(cp, claim), VLedger(None)) =>
      if claim.outcome.Redeemed? then Run(Redeeming(q, n, REntry(cp, claim)))
      else Finish(ScanEffect(q, n, cp, claim), Scan(ScanResult(q, n, cp, claim)))
    case (REntry(cp, claim), VFlag(taken)) =>
      if taken then Again else Finish(ScanEffect(q, n, cp, claim), Scan(ScanResult(q, n, cp, claim)))
    case _ => Fail(Internal) // a row another row refers to always exists
  }

  function ResumeEntitle(e: EntitlementInput, pc: EntitlePc, v: View): Next {
    match (pc, v)
    case (ECheckpoint, VCheckpoint(Some(cp))) => Run(Entitling(e, EAttendee(cp.cycle)))
    case (EAttendee(cycle), VAttendee(Some(holder))) => Run(Entitling(e, EApplication(cycle, holder)))
    case (EApplication(cycle, holder), VApplication(Some(app))) =>
      if Visible(app) && holder.cycle == cycle then Run(Entitling(e, EOverride(cycle))) else Fail(NotFound)
    case (EOverride(cycle), VOverride(o)) =>
      if e.rule.Some? then
        var (allowed, max) := e.rule.value;
        Finish(SetOverride(e.attendee, e.checkpoint, Override(if o.Some? then o.value.cycle else cycle, allowed, max),
                           EntitlementOverridden(e.actor, e.attendee, e.checkpoint, allowed, max)), Done)
      else if o.Some? then
        Finish(ClearOverride(e.attendee, e.checkpoint, EntitlementRemoved(e.actor, e.attendee, e.checkpoint)), Done)
      else Finish(Nothing, Done)
    case _ => Fail(NotFound)
  }

  function Updated(u: CheckpointInput, cp: Checkpoint): Next {
    Finish(SetCheckpoint(u.checkpoint, cp, Tidy(u.fields).(cycle := cp.cycle),
                         CheckpointUpdated(u.actor, u.checkpoint)), Done)
  }

  function ResumeUpdate(u: CheckpointInput, pc: UpdatePc, v: View): Next {
    match (pc, v)
    case (UCycle, VId(Some(cycle))) =>
      if u.fields.activity.Some? then Run(Updating(u, UActivity(cycle))) else Run(Updating(u, ULock(cycle)))
    case (UActivity(cycle), VId(Some(owner))) => if owner == cycle then Run(Updating(u, ULock(cycle)))
        else Fail(NotFound)
    case (ULock(cycle), VCheckpoint(Some(cp))) => Run(Updating(u, UGiveUp(cp)))
    case (UGiveUp(cp), _) =>
      if Trim(u.fields.slug) == cp.slug then Updated(u, cp) else Run(Updating(u, UTake(cp)))
    case (UTake(cp), VId(None)) => Updated(u, cp)
    case (UTake(cp), _) => Fail(Conflict)
    case _ => Fail(NotFound)
  }

  function ResumePass(p: PassInput, pc: PassPc, v: View): Next {
    match (pc, v)
    case (POwner(pass), VId(Some(attendee))) => Run(Passing(p, PAttendee(attendee)))
    case (PAttendee(attendee), VAttendee(Some(holder))) => Run(Passing(p, PApplication(attendee, holder)))
    case (PApplication(attendee, holder), VApplication(Some(app))) =>
      if !Visible(app) then Fail(NotFound)
      else if p.Revoke? then Run(Passing(p, PCurrent(attendee, holder, p.pass)))
      else Run(Passing(p, PRsvp(attendee, holder)))
    case (PRsvp(attendee, holder), VFlag(confirmed)) =>
      if !confirmed then Fail(RsvpRequired)
      else if p.Issue? then Run(Passing(p, PActive(attendee, holder, p.made)))
      else Run(Passing(p, PCurrent(attendee, holder, p.pass)))
    case (PActive(attendee, holder, made), VFlag(taken)) =>
      if taken then Fail(ActivePassExists) else Run(Passing(p, PInsert(attendee, holder, None, made)))
    case (PCurrent(attendee, holder, pass), VPass(Some(row))) =>
      if !row.status.Active? || row.attendee != attendee then Fail(NotFound) // the owner of a pass never changes
      else if p.Reissue? then Run(Passing(p, PInsert(attendee, holder, Some((pass, row)), p.made)))
      else Finish(EndPass(pass, row, PassRevoked(p.actor, pass, attendee)), PassIs(pass, Revoked))
    case (PInsert(attendee, holder, prior, made), VPass(None)) => Run(Passing(p, PHash(attendee, holder, prior, made)))
    case (PHash(attendee, holder, prior, made), VId(None)) =>
      var row := Pass(attendee, made.hash, Active, None);
      if prior.Some? then
        Finish(SwapPass(prior.value.0, prior.value.1, made.id, row,
                        PassReissued(p.actor, prior.value.0, attendee, made.id), holder.user), PassIs(made.id, Active))
      else
        Finish(AddPass(made.id, row, PassIssued(p.actor, made.id, attendee), holder.user), PassIs(made.id, Active))
    case (PInsert(_, _, _, _), _) => Fail(Internal)
    case (PHash(_, _, _, _), _) => Fail(Internal)
    case _ => Fail(NotFound)
  }

  function Decided(d: DecisionInput, app: Application, holder: Option<(Id, Attendee)>): Next {
    Finish(AddDecision(d.decision, Decision(d.application, d.outcome, app.current, d.actor, None, None), app, holder,
                       (if holder.Some? then [AttendeeCreated(d.actor, holder.value.0, d.application)] else [])
                       + [DecisionRecorded(d.actor, d.decision, d.application, d.outcome)]),
           DecisionIs(d.decision, None))
  }

  function ResumeRecord(d: DecisionInput, pc: RecordPc, v: View): Next {
    match (pc, v)
    case (DApplication, VApplication(Some(app))) =>
      if app.status.Submitted? || IsDecision(app.status) then Run(Recording(d, DInsert(app))) else Fail(NotSubmitted)
    case (DInsert(app), VDecision(None)) =>
      if d.outcome.Accepted? then Run(Recording(d, DHolder(app))) else Decided(d, app, None)
    case (DHolder(app), VId(Some(_))) => Decided(d, app, None)
    case (DHolder(app), VId(None)) => Run(Recording(d, DAttendee(app)))
    case (DAttendee(app), VAttendee(None)) =>
      Decided(d, app, Some((d.attendee, Attendee(d.application, app.cycle, app.applicant, app.applicantName))))
    case (DApplication, _) => Fail(NotFound)
    case _ => Fail(Internal)
  }

  function ResumeRelease(actor: Id, decision: Id, now: Time, pc: ReleasePc, v: View): Next {
    match (pc, v)
    case (LOwner, VId(Some(application))) => Run(Releasing(actor, decision, now, LDecision(application)))
    case (LDecision(application), VDecision(Some(row))) =>
        Run(Releasing(actor, decision, now, LApplication(application, row)))
    case (LApplication(application, row), VApplication(Some(app))) =>
      if app.current != Some(decision) || row.application != application then Fail(NotFound)
      else if row.releasedAt.Some? then Finish(Nothing, DecisionIs(decision, row.releasedAt))
      else Finish(MarkReleased(decision, row, app, now, actor,
                               DecisionReleased(actor, decision, application, row.outcome)),
                  DecisionIs(decision, Some(now)))
    case _ => Fail(NotFound)
  }

  function ResumeRespond(r: RsvpInput, pc: RespondPc, v: View): Next {
    match (pc, v)
    case (AApplication, VApplication(Some(app))) =>
      if app.applicant != r.user || !Visible(app) then Fail(NotFound)
      else if app.current != Some(r.decision) then Fail(Conflict)
      else Run(Responding(r, AResponse))
    case (AResponse, VRsvp(Some(stored))) =>
      if stored.Some? && stored.value.status == r.status then Finish(Nothing, RsvpIs(r.status, stored.value.version))
      else if (if stored.Some? then stored.value.version else 0) != r.version then Fail(Conflict)
      else
        var version := if stored.Some? then stored.value.version + 1 else 1;
        Finish(SaveResponse(r.application, r.decision, Response(r.status, version),
                            RsvpChanged(r.user, r.application, r.decision, r.status, version)),
               RsvpIs(r.status, version))
    case _ => Fail(NotFound)
  }

  function Resume(tx: Tx, v: View): Next {
    match tx
    case Redeeming(q, n, pc) => ResumeRedeem(q, n, pc, v)
    case Entitling(e, pc) => ResumeEntitle(e, pc, v)
    case Updating(u, pc) => ResumeUpdate(u, pc, v)
    case Passing(p, pc) => ResumePass(p, pc, v)
    case Recording(d, pc) => ResumeRecord(d, pc, v)
    case Releasing(actor, decision, now, pc) => ResumeRelease(actor, decision, now, pc, v)
    case Responding(r, pc) => ResumeRespond(r, pc, v)
  }

  /** Statements still to run, at most. */
  function Left(tx: Tx): nat {
    match tx
    case Redeeming(_, _, RFind) => 10
    case Redeeming(_, _, RCheckpoint) => 9
    case Redeeming(_, _, RHash(_)) => 8
    case Redeeming(_, _, RPass(_, _)) => 7
    case Redeeming(_, _, RAttendee(_, _, _)) => 6
    case Redeeming(_, _, RApplication(_, _, _, _)) => 5
    case Redeeming(_, _, ROverride(_, _)) => 4
    case Redeeming(_, _, RCount(_, _, _)) => 3
    case Redeeming(_, _, RKey(_, _)) => 2
    case Redeeming(_, _, REntry(_, _)) => 1
    case Entitling(_, ECheckpoint) => 4
    case Entitling(_, EAttendee(_)) => 3
    case Entitling(_, EApplication(_, _)) => 2
    case Entitling(_, EOverride(_)) => 1
    case Updating(_, UCycle) => 5
    case Updating(_, UActivity(_)) => 4
    case Updating(_, ULock(_)) => 3
    case Updating(_, UGiveUp(_)) => 2
    case Updating(_, UTake(_)) => 1
    case Passing(_, POwner(_)) => 8
    case Passing(_, PAttendee(_)) => 7
    case Passing(_, PApplication(_, _)) => 6
    case Passing(_, PRsvp(_, _)) => 5
    case Passing(_, PActive(_, _, _)) => 4
    case Passing(_, PCurrent(_, _, _)) => 3
    case Passing(_, PInsert(_, _, _, _)) => 2
    case Passing(_, PHash(_, _, _, _)) => 1
    case Recording(_, DApplication) => 4
    case Recording(_, DInsert(_)) => 3
    case Recording(_, DHolder(_)) => 2
    case Recording(_, DAttendee(_)) => 1
    case Releasing(_, _, _, LOwner) => 3
    case Releasing(_, _, _, LDecision(_)) => 2
    case Releasing(_, _, _, LApplication(_, _)) => 1
    case Responding(_, AApplication) => 2
    case Responding(_, AResponse) => 1
  }

  lemma ResumeAdvances(tx: Tx, v: View)
    ensures Resume(tx, v).Run? ==> Left(Resume(tx, v).tx) < Left(tx)
  {
  }

  /** Running a transaction alone, every statement reading the same committed store. */
  ghost function Alone(s: Store, next: Next): Next
    decreases if next.Run? then Left(next.tx) + 1 else 0
  {
    if next.Run? then
      ResumeAdvances(next.tx, Look(s, Wants(next.tx).res));
      Alone(s, Resume(next.tx, Look(s, Wants(next.tx).res)))
    else next
  }
}
