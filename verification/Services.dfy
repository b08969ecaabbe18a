/** The services as they run their statements against the database, one call at a time. Each is proved to do exactly
    what its atomic specification says, or to leave the database as it was. */
module Services {
  import opened Domain
  import opened Protocol
  import opened Text
  import opened Transactions
  import opened Specs
  import opened Machine

  predicate InvalidTimeWindow(start: Option<Time>, end: Option<Time>) {
    || start == Some(ZERO_TIME) || end == Some(ZERO_TIME)
    || (start.Some? && end.Some? && !(start.value < end.value))
  }

  /** The trimmed fields of a checkpoint, if they are valid. */
  method ValidateCheckpointInput(input: Checkpoint) returns (fields: Option<Checkpoint>)
    ensures fields == if ValidCheckpoint(input) then Some(Tidy(input)) else None
  {
    var slug, name := Trim(input.slug), Trim(input.name);
    if slug == "" || name == "" || input.defaultMax < 0 || input.defaultMax > MAX_INT32
       || InvalidTimeWindow(input.opensAt, input.closesAt) {
      return None;
    }
    return Some(input.(slug := slug, name := name));
  }

  /** What a caller gets back. */
  datatype Served = Replied(reply: Reply) | Refused(error: Error) | TryAgain

  function Outward(next: Next): Served {
    match next
    case Finish(_, reply) => Replied(reply)
    case Fail(error) => Refused(error)
    case Again => TryAgain
    case Run(_) => Refused(Internal)
  }

  function Settle(s: Store, next: Next): Store {
    if next.Finish? then Apply(s, next.effect) else s
  }

  class Database {
    var checkpoints: map<Id, Checkpoint>
    var slugs: map<(Id, string), Id>
    var activities: map<Id, Id>
    var applications: map<Id, Application>
    var decisions: map<Id, Decision>
    var responses: map<Id, Response>
    var attendees: map<Id, Attendee>
    var attendeeOf: map<Id, Id>
    var passes: map<Id, Pass>
    var qrIndex: map<Hash, Id>
    var overrides: map<(Id, Id), Override>
    var ledger: map<Id, LedgerRow>
    var redemptions: seq<Redemption>
    var audits: seq<Audit>
    var outbox: map<EmailKey, Id>

    function Contents(): Store
      reads this
    {
      Store(checkpoints, slugs, activities, applications, decisions, responses, attendees, attendeeOf, passes,
            qrIndex, overrides,
            ledger, redemptions, audits, outbox)
    }

    /** The foreign keys behind every credential the index finds. */
    predicate ForeignKeys()
      reads this
    {
      forall h :: h in qrIndex ==> Linked(Contents(), qrIndex[h])
    }

    constructor (s: Store)
      ensures Contents() == s
    {
      checkpoints, slugs, activities, applications, decisions, responses :=
        s.checkpoints, s.slugs, s.activities, s.applications, s.decisions, s.responses;
      attendees, attendeeOf, passes, qrIndex, overrides := s.attendees, s.attendeeOf, s.passes, s.qrIndex, s.overrides;
      ledger, redemptions, audits, outbox := s.ledger, s.redemptions, s.audits, s.outbox;
    }

    // ---- Statements -------------------------------------------------------------------

    /** The three-row lock of a scan; none when the hash is unknown. */
    method LockPassByQRHash(hash: Hash) returns (found: Option<LockedPass>, eligible: bool)
      requires ForeignKeys()
      ensures found.Some? <==> hash in qrIndex
      ensures found.Some?
              ==> found.value == Holder(Contents(), qrIndex[hash]) && eligible == Eligible(Contents(), qrIndex[hash])
    {
      if hash !in qrIndex { return None, false; }
      var id := qrIndex[hash];
      var row := passes[id];
      var holder := attendees[row.attendee];
      var app := applications[holder.application];
      return Some(LockedPass(id, row.attendee, holder.cycle, holder.name, row.status)), app.status.Accepted?
          && app.releasedAt.Some?;
    }

    method EffectiveEntitlement(attendee: Id, checkpoint: Id, cp: Checkpoint) returns (effective: Effective)
      requires Get(checkpoints, checkpoint) == Some(cp)
      ensures effective == EffectiveRule(Contents(), attendee, checkpoint)
    {
      var at := (attendee, checkpoint);
      if at !in overrides || overrides[at].cycle != cp.cycle { return Resolve(cp.defaultAllowed, cp.defaultMax, None); }
      return Resolve(cp.defaultAllowed, cp.defaultMax, Some(overrides[at]));
    }

    /** Inserts the ledger row, the redemption of a successful scan and the audit event. A unique violation inserts
        nothing. */
    method RecordOutcome(q: RedeemInput, n: Attempt, cp: Checkpoint, outcome: Outcome, pass: Option<LockedPass>,
                         ordinal: int)
      returns (served: Served)
      requires outcome.Redeemed? ==> pass.Some?
      modifies this`ledger, this`redemptions, this`audits
      ensures var claim := Claim(outcome, pass, ordinal);
              var taken := q.key in old(ledger) || (outcome.Redeemed? && HasRedemption(old(redemptions), n.redemption));
              && served == (if taken then TryAgain else Replied(Scan(ScanResult(q, n, cp, claim))))
              && Contents() == if taken then old(Contents()) else Apply(old(Contents()), ScanEffect(q, n, cp, claim))
    {
      var passId, attendeeId, name, status := None, None, None, None;
      if pass.Some? && !outcome.InvalidPass? {
        passId, attendeeId, name, status :=
            Some(pass.value.id), Some(pass.value.attendee), Some(pass.value.name), Some(pass.value.status);
      }
      var redemption := None;
      if outcome.Redeemed? { redemption := Some(n.redemption); }
      if q.key in ledger { return TryAgain; }
      var before := ledger;
      var row :=
        LedgerRow(q.scanner, q.checkpoint, q.hash, passId, attendeeId, outcome, name, status, cp.name, redemption);
      ledger := ledger[q.key := row];
      if outcome.Redeemed? {
        if HasRedemption(redemptions, n.redemption) {
          ledger := before;
          return TryAgain;
        }
        var made := Redemption(n.redemption, pass.value.id, pass.value.attendee, q.checkpoint, cp.cycle, ordinal,
                               q.scanner, q.key);
        redemptions := redemptions + [made];
      }
      var subject := q.checkpoint;
      if redemption.Some? { subject := redemption.value; }
      var event :=
        RedemptionRecorded(q.scanner, subject, q.checkpoint, attendeeId, passId, redemption, q.key, outcome);
      audits := audits + [event];
      return Replied(Scan(Result(outcome, name, status, q.checkpoint, cp.name, redemption)));
    }

    method InsertPass(made: NewPass, attendee: Id) returns (inserted: bool)
      modifies this`passes, this`qrIndex
      ensures inserted <==> made.id !in old(passes) && made.hash !in old(qrIndex)
      ensures Contents() == if !inserted then old(Contents()) else old(Contents()).(
                              passes := old(passes)[made.id := Pass(attendee, made.hash, Active, None)],
                              qrIndex := old(qrIndex)[made.hash := made.id])
    {
      if made.id in passes || made.hash in qrIndex { return false; }
      passes := passes[made.id := Pass(attendee, made.hash, Active, None)];
      qrIndex := qrIndex[made.hash := made.id];
      return true;
    }

    method QueueEmail(key: EmailKey, recipient: Id)
      modifies this`outbox
      ensures outbox == Queue(old(outbox), key, recipient)
    {
      if key !in outbox { outbox := outbox[key := recipient]; }
    }

    /** Writes the audit event of a pass and queues its link. */
    method Announce(event: Audit, pass: Id, user: Id)
      modifies this`audits, this`outbox
      ensures Contents() == old(Contents()).(
                              audits := old(audits) + [event],
                              outbox := Queue(old(outbox), PassLinkEmail(pass), user))
    {
      audits := audits + [event];
      QueueEmail(PassLinkEmail(pass), user);
    }

    /** The attendee of a visible acceptance. */
    method LockAcceptedAttendee(attendee: Id) returns (holder: Option<Attendee>)
      ensures holder == if VisibleAttendee(Contents(), attendee) then Some(attendees[attendee]) else None
    {
      if attendee !in attendees || attendees[attendee].application !in applications { return None; }
      var app := applications[attendees[attendee].application];
      if !app.status.Accepted? || app.releasedAt.None? { return None; }
      return Some(attendees[attendee]);
    }

    // ---- Scans -------------------------------------------------------------------------

    method RedeemAttempt(q: RedeemInput, n: Attempt) returns (served: Served)
      requires ForeignKeys()
      modifies this`ledger, this`redemptions, this`audits
      ensures served == Outward(RedeemAtomically(old(Contents()), q, n))
      ensures Contents() == Settle(old(Contents()), RedeemAtomically(old(Contents()), q, n))
    {
      if q.key in ledger {
        var row := ledger[q.key];
        if row.checkpoint != q.checkpoint || row.hash != q.hash { return Refused(IdempotencyConflict); }
        return Replied(Scan(ResultFromRow(row)));
      }
      if q.checkpoint !in checkpoints { return Refused(CheckpointNotFound); }
      var cp := checkpoints[q.checkpoint];
      if !q.validQR {
        served := RecordOutcome(q, n, cp, InvalidPass, None, 0);
        return;
      }
      served := RedeemResolved(q, n, cp);
    }

    /** The part of a scan that has a well-formed credential and its checkpoint. */
    method RedeemResolved(q: RedeemInput, n: Attempt, cp: Checkpoint) returns (served: Served)
      requires ForeignKeys() && q.validQR && q.key !in ledger && Get(checkpoints, q.checkpoint) == Some(cp)
      modifies this`ledger, this`redemptions, this`audits
      ensures served == Outward(RedeemAtomically(old(Contents()), q, n))
      ensures Contents() == Settle(old(Contents()), RedeemAtomically(old(Contents()), q, n))
    {
      var pass, eligible := LockPassByQRHash(q.hash);
      ghost var s := Contents();
      var outcome, shown, ordinal := InvalidPass, None, 0;
      if pass.Some? {
        outcome, shown, ordinal := Decide(q, n, cp, pass.value, eligible);
      }
      served := RecordOutcome(q, n, cp, outcome, shown, ordinal);
      ScanIsRecorded(s, q, n, Claim(outcome, shown, ordinal));
    }

    /** The tests of a scan in the order the outcomes take precedence. */
    method Decide(q: RedeemInput, n: Attempt, cp: Checkpoint, pass: LockedPass, eligible: bool)
      returns (outcome: Outcome, shown: Option<LockedPass>, ordinal: int)
      requires Get(checkpoints, q.checkpoint) == Some(cp) && Linked(Contents(), pass.id)
      requires pass == Holder(Contents(), pass.id) && eligible == Eligible(Contents(), pass.id)
      ensures Judge(Contents(), q.checkpoint, pass.id, n.now) == Claim(outcome, shown, ordinal)
      ensures outcome.Redeemed? ==> shown.Some?
    {
      if pass.status.Revoked? && eligible { return RevokedPass, Some(pass), 0; }
      if !pass.status.Active? || !eligible { return InvalidPass, None, 0; }
      if !cp.active { return OutsideWindow, Some(pass), 0; }
      if cp.cycle != pass.cycle { return NotEntitled, Some(pass), 0; }
      if (cp.opensAt.Some? && n.now < cp.opensAt.value) || (cp.closesAt.Some? && !(n.now < cp.closesAt.value)) {
        return OutsideWindow, Some(pass), 0;
      }
      var effective := EffectiveEntitlement(pass.attendee, q.checkpoint, cp);
      if !effective.allowed { return NotEntitled, Some(pass), 0; }
      var committed := Count(redemptions, pass.attendee, q.checkpoint);
      if committed >= effective.max { return AlreadyExhausted, Some(pass), 0; }
      return Redeemed, Some(pass), ToInt32(committed + 1);
    }

    /** The retry loop: up to three attempts, each with its own clock reading and identifier. */
    method RedeemScan(q: RedeemInput, draws: seq<Attempt>) returns (served: Served)
      requires ForeignKeys() && |draws| == TRANSACTION_RETRIES
      modifies this`ledger, this`redemptions, this`audits
      ensures served == Outward(FirstDone(old(Contents()), q, draws))
      ensures Contents() == Settle(old(Contents()), FirstDone(old(Contents()), q, draws))
      ensures forall k :: 0 <= k < 3 && FirstToSettle(old(Contents()), q, draws, k) ==>
                var done := RedeemAtomically(old(Contents()), q, draws[k]);
                served == Outward(done) && Contents() == Settle(old(Contents()), done)
      ensures NoneSettles(old(Contents()), q, draws) ==> served == Refused(Internal) && Contents() == old(Contents())
    {
      for i := 0 to TRANSACTION_RETRIES
        invariant Contents() == old(Contents())
        invariant FirstDone(old(Contents()), q, draws) == FirstDone(old(Contents()), q, draws[i..])
        invariant forall j :: 0 <= j < i ==> RedeemAtomically(old(Contents()), q, draws[j]).Again?
      {
        served := RedeemAttempt(q, draws[i]);
        assert draws[i..][1..] == draws[i + 1..];
        if !served.TryAgain? { return; }
      }
      return Refused(Internal);
    }

    // ---- Passes ------------------------------------------------------------------------

    /** The organizer's gate: a visible acceptance with a confirmed response. */
    method PassGate(attendee: Id) returns (refusal: Option<Error>, user: Id)
      ensures refusal == if !VisibleAttendee(Contents(), attendee) then Some(NotFound)
                         else if !IsConfirmed(Contents(), attendees[attendee].application) then Some(RsvpRequired)
                         else None
      ensures refusal.None? ==> user == attendees[attendee].user
    {
      var holder := LockAcceptedAttendee(attendee);
      if holder.None? { return Some(NotFound), 0; }
      if !IsConfirmed(Contents(), holder.value.application) { return Some(RsvpRequired), 0; }
      return None, holder.value.user;
    }

    method HasActivePass(attendee: Id) returns (found: bool)
      ensures found == HasActive(Contents(), attendee)
    {
      found := exists p :: p in passes && passes[p].attendee == attendee && passes[p].status.Active?;
    }

    method InsertIssued(actor: Id, attendee: Id, made: NewPass, user: Id) returns (inserted: bool)
      modifies this`passes, this`qrIndex, this`audits, this`outbox
      ensures inserted <==> made.id !in old(passes) && made.hash !in old(qrIndex)
      ensures var e :=
              AddPass(made.id, Pass(attendee, made.hash, Active, None), PassIssued(actor, made.id, attendee), user);
              Contents() == if inserted then Apply(old(Contents()), e) else old(Contents())
    {
      inserted := InsertPass(made, attendee);
      if !inserted { return; }
      Announce(PassIssued(actor, made.id, attendee), made.id, user);
    }

    method IssuePass(actor: Id, attendee: Id, made: NewPass) returns (served: Served)
      modifies this`passes, this`qrIndex, this`audits, this`outbox
      ensures served == Outward(IssueAtomically(old(Contents()), actor, attendee, made))
      ensures Contents() == Settle(old(Contents()), IssueAtomically(old(Contents()), actor, attendee, made))
    {
      var refusal, user := PassGate(attendee);
      if refusal.Some? { return Refused(refusal.value); }
      var taken := HasActivePass(attendee);
      if taken { return Refused(ActivePassExists); }
      var inserted := InsertIssued(actor, attendee, made, user);
      return if inserted then Replied(PassIs(made.id, Active)) else Refused(Internal);
    }

    method SwapIssued(actor: Id, pass: Id, row: Pass, made: NewPass, user: Id) returns (inserted: bool)
      requires Get(passes, pass) == Some(row)
      modifies this`passes, this`qrIndex, this`audits, this`outbox
      ensures inserted <==> made.id !in old(passes) && made.hash !in old(qrIndex)
      ensures var e := SwapPass(pass, row, made.id, Pass(row.attendee, made.hash, Active, None),
                                PassReissued(actor, pass, row.attendee, made.id), user);
              Contents() == if inserted then Apply(old(Contents()), e) else old(Contents())
    {
      var before := passes;
      passes := passes[pass := row.(status := Replaced, replacedBy := Some(made.id))];
      inserted := InsertPass(made, row.attendee);
      if !inserted {
        passes := before;
        return;
      }
      Announce(PassReissued(actor, pass, row.attendee, made.id), made.id, user);
    }

    method ReissuePass(actor: Id, pass: Id, made: NewPass) returns (served: Served)
      modifies this`passes, this`qrIndex, this`audits, this`outbox
      ensures served == Outward(ReissueAtomically(old(Contents()), actor, pass, made))
      ensures Contents() == Settle(old(Contents()), ReissueAtomically(old(Contents()), actor, pass, made))
    {
      if pass !in passes { return Refused(NotFound); }
      var row := passes[pass];
      var refusal, user := PassGate(row.attendee);
      if refusal.Some? { return Refused(refusal.value); }
      if !row.status.Active? { return Refused(NotFound); }
      var inserted := SwapIssued(actor, pass, row, made, user);
      return if inserted then Replied(PassIs(made.id, Active)) else Refused(Internal);
    }

    method RevokePass(actor: Id, pass: Id) returns (served: Served)
      modifies this`passes, this`audits
      ensures served == Outward(RevokeAtomically(old(Contents()), actor, pass))
      ensures Contents() == Settle(old(Contents()), RevokeAtomically(old(Contents()), actor, pass))
    {
      if pass !in passes { return Refused(NotFound); }
      var row := passes[pass];
      var holder := LockAcceptedAttendee(row.attendee);
      if holder.None? || !row.status.Active? { return Refused(NotFound); }
      passes := passes[pass := row.(status := Revoked)];
      audits := audits + [PassRevoked(actor, pass, row.attendee)];
      return Replied(PassIs(pass, Revoked));
    }

    // ---- Decisions and responses ---------------------------------------------------------

    /** Inserts the attendee of an application unless it has one; a taken identifier inserts nothing. */
    method UpsertAcceptedAttendee(d: DecisionInput, app: Application) returns (ok: bool, created: bool)
      modifies this`attendees, this`attendeeOf, this`audits
      ensures created <==> d.application !in old(attendeeOf) && d.attendee !in old(attendees)
      ensures ok <==> d.application in old(attendeeOf) || d.attendee !in old(attendees)
      ensures Contents() == if created then Joined(old(Contents()), d, app) else old(Contents())
    {
      if d.application in attendeeOf { return true, false; }
      if d.attendee in attendees { return false, false; }
      attendees := attendees[d.attendee := Attendee(d.application, app.cycle, app.applicant, app.applicantName)];
      attendeeOf := attendeeOf[d.application := d.attendee];
      audits := audits + [AttendeeCreated(d.actor, d.attendee, d.application)];
      return true, true;
    }

    /** The writes of a decision on a locked application, or none of them. */
    method AppendDecision(d: DecisionInput, app: Application) returns (ok: bool, ghost created: bool)
      modifies this`decisions, this`applications, this`attendees, this`attendeeOf, this`audits
      ensures created <==> d.outcome.Accepted? && d.application !in old(attendeeOf) && d.attendee !in old(attendees)
      ensures ok <==> (d.outcome.Accepted? ==> d.application in old(attendeeOf) || d.attendee !in old(attendees))
      ensures Contents() == if ok then Appended(old(Contents()), d, app, created) else old(Contents())
    {
      var decisionsBefore, applicationsBefore := decisions, applications;
      decisions := decisions[d.decision := Decision(d.application, d.outcome, app.current, d.actor, None, None)];
      applications :=
          applications[d.application := app.(status := d.outcome, current := Some(d.decision), releasedAt := None)];
      ok, created := true, false;
      if d.outcome.Accepted? { ok, created := UpsertAcceptedAttendee(d, app); }
      if !ok {
        decisions, applications := decisionsBefore, applicationsBefore;
        return;
      }
      audits := audits + [DecisionRecorded(d.actor, d.decision, d.application, d.outcome)];
    }

    method RecordDecision(d: DecisionInput) returns (served: Served)
      modifies this`decisions, this`applications, this`attendees, this`attendeeOf, this`audits
      ensures served == Outward(RecordAtomically(old(Contents()), d))
      ensures Contents() == Settle(old(Contents()), RecordAtomically(old(Contents()), d))
    {
      if !IsDecision(d.outcome) { return Refused(InvalidOutcome); }
      if d.application !in applications { return Refused(NotFound); }
      var app := applications[d.application];
      if !(app.status.Submitted? || IsDecision(app.status)) { return Refused(NotSubmitted); }
      if d.decision in decisions { return Refused(Internal); }
      ghost var s := Contents();
      ghost var created;
      var ok;
      ok, created := AppendDecision(d, app);
      DecisionIsMade(s, d, app, ok, created);
      DecisionIsAppended(s, d, app, ok, created);
      return if ok then Replied(DecisionIs(d.decision, None)) else Refused(Internal);
    }

    /** Marks a decision and its application released, and queues the one email of that decision. */
    method MarkDecisionReleased(actor: Id, decision: Id, row: Decision, app: Application, now: Time)
      modifies this`decisions, this`applications, this`audits, this`outbox
      ensures Contents() == old(Contents()).(
                              decisions :=
                                  old(decisions)[decision := row.(releasedBy := Some(actor), releasedAt := Some(now))],
                              applications := old(applications)[row.application := app.(releasedAt := Some(now))],
                              audits := old(audits) + [DecisionReleased(actor, decision, row.application, row.outcome)],
                              outbox := Queue(old(outbox), DecisionReleaseEmail(decision), app.applicant))
    {
      decisions := decisions[decision := row.(releasedBy := Some(actor), releasedAt := Some(now))];
      applications := applications[row.application := app.(releasedAt := Some(now))];
      QueueEmail(DecisionReleaseEmail(decision), app.applicant);
      audits := audits + [DecisionReleased(actor, decision, row.application, row.outcome)];
    }

    method ReleaseDecision(actor: Id, decision: Id, now: Time) returns (served: Served)
      modifies this`decisions, this`applications, this`audits, this`outbox
      ensures served == Outward(ReleaseAtomically(old(Contents()), actor, decision, now))
      ensures Contents() == Settle(old(Contents()), ReleaseAtomically(old(Contents()), actor, decision, now))
    {
      if decision !in decisions || decisions[decision].application !in applications { return Refused(NotFound); }
      var row := decisions[decision];
      var app := applications[row.application];
      if app.current != Some(decision) { return Refused(NotFound); }
      if row.releasedAt.Some? { return Replied(DecisionIs(decision, row.releasedAt)); }
      MarkDecisionReleased(actor, decision, row, app, now);
      return Replied(DecisionIs(decision, Some(now)));
    }

    /** Inserts the response of a decision, or changes it and counts its version up. */
    method SaveAnswer(r: RsvpInput) returns (saved: Response)
      modifies this`responses, this`audits
      ensures saved.status == r.status
      ensures saved.version == if r.decision in old(responses) then old(responses)[r.decision].version + 1 else 1
      ensures var event := RsvpChanged(r.user, r.application, r.decision, saved.status, saved.version);
              Contents() == old(Contents()).(
                              responses := old(responses)[r.decision := saved],
                              audits := old(audits) + [event])
    {
      if r.decision in responses {
        responses := responses[r.decision := Response(r.status, responses[r.decision].version + 1)];
      } else {
        responses := responses[r.decision := Response(r.status, 1)];
      }
      saved := responses[r.decision];
      audits := audits + [RsvpChanged(r.user, r.application, r.decision, saved.status, saved.version)];
    }

    method RespondToOffer(r: RsvpInput) returns (served: Served)
      modifies this`responses, this`audits
      ensures served == Outward(RespondAtomically(old(Contents()), r))
      ensures Contents() == Settle(old(Contents()), RespondAtomically(old(Contents()), r))
    {
      if r.version < 0 { return Refused(InvalidInput); }
      if r.application !in applications { return Refused(NotFound); }
      var app := applications[r.application];
      if app.applicant != r.user || !app.status.Accepted? || app.releasedAt.None? { return Refused(NotFound); }
      if app.current != Some(r.decision) { return Refused(Conflict); }
      var projected := Project(Contents(), r.application);
      if projected.None? { return Refused(NotFound); }
      var stored := projected.value;
      var version := if stored.Some? then stored.value.version else 0;
      if stored.Some? && stored.value.status == r.status { return Replied(RsvpIs(r.status, version)); }
      if version != r.version { return Refused(Conflict); }
      var saved := SaveAnswer(r);
      return Replied(RsvpIs(saved.status, saved.version));
    }

    // ---- Organizer rules -------------------------------------------------------------------

    method PutEntitlement(actor: Id, attendee: Id, checkpoint: Id, allowed: bool, max: int) returns (served: Served)
      modifies this`overrides, this`audits
      ensures var spec :=
              EntitleAtomically(old(Contents()), EntitlementInput(actor, attendee, checkpoint, Some((allowed, max))));
              served == Outward(spec) && Contents() == Settle(old(Contents()), spec)
    {
      if max < 0 || max > MAX_INT32 { return Refused(InvalidInput); }
      if checkpoint !in checkpoints { return Refused(NotFound); }
      var cycle := checkpoints[checkpoint].cycle;
      var holder := LockAcceptedAttendee(attendee);
      if holder.None? || holder.value.cycle != cycle { return Refused(NotFound); }
      var at := (attendee, checkpoint);
      if at in overrides {
        overrides := overrides[at := overrides[at].(allowed := allowed, max := max)];
      } else {
        overrides := overrides[at := Override(holder.value.cycle, allowed, max)];
      }
      audits := audits + [EntitlementOverridden(actor, attendee, checkpoint, allowed, max)];
      return Replied(Done);
    }

    method DeleteEntitlement(actor: Id, attendee: Id, checkpoint: Id) returns (served: Served)
      modifies this`overrides, this`audits
      ensures var spec := EntitleAtomically(old(Contents()), EntitlementInput(actor, attendee, checkpoint, None));
              served == Outward(spec) && Contents() == Settle(old(Contents()), spec)
    {
      if checkpoint !in checkpoints { return Refused(NotFound); }
      var cycle := checkpoints[checkpoint].cycle;
      var holder := LockAcceptedAttendee(attendee);
      if holder.None? || holder.value.cycle != cycle { return Refused(NotFound); }
      var at := (attendee, checkpoint);
      if at in overrides {
        overrides := overrides - {at};
        audits := audits + [EntitlementRemoved(actor, attendee, checkpoint)];
      }
      return Replied(Done);
    }

    /** Writes a checkpoint, moves its entry in the slug index and audits the edit. */
    method WriteCheckpoint(actor: Id, checkpoint: Id, prev: Checkpoint, fields: Checkpoint)
      modifies this`checkpoints, this`slugs, this`audits
      ensures Contents() == old(Contents()).(
                              checkpoints := old(checkpoints)[checkpoint := fields],
                              slugs :=
                                  (old(slugs) - {(prev.cycle, prev.slug)})[(fields.cycle, fields.slug) := checkpoint],
                              audits := old(audits) + [CheckpointUpdated(actor, checkpoint)])
    {
      slugs := slugs - {(prev.cycle, prev.slug)};
      slugs := slugs[(fields.cycle, fields.slug) := checkpoint];
      checkpoints := checkpoints[checkpoint := fields];
      audits := audits + [CheckpointUpdated(actor, checkpoint)];
    }

    method UpdateCheckpointFields(u: CheckpointInput) returns (served: Served)
      modifies this`checkpoints, this`slugs, this`audits
      ensures served == Outward(UpdateAtomically(old(Contents()), u))
      ensures Contents() == Settle(old(Contents()), UpdateAtomically(old(Contents()), u))
    {
      var valid := ValidateCheckpointInput(u.fields);
      if valid.None? { return Refused(InvalidInput); }
      if u.checkpoint !in checkpoints { return Refused(NotFound); }
      var cycle := checkpoints[u.checkpoint].cycle;
      var fields := valid.value.(cycle := cycle);
      if fields.activity.Some? {
        var activity := fields.activity.value;
        if activity !in activities || activities[activity] != cycle { return Refused(NotFound); }
      }
      var prev := checkpoints[u.checkpoint];
      if fields.slug != prev.slug && (cycle, fields.slug) in slugs { return Refused(Conflict); }
      WriteCheckpoint(u.actor, u.checkpoint, prev, fields);
      return Replied(Done);
    }
  }

  /** The new attendee of an application, with its audit event. */
  function Joined(s: Store, d: DecisionInput, app: Application): Store {
    s.(attendees := s.attendees[d.attendee := Attendee(d.application, app.cycle, app.applicant, app.applicantName)],
       attendeeOf := s.attendeeOf[d.application := d.attendee],
       audits := s.audits + [AttendeeCreated(d.actor, d.attendee, d.application)])
  }

  /** A decision appended to the chain of its application, which caches it. */
  function Chained(s: Store, d: DecisionInput, app: Application): Store {
    s.(decisions := s.decisions[d.decision := Decision(d.application, d.outcome, app.current, d.actor, None, None)],
       applications :=
           s.applications[d.application := app.(status := d.outcome, current := Some(d.decision), releasedAt := None)])
  }

  function Appended(s: Store, d: DecisionInput, app: Application, created: bool): Store {
    var chained := Chained(s, d, app);
    var joined := if created then Joined(chained, d, app) else chained;
    joined.(audits := joined.audits + [DecisionRecorded(d.actor, d.decision, d.application, d.outcome)])
  }

  function Newcomer(d: DecisionInput, app: Application, created: bool): Option<(Id, Attendee)> {
    if created then Some((d.attendee, Attendee(d.application, app.cycle, app.applicant, app.applicantName))) else None
  }

  lemma JoinedDecision(s: Store, d: DecisionInput, app: Application)
    ensures Apply(s, Decided(d, app, Newcomer(d, app, true)).effect) == Appended(s, d, app, true)
  {
    var first := AttendeeCreated(d.actor, d.attendee, d.application);
    var second := DecisionRecorded(d.actor, d.decision, d.application, d.outcome);
    assert s.audits + [first] + [second] == s.audits + ([first] + [second]);
  }

  lemma PlainDecision(s: Store, d: DecisionInput, app: Application)
    ensures Apply(s, Decided(d, app, Newcomer(d, app, false)).effect) == Appended(s, d, app, false)
  {
    var recorded := DecisionRecorded(d.actor, d.decision, d.application, d.outcome);
    assert [] + [recorded] == [recorded];
  }

  lemma DecisionIsMade(s: Store, d: DecisionInput, app: Application, ok: bool, created: bool)
    requires Get(s.applications, d.application) == Some(app) && d.decision !in s.decisions && IsDecision(d.outcome)
    requires app.status.Submitted? || IsDecision(app.status)
    requires created <==> d.outcome.Accepted? && d.application !in s.attendeeOf && d.attendee !in s.attendees
    requires ok <==> (d.outcome.Accepted? ==> d.application in s.attendeeOf || d.attendee !in s.attendees)
    ensures RecordAtomically(s, d) == if ok then Decided(d, app, Newcomer(d, app, created)) else Fail(Internal)
  {
  }

  lemma DecisionIsAppended(s: Store, d: DecisionInput, app: Application, ok: bool, created: bool)
    requires RecordAtomically(s, d) == if ok then Decided(d, app, Newcomer(d, app, created)) else Fail(Internal)
    ensures Outward(RecordAtomically(s, d)) == if ok then Replied(DecisionIs(d.decision, None)) else Refused(Internal)
    ensures Settle(s, RecordAtomically(s, d)) == if ok then Appended(s, d, app, created) else s
  {
    if created { JoinedDecision(s, d, app); } else { PlainDecision(s, d, app); }
  }

  lemma ScanIsRecorded(s: Store, q: RedeemInput, n: Attempt, claim: Claim)
    requires q.key !in s.ledger && q.checkpoint in s.checkpoints && q.validQR
    requires q.hash in s.qrIndex ==> Linked(s, s.qrIndex[q.hash])
    requires claim == JudgeScan(s, q, Get(s.qrIndex, q.hash), n.now)
    ensures RedeemAtomically(s, q, n)
         == if claim.outcome.Redeemed? && HasRedemption(s.redemptions, n.redemption) then Again
            else Finish(ScanEffect(q, n, s.checkpoints[q.checkpoint], claim),
                        Scan(ScanResult(q, n, s.checkpoints[q.checkpoint], claim)))
  {
  }

  /** The first attempt that meets no unique violation. */
  ghost predicate FirstToSettle(s: Store, q: RedeemInput, draws: seq<Attempt>, k: nat)
    requires k < |draws|
  {
    !RedeemAtomically(s, q, draws[k]).Again? && forall j :: 0 <= j < k ==> RedeemAtomically(s, q, draws[j]).Again?
  }

  ghost predicate NoneSettles(s: Store, q: RedeemInput, draws: seq<Attempt>) {
    forall j :: 0 <= j < |draws| ==> RedeemAtomically(s, q, draws[j]).Again?
  }

  /** The first attempt that does not end in a unique violation; none left is an error. */
  ghost function FirstDone(s: Store, q: RedeemInput, draws: seq<Attempt>): Next {
    if draws == [] then Fail(Internal)
    else
      var first := RedeemAtomically(s, q, draws[0]);
      if first.Again? then FirstDone(s, q, draws[1..]) else first
  }
}
