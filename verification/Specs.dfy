/** Each transaction as one atomic judgement of the committed store, and the proof that its program, run alone, gives
    exactly that judgement. */
module Specs {
  import opened Domain
  import opened Protocol
  import opened Text
  import opened Transactions

  // ---- Scans ------------------------------------------------------------------

  /** The rows behind a pass are all present. */
  predicate Linked(s: Store, pass: Id) {
    && pass in s.passes && s.passes[pass].attendee in s.attendees
    && s.attendees[s.passes[pass].attendee].application in s.applications
  }

  function Holder(s: Store, pass: Id): LockedPass
    requires Linked(s, pass)
  {
    var row := s.passes[pass];
    var holder := s.attendees[row.attendee];
    LockedPass(pass, row.attendee, holder.cycle, holder.name, row.status)
  }

  predicate Eligible(s: Store, pass: Id)
    requires Linked(s, pass)
  {
    Visible(s.applications[s.attendees[s.passes[pass].attendee].application])
  }

  /** What a scan of a linked pass deserves, in the order the outcomes take precedence. */
  function Judge(s: Store, c: Id, pass: Id, now: Time): Claim
    requires c in s.checkpoints && Linked(s, pass)
  {
    var cp := s.checkpoints[c];
    var locked := Holder(s, pass);
    var used := Count(s.redemptions, locked.attendee, c);
    if !Eligible(s, pass) || locked.status.Replaced? then Claim(InvalidPass, None, 0)
    else if locked.status.Revoked? then Claim(RevokedPass, Some(locked), 0)
    else if cp.active && cp.cycle != locked.cycle then Claim(NotEntitled, Some(locked), 0)
    else if !(cp.active && Open(cp, now)) then Claim(OutsideWindow, Some(locked), 0)
    else if !EffectiveRule(s, locked.attendee, c).allowed then Claim(NotEntitled, Some(locked), 0)
    else if used >= Allowance(s, locked.attendee, c) then Claim(AlreadyExhausted, Some(locked), 0)
    else Claim(Redeemed, Some(locked), ToInt32(used + 1))
  }

  /** The claim of a scan, for a hash that resolves to the given pass or to none. */
  function JudgeScan(s: Store, q: RedeemInput, pass: Option<Id>, now: Time): Claim
    requires q.checkpoint in s.checkpoints && (pass.Some? ==> Linked(s, pass.value))
  {
    if pass.None? then Claim(InvalidPass, None, 0) else Judge(s, q.checkpoint, pass.value, now)
  }

  ghost function RedeemAtomically(s: Store, q: RedeemInput, n: Attempt): Next {
    if q.key in s.ledger then
      var row := s.ledger[q.key];
      if row.checkpoint == q.checkpoint && row.hash == q.hash then Finish(Nothing, Scan(ResultFromRow(row)))
      else Fail(IdempotencyConflict)
    else if q.checkpoint !in s.checkpoints then Fail(CheckpointNotFound)
    else
      var cp := s.checkpoints[q.checkpoint];
      var pass := if q.validQR then Get(s.qrIndex, q.hash) else None;
      if pass.Some? && !Linked(s, pass.value) then Fail(Internal)
      else
        var claim := JudgeScan(s, q, pass, n.now);
        if claim.outcome.Redeemed? && HasRedemption(s.redemptions, n.redemption) then Again
        else Finish(ScanEffect(q, n, cp, claim), Scan(ScanResult(q, n, cp, claim)))
  }

  // ---- Organizer rules ----------------------------------------------------------

  predicate VisibleAttendee(s: Store, attendee: Id) {
    && attendee in s.attendees && s.attendees[attendee].application in s.applications
    && Visible(s.applications[s.attendees[attendee].application])
  }

  function EntitleAtomically(s: Store, e: EntitlementInput): Next {
    var at := (e.attendee, e.checkpoint);
    if e.rule.Some? && !(0 <= e.rule.value.1 <= MAX_INT32) then Fail(InvalidInput)
    else if e.checkpoint !in s.checkpoints || !VisibleAttendee(s, e.attendee)
            || s.attendees[e.attendee].cycle != s.checkpoints[e.checkpoint].cycle then Fail(NotFound)
    else if e.rule.Some? then
      var (allowed, max) := e.rule.value;
      var cycle := if at in s.overrides then s.overrides[at].cycle else s.checkpoints[e.checkpoint].cycle;
      Finish(SetOverride(e.attendee, e.checkpoint, Override(cycle, allowed, max),
                         EntitlementOverridden(e.actor, e.attendee, e.checkpoint, allowed, max)), Done)
    else if at in s.overrides then
      Finish(ClearOverride(e.attendee, e.checkpoint, EntitlementRemoved(e.actor, e.attendee, e.checkpoint)), Done)
    else Finish(Nothing, Done)
  }

  function UpdateAtomically(s: Store, u: CheckpointInput): Next {
    if !ValidCheckpoint(u.fields) then Fail(InvalidInput)
    else if u.checkpoint !in s.checkpoints then Fail(NotFound)
    else
      var cycle := s.checkpoints[u.checkpoint].cycle;
      var a := u.fields.activity;
      var prev := s.checkpoints[u.checkpoint];
      var fields := Tidy(u.fields).(cycle := cycle);
      if a.Some? && Get(s.activities, a.value) != Some(cycle) then Fail(NotFound)
      else if fields.slug != prev.slug && (cycle, fields.slug) in s.slugs then Fail(Conflict)
      else Finish(SetCheckpoint(u.checkpoint, prev, fields, CheckpointUpdated(u.actor, u.checkpoint)), Done)
  }

  // ---- Passes ---------------------------------------------------------------------

  ghost function IssueAtomically(s: Store, actor: Id, attendee: Id, made: NewPass): Next {
    if !VisibleAttendee(s, attendee) then Fail(NotFound)
    else if !IsConfirmed(s, s.attendees[attendee].application) then Fail(RsvpRequired)
    else if HasActive(s, attendee) then Fail(ActivePassExists)
    else if made.id in s.passes || made.hash in s.qrIndex then Fail(Internal)
    else Finish(AddPass(made.id, Pass(attendee, made.hash, Active, None), PassIssued(actor, made.id, attendee),
                        s.attendees[attendee].user), PassIs(made.id, Active))
  }

  function ReissueAtomically(s: Store, actor: Id, pass: Id, made: NewPass): Next {
    if pass !in s.passes || !VisibleAttendee(s, s.passes[pass].attendee) then Fail(NotFound)
    else
      var row := s.passes[pass];
      if !IsConfirmed(s, s.attendees[row.attendee].application) then Fail(RsvpRequired)
      else if !row.status.Active? then Fail(NotFound)
      else if made.id in s.passes || made.hash in s.qrIndex then Fail(Internal)
      else Finish(SwapPass(pass, row, made.id, Pass(row.attendee, made.hash, Active, None),
                           PassReissued(actor, pass, row.attendee, made.id), s.attendees[row.attendee].user),
                  PassIs(made.id, Active))
  }

  function RevokeAtomically(s: Store, actor: Id, pass: Id): Next {
    if pass !in s.passes || !VisibleAttendee(s, s.passes[pass].attendee) || !s.passes[pass].status.Active?
        then Fail(NotFound)
    else Finish(EndPass(pass, s.passes[pass], PassRevoked(actor, pass, s.passes[pass].attendee)), PassIs(pass, Revoked))
  }

  // ---- Decisions and RSVPs -----------------------------------------------------------

  function RecordAtomically(s: Store, d: DecisionInput): Next {
    if !IsDecision(d.outcome) then Fail(InvalidOutcome)
    else if d.application !in s.applications then Fail(NotFound)
    else
      var app := s.applications[d.application];
      var joins := d.outcome.Accepted? && d.application !in s.attendeeOf;
      if !(app.status.Submitted? || IsDecision(app.status)) then Fail(NotSubmitted)
      else if d.decision in s.decisions || (joins && d.attendee in s.attendees) then Fail(Internal)
      else
        var newcomer := Attendee(d.application, app.cycle, app.applicant, app.applicantName);
        Decided(d, app, if joins then Some((d.attendee, newcomer)) else None)
  }

  function ReleaseAtomically(s: Store, actor: Id, decision: Id, now: Time): Next {
    if decision !in s.decisions || s.decisions[decision].application !in s.applications
       || s.applications[s.decisions[decision].application].current != Some(decision) then Fail(NotFound)
    else
      var row := s.decisions[decision];
      if row.releasedAt.Some? then Finish(Nothing, DecisionIs(decision, row.releasedAt))
      else Finish(MarkReleased(decision, row, s.applications[row.application], now, actor,
                               DecisionReleased(actor, decision, row.application, row.outcome)),
                  DecisionIs(decision, Some(now)))
  }

  function RespondAtomically(s: Store, r: RsvpInput): Next {
    if r.version < 0 then Fail(InvalidInput)
    else if r.application !in s.applications || s.applications[r.application].applicant != r.user
            || !Visible(s.applications[r.application]) then Fail(NotFound)
    else if s.applications[r.application].current != Some(r.decision) then Fail(Conflict)
    else if Project(s, r.application).None? then Fail(NotFound)
    else
      var stored := Get(s.responses, r.decision);
      var held := if stored.Some? then stored.value.version else 0;
      if stored.Some? && stored.value.status == r.status then Finish(Nothing, RsvpIs(r.status, held))
      else if held != r.version then Fail(Conflict)
      else Finish(SaveResponse(r.application, r.decision, Response(r.status, held + 1),
                               RsvpChanged(r.user, r.application, r.decision, r.status, held + 1)),
                  RsvpIs(r.status, held + 1))
  }

  ghost function Atomically(s: Store, call: Call, n: Attempt): Next {
    match call
    case Redeem(q) => RedeemAtomically(s, q, n)
    case Entitle(e) => EntitleAtomically(s, e)
    case UpdateCheckpoint(u) => UpdateAtomically(s, u)
    case OnPass(Issue(actor, attendee, made)) => IssueAtomically(s, actor, attendee, made)
    case OnPass(Reissue(actor, pass, made)) => ReissueAtomically(s, actor, pass, made)
    case OnPass(Revoke(actor, pass)) => RevokeAtomically(s, actor, pass)
    case Record(d) => RecordAtomically(s, d)
    case Release(actor, decision) => ReleaseAtomically(s, actor, decision, n.now)
    case Respond(r) => RespondAtomically(s, r)
  }

  // ---- Programs run alone give the atomic judgement ------------------------------------

  ghost function Step(s: Store, tx: Tx): (next: Next)
    ensures Alone(s, Run(tx)) == Alone(s, next)
  {
    Resume(tx, Look(s, Wants(tx).res))
  }

  lemma ScanTail(s: Store, q: RedeemInput, n: Attempt, cp: Checkpoint, claim: Claim)
    requires q.key !in s.ledger
    ensures Alone(s, Run(Redeeming(q, n, RKey(cp, claim))))
         == if claim.outcome.Redeemed? && HasRedemption(s.redemptions, n.redemption) then Again
            else Finish(ScanEffect(q, n, cp, claim), Scan(ScanResult(q, n, cp, claim)))
  {
    var next := Step(s, Redeeming(q, n, RKey(cp, claim)));
    if next.Run? { var _ := Step(s, next.tx); }
  }

  /** The claim of a scan that reached the entitlement question. */
  function Ration(s: Store, c: Id, locked: LockedPass): Claim
    requires c in s.checkpoints
  {
    var rule := EffectiveRule(s, locked.attendee, c);
    var used := Count(s.redemptions, locked.attendee, c);
    if !rule.allowed then Claim(NotEntitled, Some(locked), 0)
    else if used >= rule.max then Claim(AlreadyExhausted, Some(locked), 0)
    else Claim(Redeemed, Some(locked), ToInt32(used + 1))
  }

  lemma ScanCounted(s: Store, q: RedeemInput, n: Attempt, cp: Checkpoint, locked: LockedPass)
    requires Get(s.checkpoints, q.checkpoint) == Some(cp) && EffectiveRule(s, locked.attendee, q.checkpoint).allowed
    ensures Alone(s, Run(Redeeming(q, n, RCount(cp, locked, EffectiveRule(s, locked.attendee, q.checkpoint).max))))
         == Alone(s, Run(Redeeming(q, n, RKey(cp, Ration(s, q.checkpoint, locked)))))
  {
    var _ := Step(s, Redeeming(q, n, RCount(cp, locked, EffectiveRule(s, locked.attendee, q.checkpoint).max)));
  }

  lemma ScanEntitled(s: Store, q: RedeemInput, n: Attempt, cp: Checkpoint, locked: LockedPass)
    requires Get(s.checkpoints, q.checkpoint) == Some(cp) && cp.cycle == locked.cycle
    ensures Alone(s, Run(Redeeming(q, n, ROverride(cp, locked))))
         == Alone(s, Run(Redeeming(q, n, RKey(cp, Ration(s, q.checkpoint, locked)))))
  {
    var _ := Step(s, Redeeming(q, n, ROverride(cp, locked)));
    if EffectiveRule(s, locked.attendee, q.checkpoint).allowed { ScanCounted(s, q, n, cp, locked); }
  }

  lemma JudgedAfterLocks(s: Store, q: RedeemInput, n: Attempt, pass: Id)
    requires q.checkpoint in s.checkpoints && Linked(s, pass)
    ensures var cp := s.checkpoints[q.checkpoint];
            var after := AfterLocks(q, n, cp, Holder(s, pass), Eligible(s, pass));
            if after == Run(Redeeming(q, n, ROverride(cp, Holder(s, pass))))
            then cp.cycle == Holder(s, pass).cycle
                && Judge(s, q.checkpoint, pass, n.now) == Ration(s, q.checkpoint, Holder(s, pass))
            else after == Run(Redeeming(q, n, RKey(cp, Judge(s, q.checkpoint, pass, n.now))))
  {
  }

  lemma ScanHeld(s: Store, q: RedeemInput, n: Attempt, cp: Checkpoint, pass: Id)
    requires Linked(s, pass)
    ensures Alone(s, Run(Redeeming(q, n, RApplication(cp, pass, s.passes[pass], s.attendees[s.passes[pass].attendee]))))
         == Alone(s, AfterLocks(q, n, cp, Holder(s, pass), Eligible(s, pass)))
  {
    var _ := Step(s, Redeeming(q, n, RApplication(cp, pass, s.passes[pass], s.attendees[s.passes[pass].attendee])));
  }

  lemma ScanOwned(s: Store, q: RedeemInput, n: Attempt, cp: Checkpoint, pass: Id)
    requires Linked(s, pass)
    ensures Alone(s, Run(Redeeming(q, n, RAttendee(cp, pass, s.passes[pass]))))
         == Alone(s, AfterLocks(q, n, cp, Holder(s, pass), Eligible(s, pass)))
  {
    var _ := Step(s, Redeeming(q, n, RAttendee(cp, pass, s.passes[pass])));
    ScanHeld(s, q, n, cp, pass);
  }

  lemma ScanLocked(s: Store, q: RedeemInput, n: Attempt, cp: Checkpoint, pass: Id)
    requires Linked(s, pass)
    ensures Alone(s, Run(Redeeming(q, n, RPass(cp, pass))))
         == Alone(s, AfterLocks(q, n, cp, Holder(s, pass), Eligible(s, pass)))
  {
    var _ := Step(s, Redeeming(q, n, RPass(cp, pass)));
    ScanOwned(s, q, n, cp, pass);
  }

  lemma ScanLinked(s: Store, q: RedeemInput, n: Attempt, cp: Checkpoint, pass: Id)
    requires Get(s.checkpoints, q.checkpoint) == Some(cp) && Linked(s, pass)
    ensures Alone(s, Run(Redeeming(q, n, RPass(cp, pass))))
         == Alone(s, Run(Redeeming(q, n, RKey(cp, Judge(s, q.checkpoint, pass, n.now)))))
  {
    ScanLocked(s, q, n, cp, pass);
    JudgedAfterLocks(s, q, n, pass);
    var entitling := Run(Redeeming(q, n, ROverride(cp, Holder(s, pass))));
    if AfterLocks(q, n, cp, Holder(s, pass), Eligible(s, pass)) == entitling {
      ScanEntitled(s, q, n, cp, Holder(s, pass));
    }
  }

  lemma ScanDangling(s: Store, q: RedeemInput, n: Attempt, cp: Checkpoint, pass: Id)
    requires !Linked(s, pass)
    ensures Alone(s, Run(Redeeming(q, n, RPass(cp, pass)))) == Fail(Internal)
  {
    var n1 := Step(s, Redeeming(q, n, RPass(cp, pass)));
    if n1.Run? {
      var n2 := Step(s, n1.tx);
      if n2.Run? { var _ := Step(s, n2.tx); }
    }
  }

  lemma RedeemAlone(s: Store, q: RedeemInput, n: Attempt)
    ensures Alone(s, Begin(Redeem(q), n)) == RedeemAtomically(s, q, n)
  {
    var n1 := Step(s, Redeeming(q, n, RFind));
    if n1.Run? {
      var n2 := Step(s, n1.tx);
      if n2.Run? {
        var cp := s.checkpoints[q.checkpoint];
        if q.validQR {
          var n3 := Step(s, n2.tx);
          if q.hash in s.qrIndex {
            var pass := s.qrIndex[q.hash];
            if Linked(s, pass) {
              ScanLinked(s, q, n, cp, pass);
              ScanTail(s, q, n, cp, Judge(s, q.checkpoint, pass, n.now));
            } else {
              ScanDangling(s, q, n, cp, pass);
            }
          } else {
            ScanTail(s, q, n, cp, Claim(InvalidPass, None, 0));
          }
        } else {
          ScanTail(s, q, n, cp, Claim(InvalidPass, None, 0));
        }
      }
    }
  }

  lemma EntitleLocked(s: Store, e: EntitlementInput)
    requires e.checkpoint in s.checkpoints
    ensures Alone(s, Run(Entitling(e, EAttendee(s.checkpoints[e.checkpoint].cycle))))
         == if VisibleAttendee(s, e.attendee) && s.attendees[e.attendee].cycle == s.checkpoints[e.checkpoint].cycle
            then Alone(s, Run(Entitling(e, EOverride(s.checkpoints[e.checkpoint].cycle))))
            else Fail(NotFound)
  {
    var n1 := Step(s, Entitling(e, EAttendee(s.checkpoints[e.checkpoint].cycle)));
    if n1.Run? { var _ := Step(s, n1.tx); }
  }

  lemma EntitleAlone(s: Store, e: EntitlementInput, n: Attempt)
    ensures Alone(s, Begin(Entitle(e), n)) == EntitleAtomically(s, e)
  {
    var _ := Step(s, Entitling(e, ECheckpoint));
    if e.checkpoint in s.checkpoints {
      EntitleLocked(s, e);
      var _ := Step(s, Entitling(e, EOverride(s.checkpoints[e.checkpoint].cycle)));
    }
  }

  lemma UpdateTail(s: Store, u: CheckpointInput)
    requires u.checkpoint in s.checkpoints
    ensures var cp := s.checkpoints[u.checkpoint];
            var slug := Trim(u.fields.slug);
            Alone(s, Run(Updating(u, ULock(cp.cycle))))
            == if slug != cp.slug && (cp.cycle, slug) in s.slugs then Fail(Conflict) else Updated(u, cp)
  {
    var cp := s.checkpoints[u.checkpoint];
    var _ := Step(s, Updating(u, ULock(cp.cycle)));
    var n2 := Step(s, Updating(u, UGiveUp(cp)));
    if n2.Run? { var _ := Step(s, n2.tx); }
  }

  lemma UpdateAlone(s: Store, u: CheckpointInput, n: Attempt)
    ensures Alone(s, Begin(UpdateCheckpoint(u), n)) == UpdateAtomically(s, u)
  {
    var _ := Step(s, Updating(u, UCycle));
    if u.checkpoint in s.checkpoints {
      var cycle := s.checkpoints[u.checkpoint].cycle;
      var _ := Step(s, Updating(u, UActivity(cycle)));
      UpdateTail(s, u);
    }
  }

  lemma PassTail(s: Store, p: PassInput, attendee: Id, holder: Attendee, prior: Option<(Id, Pass)>, made: NewPass)
    ensures Alone(s, Run(Passing(p, PInsert(attendee, holder, prior, made))))
         == if made.id in s.passes || made.hash in s.qrIndex then Fail(Internal)
            else ResumePass(p, PHash(attendee, holder, prior, made), VId(None))
  {
    var n1 := Step(s, Passing(p, PInsert(attendee, holder, prior, made)));
    if n1.Run? { var _ := Step(s, n1.tx); }
  }

  lemma PassVisible(s: Store, p: PassInput, attendee: Id)
    ensures Alone(s, Run(Passing(p, PAttendee(attendee))))
         == if !VisibleAttendee(s, attendee) then Fail(NotFound)
            else if p.Revoke? then Alone(s, Run(Passing(p, PCurrent(attendee, s.attendees[attendee], p.pass))))
            else Alone(s, Run(Passing(p, PRsvp(attendee, s.attendees[attendee]))))
  {
    var n1 := Step(s, Passing(p, PAttendee(attendee)));
    if n1.Run? { var _ := Step(s, n1.tx); }
  }

  lemma PassConfirmed(s: Store, p: PassInput, attendee: Id, holder: Attendee)
    requires !p.Revoke?
    ensures Alone(s, Run(Passing(p, PRsvp(attendee, holder))))
         == if !IsConfirmed(s, holder.application) then Fail(RsvpRequired)
            else if p.Issue? then Alone(s, Run(Passing(p, PActive(attendee, holder, p.made))))
            else Alone(s, Run(Passing(p, PCurrent(attendee, holder, p.pass))))
  {
    var _ := Step(s, Passing(p, PRsvp(attendee, holder)));
  }

  lemma IssueGated(s: Store, p: PassInput, attendee: Id, holder: Attendee)
    requires p.Issue?
    ensures Alone(s, Run(Passing(p, PActive(attendee, holder, p.made))))
         == if HasActive(s, attendee) then Fail(ActivePassExists)
            else Alone(s, Run(Passing(p, PInsert(attendee, holder, None, p.made))))
  {
    var _ := Step(s, Passing(p, PActive(attendee, holder, p.made)));
  }

  lemma IssueAlone(s: Store, p: PassInput, n: Attempt)
    requires p.Issue?
    ensures Alone(s, Begin(OnPass(p), n)) == IssueAtomically(s, p.actor, p.attendee, p.made)
  {
    PassVisible(s, p, p.attendee);
    if VisibleAttendee(s, p.attendee) {
      var holder := s.attendees[p.attendee];
      PassConfirmed(s, p, p.attendee, holder);
      IssueGated(s, p, p.attendee, holder);
      PassTail(s, p, p.attendee, holder, None, p.made);
    }
  }

  lemma CurrentAlone(s: Store, p: PassInput, holder: Attendee)
    requires !p.Issue? && p.pass in s.passes
    ensures Alone(s, Run(Passing(p, PCurrent(s.passes[p.pass].attendee, holder, p.pass))))
         == var row := s.passes[p.pass];
            if !row.status.Active? then Fail(NotFound)
            else if p.Reissue?
                then Alone(s, Run(Passing(p, PInsert(row.attendee, holder, Some((p.pass, row)), p.made))))
            else Finish(EndPass(p.pass, row, PassRevoked(p.actor, p.pass, row.attendee)), PassIs(p.pass, Revoked))
  {
    var _ := Step(s, Passing(p, PCurrent(s.passes[p.pass].attendee, holder, p.pass)));
  }

  lemma ReissueAlone(s: Store, p: PassInput, n: Attempt)
    requires p.Reissue?
    ensures Alone(s, Begin(OnPass(p), n)) == ReissueAtomically(s, p.actor, p.pass, p.made)
  {
    var n1 := Step(s, Passing(p, POwner(p.pass)));
    if p.pass in s.passes {
      var row := s.passes[p.pass];
      PassVisible(s, p, row.attendee);
      if VisibleAttendee(s, row.attendee) {
        var holder := s.attendees[row.attendee];
        PassConfirmed(s, p, row.attendee, holder);
        CurrentAlone(s, p, holder);
        PassTail(s, p, row.attendee, holder, Some((p.pass, row)), p.made);
      }
    }
  }

  lemma RevokeAlone(s: Store, p: PassInput, n: Attempt)
    requires p.Revoke?
    ensures Alone(s, Begin(OnPass(p), n)) == RevokeAtomically(s, p.actor, p.pass)
  {
    var n1 := Step(s, Passing(p, POwner(p.pass)));
    if p.pass in s.passes {
      var row := s.passes[p.pass];
      PassVisible(s, p, row.attendee);
      if VisibleAttendee(s, row.attendee) { CurrentAlone(s, p, s.attendees[row.attendee]); }
    }
  }

  lemma PassAlone(s: Store, p: PassInput, n: Attempt)
    ensures Alone(s, Begin(OnPass(p), n)) == Atomically(s, OnPass(p), n)
  {
    match p
    case Issue(_, _, _) => IssueAlone(s, p, n);
    case Reissue(_, _, _) => ReissueAlone(s, p, n);
    case Revoke(_, _) => RevokeAlone(s, p, n);
  }

  lemma RecordInserted(s: Store, d: DecisionInput, app: Application)
    requires d.outcome.Accepted?
    ensures Alone(s, Run(Recording(d, DHolder(app))))
         == if d.application in s.attendeeOf then Decided(d, app, None)
            else if d.attendee in s.attendees then Fail(Internal)
            else
              var newcomer := Attendee(d.application, app.cycle, app.applicant, app.applicantName);
              Decided(d, app, Some((d.attendee, newcomer)))
  {
    var n1 := Step(s, Recording(d, DHolder(app)));
    if n1.Run? { var _ := Step(s, n1.tx); }
  }

  lemma RecordAlone(s: Store, d: DecisionInput, n: Attempt)
    ensures Alone(s, Begin(Record(d), n)) == RecordAtomically(s, d)
  {
    if IsDecision(d.outcome) {
      var n1 := Step(s, Recording(d, DApplication));
      if n1.Run? {
        var n2 := Step(s, n1.tx);
        if n2.Run? { RecordInserted(s, d, s.applications[d.application]); }
      }
    }
  }

  lemma ReleaseAlone(s: Store, actor: Id, decision: Id, n: Attempt)
    ensures Alone(s, Begin(Release(actor, decision), n)) == ReleaseAtomically(s, actor, decision, n.now)
  {
    var n1 := Step(s, Releasing(actor, decision, n.now, LOwner));
    if n1.Run? {
      var n2 := Step(s, n1.tx);
      if n2.Run? { var _ := Step(s, n2.tx); }
    }
  }

  lemma RespondAlone(s: Store, r: RsvpInput, n: Attempt)
    ensures Alone(s, Begin(Respond(r), n)) == RespondAtomically(s, r)
  {
    var n0 := Begin(Respond(r), n);
    if n0.Run? {
      var n1 := Step(s, n0.tx);
      if n1.Run? { var _ := Step(s, n1.tx); }
    }
  }

  /** Every transaction program, run alone on a store, reaches its atomic judgement of that store. */
  lemma AloneIsAtomic(s: Store, call: Call, n: Attempt)
    ensures Alone(s, Begin(call, n)) == Atomically(s, call, n)
  {
    match call
    case Redeem(q) => RedeemAlone(s, q, n);
    case Entitle(e) => EntitleAlone(s, e, n);
    case UpdateCheckpoint(u) => UpdateAlone(s, u, n);
    case OnPass(p) => PassAlone(s, p, n);
    case Record(d) => RecordAlone(s, d, n);
    case Release(actor, decision) => ReleaseAlone(s, actor, decision, n);
    case Respond(r) => RespondAlone(s, r, n);
  }

  /** Whatever a call finishes with makes sense in the store it judged. */
  lemma AtomicallyApplicable(s: Store, call: Call, n: Attempt)
    requires Atomically(s, call, n).Finish?
    ensures Applicable(s, Atomically(s, call, n).effect)
  {
  }

  /** Each kind of call writes only its own kind of effect. */
  predicate Fits(call: Call, e: Effect) {
    e.Nothing? ||
    match call
    case Redeem(_) => e.LogScan?
    case Entitle(_) => e.SetOverride? || e.ClearOverride?
    case UpdateCheckpoint(_) => e.SetCheckpoint?
    case OnPass(_) => e.AddPass? || e.SwapPass? || e.EndPass?
    case Record(_) => e.AddDecision?
    case Release(_, _) => e.MarkReleased?
    case Respond(_) => e.SaveResponse?
  }

  lemma AtomicallyFits(s: Store, call: Call, n: Attempt)
    requires Atomically(s, call, n).Finish?
    ensures Fits(call, Atomically(s, call, n).effect)
  {
  }
}
