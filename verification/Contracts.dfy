/** What each call asks of the rows and what it leaves in them, stated on the fields alone: without the programs, the
    judgements, or the tests and effects they are made of. */
module Contracts {
  import opened Domain
  import opened Protocol
  import opened Text
  import opened Transactions
  import opened Specs

  // ---- Rows ---------------------------------------------------------------------------

  /** The application was accepted and its applicant told. */
  predicate Admitted(s: Store, application: Id) {
    && application in s.applications
    && s.applications[application].status == Accepted && s.applications[application].releasedAt != None
  }

  predicate AdmittedAttendee(s: Store, attendee: Id) {
    attendee in s.attendees && Admitted(s, s.attendees[attendee].application)
  }

  /** The application's current decision is an acceptance of it, and released. */
  predicate Offered(s: Store, application: Id) {
    application in s.applications
    && match s.applications[application].current
       case None => false
       case Some(d) =>
         && d in s.decisions && s.decisions[d].application == application && s.decisions[d].outcome == Accepted
         && s.decisions[d].releasedAt != None
  }

  /** And the answer stored for it is yes. */
  predicate Coming(s: Store, application: Id) {
    && Offered(s, application) && s.applications[application].current.value in s.responses
    && s.responses[s.applications[application].current.value].status == Confirmed
  }

  lemma VisibleMeans(s: Store, application: Id)
    requires application in s.applications
    ensures Visible(s.applications[application]) <==> Admitted(s, application)
  {
  }

  lemma ConfirmedMeans(s: Store, application: Id)
    ensures IsConfirmed(s, application) <==> Coming(s, application)
  {
  }

  // ---- Decisions ------------------------------------------------------------------------

  ghost predicate RecordFails(s: Store, d: DecisionInput, e: Error) {
    var valid := d.outcome == Accepted || d.outcome == Waitlisted || d.outcome == Rejected;
    var known := valid && d.application in s.applications;
    var decidable := known && s.applications[d.application].status != Draft
                           && s.applications[d.application].status != Withdrawn;
    match e
    case InvalidOutcome => !valid
    case NotFound => valid && !known
    case NotSubmitted => known && !decidable
    case Internal =>
      decidable && (d.decision in s.decisions
        || (d.outcome == Accepted && d.application !in s.attendeeOf && d.attendee in s.attendees))
    case _ => false
  }

  /** The decision stands as it was called for, is the application's current one and hidden; a first acceptance makes
      the applicant an attendee; nothing else changes. */
  ghost predicate RecordPosts(s: Store, d: DecisionInput, s': Store, reply: Reply) {
    && d.application in s.applications && d.decision !in s.decisions
    && var app := s.applications[d.application];
    var joins := d.outcome == Accepted && d.application !in s.attendeeOf;
    && reply == DecisionIs(d.decision, None)
    && s'.decisions == s.decisions[d.decision := Decision(d.application, d.outcome, app.current, d.actor, None, None)]
    && s'.applications == s.applications[d.application :=
         Application(app.cycle, app.applicant, app.applicantName, d.outcome, Some(d.decision), None)]
    && (joins ==>
          && d.attendee !in s.attendees
          && s'.attendees == s.attendees[d.attendee :=
               Attendee(d.application, app.cycle, app.applicant, app.applicantName)]
          && s'.attendeeOf == s.attendeeOf[d.application := d.attendee])
    && (!joins ==> s'.attendees == s.attendees && s'.attendeeOf == s.attendeeOf)
    && s'.audits == s.audits + (if joins then [AttendeeCreated(d.actor, d.attendee, d.application)] else [])
                  + [DecisionRecorded(d.actor, d.decision, d.application, d.outcome)]
    && s' == s.(decisions := s'.decisions, applications := s'.applications, attendees := s'.attendees,
                attendeeOf := s'.attendeeOf, audits := s'.audits)
  }

  lemma RecordMeans(s: Store, d: DecisionInput, e: Error)
    ensures RecordAtomically(s, d) == Fail(e) <==> RecordFails(s, d, e)
    ensures !RecordAtomically(s, d).Run? && !RecordAtomically(s, d).Again?
    ensures var done := RecordAtomically(s, d); done.Finish? ==> RecordPosts(s, d, Apply(s, done.effect), done.reply)
  {
  }

  ghost predicate ReleaseFails(s: Store, decision: Id, e: Error) {
    e == NotFound &&
      !(decision in s.decisions && s.decisions[decision].application in s.applications
        && s.applications[s.decisions[decision].application].current == Some(decision))
  }

  /** The current decision and its application are released now, by the caller, and the applicant's email is queued; a
      decision released before stays as it was. */
  ghost predicate ReleasePosts(s: Store, actor: Id, decision: Id, now: Time, s': Store, reply: Reply) {
    && decision in s.decisions && s.decisions[decision].application in s.applications
    && var row := s.decisions[decision];
    var app := s.applications[row.application];
    if row.releasedAt != None then s' == s && reply == DecisionIs(decision, row.releasedAt)
    else
      && reply == DecisionIs(decision, Some(now))
      && s'.decisions == s.decisions[decision :=
           Decision(row.application, row.outcome, row.supersedes, row.decidedBy, Some(actor), Some(now))]
      && s'.applications == s.applications[row.application :=
           Application(app.cycle, app.applicant, app.applicantName, app.status, app.current, Some(now))]
      && s'.audits == s.audits + [DecisionReleased(actor, decision, row.application, row.outcome)]
      && Queued(s.outbox, s'.outbox, DecisionReleaseEmail(decision), app.applicant)
      && s' == s.(decisions := s'.decisions, applications := s'.applications, audits := s'.audits, outbox := s'.outbox)
  }

  /** The email is in the outbox, with its former recipient if it was there before, and nothing else is new. */
  predicate Queued(outbox: map<EmailKey, Id>, outbox': map<EmailKey, Id>, key: EmailKey, recipient: Id) {
    && (key in outbox ==> outbox' == outbox)
    && (key !in outbox ==> outbox' == outbox[key := recipient])
  }

  lemma ReleaseMeans(s: Store, actor: Id, decision: Id, now: Time, e: Error)
    ensures ReleaseAtomically(s, actor, decision, now) == Fail(e) <==> ReleaseFails(s, decision, e)
    ensures var done := ReleaseAtomically(s, actor, decision, now);
            && !done.Run? && !done.Again?
            && (done.Finish? ==> ReleasePosts(s, actor, decision, now, Apply(s, done.effect), done.reply))
  {
  }

  // ---- Responses ------------------------------------------------------------------------

  /** The version of an answer, zero before there is one. */
  function HeldVersion(s: Store, decision: Id): nat {
    if decision in s.responses then s.responses[decision].version else 0
  }

  ghost predicate RespondFails(s: Store, r: RsvpInput, e: Error) {
    var own := r.version >= 0 && Admitted(s, r.application) && s.applications[r.application].applicant == r.user;
    var offered := own && s.applications[r.application].current == Some(r.decision);
    var open := offered && Offered(s, r.application);
    match e
    case InvalidInput => r.version < 0
    case NotFound => (r.version >= 0 && !own) || (offered && !open)
    case Conflict =>
      (own && !offered)
      || (open && HeldVersion(s, r.decision) != r.version
          && (r.decision in s.responses ==> s.responses[r.decision].status != r.status))
    case _ => false
  }

  /** The answer given is the answer stored and the one returned; a new answer counts the version up by one; no other
      answer changes. */
  ghost predicate RespondPosts(s: Store, r: RsvpInput, s': Store, reply: Reply) {
    && r.decision in s'.responses && s'.responses[r.decision].status == r.status
    && reply == RsvpIs(s'.responses[r.decision].status, s'.responses[r.decision].version)
    && if r.decision in s.responses && s.responses[r.decision].status == r.status then s' == s
       else
         && s'.responses[r.decision].version == HeldVersion(s, r.decision) + 1
         && s'.responses == s.responses[r.decision := s'.responses[r.decision]]
         && s'.audits == s.audits + [RsvpChanged(r.user, r.application, r.decision, r.status,
                                                 s'.responses[r.decision].version)]
         && s' == s.(responses := s'.responses, audits := s'.audits)
  }

  lemma ProjectMeans(s: Store, application: Id)
    ensures Project(s, application).Some? <==> Admitted(s, application) && Offered(s, application)
    ensures Offered(s, application) && Admitted(s, application) ==>
              Project(s, application).value == Get(s.responses, s.applications[application].current.value)
  {
  }

  lemma RespondRefuses(s: Store, r: RsvpInput, e: Error)
    ensures RespondAtomically(s, r) == Fail(e) <==> RespondFails(s, r, e)
  {
    ProjectMeans(s, r.application);
  }

  lemma RespondHas(s: Store, r: RsvpInput)
    ensures var done := RespondAtomically(s, r);
            var held := HeldVersion(s, r.decision);
            && !done.Run? && !done.Again?
            && (done.Finish? ==>
                  if r.decision in s.responses && s.responses[r.decision].status == r.status
                  then done == Finish(Nothing, RsvpIs(r.status, held))
                  else done == Finish(SaveResponse(r.application, r.decision, Response(r.status, held + 1),
                                        RsvpChanged(r.user, r.application, r.decision, r.status, held + 1)),
                                      RsvpIs(r.status, held + 1)))
  {
  }

  lemma RespondMeans(s: Store, r: RsvpInput)
    ensures var done := RespondAtomically(s, r);
            && !done.Run? && !done.Again?
            && (done.Finish? ==> RespondPosts(s, r, Apply(s, done.effect), done.reply))
  {
    RespondHas(s, r);
  }

  /** After an answer the pass gate lets the application through exactly if the answer was yes. */
  lemma AnswerOpensGate(s: Store, r: RsvpInput)
    requires RespondAtomically(s, r).Finish?
    ensures IsConfirmed(Apply(s, RespondAtomically(s, r).effect), r.application) <==> r.status == Confirmed
  {
    RespondMeans(s, r);
    ProjectMeans(s, r.application);
    ConfirmedMeans(Apply(s, RespondAtomically(s, r).effect), r.application);
  }

  // ---- Passes ---------------------------------------------------------------------------

  ghost predicate HoldsActive(s: Store, attendee: Id) {
    exists p :: p in s.passes && s.passes[p].attendee == attendee && s.passes[p].status == Active
  }

  ghost predicate IssueFails(s: Store, attendee: Id, made: NewPass, e: Error) {
    var admitted := AdmittedAttendee(s, attendee);
    var coming := admitted && Coming(s, s.attendees[attendee].application);
    match e
    case NotFound => !admitted
    case RsvpRequired => admitted && !coming
    case ActivePassExists => coming && HoldsActive(s, attendee)
    case Internal => coming && !HoldsActive(s, attendee) && (made.id in s.passes || made.hash in s.qrIndex)
    case _ => false
  }

  /** The attendee holds the new pass, it is found by its hash, and the holder's own user is to be sent the link. */
  ghost predicate IssuePosts(s: Store, actor: Id, attendee: Id, made: NewPass, s': Store, reply: Reply) {
    && attendee in s.attendees && made.id !in s.passes && made.hash !in s.qrIndex
    && reply == PassIs(made.id, Active)
    && s'.passes == s.passes[made.id := Pass(attendee, made.hash, Active, None)]
    && s'.qrIndex == s.qrIndex[made.hash := made.id]
    && s'.audits == s.audits + [PassIssued(actor, made.id, attendee)]
    && Queued(s.outbox, s'.outbox, PassLinkEmail(made.id), s.attendees[attendee].user)
    && s' == s.(passes := s'.passes, qrIndex := s'.qrIndex, audits := s'.audits, outbox := s'.outbox)
  }

  lemma IssueMeans(s: Store, actor: Id, attendee: Id, made: NewPass, e: Error)
    ensures IssueAtomically(s, actor, attendee, made) == Fail(e) <==> IssueFails(s, attendee, made, e)
    ensures var done := IssueAtomically(s, actor, attendee, made);
            && !done.Run? && !done.Again?
            && (done.Finish? ==> IssuePosts(s, actor, attendee, made, Apply(s, done.effect), done.reply))
  {
    if attendee in s.attendees { ConfirmedMeans(s, s.attendees[attendee].application); }
  }

  ghost predicate ReissueFails(s: Store, pass: Id, made: NewPass, e: Error) {
    var admitted := pass in s.passes && AdmittedAttendee(s, s.passes[pass].attendee);
    var coming := admitted && Coming(s, s.attendees[s.passes[pass].attendee].application);
    match e
    case NotFound => !admitted || (coming && s.passes[pass].status != Active)
    case RsvpRequired => admitted && !coming
    case Internal => coming && s.passes[pass].status == Active && (made.id in s.passes || made.hash in s.qrIndex)
    case _ => false
  }

  /** The old pass names its successor, which belongs to the same attendee, whose user is to be sent the link. */
  ghost predicate ReissuePosts(s: Store, actor: Id, pass: Id, made: NewPass, s': Store, reply: Reply) {
    && pass in s.passes && s.passes[pass].attendee in s.attendees
    && made.id !in s.passes && made.hash !in s.qrIndex
    && var holder := s.passes[pass].attendee;
    && reply == PassIs(made.id, Active)
    && s'.passes == s.passes[pass := Pass(holder, s.passes[pass].hash, Replaced, Some(made.id))]
                            [made.id := Pass(holder, made.hash, Active, None)]
    && s'.qrIndex == s.qrIndex[made.hash := made.id]
    && s'.audits == s.audits + [PassReissued(actor, pass, holder, made.id)]
    && Queued(s.outbox, s'.outbox, PassLinkEmail(made.id), s.attendees[holder].user)
    && s' == s.(passes := s'.passes, qrIndex := s'.qrIndex, audits := s'.audits, outbox := s'.outbox)
  }

  lemma ReissueMeans(s: Store, actor: Id, pass: Id, made: NewPass, e: Error)
    ensures ReissueAtomically(s, actor, pass, made) == Fail(e) <==> ReissueFails(s, pass, made, e)
    ensures var done := ReissueAtomically(s, actor, pass, made);
            && !done.Run? && !done.Again?
            && (done.Finish? ==> ReissuePosts(s, actor, pass, made, Apply(s, done.effect), done.reply))
  {
    if pass in s.passes && s.passes[pass].attendee in s.attendees {
      ConfirmedMeans(s, s.attendees[s.passes[pass].attendee].application);
    }
  }

  ghost predicate RevokeFails(s: Store, pass: Id, e: Error) {
    e == NotFound &&
      !(pass in s.passes && AdmittedAttendee(s, s.passes[pass].attendee) && s.passes[pass].status == Active)
  }

  ghost predicate RevokePosts(s: Store, actor: Id, pass: Id, s': Store, reply: Reply) {
    && pass in s.passes && reply == PassIs(pass, Revoked)
    && var row := s.passes[pass];
    && s'.passes == s.passes[pass := Pass(row.attendee, row.hash, Revoked, row.replacedBy)]
    && s'.audits == s.audits + [PassRevoked(actor, pass, row.attendee)]
    && s' == s.(passes := s'.passes, audits := s'.audits)
  }

  lemma RevokeMeans(s: Store, actor: Id, pass: Id, e: Error)
    ensures RevokeAtomically(s, actor, pass) == Fail(e) <==> RevokeFails(s, pass, e)
    ensures var done := RevokeAtomically(s, actor, pass);
            && !done.Run? && !done.Again?
            && (done.Finish? ==> RevokePosts(s, actor, pass, Apply(s, done.effect), done.reply))
  {
  }

  // ---- Organizer rules ------------------------------------------------------------------

  ghost predicate EntitleFails(s: Store, e: EntitlementInput, error: Error) {
    var valid := e.rule == None || 0 <= e.rule.value.1 <= 2147483647;
    match error
    case InvalidInput => !valid
    case NotFound =>
      valid && !(e.checkpoint in s.checkpoints && AdmittedAttendee(s, e.attendee)
                 && s.attendees[e.attendee].cycle == s.checkpoints[e.checkpoint].cycle)
    case _ => false
  }

  /** The rule given is the one stored for the pair, in the cycle it was first stored with; without a rule there is none
      afterwards; only a change is audited. */
  ghost predicate EntitlePosts(s: Store, e: EntitlementInput, s': Store, reply: Reply) {
    && e.checkpoint in s.checkpoints && reply == Done
    && var at := (e.attendee, e.checkpoint);
    && s' == s.(overrides := s'.overrides, audits := s'.audits)
    && match e.rule
       case Some(rule) =>
         && s'.overrides == s.overrides[at := Override(
              if at in s.overrides then s.overrides[at].cycle else s.checkpoints[e.checkpoint].cycle, rule.0, rule.1)]
         && s'.audits == s.audits + [EntitlementOverridden(e.actor, e.attendee, e.checkpoint, rule.0, rule.1)]
       case None =>
         && s'.overrides == s.overrides - {at}
         && s'.audits == if at in s.overrides
                         then s.audits + [EntitlementRemoved(e.actor, e.attendee, e.checkpoint)] else s.audits
  }

  lemma EntitleRefuses(s: Store, e: EntitlementInput, error: Error)
    ensures EntitleAtomically(s, e) == Fail(error) <==> EntitleFails(s, e, error)
  {
  }

  lemma EntitleMeans(s: Store, e: EntitlementInput)
    ensures var done := EntitleAtomically(s, e);
            && !done.Run? && !done.Again?
            && (done.Finish? ==> EntitlePosts(s, e, Apply(s, done.effect), done.reply))
  {
    if (e.attendee, e.checkpoint) !in s.overrides {
      assert s.overrides - {(e.attendee, e.checkpoint)} == s.overrides;
    }
  }

  ghost predicate UpdateFails(s: Store, u: CheckpointInput, e: Error) {
    var f := u.fields;
    var valid := Words(f.slug) > 0 && Words(f.name) > 0 && 0 <= f.defaultMax <= 2147483647
                 && f.opensAt != Some(0) && f.closesAt != Some(0)
                 && (f.opensAt == None || f.closesAt == None || f.opensAt.value < f.closesAt.value);
    var known := valid && u.checkpoint in s.checkpoints;
    var placed := known && (f.activity == None || (f.activity.value in s.activities
                              && s.activities[f.activity.value] == s.checkpoints[u.checkpoint].cycle));
    match e
    case InvalidInput => !valid
    case NotFound => valid && !placed
    case Conflict =>
      placed && Trim(f.slug) != s.checkpoints[u.checkpoint].slug
      && (s.checkpoints[u.checkpoint].cycle, Trim(f.slug)) in s.slugs
    case _ => false
  }

  /** The checkpoint has the fields given, its texts without outer white space, in the cycle it had; the slug index
      follows. */
  ghost predicate UpdatePosts(s: Store, u: CheckpointInput, s': Store, reply: Reply) {
    && u.checkpoint in s.checkpoints && reply == Done
    && var prev, f := s.checkpoints[u.checkpoint], u.fields;
    && s'.checkpoints == s.checkpoints[u.checkpoint :=
         Checkpoint(prev.cycle, f.activity, Trim(f.slug), Trim(f.name), f.opensAt, f.closesAt, f.defaultAllowed,
                    f.defaultMax, f.active)]
    && s'.slugs == (s.slugs - {(prev.cycle, prev.slug)})[(prev.cycle, Trim(f.slug)) := u.checkpoint]
    && s'.audits == s.audits + [CheckpointUpdated(u.actor, u.checkpoint)]
    && s' == s.(checkpoints := s'.checkpoints, slugs := s'.slugs, audits := s'.audits)
  }

  lemma UpdateRefuses(s: Store, u: CheckpointInput, e: Error)
    ensures UpdateAtomically(s, u) == Fail(e) <==> UpdateFails(s, u, e)
  {
    BlankHasNoWords(u.fields.slug);
    BlankHasNoWords(u.fields.name);
  }

  lemma UpdateMeans(s: Store, u: CheckpointInput)
    ensures var done := UpdateAtomically(s, u);
            && !done.Run? && !done.Again?
            && (done.Finish? ==> UpdatePosts(s, u, Apply(s, done.effect), done.reply))
  {
  }
}
