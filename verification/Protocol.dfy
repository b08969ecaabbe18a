/** What transactions can read, lock and write: resources, views of the committed store, and effects. */
module Protocol {
  import opened Domain

  /** A lockable row or index slot, or a derived value a statement reads. */
  datatype Resource =
    | KeyRow(key: Id)                      // an existing ledger row
    | KeySlot(key: Id)                     // its slot in the unique index on idempotency keys
    | CheckpointRow(checkpoint: Id)
    | CheckpointCycle(checkpoint: Id)
    | SlugSlot(cycle: Id, slug: string)    // slot in the unique index on the slugs of a cycle
    | ActivityRow(activity: Id)
    | HashIndex(hash: Hash)                // pass found by QR hash
    | HashSlot(hash: Hash)                 // slot in the unique index on QR hashes
    | PassRow(pass: Id)
    | PassOwner(pass: Id)
    | ActivePass(attendee: Id)             // has the attendee an active pass
    | AttendeeRow(attendee: Id)
    | AttendeeOf(application: Id)
    | ApplicationRow(application: Id)
    | DecisionRow(decision: Id)
    | DecisionOwner(decision: Id)
    | ConfirmedRsvp(application: Id)       // the pass gate, read from the decision tables
    | ResponseOf(application: Id)          // the RSVP projection
    | OverrideRow(attendee: Id, checkpoint: Id)
    | Usage(attendee: Id, checkpoint: Id)  // count of committed redemptions
    | RedemptionSlot(redemption: Id)

  datatype View =
    | VLedger(row: Option<LedgerRow>)
    | VCheckpoint(checkpoint: Option<Checkpoint>)
    | VId(id: Option<Id>)
    | VPass(pass: Option<Pass>)
    | VAttendee(attendee: Option<Attendee>)
    | VApplication(application: Option<Application>)
    | VDecision(decision: Option<Decision>)
    | VOverride(override: Option<Override>)
    | VRsvp(rsvp: Option<Option<Response>>)
    | VCount(count: nat)
    | VFlag(flag: bool)

  predicate Found(v: View) {
    match v
    case VLedger(o) => o.Some?
    case VCheckpoint(o) => o.Some?
    case VId(o) => o.Some?
    case VPass(o) => o.Some?
    case VAttendee(o) => o.Some?
    case VApplication(o) => o.Some?
    case VDecision(o) => o.Some?
    case VOverride(o) => o.Some?
    case VRsvp(o) => o.Some?
    case VCount(_) => true
    case VFlag(b) => b
  }

  /** The pass gate: the current decision is a released acceptance with a confirmed response. */
  predicate IsConfirmed(s: Store, application: Id) {
    && application in s.applications
    && var app := s.applications[application];
    && app.current.Some? && app.current.value in s.decisions
    && var d := s.decisions[app.current.value];
    && d.application == application && d.outcome.Accepted? && d.releasedAt.Some?
    && app.current.value in s.responses && s.responses[app.current.value].status.Confirmed?
  }

  /** The RSVP projection: none unless a released acceptance is current; inside, no row means pending. */
  function Project(s: Store, application: Id): Option<Option<Response>> {
    if application !in s.applications then None
    else
      var app := s.applications[application];
      if app.current.None? || app.current.value !in s.decisions || !Visible(app) then None
      else
        var d := s.decisions[app.current.value];
        if d.application == application && d.outcome.Accepted? && d.releasedAt.Some?
        then Some(Get(s.responses, app.current.value))
        else None
  }

  ghost predicate HasActive(s: Store, attendee: Id) {
    exists p :: p in s.passes && s.passes[p].attendee == attendee && s.passes[p].status.Active?
  }

  predicate HasRedemption(rs: seq<Redemption>, id: Id) {
    exists i :: 0 <= i < |rs| && rs[i].id == id
  }

  /** The latest committed value of a resource. */
  ghost function Look(s: Store, r: Resource): View {
    match r
    case KeyRow(k) => VLedger(Get(s.ledger, k))
    case KeySlot(k) => VLedger(Get(s.ledger, k))
    case CheckpointRow(c) => VCheckpoint(Get(s.checkpoints, c))
    case SlugSlot(cycle, slug) => VId(Get(s.slugs, (cycle, slug)))
    case CheckpointCycle(c) => VId(if c in s.checkpoints then Some(s.checkpoints[c].cycle) else None)
    case ActivityRow(a) => VId(Get(s.activities, a))
    case HashIndex(h) => VId(Get(s.qrIndex, h))
    case HashSlot(h) => VId(Get(s.qrIndex, h))
    case PassRow(p) => VPass(Get(s.passes, p))
    case PassOwner(p) => VId(if p in s.passes then Some(s.passes[p].attendee) else None)
    case ActivePass(a) => VFlag(HasActive(s, a))
    case AttendeeRow(a) => VAttendee(Get(s.attendees, a))
    case AttendeeOf(app) => VId(Get(s.attendeeOf, app))
    case ApplicationRow(app) => VApplication(Get(s.applications, app))
    case DecisionRow(d) => VDecision(Get(s.decisions, d))
    case DecisionOwner(d) => VId(if d in s.decisions then Some(s.decisions[d].application) else None)
    case ConfirmedRsvp(app) => VFlag(IsConfirmed(s, app))
    case ResponseOf(app) => VRsvp(Project(s, app))
    case OverrideRow(a, c) => VOverride(Get(s.overrides, (a, c)))
    case Usage(a, c) => VCount(Count(s.redemptions, a, c))
    case RedemptionSlot(id) => VFlag(HasRedemption(s.redemptions, id))
  }

  /** Read without any protecting lock. Once such a value is found it never changes; its absence may end. */
  predicate Snapshot(r: Resource) {
    r.KeyRow? || r.CheckpointCycle? || r.HashIndex? || r.PassOwner? || r.DecisionOwner?
  }

  function Absent(r: Resource): View {
    if r.KeyRow? then VLedger(None) else VId(None)
  }

  /** The row whose lock protects a resource. */
  function Cover(r: Resource): Resource {
    match r
    case ActivePass(a) => AttendeeRow(a)
    case OverrideRow(a, _) => AttendeeRow(a)
    case Usage(a, _) => AttendeeRow(a)
    case AttendeeOf(app) => ApplicationRow(app)
    case ConfirmedRsvp(app) => ApplicationRow(app)
    case ResponseOf(app) => ApplicationRow(app)
    case _ => r
  }

  // ---- Locks ----------------------------------------------------------------

  /** How a statement reads a resource. FOR SHARE and FOR UPDATE lock only a row that exists, an
      insertion claims only an empty slot, an upsert locks either way. */
  datatype Mode = Plain | ForShare | ForUpdate | Insert | Upsert
  datatype Access = Access(res: Resource, mode: Mode)
  datatype Lock = Lock(res: Resource, shared: bool)

  function Acquired(a: Access, v: View): set<Lock> {
    match a.mode
    case Plain => {}
    case ForShare => if Found(v) then {Lock(a.res, true)} else {}
    case ForUpdate => if Found(v) then {Lock(a.res, false)} else {}
    case Insert => if Found(v) then {} else {Lock(a.res, false)}
    case Upsert => {Lock(a.res, false)}
  }

  /** Only shared locks on the same row coexist. */
  predicate Compatible(h: set<Lock>, h': set<Lock>) {
    forall l, l' :: l in h && l' in h' && l.res == l'.res ==> l.shared && l'.shared
  }

  predicate Guarded(h: set<Lock>, r: Resource) {
    Lock(r, false) in h || Lock(r, true) in h
  }

  // ---- Effects --------------------------------------------------------------

  /** The writes a transaction makes visible when it commits. */
  datatype Effect =
    | Nothing
    | LogScan(key: Id, row: LedgerRow, entry: Option<Redemption>, event: Audit)
    | SetOverride(attendee: Id, checkpoint: Id, override: Override, event: Audit)
    | ClearOverride(attendee: Id, checkpoint: Id, event: Audit)
    | SetCheckpoint(checkpoint: Id, prev: Checkpoint, fields: Checkpoint, event: Audit)
    | AddPass(pass: Id, made: Pass, event: Audit, recipient: Id)
    | SwapPass(prior: Id, was: Pass, pass: Id, made: Pass, event: Audit, recipient: Id)
    | EndPass(prior: Id, was: Pass, event: Audit)
    | AddDecision(decision: Id, record: Decision, before: Application, holder: Option<(Id, Attendee)>,
                  events: seq<Audit>)
    | MarkReleased(decision: Id, record: Decision, before: Application, at: Time, actor: Id, event: Audit)
    | SaveResponse(application: Id, decision: Id, response: Response, event: Audit)

  function Queue(outbox: map<EmailKey, Id>, key: EmailKey, recipient: Id): map<EmailKey, Id> {
    if key in outbox then outbox else outbox[key := recipient]
  }

  function Apply(s: Store, e: Effect): Store {
    match e
    case Nothing => s
    case LogScan(k, row, entry, event) =>
      s.(ledger := s.ledger[k := row],
         redemptions := if entry.Some? then s.redemptions + [entry.value] else s.redemptions,
         audits := s.audits + [event])
    case SetOverride(a, c, o, event) =>
      s.(overrides := s.overrides[(a, c) := o], audits := s.audits + [event])
    case ClearOverride(a, c, event) =>
      s.(overrides := s.overrides - {(a, c)}, audits := s.audits + [event])
    case SetCheckpoint(c, prev, fields, event) =>
      s.(checkpoints := s.checkpoints[c := fields],
         slugs := (s.slugs - {(prev.cycle, prev.slug)})[(fields.cycle, fields.slug) := c], audits := s.audits + [event])
    case AddPass(p, made, event, recipient) =>
      s.(passes := s.passes[p := made], qrIndex := s.qrIndex[made.hash := p],
         audits := s.audits + [event], outbox := Queue(s.outbox, PassLinkEmail(p), recipient))
    case SwapPass(prior, was, p, made, event, recipient) =>
      s.(passes := s.passes[prior := was.(status := Replaced, replacedBy := Some(p))][p := made],
         qrIndex := s.qrIndex[made.hash := p],
         audits := s.audits + [event], outbox := Queue(s.outbox, PassLinkEmail(p), recipient))
    case EndPass(prior, was, event) =>
      s.(passes := s.passes[prior := was.(status := Revoked)], audits := s.audits + [event])
    case AddDecision(d, record, before, holder, events) =>
      s.(decisions := s.decisions[d := record],
         applications := s.applications[record.application :=
           before.(status := record.outcome, current := Some(d), releasedAt := None)],
         attendees := if holder.Some? then s.attendees[holder.value.0 := holder.value.1] else s.attendees,
         attendeeOf := if holder.Some? then s.attendeeOf[record.application := holder.value.0] else s.attendeeOf,
         audits := s.audits + events)
    case MarkReleased(d, record, before, at, actor, event) =>
      s.(decisions := s.decisions[d := record.(releasedBy := Some(actor), releasedAt := Some(at))],
         applications := s.applications[record.application := before.(releasedAt := Some(at))],
         audits := s.audits + [event],
         outbox := Queue(s.outbox, DecisionReleaseEmail(d), before.applicant))
    case SaveResponse(_, d, response, event) =>
      s.(responses := s.responses[d := response], audits := s.audits + [event])
  }

  /** The facts about the store under which an effect is meaningful. */
  ghost predicate Applicable(s: Store, e: Effect) {
    match e
    case Nothing => true
    case LogScan(k, row, entry, event) =>
      && k !in s.ledger && event.RedemptionRecorded?
      && (entry.Some? ==> !HasRedemption(s.redemptions, entry.value.id))
    case SetOverride(a, c, o, event) => event.EntitlementOverridden?
    case ClearOverride(a, c, event) => event.EntitlementRemoved?
    case SetCheckpoint(c, prev, fields, event) =>
      && c in s.checkpoints && s.checkpoints[c] == prev && prev.cycle == fields.cycle && event.CheckpointUpdated?
      && ((fields.cycle, fields.slug) in s.slugs ==> fields.slug == prev.slug)
    case AddPass(p, made, event, _) =>
      && p !in s.passes && made.hash !in s.qrIndex && made.attendee in s.attendees
      && made.status.Active? && made.replacedBy.None? && event.PassIssued? && event.newPass == p
    case SwapPass(prior, was, p, made, event, _) =>
      && prior in s.passes && s.passes[prior] == was && was.status.Active? && was.attendee == made.attendee
      && p !in s.passes && made.hash !in s.qrIndex
      && made.status.Active? && made.replacedBy.None?
      && event.PassReissued? && event.newPass == p
    case EndPass(prior, was, event) =>
      prior in s.passes && s.passes[prior] == was && was.status.Active? && event.PassRevoked?
    case AddDecision(d, record, before, holder, events) =>
      && d !in s.decisions
      && record.application in s.applications && s.applications[record.application] == before
      && (before.status.Submitted? || IsDecision(before.status))
      && IsDecision(record.outcome) && record.supersedes == before.current && record.releasedAt.None?
      && (record.outcome.Accepted?
          <==> holder.Some? || (record.outcome.Accepted? && record.application in s.attendeeOf))
      && (holder.Some? ==> record.application !in s.attendeeOf && holder.value.0 !in s.attendees
                           && holder.value.1.application == record.application)
      && (|events| == 1 || |events| == 2)
      && events[|events| - 1].DecisionRecorded? && events[|events| - 1].decision == d
      && events[|events| - 1].application == record.application
      && (|events| == 2 ==> events[0].AttendeeCreated?)
    case MarkReleased(d, record, before, at, actor, event) =>
      && d in s.decisions && s.decisions[d] == record && record.releasedAt.None?
      && record.application in s.applications && s.applications[record.application] == before
      && before.current == Some(d) && event.DecisionReleased?
    case SaveResponse(app, d, response, event) =>
      && d in s.decisions && s.decisions[d].application == app
      && s.decisions[d].outcome.Accepted? && s.decisions[d].releasedAt.Some?
      && event.RsvpChanged? && event == RsvpChanged(event.actor, app, d, response.status, response.version)
      && (d in s.responses ==> response.status != s.responses[d].status
                               && response.version == s.responses[d].version + 1)
      && (d !in s.responses ==> response.version == 1)
  }

  /** Which resources an effect can change. */
  predicate Touches(e: Effect, r: Resource) {
    match e
    case Nothing => false
    case LogScan(k, row, entry, _) =>
      || r == KeyRow(k) || r == KeySlot(k)
      || (entry.Some?
          && (r == RedemptionSlot(entry.value.id) || r == Usage(entry.value.attendee, entry.value.checkpoint)))
    case SetOverride(a, c, _, _) => r == OverrideRow(a, c)
    case ClearOverride(a, c, _) => r == OverrideRow(a, c)
    case SetCheckpoint(c, prev, fields, _) =>
      r == CheckpointRow(c) || r == SlugSlot(prev.cycle, prev.slug) || r == SlugSlot(fields.cycle, fields.slug)
    case AddPass(p, made, _, _) =>
      r == PassRow(p) || r == PassOwner(p) || r == HashIndex(made.hash) || r == HashSlot(made.hash)
          || r == ActivePass(made.attendee)
    case SwapPass(prior, was, p, made, _, _) =>
      || r == PassRow(prior) || r == PassRow(p) || r == PassOwner(p)
      || r == HashIndex(made.hash) || r == HashSlot(made.hash) || r == ActivePass(made.attendee)
    case EndPass(prior, was, _) => r == PassRow(prior) || r == ActivePass(was.attendee)
    case AddDecision(d, record, _, holder, _) =>
      || r == ApplicationRow(record.application) || r == DecisionRow(d) || r == DecisionOwner(d)
      || r == ConfirmedRsvp(record.application) || r == ResponseOf(record.application)
      || (holder.Some? && (r == AttendeeOf(record.application) || r == AttendeeRow(holder.value.0)))
    case MarkReleased(d, record, _, _, _, _) =>
      || r == ApplicationRow(record.application) || r == DecisionRow(d)
      || r == ConfirmedRsvp(record.application) || r == ResponseOf(record.application)
    case SaveResponse(app, d, _, _) => r == ConfirmedRsvp(app) || r == ResponseOf(app)
  }

  /** The exclusive locks a transaction must hold before it commits an effect. */
  function WriteLocks(e: Effect): set<Lock> {
    match e
    case Nothing => {}
    case LogScan(k, _, entry, _) =>
      {Lock(KeySlot(k), false)}
      + (if entry.Some?
         then {Lock(RedemptionSlot(entry.value.id), false), Lock(AttendeeRow(entry.value.attendee), false)} else {})
    case SetOverride(a, _, _, _) => {Lock(AttendeeRow(a), false)}
    case ClearOverride(a, _, _) => {Lock(AttendeeRow(a), false)}
    case SetCheckpoint(c, prev, fields, _) =>
      {Lock(CheckpointRow(c), false), Lock(SlugSlot(prev.cycle, prev.slug), false),
       Lock(SlugSlot(fields.cycle, fields.slug), false)}
    case AddPass(p, made, _, _) =>
      {Lock(PassRow(p), false), Lock(HashSlot(made.hash), false), Lock(AttendeeRow(made.attendee), false)}
    case SwapPass(prior, was, p, made, _, _) =>
      {Lock(PassRow(prior), false), Lock(PassRow(p), false), Lock(HashSlot(made.hash), false),
       Lock(AttendeeRow(made.attendee), false)}
    case EndPass(prior, was, _) => {Lock(PassRow(prior), false), Lock(AttendeeRow(was.attendee), false)}
    case AddDecision(d, record, _, holder, _) =>
      {Lock(ApplicationRow(record.application), false), Lock(DecisionRow(d), false)}
      + (if holder.Some? then {Lock(AttendeeRow(holder.value.0), false)} else {})
    case MarkReleased(d, record, _, _, _, _) =>
        {Lock(ApplicationRow(record.application), false), Lock(DecisionRow(d), false)}
    case SaveResponse(app, _, _, _) => {Lock(ApplicationRow(app), false)}
  }

  lemma TouchesNeedLock(e: Effect, r: Resource)
    requires Touches(e, r) && !Snapshot(r)
    ensures Lock(Cover(r), false) in WriteLocks(e)
  {
  }

  // ---- Applying an effect changes only what it touches ------------------------

  lemma HasRedemptionAppend(rs: seq<Redemption>, r: Redemption, id: Id)
    ensures HasRedemption(rs + [r], id) == (HasRedemption(rs, id) || r.id == id)
  {
    assert (rs + [r])[|rs|] == r;
    if HasRedemption(rs, id) {
      var i :| 0 <= i < |rs| && rs[i].id == id;
      assert (rs + [r])[i] == rs[i];
    }
  }

  lemma LedgerApart(s: Store, s': Store, r: Resource)
    requires s' == s.(ledger := s'.ledger, redemptions := s'.redemptions, audits := s'.audits)
    requires !r.KeyRow? && !r.KeySlot?
    requires (r.Usage? || r.RedemptionSlot?) ==> s'.redemptions == s.redemptions
    ensures Look(s', r) == Look(s, r)
  {
  }

  lemma ApplyScanKeys(s: Store, e: Effect, r: Resource)
    requires e.LogScan? && !Touches(e, r) && (r.KeyRow? || r.KeySlot?)
    ensures Look(Apply(s, e), r) == Look(s, r)
  {
  }

  lemma ApplyScanUsage(s: Store, e: Effect, r: Resource)
    requires e.LogScan? && e.entry.Some? && r.Usage? && !Touches(e, r)
    ensures Look(Apply(s, e), r) == Look(s, r)
  {
    CountAppend(s.redemptions, e.entry.value, r.attendee, r.checkpoint);
  }

  lemma ApplyScanSlots(s: Store, e: Effect, r: Resource)
    requires e.LogScan? && e.entry.Some? && r.RedemptionSlot? && !Touches(e, r)
    ensures Look(Apply(s, e), r) == Look(s, r)
  {
    HasRedemptionAppend(s.redemptions, e.entry.value, r.redemption);
  }

  lemma ApplyScan(s: Store, e: Effect, r: Resource)
    requires e.LogScan? && !Touches(e, r)
    ensures Look(Apply(s, e), r) == Look(s, r)
  {
    if r.KeyRow? || r.KeySlot? { ApplyScanKeys(s, e, r); }
    else if r.Usage? && e.entry.Some? { ApplyScanUsage(s, e, r); }
    else if r.RedemptionSlot? && e.entry.Some? { ApplyScanSlots(s, e, r); }
    else { LedgerApart(s, Apply(s, e), r); }
  }

  lemma ApplyOps(s: Store, e: Effect, r: Resource)
    requires e.Nothing? || e.SetOverride? || e.ClearOverride? || e.SetCheckpoint?
    requires Applicable(s, e) && !Touches(e, r)
    ensures Look(Apply(s, e), r) == Look(s, r)
  {
  }

  lemma ActiveElsewhere(s: Store, s': Store, attendee: Id)
    requires forall p :: p in s.passes && s.passes[p].attendee == attendee ==>
             p in s'.passes && s'.passes[p] == s.passes[p]
    requires forall p :: p in s'.passes && s'.passes[p].attendee == attendee ==>
             p in s.passes && s.passes[p].attendee == attendee
    ensures HasActive(s', attendee) == HasActive(s, attendee)
  {
    if HasActive(s, attendee) {
      var p :| p in s.passes && s.passes[p].attendee == attendee && s.passes[p].status.Active?;
      assert p in s'.passes && s'.passes[p] == s.passes[p];
    }
    if HasActive(s', attendee) {
      var p :| p in s'.passes && s'.passes[p].attendee == attendee && s'.passes[p].status.Active?;
      assert p in s.passes && s'.passes[p].attendee == attendee;
      assert s.passes[p] == s'.passes[p];
    }
  }

  predicate OnPasses(r: Resource) {
    r.PassRow? || r.PassOwner? || r.HashIndex? || r.HashSlot?
  }

  lemma ApplyPassRows(s: Store, e: Effect, r: Resource)
    requires e.AddPass? || e.SwapPass? || e.EndPass?
    requires Applicable(s, e) && !Touches(e, r) && OnPasses(r)
    ensures Look(Apply(s, e), r) == Look(s, r)
  {
  }

  lemma PassesApart(s: Store, s': Store, r: Resource)
    requires s' == s.(passes := s'.passes, qrIndex := s'.qrIndex, audits := s'.audits, outbox := s'.outbox)
    requires !OnPasses(r) && !r.ActivePass?
    ensures Look(s', r) == Look(s, r)
  {
  }

  lemma ApplyPass(s: Store, e: Effect, r: Resource)
    requires e.AddPass? || e.SwapPass? || e.EndPass?
    requires Applicable(s, e) && !Touches(e, r)
    ensures Look(Apply(s, e), r) == Look(s, r)
  {
    if r.ActivePass? { ApplyActive(s, e, r.attendee); }
    else if OnPasses(r) { ApplyPassRows(s, e, r); }
    else { PassesApart(s, Apply(s, e), r); }
  }

  lemma ApplyActive(s: Store, e: Effect, attendee: Id)
    requires e.AddPass? || e.SwapPass? || e.EndPass?
    requires Applicable(s, e) && !Touches(e, ActivePass(attendee))
    ensures HasActive(Apply(s, e), attendee) == HasActive(s, attendee)
  {
    ActiveElsewhere(s, Apply(s, e), attendee);
  }

  predicate OnAdmission(r: Resource) {
    r.ApplicationRow? || r.DecisionRow? || r.DecisionOwner? || r.AttendeeRow? || r.AttendeeOf?
  }

  predicate OnRsvp(r: Resource) {
    r.ConfirmedRsvp? || r.ResponseOf?
  }

  lemma AdmissionApart(s: Store, s': Store, r: Resource)
    requires s' == s.(applications := s'.applications, decisions := s'.decisions, responses := s'.responses,
                      attendees := s'.attendees, attendeeOf := s'.attendeeOf, audits := s'.audits, outbox := s'.outbox)
    requires !OnAdmission(r) && !OnRsvp(r)
    ensures Look(s', r) == Look(s, r)
  {
  }

  lemma ApplyAdmissionRows(s: Store, e: Effect, r: Resource)
    requires e.AddDecision? || e.MarkReleased? || e.SaveResponse?
    requires Applicable(s, e) && !Touches(e, r) && OnAdmission(r)
    ensures Look(Apply(s, e), r) == Look(s, r)
  {
  }

  lemma ApplyRsvpViews(s: Store, e: Effect, r: Resource)
    requires e.AddDecision? || e.MarkReleased? || e.SaveResponse?
    requires Applicable(s, e) && !Touches(e, r) && OnRsvp(r)
    ensures Look(Apply(s, e), r) == Look(s, r)
  {
  }

  lemma ApplyDecision(s: Store, e: Effect, r: Resource)
    requires e.AddDecision? || e.MarkReleased? || e.SaveResponse?
    requires Applicable(s, e) && !Touches(e, r)
    ensures Look(Apply(s, e), r) == Look(s, r)
  {
    if OnAdmission(r) { ApplyAdmissionRows(s, e, r); }
    else if OnRsvp(r) { ApplyRsvpViews(s, e, r); }
    else { AdmissionApart(s, Apply(s, e), r); }
  }

  lemma ApplyElsewhere(s: Store, e: Effect, r: Resource)
    requires Applicable(s, e) && !Touches(e, r)
    ensures Look(Apply(s, e), r) == Look(s, r)
  {
    match e
    case LogScan(_, _, _, _) => ApplyScan(s, e, r);
    case AddPass(_, _, _, _) => ApplyPass(s, e, r);
    case SwapPass(_, _, _, _, _, _) => ApplyPass(s, e, r);
    case EndPass(_, _, _) => ApplyPass(s, e, r);
    case AddDecision(_, _, _, _, _) => ApplyDecision(s, e, r);
    case MarkReleased(_, _, _, _, _, _) => ApplyDecision(s, e, r);
    case SaveResponse(_, _, _, _) => ApplyDecision(s, e, r);
    case _ => ApplyOps(s, e, r);
  }

  lemma FoundUntouched(s: Store, e: Effect, r: Resource)
    requires Applicable(s, e) && Snapshot(r) && Found(Look(s, r))
    ensures !Touches(e, r)
  {
  }

  /** A value read without a lock is permanent once found. */
  lemma FoundForever(s: Store, e: Effect, r: Resource)
    requires Applicable(s, e) && Snapshot(r) && Found(Look(s, r))
    ensures Look(Apply(s, e), r) == Look(s, r)
  {
    FoundUntouched(s, e, r);
    ApplyElsewhere(s, e, r);
  }
}
