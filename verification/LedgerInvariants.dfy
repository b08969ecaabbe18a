/** What the ledger, the redemptions and their audit trail satisfy in every reachable store. */
module LedgerInvariants {
  import opened Domain
  import opened Protocol
  import opened Transactions
  import opened Specs
  import opened Machine

  /** How many redemption_recorded events an idempotency key has. */
  function Recorded(audits: seq<Audit>, key: Id): nat {
    if audits == [] then 0
    else
      var last := audits[|audits| - 1];
      Recorded(audits[..|audits| - 1], key) + (if last.RedemptionRecorded? && last.key == key then 1 else 0)
  }

  lemma RecordedAppend(audits: seq<Audit>, event: Audit, key: Id)
    ensures Recorded(audits + [event], key)
         == Recorded(audits, key) + (if event.RedemptionRecorded? && event.key == key then 1 else 0)
  {
    assert (audits + [event])[..|audits|] == audits;
  }

  lemma {:induction false} RecordedOther(audits: seq<Audit>, more: seq<Audit>, key: Id)
    requires forall i :: 0 <= i < |more| ==> !more[i].RedemptionRecorded?
    ensures Recorded(audits + more, key) == Recorded(audits, key)
  {
    if more == [] {
      assert audits + more == audits;
    } else {
      var init := more[..|more| - 1];
      RecordedOther(audits, init, key);
      assert audits + more == (audits + init) + [more[|more| - 1]];
      RecordedAppend(audits + init, more[|more| - 1], key);
    }
  }

  /** Each redemption's ordinal is one more than the attendee's earlier redemptions at that checkpoint. */
  ghost predicate Dense(rs: seq<Redemption>) {
    forall i :: 0 <= i < |rs| ==> rs[i].ordinal == Count(rs[..i], rs[i].attendee, rs[i].checkpoint) + 1
  }

  predicate Agrees(r: Redemption, row: LedgerRow) {
    && row.outcome.Redeemed? && row.redemption == Some(r.id) && row.checkpoint == r.checkpoint
    && row.attendee == Some(r.attendee) && row.pass == Some(r.pass) && row.scanner == r.scanner
  }

  predicate Distinct(rs: seq<Redemption>) {
    forall i, j :: 0 <= i < j < |rs| ==> rs[i].key != rs[j].key && rs[i].id != rs[j].id
  }

  /** The shape a ledger row must have for its outcome. */
  predicate WellShaped(row: LedgerRow) {
    && (row.redemption.Some? <==> row.outcome.Redeemed?)
    && (if row.outcome.InvalidPass? then row.pass.None? && row.attendee.None? && row.attendeeName.None?
        && row.passStatus.None?
        else row.pass.Some? && row.attendee.Some? && row.attendeeName.Some?
             && row.passStatus == Some(if row.outcome.RevokedPass? then Revoked else Active))
  }

  /** Every redemption stands behind a ledger row that names it. */
  predicate Backed(ledger: map<Id, LedgerRow>, rs: seq<Redemption>) {
    forall i :: 0 <= i < |rs| ==> rs[i].key in ledger && Agrees(rs[i], ledger[rs[i].key])
  }

  predicate HasKey(rs: seq<Redemption>, key: Id) {
    exists i :: 0 <= i < |rs| && rs[i].key == key
  }

  /** Every redeemed ledger row has its redemption. */
  predicate Spent(ledger: map<Id, LedgerRow>, rs: seq<Redemption>) {
    forall k :: k in ledger && ledger[k].outcome.Redeemed? ==> HasKey(rs, k)
  }

  predicate AllShaped(ledger: map<Id, LedgerRow>) {
    forall k :: k in ledger ==> WellShaped(ledger[k])
  }

  /** Each ledger row was audited once. */
  ghost predicate Audited(ledger: map<Id, LedgerRow>, audits: seq<Audit>) {
    forall k :: Recorded(audits, k) == if k in ledger then 1 else 0
  }

  ghost predicate LedgerInv(ledger: map<Id, LedgerRow>, rs: seq<Redemption>, audits: seq<Audit>) {
    Dense(rs) && Distinct(rs) && Backed(ledger, rs) && Spent(ledger, rs) && AllShaped(ledger) && Audited(ledger, audits)
  }

  predicate DefaultsLimited(checkpoints: map<Id, Checkpoint>) {
    forall c :: c in checkpoints ==> 0 <= checkpoints[c].defaultMax <= MAX_INT32
  }

  predicate OverridesLimited(checkpoints: map<Id, Checkpoint>, overrides: map<(Id, Id), Override>) {
    forall at :: at in overrides ==>
      && 0 <= overrides[at].max <= MAX_INT32
      && (at.1 in checkpoints ==> overrides[at].cycle == checkpoints[at.1].cycle)
  }

  /** Stored maxima are 32-bit and non-negative, and overrides stay within their checkpoint's cycle. */
  predicate LimitInv(s: Store) {
    DefaultsLimited(s.checkpoints) && OverridesLimited(s.checkpoints, s.overrides)
  }

  /** The unique index finds exactly the stored checkpoints by their cycle and slug. */
  predicate SlugsIndexed(checkpoints: map<Id, Checkpoint>, slugs: map<(Id, string), Id>) {
    && (forall c :: c in checkpoints ==>
          (checkpoints[c].cycle, checkpoints[c].slug) in slugs
              && slugs[(checkpoints[c].cycle, checkpoints[c].slug)] == c)
    && (forall at :: at in slugs ==>
        slugs[at] in checkpoints && (checkpoints[slugs[at]].cycle, checkpoints[slugs[at]].slug) == at)
  }

  lemma SlugsMoved(
    checkpoints: map<Id, Checkpoint>, slugs: map<(Id, string), Id>, c: Id, fields: Checkpoint)
    requires SlugsIndexed(checkpoints, slugs) && c in checkpoints && checkpoints[c].cycle == fields.cycle
    requires (fields.cycle, fields.slug) in slugs ==> fields.slug == checkpoints[c].slug
    ensures SlugsIndexed(checkpoints[c := fields],
                         (slugs - {(checkpoints[c].cycle, checkpoints[c].slug)})[(fields.cycle, fields.slug) := c])
  {
  }

  lemma SlugsKept(s: Store, e: Effect)
    requires SlugsIndexed(s.checkpoints, s.slugs) && Applicable(s, e)
    ensures SlugsIndexed(Apply(s, e).checkpoints, Apply(s, e).slugs)
  {
    if e.SetCheckpoint? { SlugsMoved(s.checkpoints, s.slugs, e.checkpoint, e.fields); }
  }

  // ---- Scans --------------------------------------------------------------------

  /** What a committed scan writes, judged against the store it commits to. */
  ghost predicate SoundScan(s: Store, e: Effect) {
    e.LogScan? ==>
      && e.key !in s.ledger && WellShaped(e.row)
      && e.event.RedemptionRecorded? && e.event.key == e.key
      && (e.entry.Some? <==> e.row.outcome.Redeemed?)
      && (e.entry.Some? ==>
            var r := e.entry.value;
            && r.key == e.key && Agrees(r, e.row) && !HasRedemption(s.redemptions, r.id)
            && r.ordinal == Count(s.redemptions, r.attendee, r.checkpoint) + 1
            && r.ordinal <= Allowance(s, r.attendee, r.checkpoint)
            && r.checkpoint in s.checkpoints && s.checkpoints[r.checkpoint].active
            && EffectiveRule(s, r.attendee, r.checkpoint).allowed)
  }

  lemma AllowanceFits(s: Store, attendee: Id, checkpoint: Id)
    requires LimitInv(s)
    ensures 0 <= Allowance(s, attendee, checkpoint) <= MAX_INT32
  {
  }

  lemma JudgedScan(s: Store, q: RedeemInput, n: Attempt, pass: Id)
    requires LimitInv(s) && q.checkpoint in s.checkpoints && Linked(s, pass) && q.key !in s.ledger
    requires var claim := Judge(s, q.checkpoint, pass, n.now); claim.outcome.Redeemed? ==>
             !HasRedemption(s.redemptions, n.redemption)
    ensures SoundScan(s, ScanEffect(q, n, s.checkpoints[q.checkpoint], Judge(s, q.checkpoint, pass, n.now)))
  {
    AllowanceFits(s, Holder(s, pass).attendee, q.checkpoint);
  }

  lemma UnknownScan(s: Store, q: RedeemInput, n: Attempt)
    requires q.checkpoint in s.checkpoints && q.key !in s.ledger
    ensures SoundScan(s, ScanEffect(q, n, s.checkpoints[q.checkpoint], Claim(InvalidPass, None, 0)))
  {
  }

  lemma RedeemSound(s: Store, q: RedeemInput, n: Attempt)
    requires LimitInv(s) && RedeemAtomically(s, q, n).Finish?
    ensures SoundScan(s, RedeemAtomically(s, q, n).effect)
  {
    if q.key !in s.ledger {
      var pass := if q.validQR then Get(s.qrIndex, q.hash) else None;
      if pass.Some? { JudgedScan(s, q, n, pass.value); } else { UnknownScan(s, q, n); }
    }
  }

  lemma BlindSound(s: Store, q: RedeemInput, n: Attempt)
    requires RedeemAtomically(Blind(s, q.hash), q, n).Finish?
    ensures SoundScan(s, RedeemAtomically(Blind(s, q.hash), q, n).effect)
  {
    if q.key !in s.ledger { UnknownScan(s, q, n); }
  }

  /** Every scan that commits, in any interleaving, is sound for the store it commits to. */
  lemma SerialSound(c: Commit)
    requires Serial(c) && LimitInv(c.pre)
    ensures SoundScan(c.pre, c.effect)
  {
    if c.call.Redeem? {
      if Stale(c) { BlindSound(c.pre, c.call.q, c.n); } else { RedeemSound(c.pre, c.call.q, c.n); }
    } else {
      AtomicallyFits(c.pre, c.call, c.n);
    }
  }

  /** What a scan has to find to be redeemed. */
  ghost predicate Due(s: Store, q: RedeemInput, now: Time, r: Redemption) {
    && q.validQR && q.key !in s.ledger && Get(s.qrIndex, q.hash) == Some(r.pass)
    && Linked(s, r.pass) && s.passes[r.pass].status == Active && s.passes[r.pass].attendee == r.attendee
    && var app := s.applications[s.attendees[r.attendee].application];
    && app.status == Accepted && app.releasedAt != None
    && q.checkpoint in s.checkpoints
    && var cp := s.checkpoints[q.checkpoint];
    && cp.active && cp.cycle == s.attendees[r.attendee].cycle
    && (cp.opensAt != None ==> cp.opensAt.value <= now) && (cp.closesAt != None ==> now < cp.closesAt.value)
    && Count(s.redemptions, r.attendee, q.checkpoint) < Allowance(s, r.attendee, q.checkpoint)
  }

  /** A scan judged now is redeemed exactly if some redemption is due. */
  lemma JudgedDue(s: Store, q: RedeemInput, pass: Id, now: Time, r: Redemption)
    requires q.checkpoint in s.checkpoints && Linked(s, pass) && q.validQR && q.key !in s.ledger
    requires Get(s.qrIndex, q.hash) == Some(pass)
    requires r.pass == pass && r.attendee == s.passes[pass].attendee
    ensures Judge(s, q.checkpoint, pass, now).outcome.Redeemed? <==> Due(s, q, now, r)
  {
  }

  lemma BlindRefuses(s: Store, q: RedeemInput, n: Attempt)
    requires RedeemAtomically(Blind(s, q.hash), q, n).Finish?
    ensures RedeemAtomically(Blind(s, q.hash), q, n).effect.LogScan?
            ==> RedeemAtomically(Blind(s, q.hash), q, n).effect.entry.None?
  {
  }

  lemma RedeemedDue(s: Store, q: RedeemInput, n: Attempt)
    requires RedeemAtomically(s, q, n).Finish? && RedeemAtomically(s, q, n).effect.LogScan?
    requires RedeemAtomically(s, q, n).effect.entry.Some?
    ensures var r := RedeemAtomically(s, q, n).effect.entry.value;
            Due(s, q, n.now, r) && r.key == q.key && r.checkpoint == q.checkpoint && r.scanner == q.scanner
  {
    var pass := s.qrIndex[q.hash];
    var r := RedeemAtomically(s, q, n).effect.entry.value;
    assert r.pass == pass && r.attendee == s.passes[pass].attendee;
    JudgedDue(s, q, pass, n.now, r);
  }

  /** Every redemption that commits, in any interleaving, was due in the store it commits to, at the time its
      transaction began. */
  lemma RedemptionWasDue(c: Commit)
    requires Serial(c) && c.effect.LogScan? && c.effect.entry.Some?
    ensures var r := c.effect.entry.value;
            && c.call.Redeem? && Due(c.pre, c.call.q, c.n.now, r)
            && r.key == c.call.q.key && r.checkpoint == c.call.q.checkpoint && r.scanner == c.call.q.scanner
  {
    SerialFits(c);
    if Stale(c) {
      BlindRefuses(c.pre, c.call.q, c.n);
      assert false;
    }
    RedeemedDue(c.pre, c.call.q, c.n);
  }

  // ---- Preservation ----------------------------------------------------------------

  lemma DenseAppend(rs: seq<Redemption>, r: Redemption)
    requires Dense(rs) && r.ordinal == Count(rs, r.attendee, r.checkpoint) + 1
    ensures Dense(rs + [r])
  {
    var all := rs + [r];
    forall i | 0 <= i < |all| ensures all[i].ordinal == Count(all[..i], all[i].attendee, all[i].checkpoint) + 1 {
      if i < |rs| {
        assert all[..i] == rs[..i];
      } else {
        assert all[..i] == rs;
      }
    }
  }

  lemma DistinctAppend(ledger: map<Id, LedgerRow>, rs: seq<Redemption>, r: Redemption)
    requires Distinct(rs) && Backed(ledger, rs) && r.key !in ledger && !HasRedemption(rs, r.id)
    ensures Distinct(rs + [r])
  {
    var all := rs + [r];
    forall i, j | 0 <= i < j < |all| ensures all[i].key != all[j].key && all[i].id != all[j].id {
      assert all[i] == rs[i];
      if j < |rs| { assert all[j] == rs[j]; }
    }
  }

  lemma BackedGrows(ledger: map<Id, LedgerRow>, rs: seq<Redemption>, key: Id, row: LedgerRow)
    requires Backed(ledger, rs) && key !in ledger
    ensures Backed(ledger[key := row], rs)
  {
  }

  lemma BackedAppend(ledger: map<Id, LedgerRow>, rs: seq<Redemption>, r: Redemption)
    requires Backed(ledger, rs) && r.key in ledger && Agrees(r, ledger[r.key])
    ensures Backed(ledger, rs + [r])
  {
  }

  lemma SpentGrows(ledger: map<Id, LedgerRow>, rs: seq<Redemption>, key: Id, row: LedgerRow)
    requires Spent(ledger, rs) && (row.outcome.Redeemed? ==> HasKey(rs, key))
    ensures Spent(ledger[key := row], rs)
  {
  }

  lemma SpentAppend(ledger: map<Id, LedgerRow>, rs: seq<Redemption>, r: Redemption)
    requires Spent(ledger, rs)
    ensures Spent(ledger, rs + [r]) && HasKey(rs + [r], r.key)
  {
    var all := rs + [r];
    assert all[|rs|] == r;
    forall k | HasKey(rs, k) ensures HasKey(all, k) {
      var i :| 0 <= i < |rs| && rs[i].key == k;
      assert all[i].key == k;
    }
  }

  lemma AuditedAppend(ledger: map<Id, LedgerRow>, audits: seq<Audit>, key: Id, row: LedgerRow, event: Audit)
    requires Audited(ledger, audits) && key !in ledger && event.RedemptionRecorded? && event.key == key
    ensures Audited(ledger[key := row], audits + [event])
  {
    forall k ensures Recorded(audits + [event], k) == if k in ledger[key := row] then 1 else 0 {
      RecordedAppend(audits, event, k);
    }
  }

  lemma EntryBacked(ledger: map<Id, LedgerRow>, rs: seq<Redemption>, r: Redemption, row: LedgerRow)
    requires Dense(rs) && Distinct(rs) && Backed(ledger, rs) && r.key !in ledger && Agrees(r, row)
    requires !HasRedemption(rs, r.id)
    requires r.ordinal == Count(rs, r.attendee, r.checkpoint) + 1
    ensures Dense(rs + [r]) && Distinct(rs + [r]) && Backed(ledger[r.key := row], rs + [r])
  {
    DenseAppend(rs, r);
    DistinctAppend(ledger, rs, r);
    BackedGrows(ledger, rs, r.key, row);
    BackedAppend(ledger[r.key := row], rs, r);
  }

  lemma EntrySpent(ledger: map<Id, LedgerRow>, rs: seq<Redemption>, r: Redemption, row: LedgerRow)
    requires Spent(ledger, rs)
    ensures Spent(ledger[r.key := row], rs + [r])
  {
    SpentAppend(ledger, rs, r);
    SpentGrows(ledger, rs + [r], r.key, row);
  }

  lemma EntryKeeps(s: Store, e: Effect)
    requires LedgerInv(s.ledger, s.redemptions, s.audits) && e.LogScan? && SoundScan(s, e) && e.entry.Some?
    ensures LedgerInv(s.ledger[e.key := e.row], s.redemptions + [e.entry.value], s.audits + [e.event])
  {
    EntryBacked(s.ledger, s.redemptions, e.entry.value, e.row);
    EntrySpent(s.ledger, s.redemptions, e.entry.value, e.row);
    AuditedAppend(s.ledger, s.audits, e.key, e.row, e.event);
  }

  lemma RefusalKeeps(s: Store, e: Effect)
    requires LedgerInv(s.ledger, s.redemptions, s.audits) && e.LogScan? && SoundScan(s, e) && e.entry.None?
    ensures LedgerInv(s.ledger[e.key := e.row], s.redemptions, s.audits + [e.event])
  {
    BackedGrows(s.ledger, s.redemptions, e.key, e.row);
    SpentGrows(s.ledger, s.redemptions, e.key, e.row);
    AuditedAppend(s.ledger, s.audits, e.key, e.row, e.event);
  }

  /** The audit events an effect other than a scan appends. */
  function Events(e: Effect): seq<Audit> {
    match e
    case Nothing => []
    case LogScan(_, _, _, event) => [event]
    case SetOverride(_, _, _, event) => [event]
    case ClearOverride(_, _, event) => [event]
    case SetCheckpoint(_, _, _, event) => [event]
    case AddPass(_, _, event, _) => [event]
    case SwapPass(_, _, _, _, event, _) => [event]
    case EndPass(_, _, event) => [event]
    case AddDecision(_, _, _, _, events) => events
    case MarkReleased(_, _, _, _, _, event) => [event]
    case SaveResponse(_, _, _, event) => [event]
  }

  lemma EventsAppended(s: Store, e: Effect)
    ensures Apply(s, e).audits == s.audits + Events(e)
  {
  }

  lemma QuietEvents(s: Store, e: Effect)
    requires Applicable(s, e) && !e.LogScan?
    ensures Apply(s, e).ledger == s.ledger && Apply(s, e).redemptions == s.redemptions
    ensures forall i :: 0 <= i < |Events(e)| ==> !Events(e)[i].RedemptionRecorded?
  {
  }

  lemma LedgerKept(s: Store, e: Effect)
    requires LedgerInv(s.ledger, s.redemptions, s.audits) && Applicable(s, e) && SoundScan(s, e)
    ensures LedgerInv(Apply(s, e).ledger, Apply(s, e).redemptions, Apply(s, e).audits)
  {
    EventsAppended(s, e);
    if e.LogScan? {
      if e.entry.Some? { EntryKeeps(s, e); } else { RefusalKeeps(s, e); }
    } else {
      QuietEvents(s, e);
      forall k ensures Recorded(s.audits + Events(e), k) == Recorded(s.audits, k) {
        RecordedOther(s.audits, Events(e), k);
      }
    }
  }

  lemma RuleLimited(s: Store, e: Effect)
    requires LimitInv(s) && (e.SetOverride? || e.ClearOverride?)
    requires e.SetOverride? ==> 0 <= e.override.max <= MAX_INT32
                                && (e.checkpoint in s.checkpoints
                                    ==> e.override.cycle == s.checkpoints[e.checkpoint].cycle)
    ensures LimitInv(Apply(s, e))
  {
  }

  lemma UpdateLimited(s: Store, u: CheckpointInput)
    requires LimitInv(s) && UpdateAtomically(s, u).Finish?
    ensures LimitInv(Apply(s, UpdateAtomically(s, u).effect))
  {
  }

  lemma OthersLeaveRules(s: Store, e: Effect)
    requires !e.SetOverride? && !e.ClearOverride? && !e.SetCheckpoint?
    ensures Apply(s, e).checkpoints == s.checkpoints && Apply(s, e).overrides == s.overrides
  {
  }

  lemma SerialFits(c: Commit)
    requires Serial(c)
    ensures Fits(c.call, c.effect)
  {
    AtomicallyFits(if Stale(c) then Blind(c.pre, c.call.q.hash) else c.pre, c.call, c.n);
  }

  lemma LimitsKept(c: Commit)
    requires LimitInv(c.pre) && Serial(c)
    ensures LimitInv(Post(c))
  {
    SerialFits(c);
    if c.call.Entitle? && !c.effect.Nothing? { RuleLimited(c.pre, c.effect); }
    else if c.call.UpdateCheckpoint? { UpdateLimited(c.pre, c.call.u); }
    else { OthersLeaveRules(c.pre, c.effect); }
  }

  // ---- Consequences ------------------------------------------------------------------

  /** The ordinals of one attendee at one checkpoint are exactly 1..n. */
  lemma {:induction false} OrdinalsAreDense(rs: seq<Redemption>, attendee: Id, checkpoint: Id, k: int)
    requires Dense(rs)
    ensures 1 <= k <= Count(rs, attendee, checkpoint) <==>
      exists i :: 0 <= i < |rs| && rs[i].attendee == attendee && rs[i].checkpoint == checkpoint && rs[i].ordinal == k
  {
    if rs != [] {
      var init := rs[..|rs| - 1];
      var last := rs[|rs| - 1];
      assert Dense(init) by {
        forall i | 0 <= i < |init|
          ensures init[i].ordinal == Count(init[..i], init[i].attendee, init[i].checkpoint) + 1
        {
          assert init[..i] == rs[..i];
        }
      }
      OrdinalsAreDense(init, attendee, checkpoint, k);
      assert last.ordinal == Count(init, last.attendee, last.checkpoint) + 1;
      if 1 <= k <= Count(init, attendee, checkpoint) {
        var i :| 0 <= i < |init| && init[i].attendee == attendee && init[i].checkpoint == checkpoint
            && init[i].ordinal == k;
        assert rs[i] == init[i];
      }
      if i :| 0 <= i < |rs| && rs[i].attendee == attendee && rs[i].checkpoint == checkpoint && rs[i].ordinal == k {
        if i < |init| { assert init[i] == rs[i]; }
      }
    }
  }

  lemma {:induction false} CountGrows(rs: seq<Redemption>, i: nat, j: nat, attendee: Id, checkpoint: Id)
    requires i <= j <= |rs|
    ensures Count(rs[..i], attendee, checkpoint) <= Count(rs[..j], attendee, checkpoint)
  {
    if i < j {
      CountGrows(rs, i, j - 1, attendee, checkpoint);
      assert rs[..j] == rs[..j - 1] + [rs[j - 1]];
      CountAppend(rs[..j - 1], rs[j - 1], attendee, checkpoint);
    }
  }

  /** No ordinal is used twice by one attendee at one checkpoint. */
  lemma OrdinalsAreUnique(rs: seq<Redemption>, i: nat, j: nat)
    requires Dense(rs) && i < j < |rs| && rs[i].attendee == rs[j].attendee && rs[i].checkpoint == rs[j].checkpoint
    ensures rs[i].ordinal < rs[j].ordinal
  {
    var r := rs[i];
    CountGrows(rs, i + 1, j, r.attendee, r.checkpoint);
    assert rs[..i + 1] == rs[..i] + [r];
    CountAppend(rs[..i], r, r.attendee, r.checkpoint);
  }
}
