/** What a scan has to find for each of its outcomes and what it then writes and answers, stated on the fields of the
    rows alone. */
module ScanContracts {
  import opened Domain
  import opened Protocol
  import opened Text
  import opened Transactions
  import opened Specs
  import opened Contracts
  import opened Reachable

  // ---- The window ---------------------------------------------------------------------

  /** From the opening instant on until just before the closing instant; a bound that is not given does not bound. */
  predicate Within(cp: Checkpoint, now: Time) {
    && (cp.opensAt == None || cp.opensAt.value <= now)
    && (cp.closesAt == None || now < cp.closesAt.value)
  }

  lemma OpenMeans(cp: Checkpoint, now: Time)
    ensures Open(cp, now) <==> Within(cp, now)
  {
  }

  /** A valid checkpoint is open at its opening instant and not just before it, and open just before its closing instant
      and not at it. */
  lemma WindowEdges(cp: Checkpoint)
    requires ValidCheckpoint(cp)
    ensures cp.opensAt.Some? ==> Open(cp, cp.opensAt.value) && !Open(cp, cp.opensAt.value - 1)
    ensures cp.closesAt.Some? ==> Open(cp, cp.closesAt.value - 1) && !Open(cp, cp.closesAt.value)
    ensures cp.opensAt.None? && cp.closesAt.None? ==> forall now :: Open(cp, now)
  {
  }

  // ---- The rule -----------------------------------------------------------------------

  /** Whether the attendee may use the checkpoint and how often: the attendee's own rule if it is of the checkpoint's
      cycle, otherwise the checkpoint's; a negative limit is none. */
  ghost predicate RuleIs(s: Store, attendee: Id, checkpoint: Id, allowed: bool, max: int)
    requires checkpoint in s.checkpoints
  {
    var at := (attendee, checkpoint);
    if at in s.overrides && s.overrides[at].cycle == s.checkpoints[checkpoint].cycle
    then allowed == s.overrides[at].allowed && AtLeastZero(s.overrides[at].max, max)
    else allowed == s.checkpoints[checkpoint].defaultAllowed && AtLeastZero(s.checkpoints[checkpoint].defaultMax, max)
  }

  predicate AtLeastZero(limit: int, max: int) {
    (limit >= 0 && max == limit) || (limit < 0 && max == 0)
  }

  lemma RuleMeans(s: Store, attendee: Id, checkpoint: Id)
    requires checkpoint in s.checkpoints
    ensures var e := EffectiveRule(s, attendee, checkpoint);
            && RuleIs(s, attendee, checkpoint, e.allowed, e.max)
            && Allowance(s, attendee, checkpoint) == (if e.allowed then e.max else 0)
  {
  }

  /** The redemptions of an attendee at a checkpoint, by position. */
  function Uses(rs: seq<Redemption>, attendee: Id, checkpoint: Id): set<nat> {
    set i | 0 <= i < |rs| && rs[i].attendee == attendee && rs[i].checkpoint == checkpoint
  }

  lemma {:induction false} CountMeans(rs: seq<Redemption>, attendee: Id, checkpoint: Id)
    ensures Count(rs, attendee, checkpoint) == |Uses(rs, attendee, checkpoint)|
  {
    if rs != [] {
      var last := |rs| - 1;
      CountMeans(rs[..last], attendee, checkpoint);
      var mine := rs[last].attendee == attendee && rs[last].checkpoint == checkpoint;
      assert Uses(rs, attendee, checkpoint) == Uses(rs[..last], attendee, checkpoint) + (if mine then {last} else {});
    }
  }

  // ---- The outcomes -------------------------------------------------------------------

  /** What each outcome of a scan of a linked pass takes. */
  ghost predicate Deserves(s: Store, c: Id, pass: Id, now: Time, outcome: Outcome)
    requires c in s.checkpoints && Linked(s, pass)
  {
    var cp, row := s.checkpoints[c], s.passes[pass];
    var holder := s.attendees[row.attendee];
    var admitted := Admitted(s, holder.application);
    var usable := admitted && row.status == Active;
    var entered := usable && cp.active && cp.cycle == holder.cycle && Within(cp, now);
    match outcome
    case InvalidPass => !admitted || row.status == Replaced
    case RevokedPass => admitted && row.status == Revoked
    case OutsideWindow => usable && (!cp.active || (cp.cycle == holder.cycle && !Within(cp, now)))
    case NotEntitled =>
      || (usable && cp.active && cp.cycle != holder.cycle)
      || (entered && exists max :: RuleIs(s, row.attendee, c, false, max))
    case AlreadyExhausted =>
      entered && exists max :: RuleIs(s, row.attendee, c, true, max) && max <= |Uses(s.redemptions, row.attendee, c)|
    case Redeemed =>
      entered && exists max :: RuleIs(s, row.attendee, c, true, max) && |Uses(s.redemptions, row.attendee, c)| < max
  }

  lemma JudgeMeans(s: Store, c: Id, pass: Id, now: Time, outcome: Outcome)
    requires c in s.checkpoints && Linked(s, pass)
    ensures Judge(s, c, pass, now).outcome == outcome <==> Deserves(s, c, pass, now, outcome)
  {
    RuleMeans(s, s.passes[pass].attendee, c);
    CountMeans(s.redemptions, s.passes[pass].attendee, c);
    VisibleMeans(s, s.attendees[s.passes[pass].attendee].application);
    var e := EffectiveRule(s, s.passes[pass].attendee, c);
    assert RuleIs(s, s.passes[pass].attendee, c, e.allowed, e.max);
  }

  /** For an active pass of an admitted attendee at an active checkpoint of its cycle, outside_window means that. */
  lemma OutsideExactly(s: Store, c: Id, pass: Id, now: Time)
    requires c in s.checkpoints && Linked(s, pass) && s.passes[pass].status == Active
    requires Admitted(s, s.attendees[s.passes[pass].attendee].application)
    requires s.checkpoints[c].active && s.checkpoints[c].cycle == s.attendees[s.passes[pass].attendee].cycle
    ensures Judge(s, c, pass, now).outcome == OutsideWindow <==>
              || (s.checkpoints[c].opensAt.Some? && now < s.checkpoints[c].opensAt.value)
              || (s.checkpoints[c].closesAt.Some? && s.checkpoints[c].closesAt.value <= now)
  {
    JudgeMeans(s, c, pass, now, OutsideWindow);
  }

  // ---- What is written and answered -----------------------------------------------------

  /** The pass that the scanned code stands for. */
  function Scanned(s: Store, q: RedeemInput): Option<Id> {
    if q.validQR && q.hash in s.qrIndex then Some(s.qrIndex[q.hash]) else None
  }

  ghost predicate RedeemFails(s: Store, q: RedeemInput, e: Error) {
    match e
    case IdempotencyConflict =>
      q.key in s.ledger && (s.ledger[q.key].checkpoint != q.checkpoint || s.ledger[q.key].hash != q.hash)
    case CheckpointNotFound => q.key !in s.ledger && q.checkpoint !in s.checkpoints
    case Internal =>
      && q.key !in s.ledger && q.checkpoint in s.checkpoints
      && Scanned(s, q).Some? && !Linked(s, Scanned(s, q).value)
    case _ => false
  }

  lemma RedeemRefuses(s: Store, q: RedeemInput, n: Attempt, e: Error)
    ensures RedeemAtomically(s, q, n) == Fail(e) <==> RedeemFails(s, q, e)
  {
  }

  /** The row that stands for a scan: whose pass it was, under which names, and what came of it; nothing of a pass that
      is not valid. */
  ghost predicate RowIs(s: Store, q: RedeemInput, n: Attempt, row: LedgerRow)
    requires q.checkpoint in s.checkpoints
  {
    && row.scanner == q.scanner && row.checkpoint == q.checkpoint && row.hash == q.hash
    && row.checkpointName == s.checkpoints[q.checkpoint].name
    && row.redemption == (if row.outcome == Redeemed then Some(n.redemption) else None)
    && if row.outcome == InvalidPass
       then row.pass == None && row.attendee == None && row.attendeeName == None && row.passStatus == None
       else
         && Scanned(s, q).Some? && Linked(s, Scanned(s, q).value)
         && var pass := Scanned(s, q).value;
         && row.pass == Some(pass) && row.attendee == Some(s.passes[pass].attendee)
         && row.attendeeName == Some(s.attendees[s.passes[pass].attendee].name)
         && row.passStatus == Some(s.passes[pass].status)
  }

  /** The redemption of a redeemed scan, which carries the next ordinal. */
  ghost predicate UseIs(s: Store, q: RedeemInput, n: Attempt, r: Redemption)
    requires q.checkpoint in s.checkpoints
  {
    && Scanned(s, q).Some? && Linked(s, Scanned(s, q).value)
    && var pass := Scanned(s, q).value;
    && r.id == n.redemption && r.pass == pass && r.attendee == s.passes[pass].attendee
    && r.checkpoint == q.checkpoint && r.cycle == s.checkpoints[q.checkpoint].cycle
    && r.scanner == q.scanner && r.key == q.key
    && (|Uses(s.redemptions, r.attendee, q.checkpoint)| < 2147483647 ==>
          r.ordinal == |Uses(s.redemptions, r.attendee, q.checkpoint)| + 1)
  }

  /** The outcome is the one deserved. */
  ghost predicate OutcomeIs(s: Store, q: RedeemInput, now: Time, outcome: Outcome)
    requires q.checkpoint in s.checkpoints
  {
    match Scanned(s, q)
    case None => outcome == InvalidPass
    case Some(pass) => Linked(s, pass) && Deserves(s, q.checkpoint, pass, now, outcome)
  }

  /** A first scan: one row, the answer it stands for, one event, and a redemption if it was redeemed. */
  ghost predicate ScanPosts(s: Store, q: RedeemInput, n: Attempt, s': Store, reply: Reply) {
    && q.checkpoint in s.checkpoints && q.key in s'.ledger
    && var row := s'.ledger[q.key];
    && s'.ledger == s.ledger[q.key := row]
    && OutcomeIs(s, q, n.now, row.outcome) && RowIs(s, q, n, row)
    && reply == Scan(Result(row.outcome, row.attendeeName, row.passStatus, row.checkpoint, row.checkpointName,
                            row.redemption))
    && (if row.outcome == Redeemed
        then exists r :: UseIs(s, q, n, r) && s'.redemptions == s.redemptions + [r]
        else s'.redemptions == s.redemptions)
    && s'.audits == s.audits + [RedemptionRecorded(q.scanner, if row.outcome == Redeemed then n.redemption
                                                              else q.checkpoint,
                                                   q.checkpoint, row.attendee, row.pass, row.redemption, q.key,
                                                   row.outcome)]
    && s' == s.(ledger := s'.ledger, redemptions := s'.redemptions, audits := s'.audits)
  }

  /** The pass columns of a row are all given or all not. */
  predicate Coherent(row: LedgerRow) {
    (row.pass == None <==> row.attendeeName == None) && (row.pass == None <==> row.passStatus == None)
  }

  /** A repeated scan: the answer its row stands for, and no change. */
  ghost predicate ReplayPosts(s: Store, q: RedeemInput, s': Store, reply: Reply)
    requires q.key in s.ledger
  {
    var row := s.ledger[q.key];
    && s' == s && row.checkpoint == q.checkpoint && row.hash == q.hash
    && (Coherent(row) ==>
          reply == Scan(Result(row.outcome, row.attendeeName, row.passStatus, row.checkpoint, row.checkpointName,
                               row.redemption)))
  }

  ghost predicate RedeemPosts(s: Store, q: RedeemInput, n: Attempt, s': Store, reply: Reply) {
    if q.key in s.ledger then ReplayPosts(s, q, s', reply) else ScanPosts(s, q, n, s', reply)
  }

  /** A claim is the deserved outcome of the pass, with the pass and its holder as the rows have them. */
  ghost predicate ClaimIs(s: Store, q: RedeemInput, now: Time, claim: Claim)
    requires q.checkpoint in s.checkpoints
  {
    && OutcomeIs(s, q, now, claim.outcome)
    && (claim.outcome != InvalidPass ==>
          && Scanned(s, q).Some? && Linked(s, Scanned(s, q).value)
          && var pass := Scanned(s, q).value;
          && claim.pass.Some? && claim.pass.value.id == pass && claim.pass.value.attendee == s.passes[pass].attendee
          && claim.pass.value.name == s.attendees[s.passes[pass].attendee].name
          && claim.pass.value.status == s.passes[pass].status)
    && (claim.outcome == Redeemed ==>
          && var uses := |Uses(s.redemptions, claim.pass.value.attendee, q.checkpoint)|;
          uses < 2147483647 ==> claim.ordinal == uses + 1)
  }

  lemma ClaimMeans(s: Store, q: RedeemInput, now: Time)
    requires q.checkpoint in s.checkpoints && (Scanned(s, q).Some? ==> Linked(s, Scanned(s, q).value))
    ensures ClaimIs(s, q, now, JudgeScan(s, q, Scanned(s, q), now))
  {
    if Scanned(s, q).Some? {
      var pass := Scanned(s, q).value;
      JudgeMeans(s, q.checkpoint, pass, now, Judge(s, q.checkpoint, pass, now).outcome);
      CountMeans(s.redemptions, s.passes[pass].attendee, q.checkpoint);
    }
  }

  lemma ClaimWrites(s: Store, q: RedeemInput, n: Attempt, claim: Claim)
    requires q.checkpoint in s.checkpoints && ClaimIs(s, q, n.now, claim)
    ensures var cp := s.checkpoints[q.checkpoint];
            ScanPosts(s, q, n, Apply(s, ScanEffect(q, n, cp, claim)), Scan(ScanResult(q, n, cp, claim)))
  {
    var cp := s.checkpoints[q.checkpoint];
    var e := ScanEffect(q, n, cp, claim);
    if claim.outcome == Redeemed { assert UseIs(s, q, n, e.entry.value); }
  }

  lemma RedeemMeans(s: Store, q: RedeemInput, n: Attempt)
    ensures var done := RedeemAtomically(s, q, n);
            && !done.Run?
            && (done.Finish? ==> RedeemPosts(s, q, n, Apply(s, done.effect), done.reply))
            && (done.Again? ==>
                  && q.key !in s.ledger && q.checkpoint in s.checkpoints && OutcomeIs(s, q, n.now, Redeemed)
                  && exists i :: 0 <= i < |s.redemptions| && s.redemptions[i].id == n.redemption)
  {
    if q.key !in s.ledger && q.checkpoint in s.checkpoints
       && (Scanned(s, q).Some? ==> Linked(s, Scanned(s, q).value)) {
      ClaimMeans(s, q, n.now);
      ClaimWrites(s, q, n, JudgeScan(s, q, Scanned(s, q), n.now));
    }
  }

  /** What the scanner screen is told of a code: the status of the pass it stands for, unless that was replaced or its
      holder is not admitted. */
  lemma LookupMeans(s: Store, hash: Hash, status: PassStatus)
    ensures Lookup(s, hash) == Some(status) <==>
              && status != Replaced && hash in s.qrIndex && Linked(s, s.qrIndex[hash])
              && s.passes[s.qrIndex[hash]].status == status
              && Admitted(s, s.attendees[s.passes[s.qrIndex[hash]].attendee].application)
  {
  }
}
