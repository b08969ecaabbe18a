/** The invariants hold in every reachable state of every interleaving, and what follows from them over whole runs. */
module Reachable {
  import opened Domain
  import opened Protocol
  import opened Transactions
  import opened Specs
  import opened Machine
  import opened LedgerInvariants
  import opened PassInvariants
  import opened DecisionInvariants
  import opened RsvpInvariants

  ghost predicate StoreInv(s: Store) {
    && LedgerInv(s.ledger, s.redemptions, s.audits) && LimitInv(s) && SlugsIndexed(s.checkpoints, s.slugs)
    && PassInv(s) && DecisionInv(s) && RsvpInv(s)
  }

  /** A database in which nobody has been judged, admitted or scanned yet satisfies every invariant. */
  lemma FreshStoreIsSafe(s: Store)
    requires s.audits == [] && s.redemptions == [] && s.ledger == map[] && s.decisions == map[] && s.responses == map[]
    requires s.attendees == map[] && s.attendeeOf == map[] && s.passes == map[] && s.qrIndex == map[]
    requires s.overrides == map[]
    requires s.outbox == map[] && DefaultsLimited(s.checkpoints) && SlugsIndexed(s.checkpoints, s.slugs)
    requires forall app :: app in s.applications ==>
      s.applications[app].current.None? && s.applications[app].releasedAt.None?
          && !IsDecision(s.applications[app].status)
    ensures StoreInv(s)
  {
  }

  lemma CommitKeepsStore(c: Commit)
    requires Serial(c) && StoreInv(c.pre)
    ensures StoreInv(Post(c))
  {
    SerialApplicable(c);
    SerialSound(c);
    SerialPass(c);
    LedgerKept(c.pre, c.effect);
    LimitsKept(c);
    SlugsKept(c.pre, c.effect);
    PassesKept(c.pre, c.effect);
    DecisionsKept(c.pre, c.effect);
    RsvpsKept(c.pre, c.effect);
  }

  /** Every store along a serial history satisfies the invariants. */
  lemma {:induction false} HistoryKeeps(init: Store, history: seq<Commit>, last: Store, i: nat)
    requires SerialRun(init, history, last) && StoreInv(init) && i < |history|
    ensures StoreInv(history[i].pre) && StoreInv(Post(history[i]))
  {
    if i > 0 { HistoryKeeps(init, history, last, i - 1); }
    CommitKeepsStore(history[i]);
  }

  /** Safety of every interleaving: the committed store always satisfies all invariants. */
  lemma EveryStateIsSafe(run: seq<State>, i: nat)
    requires IsRun(run) && i < |run| && StoreInv(run[0].store)
    ensures StoreInv(run[i].store)
  {
    InterleavingsAreSerial(run, i);
    var history := run[i].history;
    if history != [] { HistoryKeeps(run[0].store, history, run[i].store, |history| - 1); }
  }

  // ---- Allowance over a run -----------------------------------------------------

  function Max(a: int, b: int): int {
    if a < b then b else a
  }

  /** The largest allowance of a pair in any store a transaction committed to. */
  function Peak(history: seq<Commit>, attendee: Id, checkpoint: Id): (n: int)
    ensures 0 <= n
  {
    if history == [] then 0
    else Max(Peak(history[..|history| - 1], attendee, checkpoint),
             Allowance(history[|history| - 1].pre, attendee, checkpoint))
  }

  lemma SerialPrefix(init: Store, history: seq<Commit>, last: Store)
    requires SerialRun(init, history, last) && history != []
    ensures SerialRun(init, history[..|history| - 1], history[|history| - 1].pre)
  {
  }

  /** However often passes are reissued and rules edited, a pair's redemptions never exceed what it started with or the
      largest allowance ever in force. */
  lemma {:induction false} UseIsBounded(init: Store, history: seq<Commit>, last: Store, attendee: Id, checkpoint: Id)
    requires SerialRun(init, history, last) && StoreInv(init)
    ensures Count(last.redemptions, attendee, checkpoint)
         <= Max(Count(init.redemptions, attendee, checkpoint), Peak(history, attendee, checkpoint))
  {
    if history != [] {
      var c := history[|history| - 1];
      SerialPrefix(init, history, last);
      UseIsBounded(init, history[..|history| - 1], c.pre, attendee, checkpoint);
      LastCounts(init, history, last, attendee, checkpoint);
    }
  }

  lemma LastCounts(init: Store, history: seq<Commit>, last: Store, attendee: Id, checkpoint: Id)
    requires SerialRun(init, history, last) && StoreInv(init) && history != []
    ensures var s := history[|history| - 1].pre;
            Count(last.redemptions, attendee, checkpoint)
            <= Max(Count(s.redemptions, attendee, checkpoint), Allowance(s, attendee, checkpoint))
  {
    var c := history[|history| - 1];
    HistoryKeeps(init, history, last, |history| - 1);
    SerialSound(c);
    CommitCounts(c.pre, c.effect, attendee, checkpoint);
  }

  lemma CommitCounts(s: Store, e: Effect, attendee: Id, checkpoint: Id)
    requires SoundScan(s, e)
    ensures Count(Apply(s, e).redemptions, attendee, checkpoint)
         <= Max(Count(s.redemptions, attendee, checkpoint), Allowance(s, attendee, checkpoint))
  {
    if e.LogScan? && e.entry.Some? {
      EntryCounts(s.redemptions, e.entry.value, Allowance(s, e.entry.value.attendee, e.entry.value.checkpoint),
                  attendee, checkpoint);
    } else {
      NoEntry(s, e);
    }
  }

  lemma NoEntry(s: Store, e: Effect)
    requires !(e.LogScan? && e.entry.Some?)
    ensures Apply(s, e).redemptions == s.redemptions
  {
  }

  lemma EntryCounts(rs: seq<Redemption>, r: Redemption, limit: int, attendee: Id, checkpoint: Id)
    requires Count(rs, r.attendee, r.checkpoint) + 1 <= limit
    ensures Count(rs + [r], attendee, checkpoint)
         <= (if r.attendee == attendee && r.checkpoint == checkpoint then limit else Count(rs, attendee, checkpoint))
  {
    CountAppend(rs, r, attendee, checkpoint);
  }

  /** The same, stated of the states of any interleaving. */
  lemma UseIsBoundedInRuns(run: seq<State>, i: nat, attendee: Id, checkpoint: Id)
    requires IsRun(run) && i < |run| && StoreInv(run[0].store)
    ensures Count(run[i].store.redemptions, attendee, checkpoint)
         <= Max(Count(run[0].store.redemptions, attendee, checkpoint), Peak(run[i].history, attendee, checkpoint))
  {
    InterleavingsAreSerial(run, i);
    UseIsBounded(run[0].store, run[i].history, run[i].store, attendee, checkpoint);
  }

  /** Every committed redemption was allowed, within the allowance in force at its commit, at an active checkpoint; its
      ordinal is the next one and fits the column. */
  lemma RedemptionsAreAllowed(run: seq<State>, i: nat, k: nat)
    requires IsRun(run) && i < |run| && StoreInv(run[0].store) && k < |run[i].history|
    requires run[i].history[k].effect.LogScan? && run[i].history[k].effect.entry.Some?
    ensures var c := run[i].history[k];
            var r := c.effect.entry.value;
            && r.checkpoint in c.pre.checkpoints && c.pre.checkpoints[r.checkpoint].active
            && EffectiveRule(c.pre, r.attendee, r.checkpoint).allowed
            && r.ordinal == Count(c.pre.redemptions, r.attendee, r.checkpoint) + 1
            && r.ordinal <= Allowance(c.pre, r.attendee, r.checkpoint) <= MAX_INT32
  {
    InterleavingsAreSerial(run, i);
    HistoryKeeps(run[0].store, run[i].history, run[i].store, k);
    var c := run[i].history[k];
    SerialSound(c);
    AllowanceFits(c.pre, c.effect.entry.value.attendee, c.effect.entry.value.checkpoint);
  }

  /** Every redemption committed in a run was due at its commit: an active pass of a visible acceptance, an active
      checkpoint of the holder's cycle that was open when the transaction began, and uses left. */
  lemma RedemptionsWereDue(run: seq<State>, i: nat, k: nat)
    requires IsRun(run) && i < |run| && k < |run[i].history|
    requires run[i].history[k].effect.LogScan? && run[i].history[k].effect.entry.Some?
    ensures var c := run[i].history[k];
            c.call.Redeem? && Due(c.pre, c.call.q, c.n.now, c.effect.entry.value)
  {
    InterleavingsAreSerial(run, i);
    RedemptionWasDue(run[i].history[k]);
  }

  // ---- Exactly once ---------------------------------------------------------------

  /** A committed redemption and the redeemed ledger row of its key determine each other, by key and by id, and each
      ledger row was audited exactly once. */
  lemma ExactlyOnce(s: Store, key: Id)
    requires StoreInv(s)
    ensures (key in s.ledger && s.ledger[key].outcome.Redeemed?)
       <==> (exists i :: 0 <= i < |s.redemptions| && s.redemptions[i].key == key)
    ensures forall i, j :: 0 <= i < j < |s.redemptions| ==>
      s.redemptions[i].key != s.redemptions[j].key && s.redemptions[i].id != s.redemptions[j].id
    ensures forall i :: 0 <= i < |s.redemptions| && s.redemptions[i].key == key ==>
      key in s.ledger && s.ledger[key].redemption == Some(s.redemptions[i].id)
    ensures Recorded(s.audits, key) == if key in s.ledger then 1 else 0
  {
  }

  predicate KeepsRow(st: State, st': State, key: Id) {
    key in st.store.ledger ==> key in st'.store.ledger && st'.store.ledger[key] == st.store.ledger[key]
  }

  lemma StepKeepsRow(run: seq<State>, i: nat, key: Id)
    requires IsRun(run) && i < |run| - 1
    ensures KeepsRow(run[i], run[i + 1], key)
  {
    if key in run[i].store.ledger {
      var e := RunStep(run, i);
      RowStays(run[i].store, e, key);
    }
  }

  lemma {:induction false} RowPersists(run: seq<State>, i: nat, j: nat, key: Id)
    requires i <= j < |run| && forall k :: i <= k < j ==> KeepsRow(run[k], run[k + 1], key)
    ensures KeepsRow(run[i], run[j], key)
    decreases j
  {
    if i < j { RowPersists(run, i, j - 1, key); }
  }

  /** A ledger row, once committed, is there unchanged in every later state. */
  lemma LedgerIsPermanent(run: seq<State>, i: nat, j: nat, key: Id)
    requires IsRun(run) && i <= j < |run| && key in run[i].store.ledger
    ensures key in run[j].store.ledger && run[j].store.ledger[key] == run[i].store.ledger[key]
  {
    forall k | i <= k < j ensures KeepsRow(run[k], run[k + 1], key) {
      StepKeepsRow(run, k, key);
    }
    RowPersists(run, i, j, key);
  }

  /** Decoding the row that a scan persists gives exactly the answer the scan returned. */
  lemma SnapshotRoundTrip(s: Store, q: RedeemInput, n: Attempt)
    requires q.key !in s.ledger && RedeemAtomically(s, q, n).Finish?
    ensures var done := RedeemAtomically(s, q, n);
            done.effect.LogScan? && done.reply == Scan(ResultFromRow(done.effect.row))
            && done.effect.row.checkpoint == q.checkpoint && done.effect.row.hash == q.hash
  {
  }

  /** A replay with the key of an answered scan returns the stored answer for the same checkpoint and hash, a conflict
      for any other, and writes nothing, whatever was edited since. */
  lemma ReplayIsStable(run: seq<State>, i: nat, j: nat, q: RedeemInput, n: Attempt)
    requires IsRun(run) && i <= j < |run| && q.key in run[i].store.ledger
    ensures var row := run[i].store.ledger[q.key];
            RedeemAtomically(run[j].store, q, n)
            == if row.checkpoint == q.checkpoint && row.hash == q.hash then Finish(Nothing, Scan(ResultFromRow(row)))
               else Fail(IdempotencyConflict)
  {
    LedgerIsPermanent(run, i, j, q.key);
  }

  // ---- The pass gate -----------------------------------------------------------------

  /** Every pass ever inserted was inserted while its attendee's current released acceptance was confirmed. */
  lemma PassesWereConfirmed(run: seq<State>, i: nat, k: nat)
    requires IsRun(run) && i < |run| && k < |run[i].history|
    requires run[i].history[k].effect.AddPass? || run[i].history[k].effect.SwapPass?
    ensures Gate(run[i].history[k].pre, run[i].history[k].effect.made.attendee)
  {
    InterleavingsAreSerial(run, i);
    SerialPass(run[i].history[k]);
  }

  /** In every reachable state an attendee has at most one active pass, and from any pass the successor links lead to
      a pass of the same attendee that is active or revoked. */
  lemma PassesLeadToAnEnd(run: seq<State>, i: nat, p: Id)
    requires IsRun(run) && i < |run| && StoreInv(run[0].store) && p in run[i].store.passes
    ensures var s := run[i].store;
            && Line(s.passes, Issued(s.audits))
            && var last := Current(s.passes, Issued(s.audits), p);
            && last in s.passes && s.passes[last].attendee == s.passes[p].attendee && !s.passes[last].status.Replaced?
            && (s.passes[p].status.Active? ==>
                  forall q :: q in s.passes && s.passes[q].attendee == s.passes[p].attendee ==>
                    s.passes[q].status.Active? ==> q == p)
  {
    EveryStateIsSafe(run, i);
  }

  predicate KeepsEnd(st: State, st': State, p: Id) {
    p in st.store.passes && !st.store.passes[p].status.Active? ==>
        p in st'.store.passes && st'.store.passes[p] == st.store.passes[p]
  }

  lemma StepKeepsEnd(run: seq<State>, i: nat, p: Id)
    requires IsRun(run) && i < |run| - 1
    ensures KeepsEnd(run[i], run[i + 1], p)
  {
    if p in run[i].store.passes && !run[i].store.passes[p].status.Active? {
      var e := RunStep(run, i);
      EndIsTerminal(run[i].store, e, p);
    }
  }

  lemma {:induction false} EndPersists(run: seq<State>, i: nat, j: nat, p: Id)
    requires i <= j < |run| && forall k :: i <= k < j ==> KeepsEnd(run[k], run[k + 1], p)
    ensures KeepsEnd(run[i], run[j], p)
    decreases j
  {
    if i < j { EndPersists(run, i, j - 1, p); }
  }

  /** A revoked or replaced pass stays exactly as it is for the rest of the run. */
  lemma EndedPassesStay(run: seq<State>, i: nat, j: nat, p: Id)
    requires IsRun(run) && i <= j < |run| && p in run[i].store.passes && !run[i].store.passes[p].status.Active?
    ensures p in run[j].store.passes && run[j].store.passes[p] == run[i].store.passes[p]
  {
    forall k | i <= k < j ensures KeepsEnd(run[k], run[k + 1], p) {
      StepKeepsEnd(run, k, p);
    }
    EndPersists(run, i, j, p);
  }

  // ---- Decisions and responses --------------------------------------------------------------

  /** In every reachable state an application's decisions form one line that ends at its current decision, the row
      caches that decision's outcome and release, it has its one attendee exactly if some decision accepted it, and
      each of its decisions has a release email exactly if it is released. */
  lemma DecisionsAreCached(run: seq<State>, i: nat, app: Id)
    requires IsRun(run) && i < |run| && StoreInv(run[0].store) && app in run[i].store.applications
    ensures var s := run[i].store;
            var chain := Chain(s.audits, app);
            && Linear(s.decisions, chain, app) && Caches(s.applications[app], s.decisions, chain)
            && (app in s.attendeeOf <==> EverAccepted(s.decisions, chain))
            && (forall a :: a in s.attendees && s.attendees[a].application == app ==> Get(s.attendeeOf, app) == Some(a))
            && (forall d :: d in s.decisions && s.decisions[d].application == app ==>
                  d in chain && (DecisionReleaseEmail(d) in s.outbox <==> s.decisions[d].releasedAt.Some?))
  {
    EveryStateIsSafe(run, i);
  }

  /** The stored response of a projection, if any, confirms. */
  predicate ConfirmedIn(stored: Option<Response>) {
    stored.Some? && stored.value.status.Confirmed?
  }

  /** In every reachable state the three tests for a released acceptance agree: the cached one, the pass gate's and
      the RSVP projection's, which add the response to it. */
  lemma EligibilityAgrees(run: seq<State>, i: nat, app: Id)
    requires IsRun(run) && i < |run| && StoreInv(run[0].store) && app in run[i].store.applications
    ensures var s := run[i].store;
            && (Visible(s.applications[app]) <==> Project(s, app).Some?)
            && (IsConfirmed(s, app) <==> Project(s, app).Some? && ConfirmedIn(Project(s, app).value))
            && (Visible(s.applications[app]) ==> app in s.attendeeOf)
  {
    EveryStateIsSafe(run, i);
    EligibilityOf(run[i].store, app);
  }

  lemma EligibilityOf(s: Store, app: Id)
    requires DecisionInv(s) && app in s.applications
    ensures Visible(s.applications[app]) <==> Project(s, app).Some?
    ensures IsConfirmed(s, app)
            <==> Project(s, app).Some? && ConfirmedIn(Project(s, app).value)
    ensures Visible(s.applications[app]) ==> app in s.attendeeOf
  {
    CacheAgrees(s, app);
    if Visible(s.applications[app]) { VisibleHasAttendee(s, app); }
  }

  /** In every reachable state the answers ever given to a decision alternate, count 1, 2, 3, and end in the stored
      response. */
  lemma AnswersAlternate(run: seq<State>, i: nat, decision: Id)
    requires IsRun(run) && i < |run| && StoreInv(run[0].store)
    ensures var s := run[i].store;
            Alternating(Answers(s.audits, decision)) && Latest(s.responses, decision, Answers(s.audits, decision))
  {
    EveryStateIsSafe(run, i);
  }

  // ---- Lookup --------------------------------------------------------------------------

  /** Resolves an attendee QR for the scanner screen: an active or revoked pass of a visible acceptance. */
  function Lookup(s: Store, hash: Hash): Option<PassStatus> {
    if hash in s.qrIndex && Linked(s, s.qrIndex[hash]) && Eligible(s, s.qrIndex[hash])
       && !s.passes[s.qrIndex[hash]].status.Replaced?
    then Some(s.passes[s.qrIndex[hash]].status) else None
  }

  lemma PassesAreLinked(s: Store, pass: Id)
    requires StoreInv(s) && pass in s.passes
    ensures Linked(s, pass)
  {
    var a := s.passes[pass].attendee;
    var app := s.attendees[a].application;
    assert app in s.attendeeOf;
    assert EverAccepted(s.decisions, Chain(s.audits, app));
    assert Linear(s.decisions, Chain(s.audits, app), app);
  }

  lemma ScanOutcome(s: Store, q: RedeemInput, n: Attempt)
    requires q.validQR && q.key !in s.ledger && q.checkpoint in s.checkpoints
    requires q.hash in s.qrIndex ==> Linked(s, s.qrIndex[q.hash])
    requires !HasRedemption(s.redemptions, n.redemption)
    ensures var claim := JudgeScan(s, q, Get(s.qrIndex, q.hash), n.now);
            RedeemAtomically(s, q, n) == Finish(ScanEffect(q, n, s.checkpoints[q.checkpoint], claim),
                                                Scan(ScanResult(q, n, s.checkpoints[q.checkpoint], claim)))
  {
  }

  lemma LookupAgreesWithJudge(s: Store, c: Id, pass: Id, hash: Hash, now: Time)
    requires c in s.checkpoints && Linked(s, pass) && Get(s.qrIndex, hash) == Some(pass)
    ensures var claim := Judge(s, c, pass, now);
            && (Lookup(s, hash) == None <==> claim.outcome.InvalidPass?)
            && (Lookup(s, hash) == Some(Revoked) <==> claim.outcome.RevokedPass?)
            && (claim.outcome.InvalidPass? <==> claim.pass.None?)
            && (claim.pass.Some? ==> Lookup(s, hash) == Some(claim.pass.value.status))
  {
  }

  /** What the scanner screen shows is what a fresh scan in the same state meets: nothing exactly when the scan is
      invalid_pass, a revoked pass exactly when it is revoked_pass, an active one exactly when it gets past the pass. */
  lemma LookupAgreesWithScan(s: Store, q: RedeemInput, n: Attempt)
    requires StoreInv(s) && q.validQR && q.key !in s.ledger && q.checkpoint in s.checkpoints
    requires !HasRedemption(s.redemptions, n.redemption)
    ensures var done := RedeemAtomically(s, q, n);
            && done.Finish? && done.reply.Scan?
            && (Lookup(s, q.hash) == None <==> done.reply.result.outcome.InvalidPass?)
            && (Lookup(s, q.hash) == Some(Revoked) <==> done.reply.result.outcome.RevokedPass?)
            && (Lookup(s, q.hash) == Some(Active) <==> done.reply.result.pass == Some(Active))
  {
    if q.hash in s.qrIndex { PassesAreLinked(s, s.qrIndex[q.hash]); }
    ScanOutcome(s, q, n);
    if q.hash in s.qrIndex {
      LookupAgreesWithJudge(s, q.checkpoint, s.qrIndex[q.hash], q.hash, n.now);
    }
  }
}
