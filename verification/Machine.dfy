/** Interleaved transactions over one committed store. A session logs every access it was granted and the value it
    saw; its locks are those the log acquired, held until it commits or aborts. Every interleaving is equivalent to
    running the committed transactions one after another, each atomically at its commit. */
module Machine {
  import opened Domain
  import opened Protocol
  import opened Transactions
  import opened Specs
  import opened Discipline

  const TRANSACTION_RETRIES := 3

  datatype Entry = Entry(access: Access, view: View)

  datatype Session = Session(call: Call, n: Attempt, next: Next, log: seq<Entry>, tries: nat, keyClashes: nat,
                             idClashes: nat)

  datatype Commit = Commit(call: Call, n: Attempt, effect: Effect, reply: Reply, pre: Store)

  datatype State = State(store: Store, sessions: map<Id, Session>, history: seq<Commit>)

  function Held(log: seq<Entry>): set<Lock> {
    if log == [] then {}
    else
      var last := log[|log| - 1];
      Held(log[..|log| - 1]) + Acquired(last.access, last.view)
  }

  // ---- Steps ------------------------------------------------------------------

  ghost predicate Init(st: State) {
    st.sessions == map[] && st.history == []
  }

  predicate Starts(st: State, st': State, id: Id, call: Call, n: Attempt) {
    && id !in st.sessions
    && st' == st.(sessions := st.sessions[id := Session(call, n, Begin(call, n), [], 1, 0, 0)])
  }

  /** A lock is granted once no other session holds an incompatible one; a statement that locks nothing never waits. */
  predicate Granted(st: State, id: Id, locks: set<Lock>) {
    forall other :: other in st.sessions && other != id ==> Compatible(locks, Held(st.sessions[other].log))
  }

  ghost predicate Advances(st: State, st': State, id: Id) {
    && id in st.sessions && st.sessions[id].next.Run?
    && var x := st.sessions[id];
    var a := Wants(x.next.tx);
    var v := Look(st.store, a.res);
    && Granted(st, id, Acquired(a, v))
    && st' == st.(sessions := st.sessions[id := x.(next := Resume(x.next.tx, v), log := x.log + [Entry(a, v)])])
  }

  predicate Commits(st: State, st': State, id: Id) {
    && id in st.sessions && st.sessions[id].next.Finish?
    && var x := st.sessions[id];
    st' == State(Apply(st.store, x.next.effect), st.sessions - {id},
                 st.history + [Commit(x.call, x.n, x.next.effect, x.next.reply, st.store)])
  }

  /** An error, a timeout, a lost connection or a deadlock victim: the locks go and nothing was written. */
  predicate Aborts(st: State, st': State, id: Id) {
    id in st.sessions && st' == st.(sessions := st.sessions - {id})
  }

  /** The last statement run was the insertion of the ledger row. */
  predicate AtKey(x: Session) {
    x.log != [] && x.log[|x.log| - 1].access.res.KeySlot?
  }

  /** A unique violation rolls the attempt back and starts a new transaction, a bounded number of times. */
  predicate Retries(st: State, st': State, id: Id, n: Attempt) {
    && id in st.sessions && st.sessions[id].next.Again? && st.sessions[id].tries < TRANSACTION_RETRIES
    && var x := st.sessions[id];
    st' == st.(sessions := st.sessions[id :=
      Session(x.call, n, Begin(x.call, n), [], x.tries + 1,
              if AtKey(x) then x.keyClashes + 1 else x.keyClashes, if AtKey(x) then x.idClashes else x.idClashes + 1)])
  }

  ghost predicate Moves(st: State, st': State) {
    || (exists id, call, n :: Starts(st, st', id, call, n))
    || (exists id :: Advances(st, st', id))
    || (exists id :: Commits(st, st', id))
    || (exists id :: Aborts(st, st', id))
    || (exists id, n :: Retries(st, st', id, n))
  }

  /** A run: every state follows from the one before by one step of one session. */
  ghost predicate IsRun(run: seq<State>) {
    && |run| > 0 && Init(run[0])
    && forall i :: 0 <= i < |run| - 1 ==> Moves(run[i], run[i + 1])
  }

  // ---- Serial histories ---------------------------------------------------------

  /** The store as a transaction saw it that looked up a QR hash before the pass carrying it was committed. */
  function Blind(s: Store, hash: Hash): Store {
    s.(qrIndex := s.qrIndex - {hash})
  }

  ghost predicate Stale(c: Commit) {
    && c.call.Redeem? && c.call.q.validQR && c.call.q.hash in c.pre.qrIndex
    && Atomically(Blind(c.pre, c.call.q.hash), c.call, c.n) == Finish(c.effect, c.reply)
  }

  /** A committed transaction did exactly what an atomic run at its commit does, save for a scan of a hash that was
      still unknown when it was looked up. */
  ghost predicate Serial(c: Commit) {
    Atomically(c.pre, c.call, c.n) == Finish(c.effect, c.reply) || Stale(c)
  }

  function Post(c: Commit): Store {
    Apply(c.pre, c.effect)
  }

  /** From one store to another by committed transactions, one after another. */
  ghost predicate SerialRun(init: Store, history: seq<Commit>, last: Store) {
    && (forall i :: 0 <= i < |history| ==> Serial(history[i]))
    && (forall i :: 0 < i < |history| ==> history[i].pre == Post(history[i - 1]))
    && (if history == [] then last == init else history[0].pre == init && last == Post(history[|history| - 1]))
  }

  // ---- The invariant ---------------------------------------------------------------

  function Replay(n0: Next, log: seq<Entry>): Next {
    if log == [] then n0
    else
      var before := Replay(n0, log[..|log| - 1]);
      if before.Run? then Resume(before.tx, log[|log| - 1].view) else before
  }

  predicate Matched(n0: Next, log: seq<Entry>) {
    log == [] ||
    var before := Replay(n0, log[..|log| - 1]);
    && Matched(n0, log[..|log| - 1])
    && before.Run? && Wants(before.tx) == log[|log| - 1].access
  }

  /** What a session saw is still so, for as long as its locks are held. */
  ghost predicate StillTrue(s: Store, e: Entry, held: set<Lock>) {
    var r := e.access.res;
    if Snapshot(r) then
      if Found(e.view) then Look(s, r) == e.view else e.view == Absent(r)
    else Look(s, r) == e.view && Guarded(held, Cover(r))
  }

  predicate Shaped(x: Session) {
    && (forall i :: 0 <= i < |x.log| && (x.log[i].access.res.KeySlot? || x.log[i].access.res.RedemptionSlot?)
                    ==> x.log[i].access.mode.Insert?)
    && (x.call.Redeem? ==>
          && (x.next.Run? ==> x.next.tx.Redeeming? && x.next.tx.q == x.call.q)
          && (x.next.Finish?
              ==> x.next.effect.Nothing? || (x.next.effect.LogScan? && x.next.effect.row.hash == x.call.q.hash))
          && forall i :: 0 <= i < |x.log| ==> !x.log[i].access.res.HashSlot?)
    && (!x.call.Redeem? ==> (x.next.Run? ==> !x.next.tx.Redeeming?) && (x.next.Finish? ==> !x.next.effect.LogScan?))
  }

  ghost predicate SessionOk(s: Store, x: Session) {
    && Shaped(x)
    && (Alive(x.next) ==>
          && Matched(Begin(x.call, x.n), x.log) && Replay(Begin(x.call, x.n), x.log) == x.next
          && (forall i :: 0 <= i < |x.log| ==> StillTrue(s, x.log[i], Held(x.log)))
          && (forall i :: 0 <= i < |x.log| && Snapshot(x.log[i].access.res) && !Found(x.log[i].view)
                ==> x.log[i].access.res in Assumed(x.next))
          && Locked(x.next) <= Held(x.log))
  }

  ghost predicate Exclusion(st: State) {
    forall i, j :: i in st.sessions && j in st.sessions && i != j
      ==> Compatible(Held(st.sessions[i].log), Held(st.sessions[j].log))
  }

  ghost predicate Inv(init: Store, st: State) {
    && (forall id :: id in st.sessions ==> SessionOk(st.store, st.sessions[id]))
    && Exclusion(st)
    && SerialRun(init, st.history, st.store)
  }

  // ---- Logs ---------------------------------------------------------------------------

  lemma Extend(n0: Next, log: seq<Entry>, e: Entry)
    ensures Held(log + [e]) == Held(log) + Acquired(e.access, e.view)
    ensures Replay(n0, log + [e]) == (var m := Replay(n0, log); if m.Run? then Resume(m.tx, e.view) else m)
    ensures Matched(n0, log + [e])
            <==> Matched(n0, log) && Replay(n0, log).Run? && Wants(Replay(n0, log).tx) == e.access
  {
    assert (log + [e])[..|log|] == log;
  }

  /** If all that a session saw is what a store holds, running alone on that store from the start leads where it is
      now. */
  lemma {:induction false} AloneReplays(s: Store, n0: Next, log: seq<Entry>)
    requires Matched(n0, log) && forall i :: 0 <= i < |log| ==> Look(s, log[i].access.res) == log[i].view
    ensures Alone(s, n0) == Alone(s, Replay(n0, log))
  {
    if log != [] {
      AloneReplays(s, n0, log[..|log| - 1]);
    }
  }

  lemma {:induction false} HeldFrom(log: seq<Entry>, l: Lock) returns (i: nat)
    requires l in Held(log)
    ensures i < |log| && l in Acquired(log[i].access, log[i].view)
  {
    if l in Acquired(log[|log| - 1].access, log[|log| - 1].view) {
      i := |log| - 1;
    } else {
      i := HeldFrom(log[..|log| - 1], l);
    }
  }

  // ---- Each step keeps the invariant -----------------------------------------------------

  lemma AdvanceShaped(x: Session, v: View)
    requires Shaped(x) && x.next.Run?
    ensures Shaped(x.(next := Resume(x.next.tx, v), log := x.log + [Entry(Wants(x.next.tx), v)]))
  {
    var tx := x.next.tx;
    WantsShaped(tx, v);
  }

  lemma WantsShaped(tx: Tx, v: View)
    ensures Wants(tx).res.KeySlot? || Wants(tx).res.RedemptionSlot? ==> Wants(tx).mode.Insert?
    ensures tx.Redeeming? ==> !Wants(tx).res.HashSlot?
    ensures var next := Resume(tx, v);
            && (tx.Redeeming? && next.Run? ==> next.tx.Redeeming? && next.tx.q == tx.q)
            && (tx.Redeeming? && next.Finish? ==>
                  next.effect.Nothing? || (next.effect.LogScan? && next.effect.row.hash == tx.q.hash))
            && (!tx.Redeeming? ==> (next.Run? ==> !next.tx.Redeeming?) && (next.Finish? ==> !next.effect.LogScan?))
  {
  }

  lemma LookTyped(s: Store, r: Resource)
    requires Snapshot(r) && !Found(Look(s, r))
    ensures Look(s, r) == Absent(r)
  {
  }

  lemma AdvanceSession(s: Store, x: Session)
    requires SessionOk(s, x) && x.next.Run?
    ensures var a := Wants(x.next.tx);
            var v := Look(s, a.res);
            SessionOk(s, x.(next := Resume(x.next.tx, v), log := x.log + [Entry(a, v)]))
  {
    var a := Wants(x.next.tx);
    var v := Look(s, a.res);
    var x' := x.(next := Resume(x.next.tx, v), log := x.log + [Entry(a, v)]);
    AdvanceShaped(x, v);
    if Alive(x'.next) {
      Extend(Begin(x.call, x.n), x.log, Entry(a, v));
      StepDisciplined(x.next.tx, v);
      forall i | 0 <= i < |x'.log| ensures StillTrue(s, x'.log[i], Held(x'.log)) {
        if i < |x.log| {
          assert StillTrue(s, x.log[i], Held(x.log));
        } else if Snapshot(a.res) && !Found(v) {
          LookTyped(s, a.res);
        }
      }
    }
  }

  lemma CompatibleUnion(h: set<Lock>, more: set<Lock>, other: set<Lock>)
    requires Compatible(h, other) && Compatible(more, other)
    ensures Compatible(h + more, other) && Compatible(other, h + more)
  {
  }

  /** Replacing one session keeps exclusion if the new one is compatible with all others. */
  lemma ReplaceExclusion(st: State, id: Id, x: Session)
    requires Exclusion(st)
    requires forall i :: i in st.sessions && i != id
               ==> Compatible(Held(x.log), Held(st.sessions[i].log))
                   && Compatible(Held(st.sessions[i].log), Held(x.log))
    ensures Exclusion(st.(sessions := st.sessions[id := x]))
  {
    var st' := st.(sessions := st.sessions[id := x]);
    forall i, j | i in st'.sessions && j in st'.sessions && i != j
      ensures Compatible(Held(st'.sessions[i].log), Held(st'.sessions[j].log))
    {
      if i == id {
        assert j in st.sessions;
      } else if j == id {
        assert i in st.sessions;
      } else {
        assert i in st.sessions && j in st.sessions;
      }
    }
  }

  lemma AdvanceExclusion(st: State, st': State, id: Id)
    requires Exclusion(st) && Advances(st, st', id)
    ensures Exclusion(st')
  {
    var x := st.sessions[id];
    var e := Entry(Wants(x.next.tx), Look(st.store, Wants(x.next.tx).res));
    Extend(x.next, x.log, e);
    forall i | i in st.sessions && i != id
      ensures Compatible(Held(st'.sessions[id].log), Held(st.sessions[i].log))
      ensures Compatible(Held(st.sessions[i].log), Held(st'.sessions[id].log))
    {
      CompatibleUnion(Held(x.log), Acquired(e.access, e.view), Held(st.sessions[i].log));
    }
    ReplaceExclusion(st, id, st'.sessions[id]);
  }

  /** Another transaction's commit cannot change what a session saw under its locks. */
  lemma EntrySurvives(s: Store, e: Effect, entry: Entry, held: set<Lock>, other: set<Lock>)
    requires StillTrue(s, entry, held) && Applicable(s, e) && WriteLocks(e) <= other && Compatible(held, other)
    ensures StillTrue(Apply(s, e), entry, held)
  {
    var r := entry.access.res;
    if Snapshot(r) {
      if Found(entry.view) { FoundForever(s, e, r); }
    } else {
      if Touches(e, r) {
        TouchesNeedLock(e, r);
        assert false;
      }
      ApplyElsewhere(s, e, r);
    }
  }

  lemma SessionSurvives(s: Store, e: Effect, x: Session, other: set<Lock>)
    requires SessionOk(s, x) && Applicable(s, e) && WriteLocks(e) <= other && Compatible(Held(x.log), other)
    ensures SessionOk(Apply(s, e), x)
  {
    if Alive(x.next) {
      forall i | 0 <= i < |x.log| ensures StillTrue(Apply(s, e), x.log[i], Held(x.log)) {
        EntrySurvives(s, e, x.log[i], Held(x.log), other);
      }
    }
  }

  // ---- At commit, the log is an atomic run ------------------------------------------------

  lemma KeyStillFree(s: Store, x: Session, k: Id)
    requires SessionOk(s, x) && Alive(x.next) && Lock(KeySlot(k), false) in Held(x.log)
    ensures k !in s.ledger
  {
    var i := HeldFrom(x.log, Lock(KeySlot(k), false));
    assert x.log[i].access.res == KeySlot(k) && x.log[i].access.mode.Insert?;
    assert StillTrue(s, x.log[i], Held(x.log));
  }

  /** The store in which everything the session saw is true at its commit. */
  ghost function Witness(s: Store, x: Session): Store {
    if x.call.Redeem? && exists i :: 0 <= i < |x.log| && x.log[i].access.res.HashIndex? && !Found(x.log[i].view)
    then Blind(s, x.call.q.hash) else s
  }

  lemma BlindLook(s: Store, hash: Hash, r: Resource)
    requires r != HashIndex(hash) && r != HashSlot(hash)
    ensures Look(Blind(s, hash), r) == Look(s, r)
  {
  }

  lemma MissedHash(s: Store, x: Session, i: nat)
    requires SessionOk(s, x) && x.next.Finish? && i < |x.log|
    requires x.log[i].access.res.HashIndex? && !Found(x.log[i].view)
    ensures x.call.Redeem? && x.log[i].access.res == HashIndex(x.call.q.hash)
    ensures Look(Blind(s, x.call.q.hash), x.log[i].access.res) == x.log[i].view
  {
    assert x.log[i].access.res in Assumed(x.next);
    assert StillTrue(s, x.log[i], Held(x.log));
  }

  lemma EntryWitnessed(s: Store, x: Session, i: nat)
    requires SessionOk(s, x) && x.next.Finish? && i < |x.log|
    requires !(x.log[i].access.res.HashIndex? && !Found(x.log[i].view))
    ensures Look(s, x.log[i].access.res) == x.log[i].view
  {
    var r := x.log[i].access.res;
    assert StillTrue(s, x.log[i], Held(x.log));
    if Snapshot(r) && !Found(x.log[i].view) {
      assert r in Assumed(x.next);
      assert x.next.effect.LogScan? && r == KeyRow(x.next.effect.key);
      assert Lock(KeySlot(x.next.effect.key), false) in Locked(x.next);
      KeyStillFree(s, x, x.next.effect.key);
    }
  }

  lemma FoundBlind(s: Store, x: Session, i: nat, j: nat)
    requires SessionOk(s, x) && x.next.Finish? && i < |x.log| && j < |x.log|
    requires x.log[j].access.res.HashIndex? && !Found(x.log[j].view)
    requires Matched(Begin(x.call, x.n), x.log)
    ensures x.log[i].access.res == HashIndex(x.call.q.hash) ==> !Found(x.log[i].view)
  {
    MissedHash(s, x, j);
    if x.log[i].access.res == HashIndex(x.call.q.hash) {
      OneLookup(x, x.log);
    }
  }

  /** The scan has not looked its hash up yet. */
  predicate BeforeHash(tx: Tx) {
    tx.Redeeming? && (tx.rp.RFind? || tx.rp.RCheckpoint? || tx.rp.RHash?)
  }

  predicate LooksOnce(log: seq<Entry>) {
    forall i, j :: 0 <= i < |log| && 0 <= j < |log| ==>
      log[i].access.res.HashIndex? && log[j].access.res.HashIndex? ==> i == j
  }

  predicate NoLook(log: seq<Entry>) {
    forall i :: 0 <= i < |log| ==> !log[i].access.res.HashIndex?
  }

  lemma LookupOnce(tx: Tx, v: View)
    requires tx.Redeeming?
    ensures Wants(tx).res.HashIndex? <==> tx.rp.RHash?
    ensures var next := Resume(tx, v);
            next.Run? && BeforeHash(next.tx) ==> tx.rp.RFind? || tx.rp.RCheckpoint?
  {
  }

  lemma LookAppended(log: seq<Entry>, e: Entry)
    requires LooksOnce(log) && (e.access.res.HashIndex? ==> NoLook(log))
    ensures LooksOnce(log + [e])
    ensures NoLook(log) && !e.access.res.HashIndex? ==> NoLook(log + [e])
  {
  }

  /** A scan looks its hash up once. */
  lemma {:induction false} OneLookup(x: Session, log: seq<Entry>)
    requires x.call.Redeem? && Matched(Begin(x.call, x.n), log)
    ensures var at := Replay(Begin(x.call, x.n), log);
            (at.Run? ==> at.tx.Redeeming?) && (at.Run? && BeforeHash(at.tx) ==> NoLook(log))
    ensures LooksOnce(log)
  {
    if log != [] {
      var init, last := log[..|log| - 1], log[|log| - 1];
      OneLookup(x, init);
      var before := Replay(Begin(x.call, x.n), init);
      WantsShaped(before.tx, last.view);
      LookupOnce(before.tx, last.view);
      LookAppended(init, last);
      assert log == init + [last];
    }
  }

  lemma LogWitnessed(s: Store, x: Session)
    requires SessionOk(s, x) && x.next.Finish?
    ensures forall i :: 0 <= i < |x.log| ==> Look(Witness(s, x), x.log[i].access.res) == x.log[i].view
  {
    forall i | 0 <= i < |x.log| ensures Look(Witness(s, x), x.log[i].access.res) == x.log[i].view {
      var r := x.log[i].access.res;
      if r.HashIndex? && !Found(x.log[i].view) {
        MissedHash(s, x, i);
      } else {
        EntryWitnessed(s, x, i);
        if Witness(s, x) != s {
          var j :| 0 <= j < |x.log| && x.log[j].access.res.HashIndex? && !Found(x.log[j].view);
          FoundBlind(s, x, i, j);
          BlindLook(s, x.call.q.hash, r);
        }
      }
    }
  }

  /** Refinement of one commit: what the session does is what an atomic run at this moment does. */
  lemma CommitIsSerial(s: Store, x: Session)
    requires SessionOk(s, x) && x.next.Finish?
    ensures Serial(Commit(x.call, x.n, x.next.effect, x.next.reply, s))
    ensures Applicable(s, x.next.effect)
  {
    var w := Witness(s, x);
    LogWitnessed(s, x);
    AloneReplays(w, Begin(x.call, x.n), x.log);
    AloneIsAtomic(w, x.call, x.n);
    AtomicallyApplicable(w, x.call, x.n);
    if w != s { BlindCommit(s, x); }
  }

  lemma BlindNothing(s: Store, hash: Hash)
    requires hash !in s.qrIndex
    ensures Blind(s, hash) == s
  {
    assert s.qrIndex - {hash} == s.qrIndex;
  }

  lemma BlindCommit(s: Store, x: Session)
    requires Shaped(x) && x.next.Finish? && x.call.Redeem?
    requires Blind(s, x.call.q.hash) != s
    requires Atomically(Blind(s, x.call.q.hash), x.call, x.n) == x.next
    requires Applicable(Blind(s, x.call.q.hash), x.next.effect)
    ensures Serial(Commit(x.call, x.n, x.next.effect, x.next.reply, s)) && Applicable(s, x.next.effect)
  {
    var hash := x.call.q.hash;
    assert hash in s.qrIndex by {
      if hash !in s.qrIndex { BlindNothing(s, hash); }
    }
    if !x.call.q.validQR {
      assert RedeemAtomically(Blind(s, hash), x.call.q, x.n) == RedeemAtomically(s, x.call.q, x.n);
    }
  }

  // ---- The invariant holds in every run -----------------------------------------------------

  lemma ExtendSerialRun(init: Store, history: seq<Commit>, c: Commit)
    requires SerialRun(init, history, c.pre) && Serial(c)
    ensures SerialRun(init, history + [c], Post(c))
  {
    var all := history + [c];
    forall i | 0 <= i < |all| ensures Serial(all[i]) {
      assert i < |history| ==> all[i] == history[i];
    }
    forall i | 0 < i < |all| ensures all[i].pre == Post(all[i - 1]) {
      assert all[i - 1] == history[i - 1];
      if i < |history| { assert all[i] == history[i]; }
    }
  }

  /** Dropping a session frees its locks and disturbs no other. */
  lemma DropExclusion(st: State, st': State, id: Id)
    requires Exclusion(st) && st'.sessions == st.sessions - {id}
    ensures Exclusion(st')
  {
    forall i, j | i in st'.sessions && j in st'.sessions && i != j
      ensures Compatible(Held(st'.sessions[i].log), Held(st'.sessions[j].log))
    {
      assert st'.sessions[i] == st.sessions[i] && st'.sessions[j] == st.sessions[j];
    }
  }

  lemma CommitSessions(st: State, st': State, id: Id)
    requires Exclusion(st) && Commits(st, st', id)
    requires forall i :: i in st.sessions ==> SessionOk(st.store, st.sessions[i])
    ensures forall i :: i in st'.sessions ==> SessionOk(st'.store, st'.sessions[i])
  {
    var x := st.sessions[id];
    CommitIsSerial(st.store, x);
    forall i | i in st'.sessions ensures SessionOk(st'.store, st'.sessions[i]) {
      assert Compatible(Held(st.sessions[i].log), Held(x.log));
      SessionSurvives(st.store, x.next.effect, st.sessions[i], Held(x.log));
    }
  }

  lemma CommitKeeps(init: Store, st: State, st': State, id: Id)
    requires Inv(init, st) && Commits(st, st', id)
    ensures Inv(init, st')
  {
    var x := st.sessions[id];
    CommitSessions(st, st', id);
    CommitIsSerial(st.store, x);
    ExtendSerialRun(init, st.history, Commit(x.call, x.n, x.next.effect, x.next.reply, st.store));
    DropExclusion(st, st', id);
  }

  lemma AdvanceKeeps(init: Store, st: State, st': State, id: Id)
    requires Inv(init, st) && Advances(st, st', id)
    ensures Inv(init, st')
  {
    AdvanceSession(st.store, st.sessions[id]);
    AdvanceExclusion(st, st', id);
    forall i | i in st'.sessions ensures SessionOk(st'.store, st'.sessions[i]) {
      assert i != id ==> st'.sessions[i] == st.sessions[i];
    }
  }

  lemma BeginOk(s: Store, x: Session)
    requires x.log == [] && x.next == Begin(x.call, x.n)
    ensures SessionOk(s, x) && Held(x.log) == {}
  {
    BeginDisciplined(x.call, x.n);
  }

  lemma BeginKeeps(init: Store, st: State, st': State, id: Id, x: Session)
    requires Inv(init, st) && x.log == [] && x.next == Begin(x.call, x.n)
    requires st' == st.(sessions := st.sessions[id := x])
    ensures Inv(init, st')
  {
    BeginOk(st.store, x);
    ReplaceExclusion(st, id, x);
    forall i | i in st'.sessions ensures SessionOk(st'.store, st'.sessions[i]) {
      assert i != id ==> st'.sessions[i] == st.sessions[i];
    }
  }

  lemma MoveKeeps(init: Store, st: State, st': State)
    requires Inv(init, st) && Moves(st, st')
    ensures Inv(init, st')
  {
    if id, call, n :| Starts(st, st', id, call, n) {
      BeginKeeps(init, st, st', id, st'.sessions[id]);
    } else if id :| Advances(st, st', id) {
      AdvanceKeeps(init, st, st', id);
    } else if id :| Commits(st, st', id) {
      CommitKeeps(init, st, st', id);
    } else if id :| Aborts(st, st', id) {
      DropExclusion(st, st', id);
      forall i | i in st'.sessions ensures SessionOk(st'.store, st'.sessions[i]) {
        assert st'.sessions[i] == st.sessions[i];
      }
    } else {
      var id, n :| Retries(st, st', id, n);
      BeginKeeps(init, st, st', id, st'.sessions[id]);
    }
  }

  lemma {:induction false} RunKeeps(run: seq<State>, i: nat)
    requires IsRun(run) && i < |run|
    ensures Inv(run[0].store, run[i])
  {
    if i > 0 {
      RunKeeps(run, i - 1);
      MoveKeeps(run[0].store, run[i - 1], run[i]);
    }
  }

  /** One step of a run changes the store by one meaningful effect, or not at all. */
  lemma RunStep(run: seq<State>, i: nat) returns (e: Effect)
    requires IsRun(run) && i < |run| - 1
    ensures Applicable(run[i].store, e) && run[i + 1].store == Apply(run[i].store, e)
  {
    RunKeeps(run, i);
    e := MoveWrites(run[0].store, run[i], run[i + 1]);
  }

  lemma MoveWrites(init: Store, st: State, st': State) returns (e: Effect)
    requires Inv(init, st) && Moves(st, st')
    ensures Applicable(st.store, e) && st'.store == Apply(st.store, e)
  {
    if id :| Commits(st, st', id) {
      CommitIsSerial(st.store, st.sessions[id]);
      e := st.sessions[id].next.effect;
    } else {
      e := Nothing;
    }
  }

  /** Refinement: in every state of every interleaving the store is the result of running the committed transactions one
      after another, each judged atomically at its own commit. */
  lemma InterleavingsAreSerial(run: seq<State>, i: nat)
    requires IsRun(run) && i < |run|
    ensures SerialRun(run[0].store, run[i].history, run[i].store)
  {
    RunKeeps(run, i);
  }

  lemma RowStays(s: Store, e: Effect, key: Id)
    requires Applicable(s, e) && key in s.ledger
    ensures key in Apply(s, e).ledger && Apply(s, e).ledger[key] == s.ledger[key]
  {
  }
}
