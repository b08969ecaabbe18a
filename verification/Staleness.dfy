/** The one read a scan does not protect: the lookup of an unknown QR hash. When a committed scan is exactly what an
    atomic run at its commit would be, and when not. */
module Staleness {
  import opened Domain
  import opened Protocol
  import opened Transactions
  import opened Specs
  import opened Machine
  import opened Reachable

  /** The scan wrote invalid_pass for a hash that resolves when it commits. */
  predicate Outrun(c: Commit) {
    && c.call.Redeem? && c.call.q.validQR
    && c.effect.LogScan? && c.effect.row.outcome.InvalidPass? && Lookup(c.pre, c.call.q.hash).Some?
  }

  lemma ExactScan(s: Store, q: RedeemInput, n: Attempt)
    requires RedeemAtomically(s, q, n).Finish? && q.validQR && q.hash in s.qrIndex && Linked(s, s.qrIndex[q.hash])
    requires RedeemAtomically(s, q, n).effect.LogScan? && RedeemAtomically(s, q, n).effect.row.outcome.InvalidPass?
    ensures Lookup(s, q.hash).None?
  {
    LookupAgreesWithJudge(s, q.checkpoint, s.qrIndex[q.hash], q.hash, n.now);
  }

  lemma BlindScan(s: Store, q: RedeemInput, n: Attempt)
    requires q.validQR && q.hash in s.qrIndex && Linked(s, s.qrIndex[q.hash]) && Lookup(s, q.hash).None?
    requires q.key !in s.ledger && q.checkpoint in s.checkpoints
    ensures RedeemAtomically(Blind(s, q.hash), q, n) == RedeemAtomically(s, q, n)
  {
    LookupAgreesWithJudge(s, q.checkpoint, s.qrIndex[q.hash], q.hash, n.now);
  }

  lemma BlindWrites(s: Store, q: RedeemInput, n: Attempt)
    requires q.validQR && RedeemAtomically(Blind(s, q.hash), q, n).Finish?
    ensures var done := RedeemAtomically(Blind(s, q.hash), q, n);
            if q.key in s.ledger then done == RedeemAtomically(s, q, n)
            else done.effect.LogScan? && done.effect.row.outcome.InvalidPass?
  {
  }

  /** A committed transaction is exactly an atomic run at its commit if and only if it did not answer invalid_pass to a
      hash that the scanner screen, asked at that moment, would resolve. */
  lemma ExactUnlessOutrun(c: Commit)
    requires Serial(c) && StoreInv(c.pre)
    ensures Atomically(c.pre, c.call, c.n) == Finish(c.effect, c.reply) <==> !Outrun(c)
  {
    if Stale(c) {
      BlindWrites(c.pre, c.call.q, c.n);
      if c.call.q.key !in c.pre.ledger && Lookup(c.pre, c.call.q.hash).None? {
        PassesAreLinked(c.pre, c.pre.qrIndex[c.call.q.hash]);
        BlindScan(c.pre, c.call.q, c.n);
      }
    }
    if Outrun(c) && Atomically(c.pre, c.call, c.n) == Finish(c.effect, c.reply) {
      PassesAreLinked(c.pre, c.pre.qrIndex[c.call.q.hash]);
      ExactScan(c.pre, c.call.q, c.n);
    }
  }

  // ---- A known hash is never missed --------------------------------------------------

  predicate Missed(log: seq<Entry>, hash: Hash) {
    exists i :: 0 <= i < |log| && log[i].access.res == HashIndex(hash) && !Found(log[i].view)
  }

  /** Sessions that were not open at an earlier state have not missed a hash known there. */
  predicate NoneMissed(before: State, st: State, hash: Hash) {
    && hash in st.store.qrIndex
    && forall id :: id in st.sessions && id !in before.sessions ==> !Missed(st.sessions[id].log, hash)
  }

  lemma HashStays(s: Store, e: Effect, hash: Hash)
    requires Applicable(s, e) && hash in s.qrIndex
    ensures hash in Apply(s, e).qrIndex
  {
  }

  lemma AdvanceMisses(log: seq<Entry>, entry: Entry, hash: Hash)
    requires !Missed(log, hash) && !(entry.access.res == HashIndex(hash) && !Found(entry.view))
    ensures !Missed(log + [entry], hash)
  {
    forall i | 0 <= i < |log + [entry]|
      ensures !((log + [entry])[i].access.res == HashIndex(hash) && !Found((log + [entry])[i].view))
    {
      if i < |log| { assert (log + [entry])[i] == log[i]; }
    }
  }

  lemma MoveMisses(before: State, st: State, st': State, hash: Hash, other: Id)
    requires NoneMissed(before, st, hash) && Moves(st, st') && other in st'.sessions && other !in before.sessions
    ensures !Missed(st'.sessions[other].log, hash)
  {
    if id :| Advances(st, st', id) {
      if other == id {
        var a := Wants(st.sessions[id].next.tx);
        AdvanceMisses(st.sessions[id].log, Entry(a, Look(st.store, a.res)), hash);
      }
    }
  }

  ghost predicate Carries(before: State, st: State, st': State, hash: Hash) {
    NoneMissed(before, st, hash) ==> NoneMissed(before, st', hash)
  }

  lemma StepMisses(run: seq<State>, before: State, i: nat, hash: Hash)
    requires IsRun(run) && i < |run| - 1
    ensures Carries(before, run[i], run[i + 1], hash)
  {
    if NoneMissed(before, run[i], hash) {
      var e := RunStep(run, i);
      HashStays(run[i].store, e, hash);
      MovesMiss(before, run[i], run[i + 1], hash);
    }
  }

  lemma {:induction false} CarriedOn(run: seq<State>, k: nat, i: nat, hash: Hash)
    requires k <= i < |run| && NoneMissed(run[k], run[k], hash)
    requires forall j :: k <= j < i ==> Carries(run[k], run[j], run[j + 1], hash)
    ensures NoneMissed(run[k], run[i], hash)
    decreases i
  {
    if k < i {
      CarriedOn(run, k, i - 1, hash);
      assert Carries(run[k], run[i - 1], run[i - 1 + 1], hash);
    }
  }

  lemma MovesMiss(before: State, st: State, st': State, hash: Hash)
    requires NoneMissed(before, st, hash) && Moves(st, st') && hash in st'.store.qrIndex
    ensures NoneMissed(before, st', hash)
  {
    forall id | id in st'.sessions && id !in before.sessions ensures !Missed(st'.sessions[id].log, hash) {
      MoveMisses(before, st, st', hash, id);
    }
  }

  lemma NeverMissed(run: seq<State>, k: nat, i: nat, hash: Hash)
    requires IsRun(run) && k <= i < |run| && hash in run[k].store.qrIndex
    ensures NoneMissed(run[k], run[i], hash)
  {
    forall j | k <= j < i ensures Carries(run[k], run[j], run[j + 1], hash) {
      StepMisses(run, run[k], j, hash);
    }
    CarriedOn(run, k, i, hash);
  }

  lemma UnmissedIsExact(s: Store, x: Session)
    requires SessionOk(s, x) && x.next.Finish? && (x.call.Redeem? ==> !Missed(x.log, x.call.q.hash))
    ensures Atomically(s, x.call, x.n) == x.next
  {
    forall i | 0 <= i < |x.log| ensures !(x.log[i].access.res.HashIndex? && !Found(x.log[i].view)) {
      if x.log[i].access.res.HashIndex? && !Found(x.log[i].view) { MissedHash(s, x, i); }
    }
    LogWitnessed(s, x);
    AloneReplays(s, Begin(x.call, x.n), x.log);
    AloneIsAtomic(s, x.call, x.n);
  }

  /** A scan that starts after the pass carrying its hash was committed finishes, in every interleaving, exactly as an
      atomic run at its commit. */
  lemma KnownHashIsExact(run: seq<State>, k: nat, i: nat, id: Id)
    requires IsRun(run) && k <= i < |run| && id in run[i].sessions && id !in run[k].sessions
    requires run[i].sessions[id].call.Redeem? && run[i].sessions[id].call.q.hash in run[k].store.qrIndex
    requires run[i].sessions[id].next.Finish?
    ensures Atomically(run[i].store, run[i].sessions[id].call, run[i].sessions[id].n) == run[i].sessions[id].next
  {
    NeverMissed(run, k, i, run[i].sessions[id].call.q.hash);
    RunKeeps(run, i);
    UnmissedIsExact(run[i].store, run[i].sessions[id]);
  }

  // ---- Runs whose scans carry known hashes ---------------------------------------------

  predicate Known(s: Store, call: Call) {
    call.Redeem? && call.q.validQR ==> call.q.hash in s.qrIndex
  }

  /** A QR is scanned only after the pass carrying it was committed. */
  ghost predicate ScansKnown(st: State, st': State) {
    forall id, call, n :: Starts(st, st', id, call, n) ==> Known(st.store, call)
  }

  predicate Informed(s: Store, x: Session) {
    Known(s, x.call) && (x.call.Redeem? && x.call.q.validQR ==> !Missed(x.log, x.call.q.hash))
  }

  predicate AllInformed(st: State) {
    forall id :: id in st.sessions ==> Informed(st.store, st.sessions[id])
  }

  ghost predicate Exact(c: Commit) {
    Atomically(c.pre, c.call, c.n) == Finish(c.effect, c.reply)
  }

  lemma AdvanceInforms(s: Store, x: Session)
    requires Informed(s, x) && x.next.Run?
    ensures var a := Wants(x.next.tx);
            var v := Look(s, a.res);
            Informed(s, x.(next := Resume(x.next.tx, v), log := x.log + [Entry(a, v)]))
  {
    var a := Wants(x.next.tx);
    if x.call.Redeem? && x.call.q.validQR { AdvanceMisses(x.log, Entry(a, Look(s, a.res)), x.call.q.hash); }
  }

  lemma EffectInforms(s: Store, e: Effect, x: Session)
    requires Applicable(s, e) && Informed(s, x)
    ensures Informed(Apply(s, e), x)
  {
    if x.call.Redeem? && x.call.q.validQR { HashStays(s, e, x.call.q.hash); }
  }

  lemma StartInforms(s: Store, x: Session)
    requires Known(s, x.call) && x.log == []
    ensures Informed(s, x)
  {
  }

  /** Where a session comes from: it stood still, took a statement, began or began again. */
  lemma MoveOrigin(st: State, st': State, other: Id)
    requires Moves(st, st') && other in st'.sessions
    ensures
      || (other in st.sessions && st'.sessions[other] == st.sessions[other])
      || Advances(st, st', other)
      || (st'.sessions[other].log == [] && other in st.sessions && st'.sessions[other].call == st.sessions[other].call)
      || (st'.sessions[other].log == []
          && Starts(st, st', other, st'.sessions[other].call, st'.sessions[other].n))
  {
    if id, call, n :| Starts(st, st', id, call, n) {
    } else if id :| Advances(st, st', id) {
    } else if id :| Commits(st, st', id) {
    } else if id :| Aborts(st, st', id) {
    } else {
      var id, n :| Retries(st, st', id, n);
    }
  }

  lemma MoveInforms(st: State, st': State, e: Effect, other: Id)
    requires AllInformed(st) && Moves(st, st') && ScansKnown(st, st') && other in st'.sessions
    requires Applicable(st.store, e) && st'.store == Apply(st.store, e)
    ensures Informed(st'.store, st'.sessions[other])
  {
    MoveOrigin(st, st', other);
    if other in st.sessions {
      EffectInforms(st.store, e, st.sessions[other]);
      if st'.sessions[other].log == [] && st'.sessions[other].call == st.sessions[other].call {
        StartInforms(st'.store, st'.sessions[other]);
      } else if Advances(st, st', other) {
        AdvanceInforms(st.store, st.sessions[other]);
      }
    } else {
      StartInforms(st'.store, st'.sessions[other]);
    }
  }

  lemma InformedIsExact(s: Store, x: Session)
    requires SessionOk(s, x) && x.next.Finish? && Informed(s, x)
    ensures Exact(Commit(x.call, x.n, x.next.effect, x.next.reply, s))
  {
    if x.call.Redeem? && !x.call.q.validQR {
      CommitIsSerial(s, x);
    } else {
      UnmissedIsExact(s, x);
    }
  }

  lemma MoveExact(st: State, st': State)
    requires AllInformed(st) && Moves(st, st')
    requires forall id :: id in st.sessions ==> SessionOk(st.store, st.sessions[id])
    ensures st'.history == st.history || exists c :: Exact(c) && st'.history == st.history + [c]
  {
    if id :| Commits(st, st', id) {
      var x := st.sessions[id];
      InformedIsExact(st.store, x);
      assert st'.history == st.history + [Commit(x.call, x.n, x.next.effect, x.next.reply, st.store)];
    }
  }

  lemma StepInforms(run: seq<State>, i: nat)
    requires IsRun(run) && i < |run| - 1 && AllInformed(run[i]) && ScansKnown(run[i], run[i + 1])
    ensures AllInformed(run[i + 1])
  {
    var e := RunStep(run, i);
    var st' := run[i + 1];
    forall id | id in st'.sessions ensures Informed(st'.store, st'.sessions[id]) {
      MoveInforms(run[i], st', e, id);
    }
  }

  ghost predicate AllExact(history: seq<Commit>) {
    forall k :: 0 <= k < |history| ==> Exact(history[k])
  }

  lemma StepExact(run: seq<State>, i: nat)
    requires IsRun(run) && i < |run| - 1 && AllInformed(run[i]) && AllExact(run[i].history)
    ensures AllExact(run[i + 1].history)
  {
    RunKeeps(run, i);
    MoveExact(run[i], run[i + 1]);
  }

  /** If every QR is scanned only after the pass carrying it was committed, then in every interleaving every committed
      transaction is exactly an atomic run at its commit, the scans included. */
  lemma {:induction false} KnownHashesAreExact(run: seq<State>, i: nat)
    requires IsRun(run) && i < |run| && forall j :: 0 <= j < i ==> ScansKnown(run[j], run[j + 1])
    ensures AllInformed(run[i]) && AllExact(run[i].history)
  {
    if i > 0 {
      KnownHashesAreExact(run, i - 1);
      assert ScansKnown(run[i - 1], run[i - 1 + 1]);
      StepInforms(run, i - 1);
      StepExact(run, i - 1);
    }
  }
}
