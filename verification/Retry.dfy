/** The retry loop around a scan: a key clash happens at most once, and what follows it is a replay or a conflict. */
module Retry {
  import opened Domain
  import opened Protocol
  import opened Transactions
  import opened Specs
  import opened Machine

  /** After a key clash the new attempt has either not looked at the ledger yet or holds the answer the ledger
      dictates. */
  ghost predicate Settled(s: Store, x: Session) {
    && x.call.Redeem? && x.call.q.key in s.ledger
    && (x.next == Begin(x.call, x.n) || x.next == RedeemAtomically(s, x.call.q, x.n))
  }

  ghost predicate RetryOk(s: Store, x: Session) {
    && x.tries == 1 + x.keyClashes + x.idClashes <= TRANSACTION_RETRIES
    && x.keyClashes <= 1
    && (x.keyClashes == 1 ==> Settled(s, x))
    && (x.next.Again? ==> x.call.Redeem? && (AtKey(x) ==> x.call.q.key in s.ledger))
  }

  ghost predicate RetryInv(st: State) {
    forall id :: id in st.sessions ==> RetryOk(st.store, st.sessions[id])
  }

  lemma ClashIsAtASlot(tx: Tx, v: View)
    requires Resume(tx, v).Again?
    ensures tx.Redeeming?
    ensures ((Wants(tx).res == KeySlot(tx.q.key) && v.VLedger? && v.row.Some?) || Wants(tx).res.RedemptionSlot?)
  {
  }

  /** The session after its next statement. */
  ghost function Onward(s: Store, x: Session): Session
    requires x.next.Run?
  {
    var a := Wants(x.next.tx);
    var v := Look(s, a.res);
    x.(next := Resume(x.next.tx, v), log := x.log + [Entry(a, v)])
  }

  lemma SettledAdvances(s: Store, x: Session)
    requires Settled(s, x) && x.next.Run?
    ensures Settled(s, Onward(s, x))
  {
  }

  lemma RetryAdvances(s: Store, x: Session)
    requires Shaped(x) && RetryOk(s, x) && x.next.Run?
    ensures RetryOk(s, Onward(s, x))
  {
    var tx := x.next.tx;
    var v := Look(s, Wants(tx).res);
    if x.keyClashes == 1 { SettledAdvances(s, x); }
    if Resume(tx, v).Again? { ClashIsAtASlot(tx, v); }
  }

  lemma RetrySurvives(s: Store, e: Effect, x: Session)
    requires Applicable(s, e) && RetryOk(s, x)
    ensures RetryOk(Apply(s, e), x)
  {
    if x.call.Redeem? && x.call.q.key in s.ledger { RowStays(s, e, x.call.q.key); }
  }

  lemma RetryBegins(st: State, st': State, id: Id, n: Attempt)
    requires RetryInv(st) && Retries(st, st', id, n)
    ensures RetryOk(st'.store, st'.sessions[id])
  {
    assert !Settled(st.store, st.sessions[id]);
  }

  lemma RetryCommits(init: Store, st: State, st': State, id: Id, other: Id)
    requires Inv(init, st) && RetryInv(st) && Commits(st, st', id) && other in st'.sessions
    ensures RetryOk(st'.store, st'.sessions[other])
  {
    CommitIsSerial(st.store, st.sessions[id]);
    RetrySurvives(st.store, st.sessions[id].next.effect, st.sessions[other]);
  }

  lemma RetryAdvance(init: Store, st: State, st': State, id: Id, other: Id)
    requires Inv(init, st) && RetryInv(st) && Advances(st, st', id) && other in st'.sessions
    ensures RetryOk(st'.store, st'.sessions[other])
  {
    if other == id { RetryAdvances(st.store, st.sessions[id]); }
  }

  lemma RetryStarts(st: State, st': State, id: Id, call: Call, n: Attempt, other: Id)
    requires RetryInv(st) && Starts(st, st', id, call, n) && other in st'.sessions
    ensures RetryOk(st'.store, st'.sessions[other])
  {
  }

  lemma RetryAgain(st: State, st': State, id: Id, n: Attempt, other: Id)
    requires RetryInv(st) && Retries(st, st', id, n) && other in st'.sessions
    ensures RetryOk(st'.store, st'.sessions[other])
  {
    if other == id { RetryBegins(st, st', id, n); }
  }

  /** A step that begins an attempt or drops a session. */
  lemma RetryComesOrGoes(st: State, st': State, other: Id)
    requires RetryInv(st) && other in st'.sessions
    requires || (exists id, call, n :: Starts(st, st', id, call, n))
             || (exists id :: Aborts(st, st', id))
             || (exists id, n :: Retries(st, st', id, n))
    ensures RetryOk(st'.store, st'.sessions[other])
  {
    if id, call, n :| Starts(st, st', id, call, n) {
      RetryStarts(st, st', id, call, n, other);
    } else if id, n :| Retries(st, st', id, n) {
      RetryAgain(st, st', id, n, other);
    }
  }

  lemma RetryMoves(init: Store, st: State, st': State, other: Id)
    requires Inv(init, st) && RetryInv(st) && Moves(st, st') && other in st'.sessions
    ensures RetryOk(st'.store, st'.sessions[other])
  {
    if id :| Advances(st, st', id) {
      RetryAdvance(init, st, st', id, other);
    } else if id :| Commits(st, st', id) {
      RetryCommits(init, st, st', id, other);
    } else {
      RetryComesOrGoes(st, st', other);
    }
  }

  lemma RetryStep(init: Store, st: State, st': State)
    requires Inv(init, st) && RetryInv(st) && Moves(st, st')
    ensures RetryInv(st')
  {
    forall id | id in st'.sessions ensures RetryOk(st'.store, st'.sessions[id]) {
      RetryMoves(init, st, st', id);
    }
  }

  lemma RetryGoesOn(run: seq<State>, i: nat)
    requires IsRun(run) && i < |run| - 1 && RetryInv(run[i])
    ensures RetryInv(run[i + 1])
  {
    RunKeeps(run, i);
    RetryStep(run[0].store, run[i], run[i + 1]);
  }

  lemma RetryInit(st: State)
    requires Init(st)
    ensures RetryInv(st)
  {
  }

  lemma {:induction false} RetryHolds(run: seq<State>, i: nat)
    requires IsRun(run) && i < |run|
    ensures RetryInv(run[i])
  {
    if i == 0 {
      RetryInit(run[0]);
    } else {
      RetryHolds(run, i - 1);
      RetryGoesOn(run, i - 1);
    }
  }

  /** In every interleaving a scan meets a key clash at most once; the attempt after it replays the stored answer or
      reports a conflict, so only repeated collisions of random identifiers could ever use up the three attempts. */
  lemma RetryBound(run: seq<State>, i: nat, id: Id)
    requires IsRun(run) && i < |run| && id in run[i].sessions
    ensures var x := run[i].sessions[id];
            && x.keyClashes <= 1 && x.tries == 1 + x.keyClashes + x.idClashes && x.tries <= 3
            && (x.next.Again? ==> x.call.Redeem?)
            && (x.next.Again? && AtKey(x) ==> x.keyClashes == 0 && x.call.q.key in run[i].store.ledger)
            && (x.next.Again? && AtKey(x) && x.tries == TRANSACTION_RETRIES ==> x.idClashes == 2)
            && (x.keyClashes == 1 ==>
                  && x.call.Redeem? && x.call.q.key in run[i].store.ledger
                  && var row := run[i].store.ledger[x.call.q.key];
                  && (x.next.Run? ==> x.next.tx == Redeeming(x.call.q, x.n, RFind))
                  && (x.next.Finish? ==> x.next == Finish(Nothing, Scan(ResultFromRow(row)))
                                         && row.checkpoint == x.call.q.checkpoint && row.hash == x.call.q.hash)
                  && (x.next.Fail? ==> x.next.error.IdempotencyConflict?)
                  && !x.next.Again?)
  {
    RetryHolds(run, i);
  }
}
