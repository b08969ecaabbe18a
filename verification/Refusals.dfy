/** What a refused caller may rely on: a refusal is the atomic judgement of the store at the refused transaction's last
    statement, with one exception that is characterised exactly. */
module Refusals {
  import opened Domain
  import opened Protocol
  import opened Transactions
  import opened Specs
  import opened Discipline
  import opened Machine
  import opened Reachable

  /** The store as a scan saw it that looked its key up before the row was committed. */
  function Unkeyed(s: Store, key: Id): Store {
    s.(ledger := s.ledger - {key})
  }

  lemma UnkeyedNothing(s: Store, key: Id)
    requires key !in s.ledger
    ensures Unkeyed(s, key) == s
  {
    assert s.ledger - {key} == s.ledger;
  }

  lemma UnkeyedLook(s: Store, key: Id, r: Resource)
    requires r != KeyRow(key) && r != KeySlot(key)
    ensures Look(Unkeyed(s, key), r) == Look(s, r)
  {
  }

  /** Past its first look at the ledger. */
  predicate Underway(tx: Tx) {
    tx.Redeeming? && !tx.rp.RFind?
  }

  lemma ScanRefusalSite(s: Store, q: RedeemInput, n: Attempt, pc: RedeemPc)
    requires ResumeRedeem(q, n, pc, Look(s, WantsRedeem(q, n, pc).res)).Fail?
    ensures !pc.RKey? && !pc.REntry?
    ensures Assumed(Run(Redeeming(q, n, pc))) == if pc.RFind? then {} else {KeyRow(q.key)}
  {
  }

  /** Where a transaction can be refused it has assumed no absence but that of its key. */
  lemma RefusalSite(s: Store, tx: Tx)
    requires Resume(tx, Look(s, Wants(tx).res)).Fail?
    ensures Assumed(Run(tx)) == if Underway(tx) then {KeyRow(tx.q.key)} else {}
    ensures Underway(tx) ==> Wants(tx).res != KeyRow(tx.q.key) && Wants(tx).res != KeySlot(tx.q.key)
  {
    if tx.Redeeming? { ScanRefusalSite(s, tx.q, tx.n, tx.rp); }
  }

  lemma KeysUnfound(tx: Tx, v: View)
    requires tx.Redeeming? && Resume(tx, v).Run? && (Wants(tx).res.KeyRow? || Wants(tx).res.KeySlot?)
    ensures !Found(v)
  {
  }

  /** A scan that is still running has found no ledger row. */
  lemma {:induction false} NoRowFound(x: Session, log: seq<Entry>)
    requires x.call.Redeem? && Matched(Begin(x.call, x.n), log) && Replay(Begin(x.call, x.n), log).Run?
    ensures Replay(Begin(x.call, x.n), log).tx.Redeeming?
    ensures forall i :: 0 <= i < |log| && (log[i].access.res.KeyRow? || log[i].access.res.KeySlot?) ==>
            !Found(log[i].view)
  {
    if log != [] {
      var last := log[|log| - 1];
      var before := Replay(Begin(x.call, x.n), log[..|log| - 1]);
      NoRowFound(x, log[..|log| - 1]);
      WantsShaped(before.tx, last.view);
      if last.access.res.KeyRow? || last.access.res.KeySlot? { KeysUnfound(before.tx, last.view); }
    }
  }

  /** The store in which everything a session saw until its refusal is true. */
  function Witness(s: Store, tx: Tx): Store {
    if Underway(tx) then Unkeyed(s, tx.q.key) else s
  }

  lemma EntryStands(s: Store, e: Entry, held: set<Lock>)
    requires StillTrue(s, e, held) && !(Snapshot(e.access.res) && !Found(e.view))
    ensures Look(s, e.access.res) == e.view
  {
  }

  lemma EntryStandsUnkeyed(s: Store, e: Entry, held: set<Lock>, key: Id)
    requires StillTrue(s, e, held) && (Snapshot(e.access.res) && !Found(e.view) ==> e.access.res == KeyRow(key))
    requires e.access.res.KeyRow? || e.access.res.KeySlot? ==> !Found(e.view)
    ensures Look(Unkeyed(s, key), e.access.res) == e.view
  {
    if e.access.res != KeyRow(key) && e.access.res != KeySlot(key) { UnkeyedLook(s, key, e.access.res); }
  }

  lemma RefusedLog(s: Store, x: Session)
    requires SessionOk(s, x) && x.next.Run?
    requires Assumed(x.next) == if Underway(x.next.tx) then {KeyRow(x.next.tx.q.key)} else {}
    ensures forall i :: 0 <= i < |x.log| ==> Look(Witness(s, x.next.tx), x.log[i].access.res) == x.log[i].view
  {
    if Underway(x.next.tx) { NoRowFound(x, x.log); }
    forall i | 0 <= i < |x.log| ensures Look(Witness(s, x.next.tx), x.log[i].access.res) == x.log[i].view {
      assert StillTrue(s, x.log[i], Held(x.log));
      assert Snapshot(x.log[i].access.res) && !Found(x.log[i].view) ==> x.log[i].access.res in Assumed(x.next);
      if Underway(x.next.tx) { EntryStandsUnkeyed(s, x.log[i], Held(x.log), x.next.tx.q.key); }
      else { EntryStands(s, x.log[i], Held(x.log)); }
    }
  }

  /** A refusal is what an atomic run says of the store at the refused statement, the scan's own key aside. */
  lemma RefusalIsAlone(s: Store, x: Session)
    requires SessionOk(s, x) && x.next.Run? && Resume(x.next.tx, Look(s, Wants(x.next.tx).res)).Fail?
    ensures Atomically(Witness(s, x.next.tx), x.call, x.n) == Resume(x.next.tx, Look(s, Wants(x.next.tx).res))
  {
    var tx := x.next.tx;
    var w := Witness(s, tx);
    RefusalSite(s, tx);
    RefusedLog(s, x);
    AloneReplays(w, Begin(x.call, x.n), x.log);
    if Underway(tx) { UnkeyedLook(s, tx.q.key, Wants(tx).res); }
    AloneIsAtomic(w, x.call, x.n);
  }

  lemma ScanRefusals(s: Store, q: RedeemInput, n: Attempt)
    requires RedeemAtomically(s, q, n).Fail?
    ensures RedeemAtomically(s, q, n).error.IdempotencyConflict? <==> q.key in s.ledger
  {
  }

  /** The scan's key was committed after the scan had looked for it, and the scan was refused for another reason. */
  predicate Overtaken(s: Store, call: Call, error: Error) {
    call.Redeem? && call.q.key in s.ledger && !error.IdempotencyConflict?
  }

  lemma RefusalExactly(s: Store, x: Session)
    requires SessionOk(s, x) && x.next.Run? && Resume(x.next.tx, Look(s, Wants(x.next.tx).res)).Fail?
    ensures var refused := Resume(x.next.tx, Look(s, Wants(x.next.tx).res));
            Atomically(s, x.call, x.n) == refused <==> !Overtaken(s, x.call, refused.error)
  {
    RefusalIsAlone(s, x);
    if x.call.Redeem? {
      ScanRefusals(Witness(s, x.next.tx), x.call.q, x.n);
      if x.call.q.key !in s.ledger { UnkeyedNothing(s, x.call.q.key); }
    }
  }

  /** In every interleaving a refusal is the atomic judgement of the store at the refused statement, if and only if it
      is not a scan whose key was committed meanwhile and that was refused for another reason. */
  lemma RefusalsAreJudged(run: seq<State>, i: nat, id: Id)
    requires IsRun(run) && i < |run| - 1 && Advances(run[i], run[i + 1], id) && run[i + 1].sessions[id].next.Fail?
    ensures var x := run[i].sessions[id];
            var refused := run[i + 1].sessions[id].next;
            Atomically(run[i].store, x.call, x.n) == refused <==> !Overtaken(run[i].store, x.call, refused.error)
  {
    RunKeeps(run, i);
    RefusalExactly(run[i].store, run[i].sessions[id]);
  }

  /** A refusal before the first statement depends on no store at all. */
  lemma EarlyRefusals(s: Store, call: Call, n: Attempt)
    requires Begin(call, n).Fail?
    ensures Atomically(s, call, n) == Begin(call, n)
  {
    AloneIsAtomic(s, call, n);
  }

  predicate AllLinked(s: Store) {
    && (forall pass :: pass in s.passes ==> Linked(s, pass))
    && (forall h :: h in s.qrIndex ==> s.qrIndex[h] in s.passes)
  }

  lemma SafeIsLinked(s: Store)
    requires StoreInv(s)
    ensures AllLinked(s)
  {
    forall pass | pass in s.passes ensures Linked(s, pass) {
      PassesAreLinked(s, pass);
    }
  }

  lemma ScanErrors(s: Store, q: RedeemInput, n: Attempt)
    requires AllLinked(s) && RedeemAtomically(s, q, n).Fail?
    ensures RedeemAtomically(s, q, n).error.IdempotencyConflict? || RedeemAtomically(s, q, n).error.CheckpointNotFound?
  {
  }

  lemma UnkeyedLinked(s: Store, key: Id)
    requires AllLinked(s)
    ensures AllLinked(Unkeyed(s, key))
  {
    forall pass | pass in s.passes ensures Linked(Unkeyed(s, key), pass) {
      assert Linked(s, pass);
    }
  }

  lemma RefusalOfScan(s: Store, x: Session)
    requires SessionOk(s, x) && AllLinked(s) && x.call.Redeem?
    requires x.next.Run? && Resume(x.next.tx, Look(s, Wants(x.next.tx).res)).Fail?
    ensures var error := Resume(x.next.tx, Look(s, Wants(x.next.tx).res)).error;
            error.IdempotencyConflict? || error.CheckpointNotFound?
  {
    RefusalIsAlone(s, x);
    if Underway(x.next.tx) { UnkeyedLinked(s, x.next.tx.q.key); }
    ScanErrors(Witness(s, x.next.tx), x.call.q, x.n);
  }

  /** In a reachable store a scan is refused only for a missing checkpoint or a conflicting key. */
  lemma ScansAreRefusedFor(run: seq<State>, i: nat, id: Id)
    requires IsRun(run) && i < |run| - 1 && Advances(run[i], run[i + 1], id) && StoreInv(run[0].store)
    requires run[i].sessions[id].call.Redeem? && run[i + 1].sessions[id].next.Fail?
    ensures var error := run[i + 1].sessions[id].next.error; error.IdempotencyConflict? || error.CheckpointNotFound?
  {
    RunKeeps(run, i);
    EveryStateIsSafe(run, i);
    SafeIsLinked(run[i].store);
    RefusalOfScan(run[i].store, run[i].sessions[id]);
  }
}
