/** The database object serving calls one at a time, and interleaved transactions: both come to the same. */
module Serving {
  import opened Domain
  import opened Protocol
  import opened Transactions
  import opened Specs
  import opened Machine
  import opened PassInvariants
  import opened Reachable
  import opened Refusals
  import opened Services
  import opened Staleness
  import opened CallContracts

  lemma SettleKeeps(s: Store, call: Call, n: Attempt)
    requires StoreInv(s)
    ensures StoreInv(Settle(s, Atomically(s, call, n)))
  {
    var next := Atomically(s, call, n);
    if next.Finish? { CommitKeepsStore(Commit(call, n, next.effect, next.reply, s)); }
  }

  method ServePass(db: Database, p: PassInput) returns (served: Served)
    modifies db
    ensures forall n :: served == Outward(Atomically(old(db.Contents()), OnPass(p), n))
    ensures forall n :: db.Contents() == Settle(old(db.Contents()), Atomically(old(db.Contents()), OnPass(p), n))
  {
    match p
    case Issue(actor, attendee, made) => served := db.IssuePass(actor, attendee, made);
    case Reissue(actor, pass, made) => served := db.ReissuePass(actor, pass, made);
    case Revoke(actor, pass) => served := db.RevokePass(actor, pass);
  }

  method ServeRule(db: Database, e: EntitlementInput) returns (served: Served)
    modifies db
    ensures served == Outward(EntitleAtomically(old(db.Contents()), e))
    ensures db.Contents() == Settle(old(db.Contents()), EntitleAtomically(old(db.Contents()), e))
  {
    if e.rule.Some? {
      served := db.PutEntitlement(e.actor, e.attendee, e.checkpoint, e.rule.value.0, e.rule.value.1);
    } else {
      served := db.DeleteEntitlement(e.actor, e.attendee, e.checkpoint);
    }
  }

  lemma OutwardMeans(s: Store, call: Call, n: Attempt)
    ensures var next := Atomically(s, call, n);
            var served := Outward(next);
            && (served.Replied? ==> Posts(s, call, n, Settle(s, next), served.reply))
            && (served.Refused? ==> Fails(s, call, served.error) && Settle(s, next) == s)
  {
    CallMeans(s, call, n);
    if Atomically(s, call, n).Fail? { CallRefuses(s, call, n, Atomically(s, call, n).error); }
  }

  /** Any call, by the service it is meant for. The database keeps every invariant, does what the call's judgement
      says, leaves and answers what the call's contract says, and refuses for what that gives reason for. */
  method Serve(db: Database, call: Call, n: Attempt) returns (served: Served)
    requires StoreInv(db.Contents())
    modifies db
    ensures served == Outward(Atomically(old(db.Contents()), call, n))
    ensures db.Contents() == Settle(old(db.Contents()), Atomically(old(db.Contents()), call, n))
    ensures StoreInv(db.Contents())
    ensures served.Replied? ==> Posts(old(db.Contents()), call, n, db.Contents(), served.reply)
    ensures served.Refused? ==> Fails(old(db.Contents()), call, served.error) && db.Contents() == old(db.Contents())
  {
    OutwardMeans(db.Contents(), call, n);
    SettleKeeps(db.Contents(), call, n);
    SafeIsLinked(db.Contents());
    match call
    case Redeem(q) => served := db.RedeemAttempt(q, n);
    case Entitle(e) => served := ServeRule(db, e);
    case UpdateCheckpoint(u) => served := db.UpdateCheckpointFields(u);
    case OnPass(p) => served := ServePass(db, p);
    case Record(d) => served := db.RecordDecision(d);
    case Release(actor, decision) => served := db.ReleaseDecision(actor, decision, n.now);
    case Respond(r) => served := db.RespondToOffer(r);
  }

  // ---- Calls one at a time ------------------------------------------------------------------

  datatype Request = Request(call: Call, n: Attempt)

  /** Where the database object is after serving a sequence of calls. */
  ghost function Through(s: Store, calls: seq<Request>): Store {
    if calls == [] then s
    else
      var last := calls[|calls| - 1];
      var before := Through(s, calls[..|calls| - 1]);
      Settle(before, Atomically(before, last.call, last.n))
  }

  /** Serving calls one at a time is a serial history of those that were not refused, and keeps every invariant. */
  lemma {:induction false} ThroughIsSerial(s: Store, calls: seq<Request>) returns (history: seq<Commit>)
    requires StoreInv(s)
    ensures SerialRun(s, history, Through(s, calls)) && StoreInv(Through(s, calls))
  {
    if calls == [] {
      history := [];
    } else {
      var last := calls[|calls| - 1];
      var before := Through(s, calls[..|calls| - 1]);
      history := ThroughIsSerial(s, calls[..|calls| - 1]);
      var next := Atomically(before, last.call, last.n);
      SettleKeeps(before, last.call, last.n);
      if next.Finish? {
        var c := Commit(last.call, last.n, next.effect, next.reply, before);
        ExtendSerialRun(s, history, c);
        history := history + [c];
      }
    }
  }

  /** The calls of a history, in the order they committed. */
  function CallsOf(history: seq<Commit>): (calls: seq<Request>)
    ensures |calls| == |history|
  {
    if history == [] then []
    else
      var last := history[|history| - 1];
      CallsOf(history[..|history| - 1]) + [Request(last.call, last.n)]
  }

  lemma {:induction false} HistoryIsThrough(init: Store, history: seq<Commit>, last: Store)
    requires SerialRun(init, history, last)
    requires forall k :: 0 <= k < |history| ==>
      Atomically(history[k].pre, history[k].call, history[k].n) == Finish(history[k].effect, history[k].reply)
    ensures last == Through(init, CallsOf(history))
  {
    if history != [] {
      var c := history[|history| - 1];
      SerialPrefix(init, history, last);
      HistoryIsThrough(init, history[..|history| - 1], c.pre);
      var calls := CallsOf(history);
      assert calls[|calls| - 1] == Request(c.call, c.n) && calls[..|calls| - 1] == CallsOf(history[..|history| - 1]);
    }
  }

  /** In every interleaving without an outrun scan, the store is the one the database object reaches when it serves the
      committed calls one at a time, in the order they committed. */
  lemma InterleavingIsServed(run: seq<State>, i: nat)
    requires IsRun(run) && i < |run| && StoreInv(run[0].store)
    requires forall k :: 0 <= k < |run[i].history| ==> !Outrun(run[i].history[k])
    ensures run[i].store == Through(run[0].store, CallsOf(run[i].history))
  {
    var history := run[i].history;
    InterleavingsAreSerial(run, i);
    forall k | 0 <= k < |history|
      ensures Atomically(history[k].pre, history[k].call, history[k].n) == Finish(history[k].effect, history[k].reply)
    {
      HistoryKeeps(run[0].store, history, run[i].store, k);
      ExactUnlessOutrun(history[k]);
    }
    HistoryIsThrough(run[0].store, history, run[i].store);
  }

  /** And so in every interleaving whose scans carry known hashes. */
  lemma KnownHashesAreServed(run: seq<State>, i: nat)
    requires IsRun(run) && i < |run| && forall j :: 0 <= j < i ==> ScansKnown(run[j], run[j + 1])
    ensures run[i].store == Through(run[0].store, CallsOf(run[i].history))
  {
    InterleavingsAreSerial(run, i);
    KnownHashesAreExact(run, i);
    assert forall k :: 0 <= k < |run[i].history| ==> Exact(run[i].history[k]);
    HistoryIsThrough(run[0].store, run[i].history, run[i].store);
  }
}
