/** Deadlock on the event path: scans, entitlement edits and checkpoint edits take their locks in one order, with one
    exception, checkpoint edits that take slugs from each other. */
module Deadlock {
  import opened Domain
  import opened Protocol
  import opened Transactions
  import opened Discipline
  import opened Machine

  predicate EventCall(call: Call) {
    call.Redeem? || call.Entitle? || call.UpdateCheckpoint?
  }

  predicate EventTx(tx: Tx) {
    tx.Redeeming? || tx.Entitling? || tx.Updating?
  }

  /** Where a resource stands in the lock order. The first look at the ledger comes before everything else. */
  function Rank(r: Resource): nat {
    match r
    case KeyRow(_) => 0
    case CheckpointCycle(_) => 1
    case ActivityRow(_) => 2
    case CheckpointRow(_) => 3
    case SlugSlot(_, _) => 4
    case HashIndex(_) => 5
    case PassRow(_) => 6
    case AttendeeRow(_) => 7
    case ApplicationRow(_) => 8
    case OverrideRow(_, _) => 9
    case Usage(_, _) => 10
    case KeySlot(_) => 11
    case _ => 12
  }

  function Height(x: Session): nat
    requires x.next.Run?
  {
    Rank(Wants(x.next.tx).res)
  }

  /** The session is a checkpoint edit about to take a new slug; its checkpoint still has the old one. */
  predicate Taking(x: Session) {
    x.next.Run? && x.next.tx.Updating? && x.next.tx.up.UTake?
  }

  /** The slug such an edit is giving up. */
  function GivenUp(x: Session): Resource
    requires Taking(x)
  {
    SlugSlot(x.next.tx.up.cp.cycle, x.next.tx.up.cp.slug)
  }

  /** What a running session has accessed stands below its next statement, save for the slug it is giving up. */
  predicate Below(x: Session, r: Resource)
    requires x.next.Run?
  {
    if r.SlugSlot? then (Taking(x) && r == GivenUp(x)) || Rank(r) < Height(x) else Rank(r) < Height(x)
  }

  predicate InOrder(x: Session) {
    EventCall(x.call) && x.next.Run? ==>
      EventTx(x.next.tx) && forall i :: 0 <= i < |x.log| ==> Below(x, x.log[i].access.res)
  }

  lemma ScanClimbs(q: RedeemInput, n: Attempt, pc: RedeemPc, v: View)
    requires ResumeRedeem(q, n, pc, v).Run?
    ensures var next := ResumeRedeem(q, n, pc, v);
            next.tx.Redeeming? && Rank(WantsRedeem(q, n, pc).res) < Rank(Wants(next.tx).res)
  {
  }

  lemma StepClimbs(tx: Tx, v: View)
    requires EventTx(tx) && Resume(tx, v).Run?
    ensures EventTx(Resume(tx, v).tx)
    ensures var next := Resume(tx, v).tx;
            if tx.Updating? && tx.up.UGiveUp? then next == Updating(tx.u, UTake(tx.up.cp))
            else Rank(Wants(tx).res) < Rank(Wants(next).res) && !(next.Updating? && next.up.UTake?)
  {
    if tx.Redeeming? { ScanClimbs(tx.q, tx.n, tx.rp, v); }
  }

  lemma BeginInOrder(x: Session)
    requires x.log == [] && x.next == Begin(x.call, x.n)
    ensures InOrder(x)
  {
  }

  lemma AdvanceInOrder(x: Session, v: View)
    requires InOrder(x) && x.next.Run?
    ensures InOrder(x.(next := Resume(x.next.tx, v), log := x.log + [Entry(Wants(x.next.tx), v)]))
  {
    if EventCall(x.call) && Resume(x.next.tx, v).Run? { StepClimbs(x.next.tx, v); }
  }

  predicate AllInOrder(st: State) {
    forall id :: id in st.sessions ==> InOrder(st.sessions[id])
  }

  lemma MoveInOrder(st: State, st': State, other: Id)
    requires AllInOrder(st) && Moves(st, st') && other in st'.sessions
    ensures InOrder(st'.sessions[other])
  {
    if id, call, n :| Starts(st, st', id, call, n) {
      BeginInOrder(st'.sessions[id]);
    } else if id :| Advances(st, st', id) {
      AdvanceInOrder(st.sessions[id], Look(st.store, Wants(st.sessions[id].next.tx).res));
    } else if id :| Commits(st, st', id) {
    } else if id :| Aborts(st, st', id) {
    } else {
      var id, n :| Retries(st, st', id, n);
      BeginInOrder(st'.sessions[id]);
    }
  }

  lemma {:induction false} RunInOrder(run: seq<State>, i: nat)
    requires IsRun(run) && i < |run|
    ensures AllInOrder(run[i])
  {
    if i > 0 {
      RunInOrder(run, i - 1);
      forall id | id in run[i].sessions ensures InOrder(run[i].sessions[id]) {
        MoveInOrder(run[i - 1], run[i], id);
      }
    }
  }

  // ---- The wait-for graph ---------------------------------------------------------

  /** One session waits for another that holds a lock its next statement asks for. */
  ghost predicate WaitsFor(st: State, i: Id, j: Id) {
    && i in st.sessions && j in st.sessions && i != j && st.sessions[i].next.Run?
    && var a := Wants(st.sessions[i].next.tx);
    !Compatible(Acquired(a, Look(st.store, a.res)), Held(st.sessions[j].log))
  }

  predicate OnEventPath(st: State, id: Id) {
    id in st.sessions && EventCall(st.sessions[id].call)
  }

  /** A wait leads up the order, or from an edit that wants a slug to the edit that is giving it up. */
  lemma WaitClimbs(st: State, i: Id, j: Id)
    requires AllInOrder(st) && WaitsFor(st, i, j) && OnEventPath(st, j) && st.sessions[j].next.Run?
    ensures Height(st.sessions[i]) < Height(st.sessions[j])
         || (Taking(st.sessions[j]) && Wants(st.sessions[i].next.tx).res == GivenUp(st.sessions[j]))
  {
    var a := Wants(st.sessions[i].next.tx);
    var l, l' :| l in Acquired(a, Look(st.store, a.res)) && l' in Held(st.sessions[j].log) && l.res == l'.res
        && !(l.shared && l'.shared);
    var k := HeldFrom(st.sessions[j].log, l');
    assert Below(st.sessions[j], st.sessions[j].log[k].access.res);
  }

  lemma WaitRises(st: State, i: Id, j: Id)
    requires AllInOrder(st) && WaitsFor(st, i, j) && OnEventPath(st, j) && st.sessions[j].next.Run?
    ensures Height(st.sessions[i]) <= Height(st.sessions[j])
  {
    WaitClimbs(st, i, j);
  }

  /** Each session of the chain waits for the next one. */
  ghost predicate Chained(st: State, chain: seq<Id>) {
    && (forall i :: 0 <= i < |chain| ==> OnEventPath(st, chain[i]))
    && (forall i :: 0 < i < |chain| ==> WaitsFor(st, chain[i - 1], chain[i]))
  }

  lemma {:induction false} ChainClimbs(st: State, chain: seq<Id>, j: nat, k: nat)
    requires AllInOrder(st) && Chained(st, chain) && j <= k < |chain| && st.sessions[chain[k]].next.Run?
    ensures st.sessions[chain[j]].next.Run? && Height(st.sessions[chain[j]]) <= Height(st.sessions[chain[k]])
    decreases k
  {
    if j < k {
      assert WaitsFor(st, chain[k - 1], chain[k]);
      WaitRises(st, chain[k - 1], chain[k]);
      ChainClimbs(st, chain, j, k - 1);
    }
  }

  predicate TakesSlug(st: State, id: Id) {
    id in st.sessions && Taking(st.sessions[id])
  }

  /** Two edits taking a new slug, one the very slug that the other is giving up. */
  predicate Trades(st: State, i: Id, j: Id) {
    i != j && TakesSlug(st, i) && TakesSlug(st, j) && Wants(st.sessions[i].next.tx).res == GivenUp(st.sessions[j])
  }

  /** A closed chain of edits, each taking the slug that the next is giving up. */
  predicate Ring(st: State, chain: seq<Id>) {
    && |chain| > 1 && chain[0] == chain[|chain| - 1]
    && forall k :: 0 < k < |chain| ==> Trades(st, chain[k - 1], chain[k])
  }

  lemma CycleEdge(st: State, chain: seq<Id>, k: nat)
    requires AllInOrder(st) && Chained(st, chain) && 0 < k < |chain| && chain[0] == chain[|chain| - 1]
    requires st.sessions[chain[0]].next.Run?
    ensures st.sessions[chain[k - 1]].next.Run? && Taking(st.sessions[chain[k]])
    ensures Wants(st.sessions[chain[k - 1]].next.tx).res == GivenUp(st.sessions[chain[k]])
  {
    var last := |chain| - 1;
    ChainClimbs(st, chain, k, last);
    ChainClimbs(st, chain, 0, k - 1);
    assert WaitsFor(st, chain[k - 1], chain[k]);
    WaitClimbs(st, chain[k - 1], chain[k]);
  }

  lemma TakerHolds(s: Store, x: Session)
    requires SessionOk(s, x) && Taking(x)
    ensures Lock(GivenUp(x), false) in Held(x.log)
  {
    assert Lock(GivenUp(x), false) in Locked(x.next);
  }

  /** An edit taking a new slug holds the slot of the one it is giving up. */
  lemma HoldsGivenUp(run: seq<State>, i: nat, id: Id)
    requires IsRun(run) && i < |run| && TakesSlug(run[i], id)
    ensures Lock(GivenUp(run[i].sessions[id]), false) in Held(run[i].sessions[id].log)
  {
    RunKeeps(run, i);
    TakerHolds(run[i].store, run[i].sessions[id]);
  }

  lemma TradesWait(run: seq<State>, i: nat, id: Id, other: Id)
    requires IsRun(run) && i < |run| && Trades(run[i], id, other)
    ensures WaitsFor(run[i], id, other)
  {
    HoldsGivenUp(run, i, other);
    var a := Wants(run[i].sessions[id].next.tx);
    assert Lock(a.res, false) in Acquired(a, Look(run[i].store, a.res));
  }

  /** In every reachable state a chain of event-path sessions that ends where it starts is a chain of waits if and only
      if each of its sessions is a checkpoint edit that wants the very slug the next one is giving up. */
  lemma WaitCyclesAreOverSlugs(run: seq<State>, i: nat, chain: seq<Id>)
    requires IsRun(run) && i < |run| && |chain| > 1 && chain[0] == chain[|chain| - 1]
    requires forall k :: 0 <= k < |chain| ==> OnEventPath(run[i], chain[k])
    ensures Chained(run[i], chain) <==> Ring(run[i], chain)
  {
    if Chained(run[i], chain) {
      RunInOrder(run, i);
      assert WaitsFor(run[i], chain[0], chain[1]);
      CycleIsRing(run[i], chain);
    }
    if Ring(run[i], chain) {
      forall k | 0 < k < |chain| ensures WaitsFor(run[i], chain[k - 1], chain[k]) {
        assert Trades(run[i], chain[k - 1], chain[k]);
        TradesWait(run, i, chain[k - 1], chain[k]);
      }
    }
  }

  lemma CycleIsRing(st: State, chain: seq<Id>)
    requires AllInOrder(st) && Chained(st, chain) && |chain| > 1 && chain[0] == chain[|chain| - 1]
    requires st.sessions[chain[0]].next.Run?
    ensures Ring(st, chain)
  {
    forall k | 0 < k < |chain| ensures Trades(st, chain[k - 1], chain[k]) {
      assert WaitsFor(st, chain[k - 1], chain[k]);
      CycleEdge(st, chain, k);
      CycleEdge(st, chain, if k == 1 then |chain| - 1 else k - 1);
    }
  }

  // ---- Who can go on -------------------------------------------------------------------

  predicate Within(chain: seq<Id>, group: set<Id>) {
    forall k :: 0 <= k < |chain| ==> chain[k] in group
  }

  function Members(chain: seq<Id>): set<Id> {
    set id | id in chain
  }

  /** No members of the group take slugs from each other in a ring. */
  ghost predicate NoRing(st: State, group: set<Id>) {
    forall chain :: Within(chain, group) ==> !Ring(st, chain)
  }

  /** A member that waits for no other. */
  ghost predicate Proceeds(st: State, group: set<Id>, free: Id) {
    free in group && forall other :: other in group ==> !WaitsFor(st, free, other)
  }

  /** The session of a group that stands highest. */
  lemma {:induction false} Highest(st: State, group: set<Id>) returns (top: Id)
    requires group != {} && forall id :: id in group ==> id in st.sessions && st.sessions[id].next.Run?
    ensures top in group && forall id :: id in group ==> Height(st.sessions[id]) <= Height(st.sessions[top])
  {
    top :| top in group;
    var rest := group - {top};
    if rest != {} {
      var high := Highest(st, rest);
      if Height(st.sessions[top]) <= Height(st.sessions[high]) { top := high; }
    }
  }

  predicate Leads(next: map<Id, Id>, x: Id, y: Id) {
    x in next && y == next[x]
  }

  /** Each element of the walk is followed by the one a map names. */
  predicate Follows(next: map<Id, Id>, walk: seq<Id>) {
    |walk| > 0 && walk[0] in next && forall k :: 0 < k < |walk| ==> Leads(next, walk[k - 1], walk[k])
  }

  lemma FollowsOn(next: map<Id, Id>, walk: seq<Id>)
    requires Follows(next, walk) && next.Values <= next.Keys
    ensures walk[|walk| - 1] in next
    ensures next[walk[|walk| - 1]] in next && Follows(next, walk + [next[walk[|walk| - 1]]])
  {
    var last := walk[|walk| - 1];
    if |walk| > 1 { assert Leads(next, walk[|walk| - 2], last); }
    assert last in next.Keys && next[last] in next.Values;
    var more := walk + [next[last]];
    forall k | 0 < k < |more| ensures Leads(next, more[k - 1], more[k]) {
      assert more[k - 1] == walk[k - 1];
      if k < |walk| { assert more[k] == walk[k]; }
    }
  }

  lemma FollowsFrom(next: map<Id, Id>, walk: seq<Id>, k: nat)
    requires Follows(next, walk) && k < |walk| - 1
    ensures Follows(next, walk[k..])
  {
    var tail := walk[k..];
    forall j | 0 < j < |tail| ensures Leads(next, tail[j - 1], tail[j]) {
      assert tail[j - 1] == walk[k + j - 1] && tail[j] == walk[k + j];
    }
    assert Leads(next, walk[k + 1 - 1], walk[k + 1]);
  }

  /** Where every element has a next one, a walk closes. */
  lemma {:induction false} WalkCloses(next: map<Id, Id>, rest: set<Id>, walk: seq<Id>) returns (ring: seq<Id>)
    requires Follows(next, walk) && next.Values <= next.Keys && next.Keys <= rest + Members(walk)
    ensures Follows(next, ring) && |ring| > 1 && ring[0] == ring[|ring| - 1]
    decreases rest
  {
    FollowsOn(next, walk);
    var more := next[walk[|walk| - 1]];
    if more in walk {
      var k :| 0 <= k < |walk| && walk[k] == more;
      FollowsFrom(next, walk + [more], k);
      ring := (walk + [more])[k..];
    } else {
      ring := WalkCloses(next, rest - {more}, walk + [more]);
    }
  }

  /** The edits of a group that are taking a new slug. */
  function Takers(st: State, group: set<Id>): set<Id> {
    set id | id in group && TakesSlug(st, id)
  }

  ghost predicate TradesWithin(st: State, group: set<Id>, id: Id) {
    exists other :: other in group && Trades(st, id, other)
  }

  ghost function Partner(st: State, group: set<Id>, id: Id): (other: Id)
    requires TradesWithin(st, group, id)
    ensures other in group && Trades(st, id, other)
  {
    var other :| other in group && Trades(st, id, other);
    other
  }

  /** If each taker of a group takes the slug of another, some do so in a ring. */
  lemma TakersFormRing(st: State, group: set<Id>, first: Id) returns (ring: seq<Id>)
    requires first in Takers(st, group) && forall id :: id in Takers(st, group) ==> TradesWithin(st, group, id)
    ensures Ring(st, ring) && Within(ring, group)
  {
    var next := map id | id in Takers(st, group) :: Partner(st, group, id);
    assert next.Values <= next.Keys by {
      forall y | y in next.Values ensures y in next.Keys {
        var x :| x in next && next[x] == y;
      }
    }
    ring := WalkCloses(next, next.Keys, [first]);
    forall k | 0 < k < |ring| ensures Trades(st, ring[k - 1], ring[k]) && ring[k] in group {
      assert Leads(next, ring[k - 1], ring[k]);
    }
  }

  ghost predicate WaitsWithin(st: State, group: set<Id>, id: Id) {
    exists other :: other in group && WaitsFor(st, id, other)
  }

  /** No member can go on. */
  ghost predicate Stuck(st: State, group: set<Id>) {
    && group <= st.sessions.Keys && (forall id :: id in group ==> EventCall(st.sessions[id].call))
    && (forall id :: id in group ==> st.sessions[id].next.Run?)
    && (forall id {:trigger WaitsWithin(st, group, id)} :: id in group ==> WaitsWithin(st, group, id))
  }

  /** A session waits for one that stands no higher only to take the slug that is being given up. */
  lemma WaitsLevel(st: State, i: Id, j: Id)
    requires AllInOrder(st) && WaitsFor(st, i, j) && OnEventPath(st, j) && st.sessions[j].next.Run?
    requires Height(st.sessions[j]) <= Height(st.sessions[i])
    ensures Taking(st.sessions[j]) && Wants(st.sessions[i].next.tx).res == GivenUp(st.sessions[j])
    ensures Height(st.sessions[j]) == Height(st.sessions[i])
  {
    WaitClimbs(st, i, j);
  }

  lemma TopWaits(st: State, group: set<Id>, top: Id) returns (next: Id)
    requires AllInOrder(st) && Stuck(st, group) && top in group
    requires forall id :: id in group ==> Height(st.sessions[id]) <= Height(st.sessions[top])
    ensures next in Takers(st, group) && Height(st.sessions[next]) == Height(st.sessions[top])
    ensures TakesSlug(st, top) ==> Trades(st, top, next)
  {
    assert WaitsWithin(st, group, top);
    next :| next in group && WaitsFor(st, top, next);
    WaitsLevel(st, top, next);
  }

  lemma TakersLevel(x: Session, y: Session)
    requires Taking(x) && Taking(y)
    ensures Height(x) == Height(y)
  {
  }

  lemma NoneProceeds(st: State, group: set<Id>)
    requires (forall id :: id in group ==> OnEventPath(st, id)) && !exists id :: Proceeds(st, group, id)
    ensures Stuck(st, group)
  {
    forall id | id in group
      ensures id in st.sessions && EventCall(st.sessions[id].call) && st.sessions[id].next.Run?
      ensures WaitsWithin(st, group, id)
    {
      assert OnEventPath(st, id) && !Proceeds(st, group, id);
    }
  }

  lemma StuckGroup(st: State, group: set<Id>) returns (ring: seq<Id>)
    requires AllInOrder(st) && Stuck(st, group) && group != {}
    ensures Ring(st, ring) && Within(ring, group)
  {
    var top := Highest(st, group);
    var first := TopWaits(st, group, top);
    forall id | id in Takers(st, group) ensures TradesWithin(st, group, id) {
      TakersLevel(st.sessions[id], st.sessions[first]);
      var _ := TopWaits(st, group, id);
    }
    ring := TakersFormRing(st, group, first);
  }

  /** In every reachable state, any group of event-path sessions in which no edits take slugs from each other in a ring
      has a session that waits for none of the others. */
  lemma SomeoneProceeds(run: seq<State>, i: nat, group: set<Id>) returns (free: Id)
    requires IsRun(run) && i < |run| && group != {} && forall id :: id in group ==> OnEventPath(run[i], id)
    requires NoRing(run[i], group)
    ensures Proceeds(run[i], group, free)
  {
    RunInOrder(run, i);
    if id :| Proceeds(run[i], group, id) {
      free := id;
    } else {
      NoneProceeds(run[i], group);
      var ring := StuckGroup(run[i], group);
      assert false;
    }
  }

  /** And this is exact: every part of a group has a session that can go on if and only if there is no such ring. */
  lemma PartsProceedExactly(run: seq<State>, i: nat, group: set<Id>)
    requires IsRun(run) && i < |run| && forall id :: id in group ==> OnEventPath(run[i], id)
    ensures (forall part: set<Id> :: part <= group && part != {} ==> exists free :: Proceeds(run[i], part, free))
            <==> NoRing(run[i], group)
  {
    var st := run[i];
    if NoRing(st, group) {
      forall part: set<Id> | part <= group && part != {} ensures exists free :: Proceeds(st, part, free) {
        assert forall chain :: Within(chain, part) ==> Within(chain, group);
        var free := SomeoneProceeds(run, i, part);
      }
    } else {
      var ring :| Within(ring, group) && Ring(st, ring);
      RingIsStuck(run, i, ring);
      assert Members(ring) <= group && ring[0] in Members(ring);
    }
  }

  lemma RingIsStuck(run: seq<State>, i: nat, ring: seq<Id>)
    requires IsRun(run) && i < |run| && Ring(run[i], ring)
    ensures forall free :: !Proceeds(run[i], Members(ring), free)
  {
    var part := Members(ring);
    forall free ensures !Proceeds(run[i], part, free) {
      if free in part {
        var k :| 0 <= k < |ring| && ring[k] == free;
        var next := if k == |ring| - 1 then 1 else k + 1;
        assert Trades(run[i], ring[next - 1], ring[next]);
        TradesWait(run, i, free, ring[next]);
        assert ring[next] in part;
      }
    }
  }

  /** When only event-path sessions are open and no edits take slugs from each other in a ring, one of them has finished
      its statements or is granted its next one. */
  lemma EventPathNeverStalls(run: seq<State>, i: nat) returns (free: Id)
    requires IsRun(run) && i < |run| && run[i].sessions != map[]
    requires forall id :: id in run[i].sessions ==> EventCall(run[i].sessions[id].call)
    requires NoRing(run[i], run[i].sessions.Keys)
    ensures free in run[i].sessions
    ensures run[i].sessions[free].next.Run? ==>
      var a := Wants(run[i].sessions[free].next.tx); Granted(run[i], free, Acquired(a, Look(run[i].store, a.res)))
  {
    assert run[i].sessions.Keys != {};
    free := SomeoneProceeds(run, i, run[i].sessions.Keys);
  }

  // ---- Scans at one checkpoint --------------------------------------------------------

  lemma ScanShares(tx: Tx, v: View)
    requires tx.Redeeming?
    ensures Wants(tx).res.CheckpointRow? ==> Wants(tx).mode.ForShare?
    ensures Resume(tx, v).Run? ==> Resume(tx, v).tx.Redeeming?
  {
  }

  predicate SharesCheckpoints(log: seq<Entry>) {
    forall i :: 0 <= i < |log| && log[i].access.res.CheckpointRow? ==> log[i].access.mode.ForShare?
  }

  lemma {:induction false} ScanLogShares(x: Session, log: seq<Entry>)
    requires x.call.Redeem? && Matched(Begin(x.call, x.n), log)
    ensures SharesCheckpoints(log)
    ensures Replay(Begin(x.call, x.n), log).Run? ==> Replay(Begin(x.call, x.n), log).tx.Redeeming?
  {
    if log != [] {
      var last := log[|log| - 1];
      ScanLogShares(x, log[..|log| - 1]);
      ScanShares(Replay(Begin(x.call, x.n), log[..|log| - 1]).tx, last.view);
    }
  }

  lemma SharedIsGranted(a: Access, v: View, log: seq<Entry>)
    requires a.res.CheckpointRow? && a.mode.ForShare? && SharesCheckpoints(log)
    ensures Compatible(Acquired(a, v), Held(log))
  {
    forall l, l' | l in Acquired(a, v) && l' in Held(log) && l.res == l'.res ensures l.shared && l'.shared {
      var k := HeldFrom(log, l');
      assert log[k].access.res == l'.res;
    }
  }

  /** However many scans are under way, none waits for another one at the checkpoint. */
  lemma ScansShareCheckpoints(run: seq<State>, k: nat, i: Id, j: Id)
    requires IsRun(run) && k < |run| && WaitsFor(run[k], i, j)
    requires run[k].sessions[i].call.Redeem? && run[k].sessions[j].call.Redeem? && Alive(run[k].sessions[j].next)
    ensures !Wants(run[k].sessions[i].next.tx).res.CheckpointRow?
  {
    RunKeeps(run, k);
    var x, y := run[k].sessions[i], run[k].sessions[j];
    assert SessionOk(run[k].store, x) && SessionOk(run[k].store, y);
    ScanLogShares(y, y.log);
    var a := Wants(x.next.tx);
    ScanShares(x.next.tx, Look(run[k].store, a.res));
    if a.res.CheckpointRow? { SharedIsGranted(a, Look(run[k].store, a.res), y.log); }
  }
}
