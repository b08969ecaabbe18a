/** Races that do happen, each for every store in which it can: a scan outrun by the pass it names, a reissue that
    deadlocks with a scan of the same pass, and two checkpoint edits that deadlock over their slugs. */
module Races {
  import opened Domain
  import opened Protocol
  import opened Text
  import opened Transactions
  import opened Specs
  import opened Machine
  import opened LedgerInvariants
  import opened Reachable
  import opened Refusals
  import opened Deadlock
  import opened Staleness

  /** Two sessions, each known by its call, what it does next and the locks it holds. */
  datatype Peer = Peer(call: Call, n: Attempt, next: Next, held: set<Lock>)

  predicate Is(st: State, id: Id, x: Peer) {
    && id in st.sessions && Held(st.sessions[id].log) == x.held
    && st.sessions[id].call == x.call && st.sessions[id].n == x.n && st.sessions[id].next == x.next
  }

  /** The state holds exactly one scan (session 0) and one other session (session 1). */
  ghost predicate Scene(run: seq<State>, s: Store, a: Peer, b: Peer) {
    && IsRun(run) && var st := run[|run| - 1];
    && st.store == s && st.sessions.Keys == {0, 1} && Is(st, 0, a) && Is(st, 1, b)
  }

  lemma Extended(run: seq<State>, st: State) returns (run': seq<State>)
    requires IsRun(run) && Moves(run[|run| - 1], st)
    ensures IsRun(run') && run' == run + [st]
  {
    run' := run + [st];
    forall i | 0 <= i < |run'| - 1 ensures Moves(run'[i], run'[i + 1]) {
      assert run'[i] == run[i];
      if i < |run| - 1 { assert run'[i + 1] == run[i + 1]; }
    }
  }

  ghost function Seen(s: Store, x: Peer): View
    requires x.next.Run?
  {
    Look(s, Wants(x.next.tx).res)
  }

  ghost function Further(s: Store, x: Peer): Peer
    requires x.next.Run?
  {
    Peer(x.call, x.n, Resume(x.next.tx, Seen(s, x)), x.held + Acquired(Wants(x.next.tx), Seen(s, x)))
  }

  ghost predicate Free(s: Store, x: Peer, other: Peer) {
    x.next.Run? && Compatible(Acquired(Wants(x.next.tx), Seen(s, x)), other.held)
  }

  lemma Opened(s: Store, call: Call, n: Attempt, call': Call, n': Attempt) returns (run: seq<State>)
    ensures Scene(run, s, Peer(call, n, Begin(call, n), {}), Peer(call', n', Begin(call', n'), {}))
    ensures run[0].store == s && run[|run| - 1].history == []
  {
    var st0 := State(s, map[], []);
    var st1 := State(s, map[0 := Session(call, n, Begin(call, n), [], 1, 0, 0)], []);
    var st2 := State(s, st1.sessions[1 := Session(call', n', Begin(call', n'), [], 1, 0, 0)], []);
    assert Starts(st0, st1, 0, call, n);
    run := Extended([st0], st1);
    assert Starts(st1, st2, 1, call', n');
    run := Extended(run, st2);
  }

  ghost function Advanced(st: State, id: Id): State
    requires id in st.sessions && st.sessions[id].next.Run?
  {
    var x := st.sessions[id];
    var a := Wants(x.next.tx);
    var v := Look(st.store, a.res);
    st.(sessions := st.sessions[id := x.(next := Resume(x.next.tx, v), log := x.log + [Entry(a, v)])])
  }

  lemma AdvancedMoves(st: State, id: Id, x: Peer)
    requires Is(st, id, x) && x.next.Run?
    requires Granted(st, id, Acquired(Wants(x.next.tx), Seen(st.store, x)))
    ensures Moves(st, Advanced(st, id)) && Is(Advanced(st, id), id, Further(st.store, x))
  {
    assert Advances(st, Advanced(st, id), id);
    Extend(x.next, st.sessions[id].log, Entry(Wants(x.next.tx), Seen(st.store, x)));
  }

  lemma FreeIsGranted(st: State, i: Id, j: Id, x: Peer, y: Peer)
    requires i != j && st.sessions.Keys == {i, j} && Is(st, i, x) && Is(st, j, y) && Free(st.store, x, y)
    ensures Granted(st, i, Acquired(Wants(x.next.tx), Seen(st.store, x)))
  {
  }

  /** A session takes its next statement beside another one. */
  lemma AdvancesBeside(run: seq<State>, i: Id, j: Id, x: Peer, y: Peer) returns (run': seq<State>)
    requires IsRun(run) && i != j && run[|run| - 1].sessions.Keys == {i, j}
    requires var st := run[|run| - 1]; Is(st, i, x) && Is(st, j, y) && Free(st.store, x, y)
    ensures IsRun(run') && run' != [] && run'[0] == run[0]
    ensures var st, st' := run[|run| - 1], run'[|run'| - 1];
            && st'.store == st.store && st'.history == st.history && st'.sessions.Keys == {i, j}
            && Is(st', i, Further(st.store, x)) && Is(st', j, y)
  {
    var st := run[|run| - 1];
    FreeIsGranted(st, i, j, x, y);
    AdvancedMoves(st, i, x);
    run' := Extended(run, Advanced(st, i));
  }

  lemma Scans(run: seq<State>, s: Store, a: Peer, b: Peer) returns (run': seq<State>)
    requires Scene(run, s, a, b) && Free(s, a, b)
    ensures Scene(run', s, Further(s, a), b)
    ensures run'[0] == run[0] && run'[|run'| - 1].history == run[|run| - 1].history
  {
    run' := AdvancesBeside(run, 0, 1, a, b);
  }

  lemma Competes(run: seq<State>, s: Store, a: Peer, b: Peer) returns (run': seq<State>)
    requires Scene(run, s, a, b) && Free(s, b, a)
    ensures Scene(run', s, a, Further(s, b))
    ensures run'[0] == run[0] && run'[|run'| - 1].history == run[|run| - 1].history
  {
    run' := AdvancesBeside(run, 1, 0, b, a);
  }

  /** The next statement of a session is granted beside the other and takes it from one stage to the next. */
  ghost predicate Leads(s: Store, x: Peer, x': Peer, other: Peer) {
    Free(s, x, other) && Further(s, x) == x'
  }

  lemma ScansThrice(run: seq<State>, s: Store, a0: Peer, a1: Peer, a2: Peer, a3: Peer, b: Peer)
    returns (run': seq<State>)
    requires Scene(run, s, a0, b) && Leads(s, a0, a1, b) && Leads(s, a1, a2, b) && Leads(s, a2, a3, b)
    ensures Scene(run', s, a3, b)
    ensures run'[0] == run[0] && run'[|run'| - 1].history == run[|run| - 1].history
  {
    run' := Scans(run, s, a0, b);
    run' := Scans(run', s, a1, b);
    run' := Scans(run', s, a2, b);
  }

  lemma CompetesThrice(run: seq<State>, s: Store, a: Peer, b0: Peer, b1: Peer, b2: Peer, b3: Peer)
    returns (run': seq<State>)
    requires Scene(run, s, a, b0) && Leads(s, b0, b1, a) && Leads(s, b1, b2, a) && Leads(s, b2, b3, a)
    ensures Scene(run', s, a, b3)
    ensures run'[0] == run[0] && run'[|run'| - 1].history == run[|run| - 1].history
  {
    run' := Competes(run, s, a, b0);
    run' := Competes(run', s, a, b1);
    run' := Competes(run', s, a, b2);
  }

  // ---- A scan and a reissue deadlock --------------------------------------------------

  ghost predicate Contested(s: Store, q: RedeemInput, pass: Id) {
    && q.validQR && Get(s.qrIndex, q.hash) == Some(pass) && Linked(s, pass) && Eligible(s, pass)
    && q.checkpoint in s.checkpoints && q.key !in s.ledger
    && IsConfirmed(s, s.attendees[s.passes[pass].attendee].application)
  }

  function Scanning(q: RedeemInput, n: Attempt, pc: RedeemPc, held: set<Lock>): Peer {
    Peer(Redeem(q), n, Run(Redeeming(q, n, pc)), held)
  }

  function Changing(p: PassInput, n: Attempt, pc: PassPc, held: set<Lock>): Peer {
    Peer(OnPass(p), n, Run(Passing(p, pc)), held)
  }

  function AtDoor(q: RedeemInput): set<Lock> {
    {Lock(CheckpointRow(q.checkpoint), true)}
  }

  function HolderLocks(attendee: Id, holder: Attendee): set<Lock> {
    {Lock(AttendeeRow(attendee), false), Lock(ApplicationRow(holder.application), false)}
  }

  lemma ScanOpens(s: Store, q: RedeemInput, n: Attempt, b: Peer)
    requires q.checkpoint in s.checkpoints && q.key !in s.ledger && b.held == {}
    ensures Leads(s, Scanning(q, n, RFind, {}), Scanning(q, n, RCheckpoint, {}), b)
    ensures q.validQR
            ==> Leads(s, Scanning(q, n, RCheckpoint, {}),
                      Scanning(q, n, RHash(s.checkpoints[q.checkpoint]), AtDoor(q)), b)
  {
  }

  lemma ScanResolves(s: Store, q: RedeemInput, n: Attempt, b: Peer)
    requires q.checkpoint in s.checkpoints
    ensures var cp := s.checkpoints[q.checkpoint];
            Leads(s, Scanning(q, n, RHash(cp), AtDoor(q)),
                  Scanning(q, n, if q.hash in s.qrIndex then RPass(cp, s.qrIndex[q.hash])
                           else RKey(cp, Claim(InvalidPass, None, 0)), AtDoor(q)), b)
  {
  }

  lemma ScanLocksPass(s: Store, q: RedeemInput, n: Attempt, pass: Id, b: Peer)
    requires q.checkpoint in s.checkpoints && pass in s.passes && forall l :: l in b.held ==> !l.res.PassRow?
    ensures var cp := s.checkpoints[q.checkpoint];
            Leads(s, Scanning(q, n, RPass(cp, pass), AtDoor(q)),
                  Scanning(q, n, RAttendee(cp, pass, s.passes[pass]), AtDoor(q) + {Lock(PassRow(pass), false)}), b)
  {
  }

  lemma ChangeLocksHolder(s: Store, p: PassInput, n: Attempt, attendee: Id, q: RedeemInput, a: Peer)
    requires !p.Revoke? && VisibleAttendee(s, attendee) && a.held == AtDoor(q)
    ensures var holder := s.attendees[attendee];
            && Leads(s, Changing(p, n, PAttendee(attendee), {}),
                     Changing(p, n, PApplication(attendee, holder), {Lock(AttendeeRow(attendee), false)}), a)
            && Leads(s, Changing(p, n, PApplication(attendee, holder), {Lock(AttendeeRow(attendee), false)}),
                     Changing(p, n, PRsvp(attendee, holder), HolderLocks(attendee, holder)), a)
  {
  }

  lemma ChangePassesGate(s: Store, p: PassInput, n: Attempt, attendee: Id, a: Peer)
    requires !p.Revoke? && VisibleAttendee(s, attendee) && IsConfirmed(s, s.attendees[attendee].application)
    ensures var holder := s.attendees[attendee];
            Leads(s, Changing(p, n, PRsvp(attendee, holder), HolderLocks(attendee, holder)),
                  Changing(p, n, if p.Issue? then PActive(attendee, holder, p.made)
                           else PCurrent(attendee, holder, p.pass), HolderLocks(attendee, holder)), a)
  {
  }

  lemma ReissueOpens(s: Store, p: PassInput, n: Attempt, a: Peer)
    requires p.Reissue? && p.pass in s.passes
    ensures Leads(s, Changing(p, n, POwner(p.pass), {}), Changing(p, n, PAttendee(s.passes[p.pass].attendee), {}), a)
  {
  }

  lemma ScanReachesPass(s: Store, q: RedeemInput, n: Attempt, b: Peer, run: seq<State>) returns (run': seq<State>)
    requires q.validQR && q.checkpoint in s.checkpoints && q.key !in s.ledger && b.held == {}
    requires Scene(run, s, Scanning(q, n, RFind, {}), b)
    ensures var cp := s.checkpoints[q.checkpoint];
            Scene(run', s,
                  Scanning(q, n, if q.hash in s.qrIndex then RPass(cp, s.qrIndex[q.hash])
                           else RKey(cp, Claim(InvalidPass, None, 0)), AtDoor(q)), b)
    ensures run'[0] == run[0] && run'[|run'| - 1].history == run[|run| - 1].history
  {
    var cp := s.checkpoints[q.checkpoint];
    ScanOpens(s, q, n, b);
    ScanResolves(s, q, n, b);
    var last := if q.hash in s.qrIndex then RPass(cp, s.qrIndex[q.hash]) else RKey(cp, Claim(InvalidPass, None, 0));
    run' := ScansThrice(run, s, Scanning(q, n, RFind, {}), Scanning(q, n, RCheckpoint, {}),
                        Scanning(q, n, RHash(cp), AtDoor(q)), Scanning(q, n, last, AtDoor(q)), b);
  }

  lemma ChangeReachesGate(s: Store, q: RedeemInput, p: PassInput, n: Attempt, attendee: Id, a: Peer, run: seq<State>)
    returns (run': seq<State>)
    requires !p.Revoke? && VisibleAttendee(s, attendee) && IsConfirmed(s, s.attendees[attendee].application)
    requires a.held == AtDoor(q)
    requires Scene(run, s, a, Changing(p, n, PAttendee(attendee), {}))
    ensures var holder := s.attendees[attendee];
            Scene(run', s, a,
                  Changing(p, n, if p.Issue? then PActive(attendee, holder, p.made)
                           else PCurrent(attendee, holder, p.pass),
                           HolderLocks(attendee, holder)))
    ensures run'[0] == run[0] && run'[|run'| - 1].history == run[|run| - 1].history
  {
    var holder := s.attendees[attendee];
    ChangeLocksHolder(s, p, n, attendee, q, a);
    ChangePassesGate(s, p, n, attendee, a);
    var last := if p.Issue? then PActive(attendee, holder, p.made) else PCurrent(attendee, holder, p.pass);
    run' := CompetesThrice(run, s, a, Changing(p, n, PAttendee(attendee), {}),
                           Changing(p, n, PApplication(attendee, holder), {Lock(AttendeeRow(attendee), false)}),
                           Changing(p, n, PRsvp(attendee, holder), HolderLocks(attendee, holder)),
                           Changing(p, n, last, HolderLocks(attendee, holder)));
  }

  lemma BothReachPass(s: Store, q: RedeemInput, n: Attempt, p: PassInput, n': Attempt) returns (run: seq<State>)
    requires p.Reissue? && Contested(s, q, p.pass)
    ensures var row := s.passes[p.pass];
            var holder := s.attendees[row.attendee];
            Scene(run, s, Scanning(q, n, RPass(s.checkpoints[q.checkpoint], p.pass), AtDoor(q)),
                  Changing(p, n', PCurrent(row.attendee, holder, p.pass), HolderLocks(row.attendee, holder)))
    ensures run[0].store == s
  {
    var row := s.passes[p.pass];
    var a := Scanning(q, n, RPass(s.checkpoints[q.checkpoint], p.pass), AtDoor(q));
    run := Opened(s, Redeem(q), n, OnPass(p), n');
    run := ScanReachesPass(s, q, n, Changing(p, n', POwner(p.pass), {}), run);
    ReissueOpens(s, p, n', a);
    run := Competes(run, s, a, Changing(p, n', POwner(p.pass), {}));
    run := ChangeReachesGate(s, q, p, n', row.attendee, a, run);
  }

  /** The next statement of a session wants a row that the other has locked. */
  ghost predicate Stuck(s: Store, x: Peer, y: Peer, row: Resource) {
    x.next.Run? && Wants(x.next.tx) == Access(row, ForUpdate) && Found(Seen(s, x)) && Lock(row, false) in y.held
  }

  lemma ScanStuck(s: Store, q: RedeemInput, n: Attempt, pass: Id, held: set<Lock>, b: Peer)
    requires q.checkpoint in s.checkpoints && Linked(s, pass)
    requires Lock(AttendeeRow(s.passes[pass].attendee), false) in b.held
    ensures Stuck(s, Scanning(q, n, RAttendee(s.checkpoints[q.checkpoint], pass, s.passes[pass]), held), b,
                  AttendeeRow(s.passes[pass].attendee))
  {
  }

  lemma ReissueStuck(s: Store, p: PassInput, n: Attempt, attendee: Id, holder: Attendee, pass: Id, held: set<Lock>,
                     a: Peer)
    requires pass in s.passes && Lock(PassRow(pass), false) in a.held
    ensures Stuck(s, Changing(p, n, PCurrent(attendee, holder, pass), held), a, PassRow(pass))
  {
  }

  lemma Blocked(st: State, i: Id, j: Id, x: Peer, y: Peer, row: Resource)
    requires i != j && Is(st, i, x) && Is(st, j, y) && Stuck(st.store, x, y, row)
    ensures WaitsFor(st, i, j)
  {
    assert Lock(row, false) in Acquired(Wants(x.next.tx), Seen(st.store, x));
  }

  /** A scan locks the pass before its attendee, a reissue the attendee before the pass: for every eligible pass of a
      confirmed attendee some interleaving leaves the two waiting for each other. */
  lemma ReissueCanDeadlock(s: Store, q: RedeemInput, n: Attempt, p: PassInput, n': Attempt) returns (run: seq<State>)
    requires p.Reissue? && Contested(s, q, p.pass)
    ensures IsRun(run) && run[0].store == s
    ensures WaitsFor(run[|run| - 1], 0, 1) && WaitsFor(run[|run| - 1], 1, 0)
  {
    var row := s.passes[p.pass];
    var holder := s.attendees[row.attendee];
    var b := Changing(p, n', PCurrent(row.attendee, holder, p.pass), HolderLocks(row.attendee, holder));
    run := BothReachPass(s, q, n, p, n');
    ScanLocksPass(s, q, n, p.pass, b);
    run := Scans(run, s, Scanning(q, n, RPass(s.checkpoints[q.checkpoint], p.pass), AtDoor(q)), b);
    var cp := s.checkpoints[q.checkpoint];
    var a := Scanning(q, n, RAttendee(cp, p.pass, row), AtDoor(q) + {Lock(PassRow(p.pass), false)});
    ScanStuck(s, q, n, p.pass, a.held, b);
    ReissueStuck(s, p, n', row.attendee, s.attendees[row.attendee], p.pass, b.held, a);
    Blocked(run[|run| - 1], 0, 1, a, b, AttendeeRow(row.attendee));
    Blocked(run[|run| - 1], 1, 0, b, a, PassRow(p.pass));
  }

  // ---- Two edits deadlock over their slugs ----------------------------------------------

  /** Two edits that exchange the slugs of two checkpoints of one cycle. */
  ghost predicate Exchanging(s: Store, u: CheckpointInput, v: CheckpointInput) {
    && ValidCheckpoint(u.fields) && ValidCheckpoint(v.fields) && u.fields.activity.None? && v.fields.activity.None?
    && u.checkpoint in s.checkpoints && v.checkpoint in s.checkpoints && u.checkpoint != v.checkpoint
    && s.checkpoints[u.checkpoint].cycle == s.checkpoints[v.checkpoint].cycle
    && s.checkpoints[u.checkpoint].slug != s.checkpoints[v.checkpoint].slug
    && Trim(u.fields.slug) == s.checkpoints[v.checkpoint].slug
       && Trim(v.fields.slug) == s.checkpoints[u.checkpoint].slug
  }

  function Editing(u: CheckpointInput, n: Attempt, pc: UpdatePc, held: set<Lock>): Peer {
    Peer(UpdateCheckpoint(u), n, Run(Updating(u, pc)), held)
  }

  function EditLocks(u: CheckpointInput, cp: Checkpoint): set<Lock> {
    {Lock(CheckpointRow(u.checkpoint), false), Lock(SlugSlot(cp.cycle, cp.slug), false)}
  }

  lemma EditOpens(s: Store, u: CheckpointInput, n: Attempt, other: Peer)
    requires u.checkpoint in s.checkpoints && u.fields.activity.None?
    requires forall l :: l in other.held ==> l.res != CheckpointRow(u.checkpoint)
    ensures var cp := s.checkpoints[u.checkpoint];
            && Leads(s, Editing(u, n, UCycle, {}), Editing(u, n, ULock(cp.cycle), {}), other)
            && Leads(s, Editing(u, n, ULock(cp.cycle), {}),
                     Editing(u, n, UGiveUp(cp), {Lock(CheckpointRow(u.checkpoint), false)}), other)
  {
  }

  lemma EditGivesUp(s: Store, u: CheckpointInput, n: Attempt, cp: Checkpoint, other: Peer)
    requires Trim(u.fields.slug) != cp.slug && forall l :: l in other.held ==> l.res != SlugSlot(cp.cycle, cp.slug)
    ensures Leads(s, Editing(u, n, UGiveUp(cp), {Lock(CheckpointRow(u.checkpoint), false)}),
                  Editing(u, n, UTake(cp), EditLocks(u, cp)), other)
  {
  }

  lemma BlockedAtSlug(st: State, i: Id, j: Id, x: Peer, y: Peer, u: CheckpointInput, cp: Checkpoint)
    requires i != j && Is(st, i, x) && Is(st, j, y) && x.next == Run(Updating(u, UTake(cp)))
    requires Lock(SlugSlot(cp.cycle, Trim(u.fields.slug)), false) in y.held
    ensures WaitsFor(st, i, j)
  {
    assert Lock(SlugSlot(cp.cycle, Trim(u.fields.slug)), false) in Acquired(Wants(x.next.tx), Seen(st.store, x));
  }

  lemma FirstEditTakes(
    s: Store, u: CheckpointInput, n: Attempt, v: CheckpointInput, n': Attempt) returns (run: seq<State>)
    requires Exchanging(s, u, v)
    ensures Scene(run, s, Editing(u, n, UTake(s.checkpoints[u.checkpoint]), EditLocks(u, s.checkpoints[u.checkpoint])),
                  Editing(v, n', UCycle, {}))
    ensures run[0].store == s
  {
    var cp := s.checkpoints[u.checkpoint];
    var b := Editing(v, n', UCycle, {});
    run := Opened(s, UpdateCheckpoint(u), n, UpdateCheckpoint(v), n');
    EditOpens(s, u, n, b);
    EditGivesUp(s, u, n, cp, b);
    run := ScansThrice(run, s, Editing(u, n, UCycle, {}), Editing(u, n, ULock(cp.cycle), {}),
                       Editing(u, n, UGiveUp(cp), {Lock(CheckpointRow(u.checkpoint), false)}),
                       Editing(u, n, UTake(cp), EditLocks(u, cp)), b);
  }

  lemma SecondEditTakes(
    s: Store, u: CheckpointInput, v: CheckpointInput, n': Attempt, a: Peer, run: seq<State>) returns (run': seq<State>)
    requires Exchanging(s, u, v) && a.held == EditLocks(u, s.checkpoints[u.checkpoint])
    requires Scene(run, s, a, Editing(v, n', UCycle, {}))
    ensures Scene(run', s, a,
                  Editing(v, n', UTake(s.checkpoints[v.checkpoint]), EditLocks(v, s.checkpoints[v.checkpoint])))
    ensures run'[0] == run[0]
  {
    var cp := s.checkpoints[v.checkpoint];
    EditOpens(s, v, n', a);
    EditGivesUp(s, v, n', cp, a);
    run' := CompetesThrice(run, s, a, Editing(v, n', UCycle, {}), Editing(v, n', ULock(cp.cycle), {}),
                           Editing(v, n', UGiveUp(cp), {Lock(CheckpointRow(v.checkpoint), false)}),
                           Editing(v, n', UTake(cp), EditLocks(v, cp)));
  }

  /** Any two edits that exchange slugs can wait for each other: each has given up the slug the other wants. */
  lemma EditsCanDeadlock(s: Store, u: CheckpointInput, n: Attempt, v: CheckpointInput, n': Attempt)
    returns (run: seq<State>)
    requires Exchanging(s, u, v)
    ensures IsRun(run) && run[0].store == s
    ensures WaitsFor(run[|run| - 1], 0, 1) && WaitsFor(run[|run| - 1], 1, 0)
  {
    var a := Editing(u, n, UTake(s.checkpoints[u.checkpoint]), EditLocks(u, s.checkpoints[u.checkpoint]));
    var b := Editing(v, n', UTake(s.checkpoints[v.checkpoint]), EditLocks(v, s.checkpoints[v.checkpoint]));
    run := FirstEditTakes(s, u, n, v, n');
    run := SecondEditTakes(s, u, v, n', a, run);
    BlockedAtSlug(run[|run| - 1], 0, 1, a, b, u, s.checkpoints[u.checkpoint]);
    BlockedAtSlug(run[|run| - 1], 1, 0, b, a, v, s.checkpoints[v.checkpoint]);
  }

  // ---- A scan outrun by the pass it names ----------------------------------------------

  ghost predicate Issuable(s: Store, q: RedeemInput, p: PassInput) {
    && p.Issue? && VisibleAttendee(s, p.attendee) && IsConfirmed(s, s.attendees[p.attendee].application)
    && !HasActive(s, p.attendee) && p.made.id !in s.passes && p.made.hash !in s.qrIndex
    && q.validQR && q.hash == p.made.hash && q.checkpoint in s.checkpoints && q.key !in s.ledger
  }

  function Unknown(q: RedeemInput, n: Attempt, cp: Checkpoint): Peer {
    Scanning(q, n, RKey(cp, Claim(InvalidPass, None, 0)), AtDoor(q))
  }

  function IssueEffect(s: Store, p: PassInput): Effect
    requires p.Issue? && p.attendee in s.attendees
  {
    AddPass(p.made.id, Pass(p.attendee, p.made.hash, Active, None), PassIssued(p.actor, p.made.id, p.attendee),
            s.attendees[p.attendee].user)
  }

  function InsertLocks(p: PassInput, holder: Attendee): set<Lock>
    requires p.Issue?
  {
    HolderLocks(p.attendee, holder) + {Lock(PassRow(p.made.id), false)}
  }

  function IssueDone(s: Store, p: PassInput, n: Attempt): Peer
    requires p.Issue? && p.attendee in s.attendees
  {
    Peer(OnPass(p), n, Finish(IssueEffect(s, p), PassIs(p.made.id, Active)),
         InsertLocks(p, s.attendees[p.attendee]) + {Lock(HashSlot(p.made.hash), false)})
  }

  lemma IssueFindsNone(s: Store, q: RedeemInput, p: PassInput, n: Attempt, a: Peer)
    requires Issuable(s, q, p)
    ensures var holder := s.attendees[p.attendee];
            Leads(s, Changing(p, n, PActive(p.attendee, holder, p.made), HolderLocks(p.attendee, holder)),
                  Changing(p, n, PInsert(p.attendee, holder, None, p.made), HolderLocks(p.attendee, holder)), a)
  {
  }

  lemma IssueInserts(s: Store, q: RedeemInput, p: PassInput, n: Attempt, a: Peer)
    requires Issuable(s, q, p) && a.held == AtDoor(q)
    ensures var holder := s.attendees[p.attendee];
            Leads(s, Changing(p, n, PInsert(p.attendee, holder, None, p.made), HolderLocks(p.attendee, holder)),
                  Changing(p, n, PHash(p.attendee, holder, None, p.made), InsertLocks(p, holder)), a)
  {
  }

  lemma IssueEnds(s: Store, q: RedeemInput, p: PassInput, n: Attempt, a: Peer)
    requires Issuable(s, q, p) && a.held == AtDoor(q)
    ensures var holder := s.attendees[p.attendee];
            Leads(s, Changing(p, n, PHash(p.attendee, holder, None, p.made), InsertLocks(p, holder)),
                  IssueDone(s, p, n), a)
  {
  }

  lemma IssueFinishes(s: Store, q: RedeemInput, p: PassInput, n: Attempt, a: Peer, run: seq<State>)
    returns (run': seq<State>)
    requires Issuable(s, q, p) && a.held == AtDoor(q)
    requires var holder := s.attendees[p.attendee];
             Scene(run, s, a, Changing(p, n, PActive(p.attendee, holder, p.made), HolderLocks(p.attendee, holder)))
    ensures Scene(run', s, a, IssueDone(s, p, n))
    ensures run'[0] == run[0] && run'[|run'| - 1].history == run[|run| - 1].history
  {
    var holder := s.attendees[p.attendee];
    IssueFindsNone(s, q, p, n, a);
    IssueInserts(s, q, p, n, a);
    IssueEnds(s, q, p, n, a);
    run' := CompetesThrice(run, s, a,
                           Changing(p, n, PActive(p.attendee, holder, p.made), HolderLocks(p.attendee, holder)),
                           Changing(p, n, PInsert(p.attendee, holder, None, p.made), HolderLocks(p.attendee, holder)),
                           Changing(p, n, PHash(p.attendee, holder, None, p.made), InsertLocks(p, holder)),
                           IssueDone(s, p, n));
  }

  lemma ScanFinishes(st: State, q: RedeemInput, n: Attempt, cp: Checkpoint)
    requires st.sessions.Keys == {0} && Is(st, 0, Unknown(q, n, cp)) && q.key !in st.store.ledger
    ensures Moves(st, Advanced(st, 0))
    ensures Advanced(st, 0).sessions.Keys == {0}
    ensures var x := Advanced(st, 0).sessions[0];
            var claim := Claim(InvalidPass, None, 0);
            x.call == Redeem(q) && x.n == n
                && x.next == Finish(ScanEffect(q, n, cp, claim), Scan(ScanResult(q, n, cp, claim)))
  {
    AdvancedMoves(st, 0, Unknown(q, n, cp));
  }

  lemma Committed(run: seq<State>, id: Id) returns (run': seq<State>)
    requires IsRun(run) && id in run[|run| - 1].sessions && run[|run| - 1].sessions[id].next.Finish?
    ensures var st := run[|run| - 1];
            var x := st.sessions[id];
            var commit := Commit(x.call, x.n, x.next.effect, x.next.reply, st.store);
            var last := State(Apply(st.store, x.next.effect), st.sessions - {id}, st.history + [commit]);
            IsRun(run') && run' == run + [last]
  {
    var st := run[|run| - 1];
    var x := st.sessions[id];
    var st' := State(Apply(st.store, x.next.effect), st.sessions - {id},
                     st.history + [Commit(x.call, x.n, x.next.effect, x.next.reply, st.store)]);
    assert Commits(st, st', id);
    run' := Extended(run, st');
  }

  lemma IssueCommits(s: Store, q: RedeemInput, n: Attempt, p: PassInput, n': Attempt) returns (run: seq<State>)
    requires Issuable(s, q, p)
    ensures IsRun(run) && run[0].store == s
    ensures var st := run[|run| - 1];
            && st.store == Apply(s, IssueEffect(s, p)) && st.sessions.Keys == {0}
            && Is(st, 0, Unknown(q, n, s.checkpoints[q.checkpoint])) && |st.history| == 1
  {
    var a := Unknown(q, n, s.checkpoints[q.checkpoint]);
    run := Opened(s, Redeem(q), n, OnPass(p), n');
    run := ScanReachesPass(s, q, n, Changing(p, n', PAttendee(p.attendee), {}), run);
    run := ChangeReachesGate(s, q, p, n', p.attendee, a, run);
    run := IssueFinishes(s, q, p, n', a, run);
    run := Committed(run, 1);
  }

  lemma IssuedIsFound(s: Store, q: RedeemInput, p: PassInput)
    requires Issuable(s, q, p)
    ensures Lookup(Apply(s, IssueEffect(s, p)), q.hash) == Some(Active)
  {
  }

  /** Whenever a pass can be issued, some interleaving answers invalid_pass to a scan of it although the pass is
      committed and active when the scan commits. */
  lemma ScanCanBeOutrun(s: Store, q: RedeemInput, n: Attempt, p: PassInput, n': Attempt) returns (run: seq<State>)
    requires Issuable(s, q, p)
    ensures IsRun(run) && run[0].store == s
    ensures var history := run[|run| - 1].history;
            |history| == 2 && Outrun(history[1]) && Lookup(history[1].pre, q.hash) == Some(Active)
  {
    run := IssueCommits(s, q, n, p, n');
    IssuedIsFound(s, q, p);
    var st := run[|run| - 1];
    ScanFinishes(st, q, n, s.checkpoints[q.checkpoint]);
    run := Extended(run, Advanced(st, 0));
    run := Committed(run, 0);
  }

  // ---- A refusal overtaken by its own key ------------------------------------------------

  /** A scan of a missing checkpoint, and another with the same key that can be answered. */
  ghost predicate SharingKey(s: Store, q: RedeemInput, q': RedeemInput) {
    && q.key == q'.key && q.key !in s.ledger
    && q.checkpoint !in s.checkpoints && q'.checkpoint in s.checkpoints && !q'.validQR
  }

  lemma ScanLooks(s: Store, q: RedeemInput, n: Attempt, other: Peer)
    requires q.key !in s.ledger
    ensures Leads(s, Scanning(q, n, RFind, {}), Scanning(q, n, RCheckpoint, {}), other)
  {
  }

  lemma MalformedScanEnds(s: Store, q: RedeemInput, n: Attempt, other: Peer)
    requires q.key !in s.ledger && q.checkpoint in s.checkpoints && !q.validQR && other.held == {}
    ensures var cp := s.checkpoints[q.checkpoint];
            var claim := Claim(InvalidPass, None, 0);
            && Leads(s, Scanning(q, n, RCheckpoint, {}), Scanning(q, n, RKey(cp, claim), AtDoor(q)), other)
            && Leads(s, Scanning(q, n, RKey(cp, claim), AtDoor(q)),
                     Peer(Redeem(q), n, Finish(ScanEffect(q, n, cp, claim), Scan(ScanResult(q, n, cp, claim))),
                          AtDoor(q) + {Lock(KeySlot(q.key), false)}), other)
  {
  }

  lemma KeyIsCommitted(s: Store, q: RedeemInput, n: Attempt, q': RedeemInput, n': Attempt)
    returns (run: seq<State>)
    requires SharingKey(s, q, q')
    ensures IsRun(run) && run[0].store == s
    ensures var st := run[|run| - 1];
            && st.sessions.Keys == {0} && Is(st, 0, Scanning(q, n, RCheckpoint, {}))
            && q.key in st.store.ledger && q.checkpoint !in st.store.checkpoints
  {
    var cp := s.checkpoints[q'.checkpoint];
    var claim := Claim(InvalidPass, None, 0);
    var a := Scanning(q, n, RCheckpoint, {});
    run := Opened(s, Redeem(q), n, Redeem(q'), n');
    ScanLooks(s, q, n, Scanning(q', n', RFind, {}));
    run := Scans(run, s, Scanning(q, n, RFind, {}), Scanning(q', n', RFind, {}));
    ScanLooks(s, q', n', a);
    MalformedScanEnds(s, q', n', a);
    run := CompetesThrice(run, s, a, Scanning(q', n', RFind, {}), Scanning(q', n', RCheckpoint, {}),
                          Scanning(q', n', RKey(cp, claim), AtDoor(q')),
                          Peer(Redeem(q'), n',
                               Finish(ScanEffect(q', n', cp, claim), Scan(ScanResult(q', n', cp, claim))),
                               AtDoor(q') + {Lock(KeySlot(q'.key), false)}));
    run := Committed(run, 1);
  }

  lemma MissingCheckpoint(st: State, q: RedeemInput, n: Attempt)
    requires st.sessions.Keys == {0} && Is(st, 0, Scanning(q, n, RCheckpoint, {}))
    requires q.checkpoint !in st.store.checkpoints
    ensures Advances(st, Advanced(st, 0), 0) && Moves(st, Advanced(st, 0))
    ensures Advanced(st, 0).sessions[0].next == Fail(CheckpointNotFound)
  {
    AdvancedMoves(st, 0, Scanning(q, n, RCheckpoint, {}));
    assert Advances(st, Advanced(st, 0), 0);
  }

  /** A scan of a missing checkpoint can be refused for that although its key is by then in the ledger, where an
      atomic run would report the conflict. */
  lemma RefusalCanBeOvertaken(s: Store, q: RedeemInput, n: Attempt, q': RedeemInput, n': Attempt)
    returns (run: seq<State>)
    requires SharingKey(s, q, q')
    ensures IsRun(run) && run[0].store == s && |run| > 1
    ensures var st, st' := run[|run| - 2], run[|run| - 1];
            && Advances(st, st', 0) && st.sessions[0].call == Redeem(q) && st'.sessions[0].next.Fail?
            && Overtaken(st.store, Redeem(q), st'.sessions[0].next.error)
  {
    run := KeyIsCommitted(s, q, n, q', n');
    var st := run[|run| - 1];
    MissingCheckpoint(st, q, n);
    run := Extended(run, Advanced(st, 0));
  }
}
