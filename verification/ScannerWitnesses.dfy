/** A run of screen, network and server in which one lookup leads to two redemptions: checkpoints are switched over
    under it, and reloads move the selection away and back. */
module ScannerWitnesses {
  import opened Domain
  import opened Protocol
  import opened Text
  import opened Transactions
  import opened Specs
  import opened Machine
  import opened LedgerInvariants
  import opened Reachable
  import opened ScannerClient

  // ---- Switching checkpoints ---------------------------------------------------------------------

  /** A checkpoint as the service writes it. */
  predicate Written(s: Store, c: Id)
    requires c in s.checkpoints
  {
    var cp := s.checkpoints[c];
    && ValidCheckpoint(cp) && Tidy(cp) == cp
    && (cp.activity.Some? ==> Get(s.activities, cp.activity.value) == Some(cp.cycle))
  }

  predicate AllWritten(s: Store) {
    forall c :: c in s.checkpoints ==> Written(s, c)
  }

  /** Only switches of checkpoints, and their audit events, lie between two stores. */
  predicate Switched(s: Store, s': Store) {
    && s' == s.(checkpoints := s'.checkpoints, audits := s'.audits) && s'.checkpoints.Keys == s.checkpoints.Keys
    && (forall c :: c in s.checkpoints ==> s'.checkpoints[c] == s.checkpoints[c].(active := s'.checkpoints[c].active))
  }

  lemma SwitchedMore(s: Store, s1: Store, s2: Store)
    requires Switched(s, s1) && Switched(s1, s2)
    ensures Switched(s, s2)
  {
  }

  lemma StillWritten(s: Store, s': Store)
    requires AllWritten(s) && Switched(s, s')
    ensures AllWritten(s')
  {
    forall c | c in s'.checkpoints ensures Written(s', c) {
      assert Written(s, c);
    }
  }

  function Switch(s: Store, c: Id, on: bool): CheckpointInput
    requires c in s.checkpoints
  {
    CheckpointInput(0, c, s.checkpoints[c].(active := on))
  }

  /** An organizer's edit switches one checkpoint. */
  lemma SwitchWrites(s: Store, c: Id, on: bool)
    requires SlugsIndexed(s.checkpoints, s.slugs) && c in s.checkpoints && Written(s, c)
    ensures var done := UpdateAtomically(s, Switch(s, c, on));
            && done.Finish?
            && Apply(s, done.effect)
               == s.(checkpoints := s.checkpoints[c := s.checkpoints[c].(active := on)],
                     audits := s.audits + [CheckpointUpdated(0, c)])
  {
    var at := (s.checkpoints[c].cycle, s.checkpoints[c].slug);
    assert (s.slugs - {at})[at := c] == s.slugs;
  }

  lemma SwitchCommits(s: Store, c: Id, on: bool, n: Attempt) returns (commit: Commit)
    requires SlugsIndexed(s.checkpoints, s.slugs) && c in s.checkpoints && Written(s, c)
    ensures Serial(commit) && commit.pre == s && commit.call.UpdateCheckpoint?
    ensures Switched(s, Post(commit))
    ensures Post(commit).checkpoints == s.checkpoints[c := s.checkpoints[c].(active := on)]
  {
    SwitchWrites(s, c, on);
    var done := UpdateAtomically(s, Switch(s, c, on));
    commit := Commit(UpdateCheckpoint(Switch(s, c, on)), n, done.effect, done.reply, s);
  }

  lemma Switches(run: seq<World>, c: Id, on: bool, n: Attempt) returns (run': seq<World>)
    requires IsSession(run) && c in run[|run| - 1].store.checkpoints && Written(run[|run| - 1].store, c)
    ensures IsSession(run') && run'[0] == run[0]
    ensures var w, w' := run[|run| - 1], run'[|run'| - 1];
            && w' == w.(store := w'.store) && Switched(w.store, w'.store)
            && w'.store.checkpoints == w.store.checkpoints[c := w.store.checkpoints[c].(active := on)]
  {
    var w := run[|run| - 1];
    SessionKeeps(run, |run| - 1);
    var commit := SwitchCommits(w.store, c, on, n);
    var w' := w.(store := Post(commit));
    assert Interferes(w, w', commit);
    run' := Extended(run, w');
  }

  ghost predicate Alone(s: Store, c: Id) {
    IsActive(s, c) && forall other :: IsActive(s, other) ==> other == c
  }

  function OthersActive(s: Store, c: Id): set<Id> {
    set other | other in s.checkpoints && IsActive(s, other) && other != c
  }

  lemma LastIsAlone(s: Store, s': Store, c: Id)
    requires OthersActive(s, c) == {} && c in s.checkpoints
    requires s'.checkpoints == s.checkpoints[c := s.checkpoints[c].(active := true)]
    ensures Alone(s', c)
  {
    assert forall other :: IsActive(s', other) && other != c ==> other in OthersActive(s, c);
  }

  lemma OneFewer(s: Store, s': Store, c: Id, other: Id)
    requires other in OthersActive(s, c)
    requires s'.checkpoints == s.checkpoints[other := s.checkpoints[other].(active := false)]
    ensures OthersActive(s', c) == OthersActive(s, c) - {other}
  {
  }

  lemma SwitchesOff(run: seq<World>, c: Id, other: Id, n: Attempt) returns (run': seq<World>)
    requires IsSession(run) && AllWritten(run[|run| - 1].store) && other in OthersActive(run[|run| - 1].store, c)
    ensures IsSession(run') && run'[0] == run[0]
    ensures var w, w' := run[|run| - 1], run'[|run'| - 1];
            && w' == w.(store := w'.store) && Switched(w.store, w'.store) && AllWritten(w'.store)
            && OthersActive(w'.store, c) == OthersActive(w.store, c) - {other}
  {
    run' := Switches(run, other, false, n);
    StillWritten(run[|run| - 1].store, run'[|run'| - 1].store);
    OneFewer(run[|run| - 1].store, run'[|run'| - 1].store, c, other);
  }

  /** Organizers leave one checkpoint as the only active one. */
  lemma {:induction false} LeavesAlone(run: seq<World>, c: Id, n: Attempt) returns (run': seq<World>)
    requires IsSession(run) && c in run[|run| - 1].store.checkpoints && AllWritten(run[|run| - 1].store)
    ensures IsSession(run') && run'[0] == run[0]
    ensures var w, w' := run[|run| - 1], run'[|run'| - 1];
            w' == w.(store := w'.store) && Switched(w.store, w'.store) && Alone(w'.store, c)
    decreases OthersActive(run[|run| - 1].store, c)
  {
    var s := run[|run| - 1].store;
    if other :| other in OthersActive(s, c) {
      run' := SwitchesOff(run, c, other, n);
      var s1 := run'[|run'| - 1].store;
      run' := LeavesAlone(run', c, n);
      SwitchedMore(s, s1, run'[|run'| - 1].store);
    } else {
      run' := Switches(run, c, true, n);
      LastIsAlone(s, run'[|run'| - 1].store, c);
    }
  }

  // ---- Steps of the screen -------------------------------------------------------------------------

  lemma Extended(run: seq<World>, w: World) returns (run': seq<World>)
    requires IsSession(run) && Steps(run[|run| - 1], w)
    ensures IsSession(run') && run' == run + [w]
  {
    run' := run + [w];
    forall i | 0 <= i < |run'| - 1 ensures Steps(run'[i], run'[i + 1]) {
      assert run'[i] == run[i];
      if i < |run| - 1 { assert run'[i + 1] == run[i + 1]; }
    }
  }

  /** A lookup with one request sent, whose outcome is not known. */
  predicate Unsure(w: World, hash: Hash, request: Request) {
    && !w.screen.over && !w.screen.busy && w.screen.token == Some(hash) && w.screen.lookup == Some(hash)
    && request.hash == hash && w.screen.checkpoint == Some(request.checkpoint) && w.screen.retryable == Some(request)
    && request.checkpoint in w.screen.checkpoints && request in w.sent && request.key in w.issued
    && w.issued[request.key] == w.lookups
  }

  function Asks(c: Screen, key: Id): Request
    requires c.lookup.Some? && c.checkpoint.Some?
  {
    Request(c.lookup.value, c.checkpoint.value, key)
  }

  /** A confirmation would make a new key. */
  predicate Ready(w: World, key: Id) {
    && !w.screen.over && !w.screen.busy && w.screen.lookup.Some? && w.screen.lookup == w.screen.token
    && w.screen.checkpoint.Some? && w.screen.checkpoint.value in w.screen.checkpoints
    && key !in w.issued && key !in w.store.ledger
    && (w.screen.retryable.Some? ==> w.screen.retryable.value.checkpoint != w.screen.checkpoint.value)
  }

  function Asking(w: World, key: Id): World
    requires Ready(w, key)
  {
    var request := Asks(w.screen, key);
    var c := OnSend(w.screen, Some(request));
    w.(screen := c, inflight := w.inflight[c.sequence := Sending(request)], sent := w.sent + {request},
       issued := w.issued[key := w.lookups], last := Some(request))
  }

  lemma ConfirmsNew(w: World, key: Id)
    requires Ready(w, key)
    ensures Confirms(w, Asking(w, key), key)
  {
  }

  lemma LosesReply(w: World, key: Id) returns (w': World)
    requires Ready(w, key)
    ensures RedeemReturns(Asking(w, key), w', w.screen.sequence + 1, Failed)
    ensures w' == Asking(w, key).(screen := w'.screen, inflight := w'.inflight)
    ensures w'.screen == w.screen.(retryable := Some(Asks(w.screen, key)), sequence := w.screen.sequence + 1)
  {
    var w1 := Asking(w, key);
    w' := w1.(screen := OnRedeemReply(w1.screen, w1.screen.sequence, Asks(w.screen, key), Failed),
              inflight := w1.inflight - {w1.screen.sequence});
  }

  /** From a shown lookup, a confirmation whose reply is lost. */
  lemma ConfirmsInVain(run: seq<World>, key: Id) returns (run': seq<World>)
    requires IsSession(run) && Ready(run[|run| - 1], key)
    ensures IsSession(run') && run'[0] == run[0]
    ensures var w, w' := run[|run| - 1], run'[|run'| - 1];
            && Unsure(w', w.screen.lookup.value, Asks(w.screen, key)) && w'.store == w.store && w'.lookups == w.lookups
            && w'.issued == w.issued[key := w.lookups] && w'.sent == w.sent + {Asks(w.screen, key)}
  {
    var w := run[|run| - 1];
    ConfirmsNew(w, key);
    run' := Extended(run, Asking(w, key));
    var w2 := LosesReply(w, key);
    run' := Extended(run', w2);
  }


  /** The checkpoints are listed and the list arrives at once. */
  lemma Reloads(run: seq<World>, listed: seq<Id>) returns (run': seq<World>)
    requires IsSession(run) && !run[|run| - 1].screen.over && Lists(run[|run| - 1].store, listed)
    ensures IsSession(run') && run'[0] == run[0]
    ensures var w, w' := run[|run| - 1], run'[|run'| - 1];
            && w' == w.(screen := OnList(w.screen, listed), listing := None, changed := w'.changed)
            && (w.screen.lookup.None? ==> w'.changed == w.changed)
  {
    var w := run[|run| - 1];
    var w1 := w.(listing := Some(listed));
    assert Fetches(w, w1, listed);
    run' := Extended(run, w1);
    var c := OnList(w.screen, listed);
    var w2 := w1.(screen := c, listing := None,
                  changed := if w.screen.lookup.Some? && c.checkpoint != w.screen.checkpoint
                             then w.changed + [w.lookups] else w.changed);
    assert Loads(w1, w2);
    run' := Extended(run', w2);
  }

  /** A sequence of the elements of a set. */
  lemma {:induction false} ListOf(cs: set<Id>) returns (listed: seq<Id>)
    ensures forall c :: c in listed <==> c in cs
    ensures forall i, j :: 0 <= i < j < |listed| ==> listed[i] != listed[j]
  {
    if cs == {} {
      listed := [];
    } else {
      var c :| c in cs;
      listed := ListOf(cs - {c});
      listed := listed + [c];
    }
  }

  lemma ActiveList(s: Store) returns (listed: seq<Id>)
    ensures Lists(s, listed)
  {
    listed := ListOf(set c | c in s.checkpoints && IsActive(s, c));
  }

  /** The screen opens, lists the checkpoints, and an active one is chosen. */
  lemma Chooses(w0: World, a: Id) returns (run: seq<World>)
    requires Begins(w0) && IsActive(w0.store, a)
    ensures IsSession(run) && run[0] == w0
    ensures var w := run[|run| - 1];
            && w == w0.(screen := w.screen) && a in w.screen.checkpoints
            && w.screen == Opening().(checkpoints := w.screen.checkpoints, checkpoint := Some(a))
  {
    var listed := ActiveList(w0.store);
    run := Reloads([w0], listed);
    var w := run[|run| - 1];
    var w' := w.(screen := Cleared(w.screen).(checkpoint := Some(a)));
    assert Clears(w, w', Some(a));
    run := Extended(run, w');
  }

  lemma TypesAndAsks(run: seq<World>, hash: Hash) returns (run': seq<World>)
    requires IsSession(run) && !run[|run| - 1].screen.over && !run[|run| - 1].screen.busy
    ensures IsSession(run') && run'[0] == run[0]
    ensures var w, w' := run[|run| - 1], run'[|run'| - 1];
            && w' == w.(screen := w'.screen, inflight := w.inflight[w'.screen.sequence := Looking(hash, None)])
            && w'.screen == OnLookup(OnType(w.screen, Some(hash)), Some(hash))
  {
    var w := run[|run| - 1];
    var w1 := w.(screen := OnType(w.screen, Some(hash)));
    assert Types(w, w1, Some(hash));
    run' := Extended(run, w1);
    var c := OnLookup(w1.screen, Some(hash));
    var w2 := w1.(screen := c, inflight := w1.inflight[c.sequence := Looking(hash, None)]);
    assert LooksUp(w1, w2);
    run' := Extended(run', w2);
  }

  /** The server finds an active pass. */
  lemma IsAnswered(run: seq<World>, hash: Hash) returns (run': seq<World>)
    requires IsSession(run) && Lookup(run[|run| - 1].store, hash) == Some(Active)
    requires var w := run[|run| - 1];
             w.screen.sequence in w.inflight && w.inflight[w.screen.sequence] == Looking(hash, None)
    ensures IsSession(run') && run'[0] == run[0]
    ensures var w, w' := run[|run| - 1], run'[|run'| - 1];
            w' == w.(inflight := w.inflight[w.screen.sequence := Looking(hash, Some(PassFound))])
  {
    var w := run[|run| - 1];
    var w1 := w.(inflight := w.inflight[w.screen.sequence := Looking(hash, Some(PassFound))]);
    assert AnswersLookup(w, w1, w.screen.sequence);
    run' := Extended(run, w1);
  }

  /** And its answer arrives. */
  lemma IsFound(run: seq<World>, hash: Hash) returns (run': seq<World>)
    requires IsSession(run) && !run[|run| - 1].screen.over && Lookup(run[|run| - 1].store, hash) == Some(Active)
    requires var w := run[|run| - 1];
             w.screen.sequence in w.inflight && w.inflight[w.screen.sequence] == Looking(hash, None)
    ensures IsSession(run') && run'[0] == run[0]
    ensures var w, w' := run[|run| - 1], run'[|run'| - 1];
            w' == w.(screen := w.screen.(busy := false, lookup := Some(hash)),
                     inflight := w.inflight - {w.screen.sequence}, lookups := w.lookups + 1, last := None)
  {
    var w := run[|run| - 1];
    run' := IsAnswered(run, hash);
    var w1 := run'[|run'| - 1];
    assert w1.inflight - {w.screen.sequence} == w.inflight - {w.screen.sequence};
    var w2 := w1.(screen := OnLookupReply(w1.screen, w.screen.sequence, hash, PassFound),
                  inflight := w.inflight - {w.screen.sequence}, lookups := w.lookups + 1, last := None);
    assert LookupReturns(w1, w2, w.screen.sequence, PassFound);
    run' := Extended(run', w2);
  }

  /** From the start, a pass is looked up with an active checkpoint selected. */
  lemma LooksUpPass(w0: World, hash: Hash, a: Id) returns (run: seq<World>)
    requires Begins(w0) && IsActive(w0.store, a) && Lookup(w0.store, hash) == Some(Active)
    ensures IsSession(run) && run[0] == w0
    ensures var w := run[|run| - 1];
            && !w.screen.over && !w.screen.busy && w.screen.token == Some(hash) && w.screen.lookup == Some(hash)
            && w.screen.retryable.None? && w.screen.checkpoint == Some(a) && a in w.screen.checkpoints
            && w.issued == map[] && w.sent == {} && w.store == w0.store
  {
    run := Chooses(w0, a);
    run := TypesAndAsks(run, hash);
    run := IsFound(run, hash);
  }

  // ---- Reloads under a lookup ------------------------------------------------------------------------

  /** Another checkpoint becomes the only active one, and a reload selects it. */
  lemma MovesSelection(run: seq<World>, c: Id, n: Attempt) returns (run': seq<World>)
    requires IsSession(run) && !run[|run| - 1].screen.over
    requires c in run[|run| - 1].store.checkpoints && AllWritten(run[|run| - 1].store)
    ensures IsSession(run') && run'[0] == run[0]
    ensures var w, w' := run[|run| - 1], run'[|run'| - 1];
            && w' == w.(store := w'.store, screen := w'.screen, listing := None, changed := w'.changed)
            && w'.screen == w.screen.(checkpoints := [c], checkpoint := Some(c))
            && Switched(w.store, w'.store) && IsActive(w'.store, c)
  {
    run' := LeavesAlone(run, c, n);
    run' := Reloads(run', [c]);
  }

  /** From a lookup whose last request is unanswered, the selection moves and another request is sent in vain. */
  lemma MovesAndConfirms(run: seq<World>, hash: Hash, first: Request, c: Id, key: Id, n: Attempt)
    returns (run': seq<World>)
    requires IsSession(run) && Unsure(run[|run| - 1], hash, first) && c != first.checkpoint
    requires key !in run[|run| - 1].issued && key !in run[|run| - 1].store.ledger
    requires c in run[|run| - 1].store.checkpoints && AllWritten(run[|run| - 1].store)
    ensures IsSession(run') && run'[0] == run[0]
    ensures var w, w' := run[|run| - 1], run'[|run'| - 1];
            && Unsure(w', hash, Request(hash, c, key)) && w'.lookups == w.lookups && w.sent <= w'.sent
            && w'.issued == w.issued[key := w.lookups]
            && Switched(w.store, w'.store) && IsActive(w'.store, c)
  {
    run' := MovesSelection(run, c, n);
    run' := ConfirmsInVain(run', key);
  }

  /** The selection moves to another checkpoint and back, each time sending a request. */
  lemma MovesAwayAndBack(run: seq<World>, hash: Hash, first: Request, b: Id, key: Id, key': Id, n: Attempt)
    returns (run': seq<World>)
    requires IsSession(run) && Unsure(run[|run| - 1], hash, first) && b != first.checkpoint && key != key'
    requires key !in run[|run| - 1].issued && key !in run[|run| - 1].store.ledger
    requires key' !in run[|run| - 1].issued && key' !in run[|run| - 1].store.ledger
    requires b in run[|run| - 1].store.checkpoints && first.checkpoint in run[|run| - 1].store.checkpoints
    requires AllWritten(run[|run| - 1].store)
    ensures IsSession(run') && run'[0] == run[0]
    ensures var w, w' := run[|run| - 1], run'[|run'| - 1];
            && Unsure(w', hash, Request(hash, first.checkpoint, key')) && w'.lookups == w.lookups && w.sent <= w'.sent
            && w'.issued == w.issued[key := w.lookups][key' := w.lookups]
            && Switched(w.store, w'.store) && IsActive(w'.store, first.checkpoint)
  {
    var s := run[|run| - 1].store;
    run' := MovesAndConfirms(run, hash, first, b, key, n);
    var s1 := run'[|run'| - 1].store;
    StillWritten(s, s1);
    run' := MovesAndConfirms(run', hash, Request(hash, b, key), first.checkpoint, key', n);
    SwitchedMore(s, s1, run'[|run'| - 1].store);
  }

  /** A lookup with a first request sent, whose outcome the screen does not know. */
  lemma FirstConfirmed(w0: World, hash: Hash, a: Id, key: Id) returns (run: seq<World>)
    requires Begins(w0) && IsActive(w0.store, a) && Lookup(w0.store, hash) == Some(Active) && key !in w0.store.ledger
    ensures IsSession(run) && run[0] == w0
    ensures var w := run[|run| - 1];
            && Unsure(w, hash, Request(hash, a, key)) && w.store == w0.store && w.issued == map[key := w.lookups]
  {
    run := LooksUpPass(w0, hash, a);
    run := ConfirmsInVain(run, key);
  }

  predicate NewKeys(s: Store, keys: (Id, Id, Id)) {
    && keys.0 != keys.1 && keys.1 != keys.2 && keys.0 != keys.2
    && keys.0 !in s.ledger && keys.1 !in s.ledger && keys.2 !in s.ledger
  }

  /** If organizers switch two checkpoints back and forth and the screen reloads under a lookup whose request is
      unanswered, the same code is sent to the same checkpoint under two different keys. */
  lemma ReloadsCanSplitKeys(w0: World, hash: Hash, a: Id, b: Id, keys: (Id, Id, Id), n: Attempt)
    returns (run: seq<World>)
    requires Begins(w0) && AllWritten(w0.store) && IsActive(w0.store, a) && b in w0.store.checkpoints && a != b
    requires Lookup(w0.store, hash) == Some(Active) && NewKeys(w0.store, keys)
    ensures IsSession(run) && run[0] == w0
    ensures var w := run[|run| - 1];
            && Switched(w0.store, w.store) && IsActive(w.store, a)
            && Request(hash, a, keys.0) in w.sent && Request(hash, a, keys.2) in w.sent
            && keys.0 in w.issued && keys.2 in w.issued && w.issued[keys.0] == w.issued[keys.2]
  {
    run := FirstConfirmed(w0, hash, a, keys.0);
    run := MovesAwayAndBack(run, hash, Request(hash, a, keys.0), b, keys.1, keys.2, n);
  }

  // ---- Two redemptions for one lookup ------------------------------------------------------------

  /** A pass that is due a number of times at a checkpoint. */
  ghost predicate Usable(s: Store, pass: Id, hash: Hash, checkpoint: Id, now: Time, uses: nat) {
    && Get(s.qrIndex, hash) == Some(pass) && Linked(s, pass) && Eligible(s, pass) && s.passes[pass].status.Active?
    && checkpoint in s.checkpoints
    && var cp := s.checkpoints[checkpoint];
    var holder := s.passes[pass].attendee;
    && cp.active && cp.cycle == s.attendees[holder].cycle
    && (cp.opensAt != None ==> cp.opensAt.value <= now) && (cp.closesAt != None ==> now < cp.closesAt.value)
    && Count(s.redemptions, holder, checkpoint) + uses <= Allowance(s, holder, checkpoint)
  }

  function Delivered(scanner: Id, request: Request): RedeemInput {
    RedeemInput(scanner, request.key, request.checkpoint, request.hash, true)
  }

  lemma UsableIsRedeemed(s: Store, pass: Id, request: Request, scanner: Id, n: Attempt, uses: nat)
    requires Usable(s, pass, request.hash, request.checkpoint, n.now, uses) && uses > 0
    requires request.key !in s.ledger && !HasRedemption(s.redemptions, n.redemption)
    ensures var done := RedeemAtomically(s, Delivered(scanner, request), n);
            && done.Finish? && done.effect.LogScan? && done.effect.key == request.key && done.effect.entry.Some?
            && done.effect.entry.value.key == request.key && done.effect.entry.value.id == n.redemption
            && done.effect.entry.value.attendee == s.passes[pass].attendee
            && done.effect.entry.value.checkpoint == request.checkpoint
  {
  }

  lemma StillUsable(s: Store, e: Effect, pass: Id, hash: Hash, checkpoint: Id, now: Time, uses: nat)
    requires e.LogScan? && e.entry.Some? && uses > 0 && Usable(s, pass, hash, checkpoint, now, uses)
    ensures Usable(Apply(s, e), pass, hash, checkpoint, now, uses - 1)
  {
    CountAppend(s.redemptions, e.entry.value, s.passes[pass].attendee, checkpoint);
  }

  lemma MadeAppend(rs: seq<Redemption>, r: Redemption, keys: set<Id>)
    ensures Made(rs + [r], keys) == Made(rs, keys) + (if r.key in keys then 1 else 0)
  {
    assert (rs + [r])[..|rs|] == rs;
  }

  /** A request in the network reaches the server and is redeemed. */
  lemma IsServed(run: seq<World>, request: Request, pass: Id, scanner: Id, n: Attempt, uses: nat)
    returns (run': seq<World>, r: Redemption)
    requires IsSession(run) && request in run[|run| - 1].sent && uses > 0
    requires var s := run[|run| - 1].store;
             && Usable(s, pass, request.hash, request.checkpoint, n.now, uses)
             && request.key !in s.ledger && !HasRedemption(s.redemptions, n.redemption)
    ensures IsSession(run') && run'[0] == run[0] && r.key == request.key && r.id == n.redemption
    ensures var w, w' := run[|run| - 1], run'[|run'| - 1];
            && w' == w.(store := w'.store) && w'.store.redemptions == w.store.redemptions + [r]
            && w'.store.ledger.Keys == w.store.ledger.Keys + {request.key}
            && w'.store.checkpoints == w.store.checkpoints && w'.store.activities == w.store.activities
            && Usable(w'.store, pass, request.hash, request.checkpoint, n.now, uses - 1)
  {
    var w := run[|run| - 1];
    UsableIsRedeemed(w.store, pass, request, scanner, n, uses);
    var done := RedeemAtomically(w.store, Delivered(scanner, request), n);
    var c := Commit(Redeem(Delivered(scanner, request)), n, done.effect, done.reply, w.store);
    r := done.effect.entry.value;
    StillUsable(w.store, done.effect, pass, request.hash, request.checkpoint, n.now, uses);
    var w' := w.(store := Post(c));
    assert Serves(w, w', request, c);
    run' := Extended(run, w');
  }

  lemma MadeTwice(rs: seq<Redemption>, r: Redemption, r': Redemption, keys: set<Id>)
    requires r.key in keys && r'.key in keys
    ensures Made(rs + [r] + [r'], keys) >= 2
  {
    MadeAppend(rs, r, keys);
    MadeAppend(rs + [r], r', keys);
  }

  lemma UsableIsFound(s: Store, pass: Id, hash: Hash, checkpoint: Id, now: Time, uses: nat)
    requires Usable(s, pass, hash, checkpoint, now, uses)
    ensures Lookup(s, hash) == Some(Active) && IsActive(s, checkpoint)
  {
  }

  lemma SwitchedUsable(s: Store, s': Store, pass: Id, hash: Hash, checkpoint: Id, now: Time, uses: nat)
    requires Usable(s, pass, hash, checkpoint, now, uses) && Switched(s, s') && IsActive(s', checkpoint)
    ensures Usable(s', pass, hash, checkpoint, now, uses)
  {
  }

  lemma ScanLeavesWritten(s: Store, s': Store)
    requires AllWritten(s) && s'.checkpoints == s.checkpoints && s'.activities == s.activities
    ensures AllWritten(s')
  {
    forall c | c in s'.checkpoints ensures Written(s', c) {
      assert Written(s, c);
    }
  }

  /** The first request is redeemed, and its reply is lost. */
  lemma FirstRedeemed(w0: World, hash: Hash, a: Id, key: Id, pass: Id, scanner: Id, n: Attempt)
    returns (run: seq<World>, r: Redemption)
    requires Begins(w0) && AllWritten(w0.store) && key !in w0.store.ledger
    requires Usable(w0.store, pass, hash, a, n.now, 2) && !HasRedemption(w0.store.redemptions, n.redemption)
    ensures IsSession(run) && run[0] == w0 && r.key == key && r.id == n.redemption
    ensures var w := run[|run| - 1];
            && Unsure(w, hash, Request(hash, a, key)) && w.issued == map[key := w.lookups]
            && AllWritten(w.store) && w.store.checkpoints == w0.store.checkpoints
            && w.store.redemptions == w0.store.redemptions + [r] && w.store.ledger.Keys == w0.store.ledger.Keys + {key}
            && Usable(w.store, pass, hash, a, n.now, 1)
  {
    UsableIsFound(w0.store, pass, hash, a, n.now, 2);
    run := FirstConfirmed(w0, hash, a, key);
    run, r := IsServed(run, Request(hash, a, key), pass, scanner, n, 2);
    ScanLeavesWritten(w0.store, run[|run| - 1].store);
  }

  /** Then the selection moves away and back. */
  lemma RedeemedAndMoved(
    w0: World, hash: Hash, a: Id, b: Id, keys: (Id, Id, Id), pass: Id, scanner: Id, n: Attempt)
    returns (run: seq<World>, r: Redemption)
    requires Begins(w0) && AllWritten(w0.store) && b in w0.store.checkpoints && a != b && NewKeys(w0.store, keys)
    requires Usable(w0.store, pass, hash, a, n.now, 2) && !HasRedemption(w0.store.redemptions, n.redemption)
    ensures IsSession(run) && run[0] == w0 && r.key == keys.0 && r.id == n.redemption
    ensures var w := run[|run| - 1];
            && w.store.redemptions == w0.store.redemptions + [r] && keys.2 !in w.store.ledger
            && Usable(w.store, pass, hash, a, n.now, 1) && Request(hash, a, keys.2) in w.sent
            && keys.0 in w.issued && keys.2 in w.issued && w.issued[keys.0] == w.issued[keys.2]
  {
    run, r := FirstRedeemed(w0, hash, a, keys.0, pass, scanner, n);
    var s := run[|run| - 1].store;
    run := MovesAwayAndBack(run, hash, Request(hash, a, keys.0), b, keys.1, keys.2, n);
    SwitchedUsable(s, run[|run| - 1].store, pass, hash, a, n.now, 1);
  }

  /** The property fails: in every store in which a pass is due twice at a checkpoint and there is another checkpoint,
      one lookup of it can lead to two redemptions there. The first is made but its reply is lost; organizers switch
      the checkpoints over and back, and the screen reloads its list under the lookup each time. */
  lemma OneLookupTwoRedemptions(
    w0: World, hash: Hash, a: Id, b: Id, keys: (Id, Id, Id), pass: Id, scanner: Id, n: Attempt, n': Attempt)
    returns (run: seq<World>, lookup: nat)
    requires Begins(w0) && AllWritten(w0.store) && b in w0.store.checkpoints && a != b && NewKeys(w0.store, keys)
    requires Usable(w0.store, pass, hash, a, n.now, 2) && n'.now == n.now && n.redemption != n'.redemption
    requires !HasRedemption(w0.store.redemptions, n.redemption) && !HasRedemption(w0.store.redemptions, n'.redemption)
    ensures IsSession(run) && run[0] == w0
    ensures Made(run[|run| - 1].store.redemptions, Keys(run[|run| - 1].issued, lookup)) >= 2
  {
    var r, r';
    run, r := RedeemedAndMoved(w0, hash, a, b, keys, pass, scanner, n);
    lookup := run[|run| - 1].issued[keys.0];
    HasRedemptionAppend(w0.store.redemptions, r, n'.redemption);
    run, r' := IsServed(run, Request(hash, a, keys.2), pass, scanner, n', 1);
    MadeTwice(w0.store.redemptions, r, r', Keys(run[|run| - 1].issued, lookup));
  }
}
