/** The life of passes: one active pass per attendee, terminal ends, and successor links that always lead to an end. */
module PassInvariants {
  import opened Domain
  import opened Protocol
  import opened Transactions
  import opened Specs
  import opened Machine
  import opened LedgerInvariants

  /** The passes ever inserted, oldest first, as the audit trail tells. */
  function Issued(audits: seq<Audit>): seq<Id> {
    if audits == [] then []
    else
      var last := audits[|audits| - 1];
      Issued(audits[..|audits| - 1]) + (if last.PassIssued? || last.PassReissued? then [last.newPass] else [])
  }

  lemma IssuedAppend(audits: seq<Audit>, event: Audit)
    ensures Issued(audits + [event])
            == Issued(audits) + (if event.PassIssued? || event.PassReissued? then [event.newPass] else [])
  {
    assert (audits + [event])[..|audits|] == audits;
  }

  lemma {:induction false} IssuedOther(audits: seq<Audit>, more: seq<Audit>)
    requires forall i :: 0 <= i < |more| ==> !more[i].PassIssued? && !more[i].PassReissued?
    ensures Issued(audits + more) == Issued(audits)
  {
    if more == [] {
      assert audits + more == audits;
    } else {
      var init := more[..|more| - 1];
      IssuedOther(audits, init);
      assert audits + more == (audits + init) + [more[|more| - 1]];
      IssuedAppend(audits + init, more[|more| - 1]);
    }
  }

  /** The QR index finds exactly the stored passes. */
  predicate Indexed(passes: map<Id, Pass>, qrIndex: map<Hash, Id>) {
    && (forall p :: p in passes ==> passes[p].hash in qrIndex && qrIndex[passes[p].hash] == p)
    && (forall h :: h in qrIndex ==> qrIndex[h] in passes && passes[qrIndex[h]].hash == h)
  }

  predicate OneActive(passes: map<Id, Pass>) {
    forall p, q ::
      p in passes && q in passes && passes[p].status.Active? && passes[q].status.Active?
          && passes[p].attendee == passes[q].attendee
      ==> p == q
  }

  /** Each inserted pass is listed once. */
  predicate Listed(passes: map<Id, Pass>, issued: seq<Id>) {
    && (forall p :: p in passes ==> p in issued)
    && (forall i :: 0 <= i < |issued| ==> issued[i] in passes)
    && (forall i, j :: 0 <= i < j < |issued| ==> issued[i] != issued[j])
  }

  /** A pass is replaced exactly when it names a successor: a later pass of the same attendee. */
  predicate Succeeded(passes: map<Id, Pass>, issued: seq<Id>) {
    && (forall p :: p in passes ==> (passes[p].status.Replaced? <==> passes[p].replacedBy.Some?))
    && (forall i :: 0 <= i < |issued| && issued[i] in passes && passes[issued[i]].replacedBy.Some? ==>
          && passes[issued[i]].replacedBy.value in passes
          && passes[passes[issued[i]].replacedBy.value].attendee == passes[issued[i]].attendee
          && passes[issued[i]].replacedBy.value in issued[i + 1..])
  }

  predicate Line(passes: map<Id, Pass>, issued: seq<Id>) {
    Listed(passes, issued) && Succeeded(passes, issued)
  }

  predicate Injective(passes: map<Id, Pass>) {
    forall p, q :: p in passes && q in passes && p != q && passes[p].replacedBy.Some?
        ==> passes[p].replacedBy != passes[q].replacedBy
  }

  predicate Owned(passes: map<Id, Pass>, attendees: map<Id, Attendee>) {
    forall p :: p in passes ==> passes[p].attendee in attendees
  }

  /** A pass has its link queued from the moment it exists; the outbox key makes it the only one. */
  ghost predicate Invited(passes: map<Id, Pass>, outbox: map<EmailKey, Id>) {
    forall p :: PassLinkEmail(p) in outbox <==> p in passes
  }

  ghost predicate PassInv(s: Store) {
    && Invited(s.passes, s.outbox)
    && Indexed(s.passes, s.qrIndex) && OneActive(s.passes) && Injective(s.passes) && Owned(s.passes, s.attendees)
    && Line(s.passes, Issued(s.audits))
  }

  // ---- What pass transactions check ------------------------------------------------

  predicate Gate(s: Store, attendee: Id) {
    attendee in s.attendees && IsConfirmed(s, s.attendees[attendee].application)
  }

  /** A new pass is inserted only for a confirmed holder of a released acceptance with no other active pass. */
  ghost predicate SoundPass(s: Store, e: Effect) {
    && (e.AddPass? ==> Gate(s, e.made.attendee) && !HasActive(s, e.made.attendee))
    && (e.SwapPass? ==> Gate(s, e.made.attendee))
  }

  lemma PassesSound(s: Store, p: PassInput, n: Attempt)
    requires Atomically(s, OnPass(p), n).Finish?
    ensures SoundPass(s, Atomically(s, OnPass(p), n).effect)
  {
  }

  /** The pass gate holds at every commit of every interleaving. */
  lemma SerialPass(c: Commit)
    requires Serial(c)
    ensures SoundPass(c.pre, c.effect)
  {
    SerialFits(c);
    if c.call.OnPass? { PassesSound(c.pre, c.call.p, c.n); }
  }

  lemma SerialApplicable(c: Commit)
    requires Serial(c)
    ensures Applicable(c.pre, c.effect)
  {
    if Atomically(c.pre, c.call, c.n) == Finish(c.effect, c.reply) {
      AtomicallyApplicable(c.pre, c.call, c.n);
    } else {
      AtomicallyApplicable(Blind(c.pre, c.call.q.hash), c.call, c.n);
      SerialFits(c);
    }
  }

  // ---- Preservation -------------------------------------------------------------------

  lemma IndexKept(s: Store, e: Effect)
    requires Indexed(s.passes, s.qrIndex) && Applicable(s, e)
    ensures Indexed(Apply(s, e).passes, Apply(s, e).qrIndex)
  {
    match e
    case AddPass(_, _, _, _) => IndexAdded(s.passes, s.qrIndex, e.pass, e.made);
    case SwapPass(_, _, _, _, _, _) =>
      var ended := s.passes[e.prior := e.was.(status := Replaced, replacedBy := Some(e.pass))];
      assert Indexed(ended, s.qrIndex);
      IndexAdded(ended, s.qrIndex, e.pass, e.made);
    case _ =>
  }

  lemma IndexAdded(passes: map<Id, Pass>, qrIndex: map<Hash, Id>, p: Id, row: Pass)
    requires Indexed(passes, qrIndex) && p !in passes && row.hash !in qrIndex
    ensures Indexed(passes[p := row], qrIndex[row.hash := p])
  {
  }

  lemma ActiveKept(s: Store, e: Effect)
    requires OneActive(s.passes) && Applicable(s, e) && SoundPass(s, e)
    ensures OneActive(Apply(s, e).passes)
  {
    if e.SwapPass? {
      assert forall p :: p in s.passes && p != e.prior && s.passes[p].attendee == e.was.attendee ==>
             !s.passes[p].status.Active?;
    }
    if e.AddPass? {
      assert forall p :: p in s.passes && s.passes[p].attendee == e.made.attendee ==> !s.passes[p].status.Active?;
    }
  }

  lemma OwnersKept(s: Store, e: Effect)
    requires Owned(s.passes, s.attendees) && Applicable(s, e)
    ensures Owned(Apply(s, e).passes, Apply(s, e).attendees)
  {
  }

  lemma ListAdded(passes: map<Id, Pass>, issued: seq<Id>, p: Id, row: Pass)
    requires Line(passes, issued) && p !in passes && row.status.Active? && row.replacedBy.None?
    ensures Line(passes[p := row], issued + [p])
  {
    var passes', issued' := passes[p := row], issued + [p];
    forall i | 0 <= i < |issued'| && issued'[i] in passes' && passes'[issued'[i]].replacedBy.Some?
      ensures passes'[issued'[i]].replacedBy.value in passes'
      ensures passes'[passes'[issued'[i]].replacedBy.value].attendee == passes'[issued'[i]].attendee
      ensures passes'[issued'[i]].replacedBy.value in issued'[i + 1..]
    {
      assert i < |issued| && issued'[i] == issued[i];
      assert issued'[i + 1..] == issued[i + 1..] + [p];
    }
  }

  /** Marking the active prior pass replaced by the pass just listed keeps the line. */
  lemma MarkListed(passes: map<Id, Pass>, issued: seq<Id>, prior: Id, p: Id)
    requires Line(passes, issued + [p]) && prior in issued && prior in passes && p in passes && p != prior
    requires passes[prior].attendee == passes[p].attendee
    ensures Line(passes[prior := passes[prior].(status := Replaced, replacedBy := Some(p))], issued + [p])
  {
    var all := issued + [p];
    forall i | 0 <= i < |all| && all[i] == prior ensures p in all[i + 1..] {
      assert all[i + 1..] == issued[i + 1..] + [p];
    }
  }

  lemma SwapListed(passes: map<Id, Pass>, issued: seq<Id>, prior: Id, p: Id, row: Pass)
    requires Line(passes, issued) && prior in passes && p !in passes
    requires passes[prior].attendee == row.attendee && row.status.Active? && row.replacedBy.None?
    ensures var passes' := passes[prior := passes[prior].(status := Replaced, replacedBy := Some(p))][p := row];
            Line(passes', issued + [p])
  {
    var ended := passes[prior].(status := Replaced, replacedBy := Some(p));
    ListAdded(passes, issued, p, row);
    MarkListed(passes[p := row], issued, prior, p);
    assert passes[prior := ended][p := row] == passes[p := row][prior := ended];
  }

  lemma AddedLine(s: Store, e: Effect)
    requires Line(s.passes, Issued(s.audits)) && Applicable(s, e) && e.AddPass?
    ensures Line(Apply(s, e).passes, Issued(Apply(s, e).audits))
  {
    IssuedAppend(s.audits, e.event);
    ListAdded(s.passes, Issued(s.audits), e.pass, e.made);
  }

  lemma SwappedLine(s: Store, e: Effect)
    requires Line(s.passes, Issued(s.audits)) && Applicable(s, e) && e.SwapPass?
    ensures Line(Apply(s, e).passes, Issued(Apply(s, e).audits))
  {
    IssuedAppend(s.audits, e.event);
    SwapListed(s.passes, Issued(s.audits), e.prior, e.pass, e.made);
  }

  lemma QuietLine(s: Store, e: Effect)
    requires Applicable(s, e) && !e.AddPass? && !e.SwapPass?
    ensures Issued(Apply(s, e).audits) == Issued(s.audits)
    ensures !e.EndPass? ==> Apply(s, e).passes == s.passes
  {
    EventsAppended(s, e);
    IssuedOther(s.audits, Events(e));
  }

  lemma EndedLine(s: Store, e: Effect)
    requires Line(s.passes, Issued(s.audits)) && Applicable(s, e) && e.EndPass?
    ensures Line(Apply(s, e).passes, Issued(Apply(s, e).audits))
  {
    QuietLine(s, e);
    EndListed(s.passes, Issued(s.audits), e.prior);
  }

  lemma SuccessionKept(s: Store, e: Effect)
    requires Line(s.passes, Issued(s.audits)) && Applicable(s, e)
    ensures Line(Apply(s, e).passes, Issued(Apply(s, e).audits))
  {
    if e.AddPass? { AddedLine(s, e); }
    else if e.SwapPass? { SwappedLine(s, e); }
    else if e.EndPass? { EndedLine(s, e); }
    else { QuietLine(s, e); }
  }

  lemma EndListed(passes: map<Id, Pass>, issued: seq<Id>, prior: Id)
    requires Line(passes, issued) && prior in passes && passes[prior].status.Active?
    ensures Line(passes[prior := passes[prior].(status := Revoked)], issued)
  {
  }

  lemma InjectiveKept(s: Store, e: Effect)
    requires Injective(s.passes) && Applicable(s, e)
    requires Line(s.passes, Issued(s.audits))
    ensures Injective(Apply(s, e).passes)
  {
    if e.SwapPass? {
      forall p | p in s.passes && s.passes[p].replacedBy.Some? ensures s.passes[p].replacedBy.value in s.passes {
        var i :| 0 <= i < |Issued(s.audits)| && Issued(s.audits)[i] == p;
      }
    }
  }

  lemma InvitesKept(s: Store, e: Effect)
    requires Invited(s.passes, s.outbox) && Applicable(s, e)
    ensures Invited(Apply(s, e).passes, Apply(s, e).outbox)
  {
  }

  lemma PassesKept(s: Store, e: Effect)
    requires PassInv(s) && Applicable(s, e) && SoundPass(s, e)
    ensures PassInv(Apply(s, e))
  {
    IndexKept(s, e);
    ActiveKept(s, e);
    OwnersKept(s, e);
    SuccessionKept(s, e);
    InjectiveKept(s, e);
    InvitesKept(s, e);
  }

  // ---- Consequences ----------------------------------------------------------------------

  function Position(issued: seq<Id>, p: Id): (i: nat)
    requires p in issued
    ensures i < |issued| && issued[i] == p
  {
    if issued[0] == p then 0 else 1 + Position(issued[1..], p)
  }

  /** Following successor links always ends, at a pass of the same attendee that is active or revoked. */
  function Current(passes: map<Id, Pass>, issued: seq<Id>, p: Id): (last: Id)
    requires Line(passes, issued) && p in passes
    ensures last in passes && !passes[last].status.Replaced? && passes[last].attendee == passes[p].attendee
    decreases |issued| - Position(issued, p)
  {
    if passes[p].replacedBy.None? then p
    else
      var i := Position(issued, p);
      var next := passes[p].replacedBy.value;
      assert issued[i] == p && next in issued[i + 1..];
      PositionLater(issued, i, next);
      Current(passes, issued, next)
  }

  lemma PositionLater(issued: seq<Id>, i: nat, p: Id)
    requires i < |issued| && p in issued[i + 1..]
    requires forall k, j :: 0 <= k < j < |issued| ==> issued[k] != issued[j]
    ensures p in issued && i < Position(issued, p)
  {
    var j :| 0 <= j < |issued[i + 1..]| && issued[i + 1..][j] == p;
    assert issued[i + 1 + j] == p;
  }

  /** A pass that has ended stays as it is, whatever commits. */
  lemma EndIsTerminal(s: Store, e: Effect, p: Id)
    requires Applicable(s, e) && p in s.passes && !s.passes[p].status.Active?
    ensures p in Apply(s, e).passes && Apply(s, e).passes[p] == s.passes[p]
  {
  }
}
