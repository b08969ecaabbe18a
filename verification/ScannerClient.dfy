/** The scanner screen's request handling, and its composition with a network and the server: how many redemptions one
    confirmed lookup can lead to. */
module ScannerClient {
  import opened Domain
  import opened Transactions
  import opened Protocol
  import opened Specs
  import opened Machine
  import opened LedgerInvariants
  import opened PassInvariants
  import opened Reachable

  datatype Request = Request(hash: Hash, checkpoint: Id, key: Id)

  /** The state of the screen, with the checkpoints last listed. Without a selected one it only verifies passes; a blank
      code is none. Over: the session expired, access was denied or the screen was left. */
  datatype Screen = Screen(
    checkpoints: seq<Id>, checkpoint: Option<Id>, token: Option<Hash>, lookup: Option<Hash>,
    retryable: Option<Request>, busy: bool, sequence: nat, over: bool)

  datatype LookupReply = PassFound | PassRevoked | PassUnknown | LookupDenied | LookupFailed
  datatype RedeemReply = Answered | BadPass | Denied | Conflicted | Failed

  function Opening(): Screen {
    Screen([], None, None, None, None, false, 0, false)
  }

  function Cleared(c: Screen): Screen {
    c.(token := None, lookup := None, retryable := None)
  }

  /** The selection after the checkpoints were listed: the same if it is still listed, else the only one, if any. */
  function Reselected(current: Option<Id>, listed: seq<Id>): Option<Id> {
    if current.Some? && current.value in listed then current
    else if |listed| == 1 then Some(listed[0])
    else None
  }

  function OnList(c: Screen, listed: seq<Id>): Screen {
    c.(checkpoints := listed, checkpoint := Reselected(c.checkpoint, listed))
  }

  function OnType(c: Screen, token: Option<Hash>): Screen {
    c.(token := token, lookup := None, retryable := None)
  }

  function OnLookup(c: Screen, token: Option<Hash>): Screen {
    if c.busy || token.None? then c else c.(busy := true, sequence := c.sequence + 1, lookup := None, retryable := None)
  }

  function OnLookupReply(c: Screen, sequence: nat, token: Hash, reply: LookupReply): Screen {
    if sequence != c.sequence then c
    else
      var c' := c.(busy := false);
      match reply
      case PassFound => c'.(lookup := Some(token))
      case PassRevoked => Cleared(c')
      case PassUnknown => Cleared(c')
      case LookupDenied => c'.(over := true)
      case LookupFailed => c'
  }

  /** The request a confirmation sends: the retryable one if it is for the same code and checkpoint, otherwise one
      with a new key. */
  function ToConfirm(c: Screen, key: Id): Option<Request> {
    if c.lookup.None? || c.lookup != c.token || c.checkpoint.None? || c.checkpoint.value !in c.checkpoints then None
    else if c.retryable.Some? && c.retryable.value.hash == c.lookup.value
        && c.retryable.value.checkpoint == c.checkpoint.value then c.retryable
    else Some(Request(c.lookup.value, c.checkpoint.value, key))
  }

  function OnSend(c: Screen, request: Option<Request>): Screen {
    if c.busy || request.None? then c else c.(busy := true, sequence := c.sequence + 1)
  }

  function OnRedeemReply(c: Screen, sequence: nat, request: Request, reply: RedeemReply): Screen {
    if sequence != c.sequence then c
    else
      var c' := c.(busy := false);
      match reply
      case Answered => Cleared(c')
      case BadPass => Cleared(c')
      case Denied => c'.(over := true)
      case Conflicted => c'.(retryable := None)
      case Failed => c'.(retryable := Some(request))
  }

  // ---- The screen as it updates its fields ----------------------------------------------

  class ScannerSession {
    var checkpoints: seq<Id>
    var checkpoint: Option<Id>
    var qrToken: Option<Hash>
    var lookup: Option<Hash>
    var retryableRedemption: Option<Request>
    var requestBusy: bool
    var requestSequence: nat
    var over: bool

    function Contents(): Screen
      reads this
    {
      Screen(checkpoints, checkpoint, qrToken, lookup, retryableRedemption, requestBusy, requestSequence, over)
    }

    constructor ()
      ensures Contents() == Opening()
      ensures checkpoints == [] && checkpoint == None && qrToken == None && lookup == None
      ensures retryableRedemption == None && !requestBusy && requestSequence == 0 && !over
    {
      checkpoints := [];
      checkpoint, qrToken, lookup, retryableRedemption, requestBusy, requestSequence, over :=
          None, None, None, None, false, 0, false;
    }

    method ClearCredentialState()
      modifies this
      ensures Contents() == Cleared(old(Contents()))
      ensures Contents() == old(Contents()).(token := None, lookup := None, retryable := None)
    {
      qrToken := None;
      lookup := None;
      retryableRedemption := None;
    }

    /** Takes over a new list of checkpoints; what was looked up stays. */
    method CheckpointsLoaded(nextCheckpoints: seq<Id>)
      modifies this
      ensures Contents() == OnList(old(Contents()), nextCheckpoints)
      ensures Contents() == old(Contents()).(checkpoints := nextCheckpoints, checkpoint := checkpoint)
      ensures old(checkpoint) != None && old(checkpoint).value in nextCheckpoints ==> checkpoint == old(checkpoint)
      ensures !(old(checkpoint) != None && old(checkpoint).value in nextCheckpoints) ==>
                (|nextCheckpoints| == 1 ==> checkpoint == Some(nextCheckpoints[0]))
                && (|nextCheckpoints| != 1 ==> checkpoint == None)
    {
      checkpoints := nextCheckpoints;
      if checkpoint.Some? && checkpoint.value in nextCheckpoints { return; }
      checkpoint := None;
      if |nextCheckpoints| == 1 { checkpoint := Some(nextCheckpoints[0]); }
    }

    method HandleCredentialChange(value: Option<Hash>)
      modifies this
      ensures Contents() == OnType(old(Contents()), value)
      ensures Contents() == old(Contents()).(token := value, lookup := None, retryable := None)
    {
      qrToken := value;
      lookup := None;
      retryableRedemption := None;
    }

    method HandleCheckpointChange(value: Option<Id>)
      modifies this
      ensures Contents() == old(Contents()).(checkpoint := value, token := None, lookup := None, retryable := None)
    {
      ClearCredentialState();
      checkpoint := value;
      retryableRedemption := None;
    }

    /** Starts a lookup; returns its sequence number if one was sent. */
    method LookupPass(token: Option<Hash>) returns (sent: Option<nat>)
      modifies this
      ensures Contents() == OnLookup(old(Contents()), token)
      ensures sent == if old(requestBusy) || token.None? then None else Some(requestSequence)
      ensures sent.None? ==> Contents() == old(Contents())
      ensures sent.Some? ==> Contents() == old(Contents()).(busy := true, sequence := old(requestSequence) + 1,
                                                            lookup := None, retryable := None)
    {
      if requestBusy || token.None? { return None; }
      requestBusy := true;
      requestSequence := requestSequence + 1;
      lookup := None;
      retryableRedemption := None;
      return Some(requestSequence);
    }

    method LookupReturned(sequence: nat, token: Hash, reply: LookupReply)
      modifies this
      ensures Contents() == OnLookupReply(old(Contents()), sequence, token, reply)
      ensures sequence != old(requestSequence) ==> Contents() == old(Contents())
      ensures sequence == old(requestSequence) ==>
                var shown := old(Contents()).(busy := false);
                Contents() == match reply
                              case PassFound => shown.(lookup := Some(token))
                              case PassRevoked => shown.(token := None, lookup := None, retryable := None)
                              case PassUnknown => shown.(token := None, lookup := None, retryable := None)
                              case LookupDenied => shown.(over := true)
                              case LookupFailed => shown
    {
      if sequence != requestSequence { return; }
      match reply {
        case PassFound => lookup := Some(token);
        case PassRevoked => ClearCredentialState();
        case PassUnknown => ClearCredentialState();
        case LookupDenied => over := true;
        case LookupFailed =>
      }
      requestBusy := false;
    }

    /** Sends a redemption unless a request is under way. */
    method Redeem(request: Request) returns (sent: Option<Request>)
      modifies this
      ensures Contents() == OnSend(old(Contents()), Some(request))
      ensures sent == if old(requestBusy) then None else Some(request)
      ensures sent.None? ==> Contents() == old(Contents())
      ensures sent.Some? ==> Contents() == old(Contents()).(busy := true, sequence := old(requestSequence) + 1)
    {
      if requestBusy { return None; }
      requestBusy := true;
      requestSequence := requestSequence + 1;
      return Some(request);
    }

    method RedeemReturned(sequence: nat, request: Request, reply: RedeemReply)
      modifies this
      ensures Contents() == OnRedeemReply(old(Contents()), sequence, request, reply)
      ensures sequence != old(requestSequence) ==> Contents() == old(Contents())
      ensures sequence == old(requestSequence) ==>
                var shown := old(Contents()).(busy := false);
                Contents() == match reply
                              case Answered => shown.(token := None, lookup := None, retryable := None)
                              case BadPass => shown.(token := None, lookup := None, retryable := None)
                              case Denied => shown.(over := true)
                              case Conflicted => shown.(retryable := None)
                              case Failed => shown.(retryable := Some(request))
    {
      if sequence != requestSequence { return; }
      match reply {
        case Answered => ClearCredentialState();
        case BadPass => ClearCredentialState();
        case Denied => over := true;
        case Conflicted => retryableRedemption := None;
        case Failed => retryableRedemption := Some(request);
      }
      requestBusy := false;
    }

    /** Confirms what was looked up; key is the identifier a new request would carry. */
    method HandleRedeem(key: Id) returns (sent: Option<Request>)
      modifies this
      ensures Contents() == OnSend(old(Contents()), ToConfirm(old(Contents()), key))
      ensures sent == if old(requestBusy) then None else ToConfirm(old(Contents()), key)
      ensures sent.Some? <==> !old(requestBusy) && lookup != None && lookup == qrToken
                              && checkpoint != None && checkpoint.value in checkpoints
      ensures sent.Some? ==>
                && sent.value.hash == lookup.value && sent.value.checkpoint == checkpoint.value
                && var last := old(retryableRedemption);
                sent.value.key == if last != None && last.value.hash == lookup.value
                                     && last.value.checkpoint == checkpoint.value then last.value.key else key
      ensures sent.None? ==> Contents() == old(Contents())
      ensures sent.Some? ==> Contents() == old(Contents()).(busy := true, sequence := old(requestSequence) + 1)
    {
      if lookup.None? || lookup != qrToken { return None; }
      if checkpoint.None? || checkpoint.value !in checkpoints { return None; }
      var request: Request;
      if retryableRedemption.Some? && retryableRedemption.value.hash == lookup.value
         && retryableRedemption.value.checkpoint == checkpoint.value {
        request := retryableRedemption.value;
      } else {
        request := Request(lookup.value, checkpoint.value, key);
      }
      sent := Redeem(request);
    }

    method HandleRetryRedemption() returns (sent: Option<Request>)
      modifies this
      ensures Contents() == OnSend(old(Contents()), old(retryableRedemption))
      ensures sent == if old(requestBusy) then None else old(retryableRedemption)
      ensures sent.None? ==> Contents() == old(Contents())
      ensures sent.Some? ==> Contents() == old(Contents()).(busy := true, sequence := old(requestSequence) + 1)
    {
      if retryableRedemption.None? { return None; }
      sent := Redeem(retryableRedemption.value);
    }
  }

  // ---- Screen, network and server ----------------------------------------------------------

  /** A lookup under way, with the server's answer once it has read one, or a redemption. */
  datatype Pending = Looking(token: Hash, answer: Option<LookupReply>) | Sending(request: Request)

  /** The network keeps every request ever sent and may deliver it at any time and any number of times, or never.
      issued tells for which lookup a key was made, last is the latest request of the lookup on the screen, listing is
      a list of checkpoints on its way, and changed names the lookups during which a reload of the checkpoints moved
      the selection, once for each time. */
  datatype World = World(
    screen: Screen, inflight: map<nat, Pending>, sent: set<Request>, issued: map<Id, nat>, lookups: nat,
    last: Option<Request>, listing: Option<seq<Id>>, changed: seq<nat>, store: Store)

  predicate Types(w: World, w': World, token: Option<Hash>) {
    !w.screen.over && !w.screen.busy && w' == w.(screen := OnType(w.screen, token))
  }

  /** Chooses among the listed checkpoints. */
  predicate Clears(w: World, w': World, checkpoint: Option<Id>) {
    && !w.screen.over && !w.screen.busy && (checkpoint.Some? ==> checkpoint.value in w.screen.checkpoints)
    && w' == w.(screen := Cleared(w.screen).(checkpoint := checkpoint))
  }

  predicate LooksUp(w: World, w': World) {
    && !w.screen.over && !w.screen.busy && w.screen.token.Some?
    && var c := OnLookup(w.screen, w.screen.token);
    w' == w.(screen := c, inflight := w.inflight[c.sequence := Looking(w.screen.token.value, None)])
  }

  /** What the server tells of a pass. */
  function LookupAnswer(s: Store, hash: Hash): LookupReply {
    match Lookup(s, hash)
    case Some(Active) => PassFound
    case Some(Revoked) => LookupReply.PassRevoked
    case _ => PassUnknown
  }

  predicate AnswersLookup(w: World, w': World, sequence: nat) {
    && sequence in w.inflight && w.inflight[sequence].Looking?
    && var token := w.inflight[sequence].token;
    w' == w.(inflight := w.inflight[sequence := Looking(token, Some(LookupAnswer(w.store, token)))])
  }

  /** The server's answer, a timeout or a lost connection. */
  predicate LookupReturns(w: World, w': World, sequence: nat, reply: LookupReply) {
    && !w.screen.over && sequence in w.inflight && w.inflight[sequence].Looking?
    && (w.inflight[sequence].answer == Some(reply) || reply.LookupDenied? || reply.LookupFailed?)
    && var c := OnLookupReply(w.screen, sequence, w.inflight[sequence].token, reply);
    var found := sequence == w.screen.sequence && reply.PassFound?;
    w' == w.(screen := c, inflight := w.inflight - {sequence},
             lookups := if found then w.lookups + 1 else w.lookups, last := if found then None else w.last)
  }

  /** A request goes out; a key made for it is one that nobody has used. */
  predicate Sends(w: World, w': World, request: Request) {
    var c := OnSend(w.screen, Some(request));
    w' == w.(screen := c, inflight := w.inflight[c.sequence := Sending(request)], sent := w.sent + {request},
             issued := if request.key in w.issued then w.issued else w.issued[request.key := w.lookups],
             last := Some(request))
  }

  predicate Confirms(w: World, w': World, key: Id) {
    && !w.screen.over && !w.screen.busy && key !in w.issued && key !in w.store.ledger
    && var request := ToConfirm(w.screen, key);
    request.Some? && Sends(w, w', request.value)
  }

  predicate Resends(w: World, w': World) {
    && !w.screen.over && !w.screen.busy && w.screen.retryable.Some?
    && Sends(w, w', w.screen.retryable.value)
  }

  /** A reply, a timeout or a lost connection. Only a stored row can produce an answer or a conflict. */
  predicate RedeemReturns(w: World, w': World, sequence: nat, reply: RedeemReply) {
    && !w.screen.over && sequence in w.inflight && w.inflight[sequence].Sending?
    && var r := w.inflight[sequence].request;
    && (reply.Answered? || reply.Conflicted? ==> r.key in w.store.ledger)
    && (reply.Conflicted?
        ==> !(w.store.ledger[r.key].checkpoint == r.checkpoint && w.store.ledger[r.key].hash == r.hash))
    && w' == w.(screen := OnRedeemReply(w.screen, sequence, r, reply), inflight := w.inflight - {sequence})
  }

  predicate IsActive(s: Store, checkpoint: Id) {
    checkpoint in s.checkpoints && s.checkpoints[checkpoint].active
  }

  /** The active checkpoints, each once. */
  ghost predicate Lists(s: Store, listed: seq<Id>) {
    && (forall c :: c in listed <==> IsActive(s, c))
    && (forall i, j :: 0 <= i < j < |listed| ==> listed[i] != listed[j])
  }

  /** The server reads the list for a reload. */
  ghost predicate Fetches(w: World, w': World, listed: seq<Id>) {
    Lists(w.store, listed) && w' == w.(listing := Some(listed))
  }

  /** The list arrives, perhaps long after it was read, and may move the selection under a lookup. */
  predicate Loads(w: World, w': World) {
    && !w.screen.over && w.listing.Some?
    && var c := OnList(w.screen, w.listing.value);
    w' == w.(screen := c, listing := None,
             changed := if w.screen.lookup.Some? && c.checkpoint != w.screen.checkpoint
                        then w.changed + [w.lookups] else w.changed)
  }

  predicate Leaves(w: World, w': World) {
    w' == w.(screen := w.screen.(sequence := w.screen.sequence + 1, over := true))
  }

  /** The server runs a delivered request, as any transaction of any interleaving commits. */
  ghost predicate Serves(w: World, w': World, request: Request, c: Commit) {
    && request in w.sent && c.pre == w.store && Serial(c) && c.call.Redeem?
    && c.call.q.key == request.key && c.call.q.checkpoint == request.checkpoint && c.call.q.hash == request.hash
    && w' == w.(store := Post(c))
  }

  /** Anybody else's transaction; it does not carry a key made here. */
  ghost predicate Interferes(w: World, w': World, c: Commit) {
    && c.pre == w.store && Serial(c) && (c.call.Redeem? ==> c.call.q.key !in w.issued)
    && w' == w.(store := Post(c))
  }

  ghost predicate Steps(w: World, w': World) {
    || (exists token :: Types(w, w', token))
    || (exists checkpoint :: Clears(w, w', checkpoint))
    || LooksUp(w, w')
    || (exists sequence, reply :: LookupReturns(w, w', sequence, reply))
    || (exists key :: Confirms(w, w', key))
    || Resends(w, w')
    || (exists sequence, reply :: RedeemReturns(w, w', sequence, reply))
    || (exists sequence :: AnswersLookup(w, w', sequence))
    || (exists listed :: Fetches(w, w', listed))
    || Loads(w, w')
    || Leaves(w, w')
    || (exists request, c :: Serves(w, w', request, c))
    || (exists c :: Interferes(w, w', c))
  }

  ghost predicate Begins(w: World) {
    && w.screen == Opening() && w.inflight == map[] && w.sent == {} && w.issued == map[]
    && w.lookups == 0 && w.last.None? && w.listing.None? && w.changed == []
    && StoreInv(w.store)
  }

  ghost predicate IsSession(run: seq<World>) {
    && |run| > 0 && Begins(run[0])
    && forall i :: 0 <= i < |run| - 1 ==> Steps(run[i], run[i + 1])
  }

  // ---- The server's side --------------------------------------------------------------------

  /** Requests that were sent have keys made here, one request per key, and a stored row of such a key is that
      request's. */
  predicate Keyed(sent: set<Request>, issued: map<Id, nat>, ledger: map<Id, LedgerRow>) {
    && (forall r :: r in sent ==> r.key in issued)
    && (forall r, r' :: r in sent && r' in sent && r.key == r'.key ==> r == r')
    && (forall r :: r in sent && r.key in ledger ==>
        ledger[r.key].checkpoint == r.checkpoint && ledger[r.key].hash == r.hash)
  }

  lemma ScanRow(s: Store, q: RedeemInput, n: Attempt)
    requires RedeemAtomically(s, q, n).Finish? && RedeemAtomically(s, q, n).effect.LogScan?
    ensures var e := RedeemAtomically(s, q, n).effect;
            e.key == q.key && e.row.checkpoint == q.checkpoint && e.row.hash == q.hash
  {
  }

  /** A commit adds to the ledger at most the row of its own request. */
  lemma CommitRow(c: Commit, key: Id)
    requires Serial(c) && key in Post(c).ledger && !(key in c.pre.ledger && Post(c).ledger[key] == c.pre.ledger[key])
    ensures c.call.Redeem? && key == c.call.q.key
    ensures Post(c).ledger[key].checkpoint == c.call.q.checkpoint && Post(c).ledger[key].hash == c.call.q.hash
  {
    SerialFits(c);
    SerialApplicable(c);
    if c.effect.LogScan? {
      ScanRow(if Stale(c) then Blind(c.pre, c.call.q.hash) else c.pre, c.call.q, c.n);
    } else {
      QuietEvents(c.pre, c.effect);
    }
  }

  lemma ServeKeeps(w: World, w': World, request: Request, c: Commit)
    requires Keyed(w.sent, w.issued, w.store.ledger) && Serves(w, w', request, c)
    ensures Keyed(w'.sent, w'.issued, w'.store.ledger)
  {
    var ledger := Post(c).ledger;
    forall r | r in w.sent && r.key in ledger
      ensures ledger[r.key].checkpoint == r.checkpoint && ledger[r.key].hash == r.hash
    {
      if !(r.key in c.pre.ledger && ledger[r.key] == c.pre.ledger[r.key]) { CommitRow(c, r.key); }
    }
  }

  lemma InterfereKeeps(w: World, w': World, c: Commit)
    requires Keyed(w.sent, w.issued, w.store.ledger) && Interferes(w, w', c)
    ensures Keyed(w'.sent, w'.issued, w'.store.ledger)
  {
    var ledger := Post(c).ledger;
    forall r | r in w.sent && r.key in ledger
      ensures ledger[r.key].checkpoint == r.checkpoint && ledger[r.key].hash == r.hash
    {
      if !(r.key in c.pre.ledger && ledger[r.key] == c.pre.ledger[r.key]) { CommitRow(c, r.key); }
    }
  }

  // ---- The screen's side ----------------------------------------------------------------------

  /** The keys made for one lookup. */
  function Keys(issued: map<Id, nat>, n: nat): set<Id> {
    set k | k in issued && issued[k] == n
  }

  function Changes(changed: seq<nat>, n: nat): nat {
    if changed == [] then 0 else Changes(changed[..|changed| - 1], n) + (if changed[|changed| - 1] == n then 1 else 0)
  }

  /** At most one request is under way, the one of the current sequence number. */
  predicate Paced(w: World) {
    && (forall s :: s in w.inflight ==> s <= w.screen.sequence)
    && (!w.screen.over ==> (w.screen.busy <==> w.screen.sequence in w.inflight))
  }

  /** What the screen remembers of the lookup it shows: the latest request is under way or can be retried. */
  predicate Remembered(w: World) {
    w.screen.lookup.Some? && !w.screen.over ==>
      if w.last.None? then
        Keys(w.issued, w.lookups) == {} && w.screen.retryable.None? && !w.screen.busy
      else
        && w.last.value.hash == w.screen.lookup.value && w.last.value.key in w.issued
           && w.issued[w.last.value.key] == w.lookups
        && w.last.value in w.sent
        && if w.screen.busy then w.screen.sequence in w.inflight
           && w.inflight[w.screen.sequence] == Sending(w.last.value)
           else w.screen.retryable == w.last
  }

  /** The selection has moved since the latest request. */
  predicate Moved(w: World) {
    w.screen.lookup.Some? && w.last.Some? && w.screen.checkpoint != Some(w.last.value.checkpoint)
  }

  /** Each lookup has made one key, and one more for every time its selection moved. */
  ghost predicate Frugal(w: World) {
    && (forall k :: k in w.issued ==> w.issued[k] <= w.lookups)
    && (forall n :: |Keys(w.issued, n)| <= 1 + Changes(w.changed, n))
    && (Moved(w) && !w.screen.over ==> |Keys(w.issued, w.lookups)| <= Changes(w.changed, w.lookups))
  }

  /** With nothing looked up there is nothing to retry and no redemption under way. */
  predicate Forgotten(w: World) {
    w.screen.lookup.None? && !w.screen.over ==>
      && w.screen.retryable.None?
      && (w.screen.busy && w.screen.sequence in w.inflight ==> w.inflight[w.screen.sequence].Looking?)
  }

  ghost predicate SessionInv(w: World) {
    && StoreInv(w.store) && Keyed(w.sent, w.issued, w.store.ledger)
    && Paced(w) && Remembered(w) && Frugal(w) && Forgotten(w)
  }

  lemma ChangesAppend(changed: seq<nat>, m: nat, n: nat)
    ensures Changes(changed + [m], n) == Changes(changed, n) + (if m == n then 1 else 0)
  {
    assert (changed + [m])[..|changed|] == changed;
  }

  lemma NewKey(issued: map<Id, nat>, key: Id, m: nat, n: nat)
    requires key !in issued
    ensures Keys(issued[key := m], n) == Keys(issued, n) + (if m == n then {key} else {})
    ensures |Keys(issued[key := m], n)| == |Keys(issued, n)| + (if m == n then 1 else 0)
  {
    assert Keys(issued[key := m], n) == Keys(issued, n) + (if m == n then {key} else {});
  }

  lemma ScreenKeeps(w: World, w': World)
    requires Paced(w) && Remembered(w) && Frugal(w) && Forgotten(w)
    requires (exists token :: Types(w, w', token)) || (exists checkpoint :: Clears(w, w', checkpoint))
             || LooksUp(w, w') || Leaves(w, w')
    ensures Paced(w') && Remembered(w') && Frugal(w') && Forgotten(w')
  {
  }

  lemma LookupReturnKeeps(w: World, w': World, sequence: nat, reply: LookupReply)
    requires Paced(w) && Remembered(w) && Frugal(w) && Forgotten(w) && LookupReturns(w, w', sequence, reply)
    ensures Paced(w') && Remembered(w') && Frugal(w') && Forgotten(w')
  {
    assert Keys(w.issued, w.lookups + 1) == {};
  }

  lemma ResendKeeps(w: World, w': World, request: Request)
    requires Paced(w) && Remembered(w) && Frugal(w) && Forgotten(w) && !w.screen.over && !w.screen.busy
    requires w.screen.retryable == Some(request) && Sends(w, w', request)
    ensures Paced(w') && Remembered(w') && Frugal(w') && Forgotten(w') && w'.issued == w.issued && w'.sent == w.sent
  {
    assert w.sent + {request} == w.sent;
  }

  lemma ConfirmMakesKey(w: World, w': World, key: Id)
    requires Paced(w) && Remembered(w) && Frugal(w) && Forgotten(w) && Confirms(w, w', key)
    requires ToConfirm(w.screen, key) != w.screen.retryable
    ensures Paced(w') && Remembered(w') && Frugal(w') && Forgotten(w')
  {
    NewKey(w.issued, key, w.lookups, w.lookups);
    forall n ensures |Keys(w'.issued, n)| <= 1 + Changes(w'.changed, n) {
      NewKey(w.issued, key, w.lookups, n);
    }
  }

  lemma ReturnKeeps(w: World, w': World, sequence: nat, reply: RedeemReply)
    requires Keyed(w.sent, w.issued, w.store.ledger)
    requires Paced(w) && Remembered(w) && Frugal(w) && Forgotten(w) && RedeemReturns(w, w', sequence, reply)
    ensures Paced(w') && Remembered(w') && Frugal(w') && Forgotten(w')
  {
  }

  lemma LoadKeeps(w: World, w': World)
    requires Paced(w) && Remembered(w) && Frugal(w) && Forgotten(w) && Loads(w, w')
    ensures Paced(w') && Remembered(w') && Frugal(w') && Forgotten(w')
  {
    forall n ensures Changes(w.changed + [w.lookups], n) == Changes(w.changed, n) + (if n == w.lookups then 1 else 0) {
      ChangesAppend(w.changed, w.lookups, n);
    }
  }

  lemma AnswerKeeps(w: World, w': World, sequence: nat)
    requires Paced(w) && Remembered(w) && Frugal(w) && Forgotten(w) && AnswersLookup(w, w', sequence)
    ensures Paced(w') && Remembered(w') && Frugal(w') && Forgotten(w')
  {
  }

  lemma ConfirmKeeps(w: World, w': World, key: Id)
    requires Paced(w) && Remembered(w) && Frugal(w) && Forgotten(w) && Confirms(w, w', key)
    ensures Paced(w') && Remembered(w') && Frugal(w') && Forgotten(w')
  {
    if ToConfirm(w.screen, key) == w.screen.retryable {
      ResendKeeps(w, w', w.screen.retryable.value);
    } else {
      ConfirmMakesKey(w, w', key);
    }
  }

  lemma SendKeeps(w: World, w': World, request: Request)
    requires Keyed(w.sent, w.issued, w.store.ledger) && Sends(w, w', request)
    requires request in w.sent || (request.key !in w.issued && request.key !in w.store.ledger)
    ensures Keyed(w'.sent, w'.issued, w'.store.ledger)
  {
  }

  predicate ScreenInv(w: World) {
    Paced(w) && Remembered(w) && Forgotten(w)
  }

  lemma ConfirmStepKeeps(w: World, w': World, key: Id)
    requires Keyed(w.sent, w.issued, w.store.ledger) && ScreenInv(w) && Frugal(w) && Confirms(w, w', key)
    ensures Keyed(w'.sent, w'.issued, w'.store.ledger) && ScreenInv(w') && Frugal(w') && w'.store == w.store
  {
    ConfirmKeeps(w, w', key);
    SendKeeps(w, w', ToConfirm(w.screen, key).value);
  }

  lemma ResendStepKeeps(w: World, w': World)
    requires Keyed(w.sent, w.issued, w.store.ledger) && ScreenInv(w) && Frugal(w) && Resends(w, w')
    ensures Keyed(w'.sent, w'.issued, w'.store.ledger) && ScreenInv(w') && Frugal(w') && w'.store == w.store
  {
    ResendKeeps(w, w', w.screen.retryable.value);
    SendKeeps(w, w', w.screen.retryable.value);
  }

  lemma SameScreen(w: World, w': World)
    requires w' == w.(listing := w'.listing, store := w'.store) && ScreenInv(w) && Frugal(w)
    ensures ScreenInv(w') && Frugal(w')
  {
  }

  /** A step on the screen or the network leaves the server alone and keeps the bookkeeping. */
  lemma ScreenStepKeeps(w: World, w': World)
    requires Keyed(w.sent, w.issued, w.store.ledger) && ScreenInv(w) && Frugal(w) && Steps(w, w')
    requires !(exists request, c :: Serves(w, w', request, c)) && !(exists c :: Interferes(w, w', c))
    ensures Keyed(w'.sent, w'.issued, w'.store.ledger) && ScreenInv(w') && Frugal(w') && w'.store == w.store
  {
    if key :| Confirms(w, w', key) {
      ConfirmStepKeeps(w, w', key);
    } else if Resends(w, w') {
      ResendStepKeeps(w, w');
    } else if sequence, reply :| RedeemReturns(w, w', sequence, reply) {
      ReturnKeeps(w, w', sequence, reply);
    } else if sequence, reply :| LookupReturns(w, w', sequence, reply) {
      LookupReturnKeeps(w, w', sequence, reply);
    } else if Loads(w, w') {
      LoadKeeps(w, w');
    } else if sequence :| AnswersLookup(w, w', sequence) {
      AnswerKeeps(w, w', sequence);
    } else if listed :| Fetches(w, w', listed) {
      SameScreen(w, w');
    } else {
      ScreenKeeps(w, w');
    }
  }

  lemma ServedStore(w: World, w': World, c: Commit)
    requires StoreInv(w.store) && Serial(c) && c.pre == w.store && w'.store == Post(c)
    ensures StoreInv(w'.store)
  {
    CommitKeepsStore(c);
  }

  lemma ServeStepKeeps(w: World, w': World, request: Request, c: Commit)
    requires SessionInv(w) && Serves(w, w', request, c)
    ensures SessionInv(w')
  {
    ServeKeeps(w, w', request, c);
    ServedStore(w, w', c);
    SameScreen(w, w');
  }

  lemma InterfereStepKeeps(w: World, w': World, c: Commit)
    requires SessionInv(w) && Interferes(w, w', c)
    ensures SessionInv(w')
  {
    InterfereKeeps(w, w', c);
    ServedStore(w, w', c);
    SameScreen(w, w');
  }

  lemma {:induction false} SessionKeeps(run: seq<World>, i: nat)
    requires IsSession(run) && i < |run|
    ensures SessionInv(run[i])
  {
    if i > 0 {
      SessionKeeps(run, i - 1);
      var w, w' := run[i - 1], run[i];
      if request, c :| Serves(w, w', request, c) {
        ServeStepKeeps(w, w', request, c);
      } else if c :| Interferes(w, w', c) {
        InterfereStepKeeps(w, w', c);
      } else {
        ScreenStepKeeps(w, w');
      }
    }
  }

  // ---- From keys to redemptions -----------------------------------------------------------------

  /** How many redemptions carry one of the keys. */
  function Made(rs: seq<Redemption>, keys: set<Id>): nat {
    if rs == [] then 0
    else Made(rs[..|rs| - 1], keys) + (if rs[|rs| - 1].key in keys then 1 else 0)
  }

  lemma {:induction false} MadeWithout(rs: seq<Redemption>, keys: set<Id>, key: Id)
    requires forall i :: 0 <= i < |rs| ==> rs[i].key != key
    ensures Made(rs, keys) == Made(rs, keys - {key})
  {
    if rs != [] { MadeWithout(rs[..|rs| - 1], keys, key); }
  }

  lemma {:induction false} OneEach(rs: seq<Redemption>, keys: set<Id>)
    requires Distinct(rs)
    ensures Made(rs, keys) <= |keys|
  {
    if rs != [] {
      var init, key := rs[..|rs| - 1], rs[|rs| - 1].key;
      forall i | 0 <= i < |init| ensures init[i].key != key {
        assert init[i] == rs[i];
      }
      assert Distinct(init);
      if key in keys {
        MadeWithout(init, keys, key);
        OneEach(init, keys - {key});
      } else {
        OneEach(init, keys);
      }
    }
  }

  /** End to end: whatever the network loses, delays or repeats and whoever else is at work, one confirmed lookup
      leads to at most one redemption however often it is retried, and to one more only for each time a reload of the
      checkpoints moved the selection under it. */
  lemma OneRedemptionPerLookup(run: seq<World>, i: nat, lookup: nat)
    requires IsSession(run) && i < |run|
    ensures Made(run[i].store.redemptions, Keys(run[i].issued, lookup)) <= 1 + Changes(run[i].changed, lookup)
  {
    SessionKeeps(run, i);
    OneEach(run[i].store.redemptions, Keys(run[i].issued, lookup));
  }

  /** The server never has cause to answer a request of the screen with a conflict. */
  lemma NeverConflicts(run: seq<World>, i: nat, request: Request)
    requires IsSession(run) && i < |run| && request in run[i].sent && request.key in run[i].store.ledger
    ensures run[i].store.ledger[request.key].checkpoint == request.checkpoint
         && run[i].store.ledger[request.key].hash == request.hash
  {
    SessionKeeps(run, i);
  }

  // ---- Exactly when a lookup makes a second key --------------------------------------------------

  /** The step makes a key for a lookup whose selection has moved since its latest request. */
  predicate MakesAnother(w: World, w': World, lookup: nat) {
    w.lookups == lookup && Moved(w) && w'.issued != w.issued
  }

  ghost predicate ConfirmedMoved(run: seq<World>, i: nat, lookup: nat) {
    exists j :: 0 <= j < i && j + 1 < |run| && MakesAnother(run[j], run[j + 1], lookup)
  }

  /** The keys of a lookup after a step, and when there is one more. */
  predicate Counted(w: World, w': World, lookup: nat) {
    var n := |Keys(w.issued, lookup)|;
    if w'.issued == w.issued || w.lookups != lookup then
      |Keys(w'.issued, lookup)| == n && !MakesAnother(w, w', lookup)
    else |Keys(w'.issued, lookup)| == n + 1 && (MakesAnother(w, w', lookup) <==> n >= 1)
  }

  lemma ConfirmCounts(w: World, w': World, key: Id, lookup: nat)
    requires Remembered(w) && Confirms(w, w', key)
    ensures Counted(w, w', lookup)
  {
    if ToConfirm(w.screen, key) != w.screen.retryable || ToConfirm(w.screen, key).value.key !in w.issued {
      NewKey(w.issued, key, w.lookups, lookup);
      if w.last.Some? { assert w.last.value.key in Keys(w.issued, w.lookups); }
    }
  }

  lemma ResendCounts(w: World, w': World, lookup: nat)
    requires Remembered(w) && Forgotten(w) && Resends(w, w')
    ensures Counted(w, w', lookup)
  {
  }

  lemma StepCounts(w: World, w': World, lookup: nat)
    requires Remembered(w) && Forgotten(w) && Steps(w, w')
    ensures Counted(w, w', lookup)
  {
    if key :| Confirms(w, w', key) {
      ConfirmCounts(w, w', key, lookup);
    } else if Resends(w, w') {
      ResendCounts(w, w', lookup);
    } else {
      assert w'.issued == w.issued;
    }
  }

  lemma MovedLater(run: seq<World>, i: nat, lookup: nat)
    requires 0 < i < |run|
    ensures ConfirmedMoved(run, i, lookup)
            <==> ConfirmedMoved(run, i - 1, lookup) || MakesAnother(run[i - 1], run[i], lookup)
  {
    if MakesAnother(run[i - 1], run[i], lookup) { assert MakesAnother(run[i - 1], run[i - 1 + 1], lookup); }
  }

  lemma {:induction false} CountedRun(run: seq<World>, i: nat, lookup: nat)
    requires i < |run| && Keys(run[0].issued, lookup) == {} && forall j :: 0 <= j < i ==>
             Counted(run[j], run[j + 1], lookup)
    ensures |Keys(run[i].issued, lookup)| >= 2 <==> ConfirmedMoved(run, i, lookup)
  {
    if i > 0 {
      CountedRun(run, i - 1, lookup);
      assert Counted(run[i - 1], run[i - 1 + 1], lookup);
      MovedLater(run, i, lookup);
      if ConfirmedMoved(run, i - 1, lookup) { assert |Keys(run[i - 1].issued, lookup)| >= 2; }
    }
  }

  lemma SessionCounts(run: seq<World>, i: nat, lookup: nat)
    requires IsSession(run) && i < |run| - 1
    ensures Counted(run[i], run[i + 1], lookup)
  {
    SessionKeeps(run, i);
    StepCounts(run[i], run[i + 1], lookup);
  }

  /** A lookup makes more than one key if and only if it was confirmed while the selection had moved since its latest
      request. */
  lemma SecondKeyExactly(run: seq<World>, i: nat, lookup: nat)
    requires IsSession(run) && i < |run|
    ensures |Keys(run[i].issued, lookup)| >= 2 <==> ConfirmedMoved(run, i, lookup)
  {
    forall j | 0 <= j < i ensures Counted(run[j], run[j + 1], lookup) {
      SessionCounts(run, j, lookup);
    }
    CountedRun(run, i, lookup);
  }

  /** So a lookup that is never confirmed with a moved selection leads to at most one redemption, whatever the network
      does. */
  lemma OneRedemptionUnlessMoved(run: seq<World>, i: nat, lookup: nat)
    requires IsSession(run) && i < |run| && !ConfirmedMoved(run, i, lookup)
    ensures Made(run[i].store.redemptions, Keys(run[i].issued, lookup)) <= 1
  {
    SecondKeyExactly(run, i, lookup);
    SessionKeeps(run, i);
    OneEach(run[i].store.redemptions, Keys(run[i].issued, lookup));
  }

  /** In particular one whose selection no reload moves. */
  lemma OneRedemptionUnlessReloaded(run: seq<World>, i: nat, lookup: nat)
    requires IsSession(run) && i < |run| && Changes(run[i].changed, lookup) == 0
    ensures Made(run[i].store.redemptions, Keys(run[i].issued, lookup)) <= 1
  {
    OneRedemptionPerLookup(run, i, lookup);
  }

  // ---- What keeps the selection where it is ------------------------------------------------------

  /** Under a lookup that was last sent to one checkpoint, a list arrives on which another one stands alone. */
  predicate Displaces(w: World, w': World, lookup: nat) {
    && Loads(w, w') && w.lookups == lookup && w.screen.lookup.Some? && w.last.Some?
    && |w.listing.value| == 1 && w.listing.value[0] != w.last.value.checkpoint
  }

  ghost predicate Displaced(run: seq<World>, i: nat, lookup: nat) {
    exists j :: 0 <= j < i && j + 1 < |run| && Displaces(run[j], run[j + 1], lookup)
  }

  /** The selection is where the latest request went, or nowhere. */
  predicate Stays(w: World, lookup: nat) {
    w.lookups == lookup && w.screen.lookup.Some? && w.last.Some? && !w.screen.over ==>
      w.screen.checkpoint.None? || w.screen.checkpoint == Some(w.last.value.checkpoint)
  }

  /** A step that sends and lists nothing, and at most forgets what was looked up. */
  predicate Rests(w: World, w': World) {
    && w'.listing == w.listing && w'.last == w.last && w'.issued == w.issued && w'.lookups == w.lookups
    && w'.screen.checkpoints == w.screen.checkpoints && (w.screen.over ==> w'.screen.over)
    && (w'.screen.lookup.Some? ==>
          w'.screen.lookup == w.screen.lookup && w'.screen.checkpoint == w.screen.checkpoint)
  }

  ghost predicate Acts(w: World, w': World) {
    || (exists key :: Confirms(w, w', key))
    || Resends(w, w')
    || (exists sequence :: LookupReturns(w, w', sequence, PassFound))
    || (exists listed :: Fetches(w, w', listed))
    || Loads(w, w')
    || Rests(w, w')
  }

  lemma LookupReturnActs(w: World, w': World, sequence: nat, reply: LookupReply)
    requires LookupReturns(w, w', sequence, reply)
    ensures Acts(w, w')
  {
  }

  lemma ServerRests(w: World, w': World)
    requires (exists request, c :: Serves(w, w', request, c)) || (exists c :: Interferes(w, w', c))
    ensures Rests(w, w')
  {
  }

  lemma ScreenActs(w: World, w': World)
    requires (exists token :: Types(w, w', token)) || (exists checkpoint :: Clears(w, w', checkpoint)) || LooksUp(w, w')
             || (exists sequence, reply :: RedeemReturns(w, w', sequence, reply))
             || (exists sequence :: AnswersLookup(w, w', sequence)) || Leaves(w, w')
    ensures Rests(w, w')
  {
  }

  lemma StepActs(w: World, w': World)
    requires Steps(w, w')
    ensures Acts(w, w')
  {
    if sequence, reply :| LookupReturns(w, w', sequence, reply) {
      LookupReturnActs(w, w', sequence, reply);
    } else if (exists request, c :: Serves(w, w', request, c)) || (exists c :: Interferes(w, w', c)) {
      ServerRests(w, w');
    } else if !(exists key :: Confirms(w, w', key)) && !Resends(w, w') && !Loads(w, w')
              && !(exists listed :: Fetches(w, w', listed)) {
      ScreenActs(w, w');
    }
  }

  lemma LoadStays(w: World, w': World, lookup: nat)
    requires Stays(w, lookup) && Loads(w, w') && !Displaces(w, w', lookup)
    ensures Stays(w', lookup) && w'.issued == w.issued
  {
  }

  lemma ConfirmStays(w: World, w': World, key: Id, lookup: nat)
    requires Stays(w, lookup) && Confirms(w, w', key)
    ensures Stays(w', lookup) && !(w.lookups == lookup && Moved(w))
  {
  }

  lemma ResendStays(w: World, w': World, lookup: nat)
    requires Remembered(w) && Forgotten(w) && Stays(w, lookup) && Resends(w, w')
    ensures Stays(w', lookup) && w'.issued == w.issued
  {
  }

  lemma RestStays(w: World, w': World, lookup: nat)
    requires Stays(w, lookup) && Rests(w, w')
    ensures Stays(w', lookup)
  {
  }

  lemma StepStays(w: World, w': World, lookup: nat)
    requires Remembered(w) && Forgotten(w) && Stays(w, lookup) && Acts(w, w') && !Displaces(w, w', lookup)
    ensures Stays(w', lookup) && !MakesAnother(w, w', lookup)
  {
    if key :| Confirms(w, w', key) {
      ConfirmStays(w, w', key, lookup);
    } else if Resends(w, w') {
      ResendStays(w, w', lookup);
    } else if Loads(w, w') {
      LoadStays(w, w', lookup);
    } else if Rests(w, w') {
      RestStays(w, w', lookup);
    }
  }

  lemma {:induction false} RunStays(run: seq<World>, i: nat, lookup: nat)
    requires IsSession(run) && i < |run| && !Displaced(run, i, lookup)
    ensures Stays(run[i], lookup) && !ConfirmedMoved(run, i, lookup)
  {
    if i > 0 {
      if Displaced(run, i - 1, lookup) { assert Displaced(run, i, lookup); }
      RunStays(run, i - 1, lookup);
      SessionKeeps(run, i - 1);
      assert Steps(run[i - 1], run[i - 1 + 1]) && !Displaces(run[i - 1], run[i - 1 + 1], lookup);
      StepActs(run[i - 1], run[i]);
      StepStays(run[i - 1], run[i], lookup);
      MovedLater(run, i, lookup);
    }
  }

  /** A lookup leads to at most one redemption, whatever the network does, unless after its latest request a list
      arrives under it on which another checkpoint stands alone. */
  lemma OneRedemptionUnlessDisplaced(run: seq<World>, i: nat, lookup: nat)
    requires IsSession(run) && i < |run| && !Displaced(run, i, lookup)
    ensures Made(run[i].store.redemptions, Keys(run[i].issued, lookup)) <= 1
  {
    RunStays(run, i, lookup);
    OneRedemptionUnlessMoved(run, i, lookup);
  }

  lemma ListingActs(w: World, w': World)
    requires Acts(w, w') && w'.listing.Some?
    ensures w'.listing == w.listing || Lists(w.store, w'.listing.value)
  {
  }

  /** A list that a step brings was read from the store it meets. */
  ghost predicate Reads(w: World, w': World) {
    w'.listing.Some? ==> w'.listing == w.listing || Lists(w.store, w'.listing.value)
  }

  lemma StepReads(run: seq<World>, i: nat)
    requires IsSession(run) && i < |run| - 1
    ensures Reads(run[i], run[i + 1])
  {
    assert Steps(run[i], run[i + 1]);
    StepActs(run[i], run[i + 1]);
    if run[i + 1].listing.Some? { ListingActs(run[i], run[i + 1]); }
  }

  lemma {:induction false} ReadBefore(run: seq<World>, j: nat) returns (k: nat)
    requires j < |run| && run[j].listing.Some? && run[0].listing.None?
    requires forall i :: 0 <= i < j ==> Reads(run[i], run[i + 1])
    ensures k < j && Lists(run[k].store, run[j].listing.value)
  {
    assert j > 0 && Reads(run[j - 1], run[j - 1 + 1]);
    if run[j].listing == run[j - 1].listing {
      k := ReadBefore(run, j - 1);
    } else {
      k := j - 1;
    }
  }

  /** Every list was read from the server. */
  lemma ListingWasRead(run: seq<World>, j: nat) returns (k: nat)
    requires IsSession(run) && j < |run| && run[j].listing.Some?
    ensures k < j && Lists(run[k].store, run[j].listing.value)
  {
    forall i | 0 <= i < j ensures Reads(run[i], run[i + 1]) {
      StepReads(run, i);
    }
    k := ReadBefore(run, j);
  }

  lemma NotListed(w: World, w': World, lookup: nat, s: Store)
    requires Displaces(w, w', lookup) && Lists(s, w.listing.value)
    ensures !IsActive(s, w.last.value.checkpoint)
  {
    assert w.last.value.checkpoint !in w.listing.value;
  }

  /** A lookup leads to at most one redemption if every checkpoint it was sent to was active whenever the list was
      read. */
  lemma OneRedemptionWhileActive(run: seq<World>, i: nat, lookup: nat)
    requires IsSession(run) && i < |run|
    requires forall j, k :: 0 <= k <= j < i && run[j].lookups == lookup && run[j].last.Some? ==>
      IsActive(run[k].store, run[j].last.value.checkpoint)
    ensures Made(run[i].store.redemptions, Keys(run[i].issued, lookup)) <= 1
  {
    if Displaced(run, i, lookup) {
      var j :| 0 <= j < i && Displaces(run[j], run[j + 1], lookup);
      var k := ListingWasRead(run, j);
      NotListed(run[j], run[j + 1], lookup, run[k].store);
    }
    OneRedemptionUnlessDisplaced(run, i, lookup);
  }

  // ---- Nothing is deactivated ----------------------------------------------------------------------

  ghost predicate Deactivates(w: World, w': World) {
    exists c :: IsActive(w.store, c) && !IsActive(w'.store, c)
  }

  /** What the screen lists is active, a list on its way has all of it, and so the latest request's checkpoint. */
  ghost predicate Upheld(w: World) {
    && (forall c :: c in w.screen.checkpoints ==> IsActive(w.store, c))
    && (w.listing.Some? ==>
          && (forall c :: c in w.listing.value ==> IsActive(w.store, c))
          && (forall c :: c in w.screen.checkpoints ==> c in w.listing.value))
    && (w.screen.lookup.Some? && w.last.Some? && !w.screen.over ==> w.last.value.checkpoint in w.screen.checkpoints)
  }

  lemma ConfirmUpholds(w: World, w': World, key: Id)
    requires Remembered(w) && Upheld(w) && Confirms(w, w', key)
    ensures Upheld(w')
  {
  }

  lemma ResendUpholds(w: World, w': World)
    requires Remembered(w) && Forgotten(w) && Upheld(w) && Resends(w, w')
    ensures Upheld(w')
  {
  }

  lemma FetchUpholds(w: World, w': World, listed: seq<Id>)
    requires Upheld(w) && Fetches(w, w', listed)
    ensures Upheld(w')
  {
  }

  lemma LoadUpholds(w: World, w': World)
    requires Upheld(w) && Loads(w, w')
    ensures Upheld(w')
  {
  }

  lemma RestUpholds(w: World, w': World)
    requires Upheld(w) && !Deactivates(w, w') && Rests(w, w')
    ensures Upheld(w')
  {
  }

  lemma StepUpholds(w: World, w': World)
    requires Remembered(w) && Forgotten(w) && Upheld(w) && Acts(w, w') && !Deactivates(w, w')
    ensures Upheld(w')
  {
    if key :| Confirms(w, w', key) {
      ConfirmUpholds(w, w', key);
    } else if Resends(w, w') {
      ResendUpholds(w, w');
    } else if listed :| Fetches(w, w', listed) {
      FetchUpholds(w, w', listed);
    } else if Loads(w, w') {
      LoadUpholds(w, w');
    } else if Rests(w, w') {
      RestUpholds(w, w');
    }
  }

  lemma {:induction false} RunUpholds(run: seq<World>, i: nat)
    requires IsSession(run) && i < |run| && forall j :: 0 <= j < i ==> !Deactivates(run[j], run[j + 1])
    ensures Upheld(run[i])
  {
    if i > 0 {
      RunUpholds(run, i - 1);
      SessionKeeps(run, i - 1);
      assert Steps(run[i - 1], run[i - 1 + 1]) && !Deactivates(run[i - 1], run[i - 1 + 1]);
      StepActs(run[i - 1], run[i]);
      StepUpholds(run[i - 1], run[i]);
    }
  }

  lemma NotDisplaced(w: World, w': World, lookup: nat)
    requires Upheld(w)
    ensures !Displaces(w, w', lookup)
  {
  }

  /** While no checkpoint is deactivated, every lookup leads to at most one redemption. */
  lemma OneRedemptionWithoutDeactivation(run: seq<World>, i: nat, lookup: nat)
    requires IsSession(run) && i < |run| && forall j :: 0 <= j < i ==> !Deactivates(run[j], run[j + 1])
    ensures Made(run[i].store.redemptions, Keys(run[i].issued, lookup)) <= 1
  {
    if Displaced(run, i, lookup) {
      var j :| 0 <= j < i && Displaces(run[j], run[j + 1], lookup);
      RunUpholds(run, j);
      NotDisplaced(run[j], run[j + 1], lookup);
    }
    OneRedemptionUnlessDisplaced(run, i, lookup);
  }

  // ---- There is no other checkpoint ----------------------------------------------------------------

  /** The screen knows of no checkpoint but one. */
  predicate Confined(w: World, c: Id) {
    && (forall other :: other in w.screen.checkpoints ==> other == c)
    && (w.listing.Some? ==> forall other :: other in w.listing.value ==> other == c)
    && (w.screen.lookup.Some? && w.last.Some? && !w.screen.over ==> w.last.value.checkpoint == c)
  }

  lemma CommitCheckpoints(c: Commit)
    requires Serial(c)
    ensures Post(c).checkpoints.Keys == c.pre.checkpoints.Keys
  {
    SerialApplicable(c);
  }

  lemma StepCheckpoints(w: World, w': World)
    requires Steps(w, w')
    ensures w'.store.checkpoints.Keys == w.store.checkpoints.Keys
  {
    if request, c :| Serves(w, w', request, c) {
      CommitCheckpoints(c);
    } else if c :| Interferes(w, w', c) {
      CommitCheckpoints(c);
    }
  }

  lemma ConfirmConfines(w: World, w': World, key: Id, c: Id)
    requires Remembered(w) && Confined(w, c) && Confirms(w, w', key)
    ensures Confined(w', c)
  {
  }

  lemma StepConfines(w: World, w': World, c: Id)
    requires Remembered(w) && Forgotten(w) && Confined(w, c) && w.store.checkpoints.Keys <= {c} && Acts(w, w')
    ensures Confined(w', c)
  {
    if key :| Confirms(w, w', key) {
      ConfirmConfines(w, w', key, c);
    } else if Resends(w, w') {
    } else if listed :| Fetches(w, w', listed) {
      forall other | other in listed ensures other == c {
        assert other in w.store.checkpoints.Keys;
      }
    }
  }

  lemma SessionConfines(run: seq<World>, i: nat, c: Id)
    requires IsSession(run) && i < |run| - 1 && Confined(run[i], c) && run[i].store.checkpoints.Keys <= {c}
    ensures Confined(run[i + 1], c) && run[i + 1].store.checkpoints.Keys <= {c}
  {
    SessionKeeps(run, i);
    assert Steps(run[i], run[i + 1]);
    StepCheckpoints(run[i], run[i + 1]);
    StepActs(run[i], run[i + 1]);
    StepConfines(run[i], run[i + 1], c);
  }

  lemma {:induction false} RunConfines(run: seq<World>, i: nat, c: Id)
    requires IsSession(run) && i < |run| && run[0].store.checkpoints.Keys <= {c}
    ensures Confined(run[i], c) && run[i].store.checkpoints.Keys <= {c}
  {
    if i > 0 {
      RunConfines(run, i - 1, c);
      SessionConfines(run, i - 1, c);
    }
  }

  lemma ConfinedStays(w: World, w': World, lookup: nat, c: Id)
    requires Confined(w, c)
    ensures !Displaces(w, w', lookup)
  {
    assert w.listing.Some? && |w.listing.value| == 1 ==> w.listing.value[0] in w.listing.value;
  }

  /** With a single checkpoint every lookup leads to at most one redemption. */
  lemma OneRedemptionWithOneCheckpoint(run: seq<World>, i: nat, lookup: nat, c: Id)
    requires IsSession(run) && i < |run| && run[0].store.checkpoints.Keys <= {c}
    ensures Made(run[i].store.redemptions, Keys(run[i].issued, lookup)) <= 1
  {
    if Displaced(run, i, lookup) {
      var j :| 0 <= j < i && Displaces(run[j], run[j + 1], lookup);
      RunConfines(run, j, c);
      ConfinedStays(run[j], run[j + 1], lookup, c);
    }
    OneRedemptionUnlessDisplaced(run, i, lookup);
  }
}
