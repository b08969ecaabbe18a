/** The contracts of all calls, of calls that run alone and of the transactions of any interleaving. */
module CallContracts {
  import opened Domain
  import opened Protocol
  import opened Transactions
  import opened Specs
  import opened Machine
  import opened Reachable
  import opened Refusals
  import opened Staleness
  import opened Contracts
  import opened ScanContracts

  ghost predicate Posts(s: Store, call: Call, n: Attempt, s': Store, reply: Reply) {
    match call
    case Redeem(q) => RedeemPosts(s, q, n, s', reply)
    case Entitle(e) => EntitlePosts(s, e, s', reply)
    case UpdateCheckpoint(u) => UpdatePosts(s, u, s', reply)
    case OnPass(Issue(actor, attendee, made)) => IssuePosts(s, actor, attendee, made, s', reply)
    case OnPass(Reissue(actor, pass, made)) => ReissuePosts(s, actor, pass, made, s', reply)
    case OnPass(Revoke(actor, pass)) => RevokePosts(s, actor, pass, s', reply)
    case Record(d) => RecordPosts(s, d, s', reply)
    case Release(actor, decision) => ReleasePosts(s, actor, decision, n.now, s', reply)
    case Respond(r) => RespondPosts(s, r, s', reply)
  }

  ghost predicate Fails(s: Store, call: Call, e: Error) {
    match call
    case Redeem(q) => RedeemFails(s, q, e)
    case Entitle(r) => EntitleFails(s, r, e)
    case UpdateCheckpoint(u) => UpdateFails(s, u, e)
    case OnPass(Issue(_, attendee, made)) => IssueFails(s, attendee, made, e)
    case OnPass(Reissue(_, pass, made)) => ReissueFails(s, pass, made, e)
    case OnPass(Revoke(_, pass)) => RevokeFails(s, pass, e)
    case Record(d) => RecordFails(s, d, e)
    case Release(_, decision) => ReleaseFails(s, decision, e)
    case Respond(r) => RespondFails(s, r, e)
  }

  lemma PassMeans(s: Store, p: PassInput, n: Attempt)
    ensures var done := Atomically(s, OnPass(p), n);
            !done.Run? && (done.Finish? ==> Posts(s, OnPass(p), n, Apply(s, done.effect), done.reply))
  {
    match p
    case Issue(actor, attendee, made) => IssueMeans(s, actor, attendee, made, NotFound);
    case Reissue(actor, pass, made) => ReissueMeans(s, actor, pass, made, NotFound);
    case Revoke(actor, pass) => RevokeMeans(s, actor, pass, NotFound);
  }

  /** Any call that goes through leaves and answers what its contract says. */
  lemma CallMeans(s: Store, call: Call, n: Attempt)
    ensures var done := Atomically(s, call, n);
            !done.Run? && (done.Finish? ==> Posts(s, call, n, Apply(s, done.effect), done.reply))
  {
    match call
    case Redeem(q) => RedeemMeans(s, q, n);
    case Entitle(e) => EntitleMeans(s, e);
    case UpdateCheckpoint(u) => UpdateMeans(s, u);
    case OnPass(p) => PassMeans(s, p, n);
    case Record(d) => RecordMeans(s, d, NotFound);
    case Release(actor, decision) => ReleaseMeans(s, actor, decision, n.now, NotFound);
    case Respond(r) => RespondMeans(s, r);
  }

  lemma PassRefuses(s: Store, p: PassInput, n: Attempt, e: Error)
    ensures Atomically(s, OnPass(p), n) == Fail(e) <==> Fails(s, OnPass(p), e)
  {
    match p
    case Issue(actor, attendee, made) => IssueMeans(s, actor, attendee, made, e);
    case Reissue(actor, pass, made) => ReissueMeans(s, actor, pass, made, e);
    case Revoke(actor, pass) => RevokeMeans(s, actor, pass, e);
  }

  /** Any call is refused, and for what, exactly as its contract says. */
  lemma CallRefuses(s: Store, call: Call, n: Attempt, e: Error)
    ensures Atomically(s, call, n) == Fail(e) <==> Fails(s, call, e)
  {
    match call
    case Redeem(q) => RedeemRefuses(s, q, n, e);
    case Entitle(r) => EntitleRefuses(s, r, e);
    case UpdateCheckpoint(u) => UpdateRefuses(s, u, e);
    case OnPass(p) => PassRefuses(s, p, n, e);
    case Record(d) => RecordMeans(s, d, e);
    case Release(actor, decision) => ReleaseMeans(s, actor, decision, n.now, e);
    case Respond(r) => RespondRefuses(s, r, e);
  }

  // ---- In every interleaving --------------------------------------------------------------

  /** Every committed transaction of every interleaving left and answered what its contract says, in the store it met;
      a scan that was outrun by the pass it names, in that store without the pass's hash. */
  lemma CommitsPost(run: seq<State>, i: nat, k: nat)
    requires IsRun(run) && i < |run| && StoreInv(run[0].store) && k < |run[i].history|
    ensures var c := run[i].history[k];
            if Outrun(c)
            then Posts(Blind(c.pre, c.call.q.hash), c.call, c.n, Apply(Blind(c.pre, c.call.q.hash), c.effect), c.reply)
            else Posts(c.pre, c.call, c.n, Post(c), c.reply)
  {
    InterleavingsAreSerial(run, i);
    HistoryKeeps(run[0].store, run[i].history, run[i].store, k);
    var c := run[i].history[k];
    ExactUnlessOutrun(c);
    if Outrun(c) { CallMeans(Blind(c.pre, c.call.q.hash), c.call, c.n); }
    else { CallMeans(c.pre, c.call, c.n); }
  }

  /** Every decision that commits is recorded as it was called for. */
  lemma RecordsPost(run: seq<State>, i: nat, k: nat)
    requires IsRun(run) && i < |run| && k < |run[i].history| && run[i].history[k].call.Record?
    ensures var c := run[i].history[k]; RecordPosts(c.pre, c.call.d, Post(c), c.reply)
  {
    InterleavingsAreSerial(run, i);
    CallMeans(run[i].history[k].pre, run[i].history[k].call, run[i].history[k].n);
  }

  /** Every answer that commits is stored as it was given, and opens the pass gate exactly if it is yes. */
  lemma ResponsesPost(run: seq<State>, i: nat, k: nat)
    requires IsRun(run) && i < |run| && k < |run[i].history| && run[i].history[k].call.Respond?
    ensures var c := run[i].history[k];
            && RespondPosts(c.pre, c.call.r, Post(c), c.reply)
            && (IsConfirmed(Post(c), c.call.r.application) <==> c.call.r.status == Confirmed)
  {
    InterleavingsAreSerial(run, i);
    var c := run[i].history[k];
    CallMeans(c.pre, c.call, c.n);
    AnswerOpensGate(c.pre, c.call.r);
  }

  /** A transaction that is refused is refused for what the store it meets gives reason for, save for a scan overtaken
      by its own key. */
  lemma RefusalsHaveReason(run: seq<State>, i: nat, id: Id)
    requires IsRun(run) && i < |run| - 1 && Advances(run[i], run[i + 1], id) && run[i + 1].sessions[id].next.Fail?
    ensures var call := run[i].sessions[id].call;
            var e := run[i + 1].sessions[id].next.error;
            Overtaken(run[i].store, call, e) || Fails(run[i].store, call, e)
  {
    RefusalsAreJudged(run, i, id);
    CallRefuses(run[i].store, run[i].sessions[id].call, run[i].sessions[id].n, run[i + 1].sessions[id].next.error);
  }
}
