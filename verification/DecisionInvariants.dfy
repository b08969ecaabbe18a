/** The decision chain of every application, the cache on the application row, the attendee it creates and the release
    email. */
module DecisionInvariants {
  import opened Domain
  import opened Protocol
  import opened Transactions
  import opened Specs
  import opened LedgerInvariants

  /** The decisions recorded for an application, oldest first, as the audit trail tells. */
  function Chain(audits: seq<Audit>, application: Id): seq<Id> {
    if audits == [] then []
    else
      var last := audits[|audits| - 1];
      Chain(audits[..|audits| - 1], application)
      + (if last.DecisionRecorded? && last.application == application then [last.decision] else [])
  }

  lemma ChainAppend(audits: seq<Audit>, event: Audit, application: Id)
    ensures Chain(audits + [event], application)
         == Chain(audits, application)
             + (if event.DecisionRecorded? && event.application == application then [event.decision] else [])
  {
    assert (audits + [event])[..|audits|] == audits;
  }

  lemma {:induction false} ChainOther(audits: seq<Audit>, more: seq<Audit>, application: Id)
    requires forall i :: 0 <= i < |more| ==> !more[i].DecisionRecorded?
    ensures Chain(audits + more, application) == Chain(audits, application)
  {
    if more == [] {
      assert audits + more == audits;
    } else {
      var init := more[..|more| - 1];
      ChainOther(audits, init, application);
      assert audits + more == (audits + init) + [more[|more| - 1]];
      ChainAppend(audits + init, more[|more| - 1], application);
    }
  }

  /** One application's decisions form a line, each superseding the one before. */
  predicate Linear(decisions: map<Id, Decision>, chain: seq<Id>, application: Id) {
    && (forall i :: 0 <= i < |chain| ==> chain[i] in decisions && decisions[chain[i]].application == application)
    && (forall i :: 0 < i < |chain| ==> decisions[chain[i]].supersedes == Some(chain[i - 1]))
    && (chain != [] ==> decisions[chain[0]].supersedes == None)
    && (forall i, j :: 0 <= i < j < |chain| ==> chain[i] != chain[j])
  }

  /** The application row caches its latest decision. */
  predicate Caches(app: Application, decisions: map<Id, Decision>, chain: seq<Id>) {
    if chain == [] then app.current.None? && app.releasedAt.None? && !IsDecision(app.status)
    else
      var d := chain[|chain| - 1];
      d in decisions && app.current == Some(d) && app.status == decisions[d].outcome
          && app.releasedAt == decisions[d].releasedAt
  }

  predicate EverAccepted(decisions: map<Id, Decision>, chain: seq<Id>) {
    exists i :: 0 <= i < |chain| && chain[i] in decisions && decisions[chain[i]].outcome.Accepted?
  }

  ghost predicate ChainInv(decisions: map<Id, Decision>, audits: seq<Audit>) {
    && (forall app :: Linear(decisions, Chain(audits, app), app))
    && (forall d :: d in decisions ==> d in Chain(audits, decisions[d].application))
  }

  ghost predicate CacheInv(s: Store) {
    && (forall app :: app in s.applications ==> Caches(s.applications[app], s.decisions, Chain(s.audits, app)))
    && (forall d :: d in s.decisions ==>
        IsDecision(s.decisions[d].outcome) && s.decisions[d].application in s.applications)
  }

  /** The unique index finds exactly the stored attendees, one per application. */
  predicate AttendeesIndexed(attendees: map<Id, Attendee>, attendeeOf: map<Id, Id>) {
    && (forall app :: app in attendeeOf ==>
        attendeeOf[app] in attendees && attendees[attendeeOf[app]].application == app)
    && (forall a :: a in attendees ==>
        attendees[a].application in attendeeOf && attendeeOf[attendees[a].application] == a)
  }

  ghost predicate AttendeeInv(s: Store) {
    && AttendeesIndexed(s.attendees, s.attendeeOf)
    && (forall app :: app in s.attendeeOf <==> EverAccepted(s.decisions, Chain(s.audits, app)))
  }

  /** A decision has its release email exactly when it is released; the outbox key makes it the only one. */
  ghost predicate Mailed(decisions: map<Id, Decision>, outbox: map<EmailKey, Id>) {
    forall d :: DecisionReleaseEmail(d) in outbox <==> d in decisions && decisions[d].releasedAt.Some?
  }

  ghost predicate DecisionInv(s: Store) {
    ChainInv(s.decisions, s.audits) && CacheInv(s) && AttendeeInv(s) && Mailed(s.decisions, s.outbox)
  }

  // ---- A new decision -----------------------------------------------------------------

  lemma RecordedChain(s: Store, e: Effect, app: Id)
    requires e.AddDecision? && Applicable(s, e)
    ensures Chain(Apply(s, e).audits, app)
         == Chain(s.audits, app) + (if app == e.record.application then [e.decision] else [])
  {
    var last := e.events[|e.events| - 1];
    ChainOther(s.audits, e.events[..|e.events| - 1], app);
    assert s.audits + e.events == (s.audits + e.events[..|e.events| - 1]) + [last];
    ChainAppend(s.audits + e.events[..|e.events| - 1], last, app);
  }

  lemma LinearGrows(decisions: map<Id, Decision>, chain: seq<Id>, app: Id, d: Id, record: Decision)
    requires Linear(decisions, chain, app) && d !in decisions
    ensures Linear(decisions[d := record], chain, app)
  {
  }

  lemma LinearAppend(decisions: map<Id, Decision>, chain: seq<Id>, app: Id, d: Id, record: Decision)
    requires Linear(decisions, chain, app) && d !in decisions && record.application == app
    requires record.supersedes == if chain == [] then None else Some(chain[|chain| - 1])
    ensures Linear(decisions[d := record], chain + [d], app)
  {
  }

  lemma RecordKeepsLine(s: Store, e: Effect, app: Id)
    requires e.AddDecision? && Applicable(s, e)
    requires Linear(s.decisions, Chain(s.audits, app), app)
    requires app in s.applications ==> Caches(s.applications[app], s.decisions, Chain(s.audits, app))
    ensures Linear(s.decisions[e.decision := e.record], Chain(Apply(s, e).audits, app), app)
  {
    RecordedChain(s, e, app);
    if app == e.record.application {
      LinearAppend(s.decisions, Chain(s.audits, app), app, e.decision, e.record);
    } else {
      LinearGrows(s.decisions, Chain(s.audits, app), app, e.decision, e.record);
      assert Chain(Apply(s, e).audits, app) == Chain(s.audits, app);
    }
  }

  lemma RecordKeepsMembers(s: Store, e: Effect, d: Id)
    requires e.AddDecision? && Applicable(s, e) && d in s.decisions[e.decision := e.record]
    requires d in s.decisions ==> d in Chain(s.audits, s.decisions[d].application)
    ensures d in Chain(Apply(s, e).audits, s.decisions[e.decision := e.record][d].application)
  {
    RecordedChain(s, e, s.decisions[e.decision := e.record][d].application);
  }

  lemma RecordKeepsChain(s: Store, e: Effect)
    requires ChainInv(s.decisions, s.audits) && CacheInv(s) && e.AddDecision? && Applicable(s, e)
    ensures ChainInv(Apply(s, e).decisions, Apply(s, e).audits)
  {
    var decisions' := s.decisions[e.decision := e.record];
    var audits' := Apply(s, e).audits;
    forall app ensures Linear(decisions', Chain(audits', app), app) {
      RecordKeepsLine(s, e, app);
    }
    forall d | d in decisions' ensures d in Chain(audits', decisions'[d].application) {
      RecordKeepsMembers(s, e, d);
    }
  }

  lemma CachesGrow(app: Application, decisions: map<Id, Decision>, chain: seq<Id>, d: Id, record: Decision)
    requires Caches(app, decisions, chain) && d !in decisions
    ensures Caches(app, decisions[d := record], chain)
  {
  }

  lemma RecordCaches(s: Store, e: Effect, app: Id)
    requires e.AddDecision? && Applicable(s, e) && app in s.applications
    requires Caches(s.applications[app], s.decisions, Chain(s.audits, app))
    ensures app in Apply(s, e).applications
    ensures Caches(Apply(s, e).applications[app], Apply(s, e).decisions, Chain(Apply(s, e).audits, app))
  {
    RecordedChain(s, e, app);
    if app == e.record.application {
      var chain := Chain(s.audits, app) + [e.decision];
      assert chain[|chain| - 1] == e.decision;
    } else {
      CachesGrow(s.applications[app], s.decisions, Chain(s.audits, app), e.decision, e.record);
      assert Chain(Apply(s, e).audits, app) == Chain(s.audits, app);
    }
  }

  lemma RecordKeepsCache(s: Store, e: Effect)
    requires CacheInv(s) && e.AddDecision? && Applicable(s, e)
    ensures CacheInv(Apply(s, e))
  {
    var s' := Apply(s, e);
    forall app | app in s'.applications ensures Caches(s'.applications[app], s'.decisions, Chain(s'.audits, app)) {
      RecordCaches(s, e, app);
    }
  }

  lemma AcceptedGrows(decisions: map<Id, Decision>, chain: seq<Id>, d: Id, record: Decision)
    requires d !in decisions && forall i :: 0 <= i < |chain| ==> chain[i] in decisions
    ensures EverAccepted(decisions[d := record], chain) == EverAccepted(decisions, chain)
    ensures EverAccepted(decisions[d := record], chain + [d])
            == (EverAccepted(decisions, chain) || record.outcome.Accepted?)
  {
    var all := chain + [d];
    assert all[|chain|] == d;
    if EverAccepted(decisions, chain) {
      var i :| 0 <= i < |chain| && chain[i] in decisions && decisions[chain[i]].outcome.Accepted?;
      assert all[i] == chain[i] && decisions[d := record][chain[i]] == decisions[chain[i]];
    }
    if EverAccepted(decisions[d := record], chain) {
      var i :| 0 <= i < |chain| && chain[i] in decisions[d := record]
          && decisions[d := record][chain[i]].outcome.Accepted?;
      assert chain[i] in decisions && decisions[chain[i]].outcome.Accepted?;
    }
    if EverAccepted(decisions[d := record], all) && !record.outcome.Accepted? {
      var i :| 0 <= i < |all| && all[i] in decisions[d := record] && decisions[d := record][all[i]].outcome.Accepted?;
      assert i < |chain| && all[i] == chain[i];
    }
  }

  lemma RecordJoins(s: Store, e: Effect, app: Id)
    requires e.AddDecision? && Applicable(s, e) && Linear(s.decisions, Chain(s.audits, app), app)
    requires app in s.attendeeOf <==> EverAccepted(s.decisions, Chain(s.audits, app))
    ensures app in Apply(s, e).attendeeOf <==> EverAccepted(Apply(s, e).decisions, Chain(Apply(s, e).audits, app))
  {
    RecordedChain(s, e, app);
    AcceptedGrows(s.decisions, Chain(s.audits, app), e.decision, e.record);
    if app != e.record.application {
      assert Chain(Apply(s, e).audits, app) == Chain(s.audits, app);
    }
  }

  lemma RecordKeepsAttendees(s: Store, e: Effect)
    requires ChainInv(s.decisions, s.audits) && AttendeeInv(s) && e.AddDecision? && Applicable(s, e)
    ensures AttendeeInv(Apply(s, e))
  {
    var s' := Apply(s, e);
    forall app ensures app in s'.attendeeOf <==> EverAccepted(s'.decisions, Chain(s'.audits, app)) {
      RecordJoins(s, e, app);
    }
    RecordKeepsIndex(s, e);
  }

  lemma RecordKeepsIndex(s: Store, e: Effect)
    requires AttendeesIndexed(s.attendees, s.attendeeOf) && e.AddDecision? && Applicable(s, e)
    ensures AttendeesIndexed(Apply(s, e).attendees, Apply(s, e).attendeeOf)
  {
  }

  lemma RecordKeepsMail(s: Store, e: Effect)
    requires Mailed(s.decisions, s.outbox) && e.AddDecision? && Applicable(s, e)
    ensures Mailed(Apply(s, e).decisions, Apply(s, e).outbox)
  {
  }

  // ---- A release -------------------------------------------------------------------------

  lemma QuietChain(s: Store, e: Effect, app: Id)
    requires Applicable(s, e) && !e.AddDecision?
    ensures Chain(Apply(s, e).audits, app) == Chain(s.audits, app)
  {
    EventsAppended(s, e);
    ChainOther(s.audits, Events(e), app);
  }

  lemma LinearReleased(decisions: map<Id, Decision>, chain: seq<Id>, app: Id, d: Id, record: Decision)
    requires Linear(decisions, chain, app) && d in decisions
    requires record.application == decisions[d].application && record.supersedes == decisions[d].supersedes
    ensures Linear(decisions[d := record], chain, app)
  {
  }

  /** Every fact of the chain survives when a decision row changes only its release. */
  lemma ReleaseKeepsChain(s: Store, e: Effect)
    requires ChainInv(s.decisions, s.audits) && e.MarkReleased? && Applicable(s, e)
    ensures ChainInv(Apply(s, e).decisions, Apply(s, e).audits)
  {
    var s' := Apply(s, e);
    forall app ensures Linear(s'.decisions, Chain(s'.audits, app), app) {
      QuietChain(s, e, app);
      LinearReleased(s.decisions, Chain(s.audits, app), app, e.decision, s'.decisions[e.decision]);
    }
    forall d | d in s'.decisions ensures d in Chain(s'.audits, s'.decisions[d].application) {
      QuietChain(s, e, s'.decisions[d].application);
    }
  }

  lemma CachesReleased(app: Application, decisions: map<Id, Decision>, chain: seq<Id>, d: Id, record: Decision)
    requires Caches(app, decisions, chain) && d in decisions && record.outcome == decisions[d].outcome
    requires app.current == Some(d)
    ensures Caches(app.(releasedAt := record.releasedAt), decisions[d := record], chain)
  {
  }

  lemma CachesElsewhere(app: Application, decisions: map<Id, Decision>, chain: seq<Id>, d: Id, record: Decision)
    requires Caches(app, decisions, chain) && d !in chain
    ensures Caches(app, decisions[d := record], chain)
  {
  }

  lemma ReleaseCaches(s: Store, e: Effect, app: Id)
    requires e.MarkReleased? && Applicable(s, e) && app in s.applications
    requires Linear(s.decisions, Chain(s.audits, app), app)
    requires Caches(s.applications[app], s.decisions, Chain(s.audits, app))
    ensures app in Apply(s, e).applications
    ensures Caches(Apply(s, e).applications[app], Apply(s, e).decisions, Chain(s.audits, app))
  {
    var record := e.record.(releasedBy := Some(e.actor), releasedAt := Some(e.at));
    if app == e.record.application {
      CachesReleased(s.applications[app], s.decisions, Chain(s.audits, app), e.decision, record);
    } else {
      CachesElsewhere(s.applications[app], s.decisions, Chain(s.audits, app), e.decision, record);
    }
  }

  lemma ReleaseRows(s: Store, e: Effect)
    requires e.MarkReleased? && Applicable(s, e)
    ensures Apply(s, e).applications.Keys == s.applications.Keys && Apply(s, e).decisions.Keys == s.decisions.Keys
    ensures forall d :: d in s.decisions ==>
      Apply(s, e).decisions[d].outcome == s.decisions[d].outcome
          && Apply(s, e).decisions[d].application == s.decisions[d].application
  {
  }

  lemma ReleaseKeepsCache(s: Store, e: Effect)
    requires ChainInv(s.decisions, s.audits) && CacheInv(s) && e.MarkReleased? && Applicable(s, e)
    ensures CacheInv(Apply(s, e))
  {
    ReleaseRows(s, e);
    forall app | app in Apply(s, e).applications
      ensures Caches(Apply(s, e).applications[app], Apply(s, e).decisions, Chain(Apply(s, e).audits, app))
    {
      QuietChain(s, e, app);
      ReleaseCaches(s, e, app);
    }
  }

  lemma ReleaseKeepsAttendees(s: Store, e: Effect)
    requires AttendeeInv(s) && e.MarkReleased? && Applicable(s, e)
    ensures AttendeeInv(Apply(s, e))
  {
    var s' := Apply(s, e);
    forall app ensures app in s'.attendeeOf <==> EverAccepted(s'.decisions, Chain(s'.audits, app)) {
      QuietChain(s, e, app);
      AcceptedSame(s.decisions, s'.decisions, Chain(s.audits, app));
    }
  }

  lemma AcceptedSame(decisions: map<Id, Decision>, decisions': map<Id, Decision>, chain: seq<Id>)
    requires decisions.Keys == decisions'.Keys && forall d :: d in decisions ==>
             decisions[d].outcome == decisions'[d].outcome
    ensures EverAccepted(decisions', chain) == EverAccepted(decisions, chain)
  {
  }

  lemma ReleaseKeepsMail(s: Store, e: Effect)
    requires Mailed(s.decisions, s.outbox) && e.MarkReleased? && Applicable(s, e)
    ensures Mailed(Apply(s, e).decisions, Apply(s, e).outbox)
  {
  }

  // ---- Everything else -----------------------------------------------------------------------

  lemma OthersLeaveDecisions(s: Store, e: Effect)
    requires Applicable(s, e) && !e.AddDecision? && !e.MarkReleased?
    ensures var s' := Apply(s, e);
            s'.decisions == s.decisions && s'.applications == s.applications
            && s'.attendees == s.attendees && s'.attendeeOf == s.attendeeOf
    ensures forall d :: DecisionReleaseEmail(d) in Apply(s, e).outbox <==> DecisionReleaseEmail(d) in s.outbox
  {
  }

  lemma DecisionsKept(s: Store, e: Effect)
    requires DecisionInv(s) && Applicable(s, e)
    ensures DecisionInv(Apply(s, e))
  {
    if e.AddDecision? {
      RecordKeepsChain(s, e);
      RecordKeepsCache(s, e);
      RecordKeepsAttendees(s, e);
      RecordKeepsMail(s, e);
    } else if e.MarkReleased? {
      ReleaseKeepsChain(s, e);
      ReleaseKeepsCache(s, e);
      ReleaseKeepsAttendees(s, e);
      ReleaseKeepsMail(s, e);
    } else {
      OthersKeepDecisions(s, e);
    }
  }

  lemma SameDecisions(s: Store, s': Store)
    requires DecisionInv(s) && s'.decisions == s.decisions && s'.applications == s.applications
    requires s'.attendees == s.attendees && s'.attendeeOf == s.attendeeOf
    requires forall app :: Chain(s'.audits, app) == Chain(s.audits, app)
    requires forall d :: DecisionReleaseEmail(d) in s'.outbox <==> DecisionReleaseEmail(d) in s.outbox
    ensures DecisionInv(s')
  {
  }

  lemma OthersKeepDecisions(s: Store, e: Effect)
    requires DecisionInv(s) && Applicable(s, e) && !e.AddDecision? && !e.MarkReleased?
    ensures DecisionInv(Apply(s, e))
  {
    OthersLeaveDecisions(s, e);
    forall app ensures Chain(Apply(s, e).audits, app) == Chain(s.audits, app) {
      QuietChain(s, e, app);
    }
    SameDecisions(s, Apply(s, e));
  }

  // ---- Consequences ------------------------------------------------------------------------------

  /** The cached test for a released acceptance agrees with the decision table. */
  lemma CacheAgrees(s: Store, app: Id)
    requires DecisionInv(s) && app in s.applications
    ensures Visible(s.applications[app]) <==>
            (s.applications[app].current.Some? && s.applications[app].current.value in s.decisions
             && var d := s.decisions[s.applications[app].current.value];
                d.application == app && d.outcome.Accepted? && d.releasedAt.Some?)
  {
    var chain := Chain(s.audits, app);
    assert Caches(s.applications[app], s.decisions, chain) && Linear(s.decisions, chain, app);
  }

  /** A visible acceptance always has its attendee. */
  lemma VisibleHasAttendee(s: Store, app: Id)
    requires DecisionInv(s) && app in s.applications && Visible(s.applications[app])
    ensures app in s.attendeeOf
  {
    var chain := Chain(s.audits, app);
    assert Caches(s.applications[app], s.decisions, chain);
    assert chain[|chain| - 1] in s.decisions && s.decisions[chain[|chain| - 1]].outcome.Accepted?;
  }
}
