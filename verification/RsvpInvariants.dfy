/** Attendance responses: versioned per decision, alternating, and never overwritten by a stale answer. */
module RsvpInvariants {
  import opened Domain
  import opened Protocol
  import opened Transactions
  import opened Specs
  import opened Machine
  import opened LedgerInvariants

  /** The responses given to a decision, oldest first, as the audit trail tells. */
  function Answers(audits: seq<Audit>, decision: Id): seq<Response> {
    if audits == [] then []
    else
      var last := audits[|audits| - 1];
      Answers(audits[..|audits| - 1], decision)
      + (if last.RsvpChanged? && last.decision == decision then [Response(last.answer, last.version)] else [])
  }

  lemma AnswersAppend(audits: seq<Audit>, event: Audit, decision: Id)
    ensures Answers(audits + [event], decision)
         == Answers(audits, decision)
            + (if event.RsvpChanged? && event.decision == decision then [Response(event.answer, event.version)] else [])
  {
    assert (audits + [event])[..|audits|] == audits;
  }

  lemma {:induction false} AnswersOther(audits: seq<Audit>, more: seq<Audit>, decision: Id)
    requires forall i :: 0 <= i < |more| ==> !more[i].RsvpChanged?
    ensures Answers(audits + more, decision) == Answers(audits, decision)
  {
    if more == [] {
      assert audits + more == audits;
    } else {
      var init := more[..|more| - 1];
      AnswersOther(audits, init, decision);
      assert audits + more == (audits + init) + [more[|more| - 1]];
      AnswersAppend(audits + init, more[|more| - 1], decision);
    }
  }

  /** Versions count 1, 2, 3, ... and consecutive answers differ, so they alternate. */
  predicate Alternating(answers: seq<Response>) {
    && (forall i :: 0 <= i < |answers| ==> answers[i].version == i + 1)
    && (forall i :: 0 < i < |answers| ==> answers[i].status != answers[i - 1].status)
  }

  /** The stored response is the last answer; with no answer there is no row. */
  predicate Latest(responses: map<Id, Response>, decision: Id, answers: seq<Response>) {
    if answers == [] then decision !in responses
    else decision in responses && responses[decision] == answers[|answers| - 1]
  }

  ghost predicate RsvpInv(s: Store) {
    && (forall d :: Alternating(Answers(s.audits, d)) && Latest(s.responses, d, Answers(s.audits, d)))
    && (forall d :: d in s.responses ==>
        d in s.decisions && s.decisions[d].outcome.Accepted? && s.decisions[d].releasedAt.Some?)
  }

  lemma AnswerAppended(responses: map<Id, Response>, d: Id, answers: seq<Response>, answer: Response)
    requires Alternating(answers) && Latest(responses, d, answers)
    requires if d in responses then answer.status != responses[d].status && answer.version == responses[d].version + 1
             else answer.version == 1
    ensures Alternating(answers + [answer]) && Latest(responses[d := answer], d, answers + [answer])
  {
  }

  lemma SavedRow(s: Store, e: Effect)
    requires e.SaveResponse? && Applicable(s, e)
    ensures Apply(s, e).responses == s.responses[e.decision := e.response] && Apply(s, e).audits == s.audits + [e.event]
    ensures e.event.RsvpChanged? && e.event.decision == e.decision
    ensures Response(e.event.answer, e.event.version) == e.response
    ensures if e.decision in s.responses
            then e.response.status != s.responses[e.decision].status
                && e.response.version == s.responses[e.decision].version + 1
            else e.response.version == 1
  {
  }

  lemma AnswerKept(responses: map<Id, Response>, audits: seq<Audit>, event: Audit, answer: Response, d: Id)
    requires event.RsvpChanged? && Response(event.answer, event.version) == answer
    requires Alternating(Answers(audits, d)) && Latest(responses, d, Answers(audits, d))
    requires d == event.decision ==>
      if d in responses then answer.status != responses[d].status && answer.version == responses[d].version + 1
          else answer.version == 1
    ensures Alternating(Answers(audits + [event], d))
    ensures Latest(responses[event.decision := answer], d, Answers(audits + [event], d))
  {
    AnswersAppend(audits, event, d);
    if d == event.decision { AnswerAppended(responses, d, Answers(audits, d), answer); }
    else { assert Answers(audits + [event], d) == Answers(audits, d); }
  }

  lemma SavedAnswer(s: Store, e: Effect, d: Id)
    requires e.SaveResponse? && Applicable(s, e)
    requires Alternating(Answers(s.audits, d)) && Latest(s.responses, d, Answers(s.audits, d))
    ensures Alternating(Answers(Apply(s, e).audits, d))
    ensures Latest(Apply(s, e).responses, d, Answers(Apply(s, e).audits, d))
  {
    SavedRow(s, e);
    AnswerKept(s.responses, s.audits, e.event, e.response, d);
  }

  lemma OtherAnswers(s: Store, e: Effect, d: Id)
    requires !e.SaveResponse? && Applicable(s, e)
    ensures Answers(Apply(s, e).audits, d) == Answers(s.audits, d) && Apply(s, e).responses == s.responses
  {
    EventsAppended(s, e);
    AnswersOther(s.audits, Events(e), d);
  }

  lemma RespondedStay(s: Store, e: Effect, d: Id)
    requires Applicable(s, e) && d in s.decisions && s.decisions[d].outcome.Accepted? && s.decisions[d].releasedAt.Some?
    ensures d in Apply(s, e).decisions && Apply(s, e).decisions[d] == s.decisions[d]
  {
  }

  lemma RsvpsKept(s: Store, e: Effect)
    requires RsvpInv(s) && Applicable(s, e)
    ensures RsvpInv(Apply(s, e))
  {
    var s' := Apply(s, e);
    forall d ensures Alternating(Answers(s'.audits, d)) && Latest(s'.responses, d, Answers(s'.audits, d)) {
      if e.SaveResponse? { SavedAnswer(s, e, d); } else { OtherAnswers(s, e, d); }
    }
    forall d | d in s'.responses
      ensures d in s'.decisions && s'.decisions[d].outcome.Accepted? && s'.decisions[d].releasedAt.Some?
    {
      if d in s.responses { RespondedStay(s, e, d); }
    }
  }

  /** A new decision has no response, whatever was answered to the decisions before it. */
  lemma NewDecisionIsPending(s: Store, e: Effect)
    requires RsvpInv(s) && e.AddDecision? && Applicable(s, e)
    ensures e.decision !in Apply(s, e).responses
  {
  }

  /** An answer that differs from the stored one is taken only at the stored version; any other leaves the row as it
      is. */
  lemma StaleAnswerIsRefused(s: Store, r: RsvpInput)
    requires r.application in s.applications && s.applications[r.application].applicant == r.user
    requires s.applications[r.application].current == Some(r.decision)
    requires Project(s, r.application).Some? && r.version >= 0
    ensures var stored := Get(s.responses, r.decision);
            var held := if stored.Some? then stored.value.version else 0;
            var next := RespondAtomically(s, r);
            && (next == Fail(Conflict) <==> (stored.None? || stored.value.status != r.status) && held != r.version)
            && (next.Finish? && next.effect.SaveResponse?
                <==> (stored.None? || stored.value.status != r.status) && held == r.version)
            && (next.Finish? && next.effect.Nothing? <==> stored.Some? && stored.value.status == r.status)
  {
  }
}
