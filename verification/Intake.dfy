/** Drafts and submission: answers are validated from an unlocked read, and a compare-and-set on the version decides. */
module Intake {
  import opened Domain
  import opened Forms

  datatype Row = Row(
    status: Status, version: int, answers: map<string, Raw>, resume: bool,
    email: Option<string>,         // the applicant's address as of submission
    confirmation: Option<string>)  // the queued confirmation, unique per application

  // The form an application was started on never changes; text it cannot parse is None.
  datatype Rules = Rules(schema: Option<FormDoc>, isAddress: string -> bool)

  datatype Input =
    | Save(answers: Option<map<string, Raw>>, version: int)
    | Submit(email: string, version: int)

  datatype Outcome =
    | Written
    | Already
    | Conflicting(current: int)
    | BadForm
    | Refused(verdict: Verdict)
    | Closed

  function FormOf(rules: Rules): Option<Form> {
    if rules.schema.Some? && Publishable(rules.schema.value)
    then Some(Form(rules.schema.value.resumeRequired, rules.schema.value.resumeAfter,
                   ReadAll(rules.schema.value.questions.value)))
    else None
  }

  /** What the applicant is told of the status: decisions stay hidden. */
  function Public(status: Status): Status {
    if IsDecision(status) then Submitted else status
  }

  predicate Matches(r: Row, input: Input) {
    r.status.Draft? && r.version == input.version
  }

  /** The row a successful call leaves. */
  function After(r: Row, input: Input): Row {
    match input
    case Save(answers, _) => r.(version := r.version + 1, answers := if answers.Some? then answers.value else r.answers)
    case Submit(email, _) =>
      r.(status := Submitted, version := r.version + 1, email := Some(email),
         confirmation := if r.confirmation.Some? then r.confirmation else Some(email))
  }

  /** The outcome of a call that nothing else interferes with; open says whether the application window is. */
  ghost function Alone(rules: Rules, r: Row, input: Input, open: bool): Outcome {
    if input.Submit? && Public(r.status).Submitted? then Already
    else if !Matches(r, input) then Conflicting(r.version)
    else if FormOf(rules).None? then BadForm
    else
      var form := FormOf(rules).value;
      var answers := if input.Save? then input.answers else Some(r.answers);
      var verdict := Judged(form, answers, input.Submit?, rules.isAddress);
      if !verdict.Fine? then Refused(verdict)
      else if input.Submit? && form.resumeRequired && !r.resume then Refused(Incomplete)
      else if input.Submit? && !open then Closed
      else Written
  }

  /** A row past its draft was validated complete, has the resume its form demands, and its confirmation is queued. */
  ghost predicate Validated(rules: Rules, r: Row) {
    !r.status.Draft? ==>
      && FormOf(rules).Some? && Judged(FormOf(rules).value, Some(r.answers), true, rules.isAddress).Fine?
      && (FormOf(rules).value.resumeRequired ==> r.resume)
      && r.email.Some? && r.confirmation.Some?
  }

  /** What a save needs: a draft at the expected version, a form, and answers that are fine as a draft. */
  lemma SaveMeans(rules: Rules, r: Row, answers: Option<map<string, Raw>>, version: int, open: bool)
    ensures var outcome := Alone(rules, r, Save(answers, version), open);
            var mine := r.status == Draft && r.version == version;
            && (outcome.Conflicting? <==> !mine) && (outcome.Conflicting? ==> outcome.current == r.version)
            && (outcome.BadForm? <==> mine && FormOf(rules).None?)
            && (outcome.Written? <==>
                  mine && FormOf(rules).Some? && Judged(FormOf(rules).value, answers, false, rules.isAddress).Fine?)
            && (outcome.Refused? ==> outcome.verdict == Judged(FormOf(rules).value, answers, false, rules.isAddress))
            && !outcome.Already? && !outcome.Closed?
  {
  }

  /** What a submission needs: a draft at the expected version, a form, complete answers, the resume if the form demands
      one, and an open window. Whoever is past the draft and has not withdrawn is told that it is submitted. */
  lemma SubmitMeans(rules: Rules, r: Row, email: string, version: int, open: bool)
    ensures var outcome := Alone(rules, r, Submit(email, version), open);
            var past := r.status == Submitted || r.status == Accepted || r.status == Waitlisted || r.status == Rejected;
            var mine := r.status == Draft && r.version == version;
            && (outcome.Already? <==> past)
            && (outcome.Conflicting? <==> !past && !mine) && (outcome.Conflicting? ==> outcome.current == r.version)
            && (outcome.BadForm? <==> mine && FormOf(rules).None?)
            && (mine && FormOf(rules).Some? ==>
                  var form := FormOf(rules).value;
                  var verdict := Judged(form, Some(r.answers), true, rules.isAddress);
                  var equipped := form.resumeRequired ==> r.resume;
                  && (outcome.Written? <==> verdict.Fine? && equipped && open)
                  && (outcome.Closed? <==> verdict.Fine? && equipped && !open)
                  && (!verdict.Fine? ==> outcome == Refused(verdict))
                  && (verdict.Fine? && !equipped ==> outcome == Refused(Incomplete)))
            && (outcome.Written? || outcome.Closed? || outcome.Refused? ==> mine && FormOf(rules).Some?)
  {
  }

  // ---- The service, one call at a time --------------------------------------------------

  class ApplicationRecord {
    var status: Status
    var version: int
    var answers: map<string, Raw>
    var resume: bool
    var email: Option<string>
    var confirmation: Option<string>
    const rules: Rules

    function Contents(): Row
      reads this
    {
      Row(status, version, answers, resume, email, confirmation)
    }

    constructor (rules: Rules)
      ensures this.rules == rules && Contents() == Row(Draft, 0, map[], false, None, None)
      ensures Validated(rules, Contents())
    {
      this.rules := rules;
      status, version, answers, resume, email, confirmation := Draft, 0, map[], false, None, None;
    }

    /** The guarded update: only a draft at the expected version is advanced. */
    method AdvanceVersion(expected: int) returns (updated: bool)
      modifies this`version
      ensures updated <==> old(status).Draft? && old(version) == expected
      ensures version == if updated then old(version) + 1 else old(version)
    {
      if status.Draft? && version == expected {
        version := version + 1;
        return true;
      }
      return false;
    }

    method Schema() returns (form: Option<Form>)
      ensures form == FormOf(rules)
    {
      form := ParsePublishedForm(rules.schema);
    }

    /** Everything that a save looks at before it writes. */
    method CheckDraft(input: Input) returns (outcome: Outcome)
      requires input.Save?
      ensures outcome == Alone(rules, Contents(), input, true)
      ensures outcome.Written? ==> input.answers.Some? && Matches(Contents(), input)
    {
      if !status.Draft? || version != input.version { return Conflicting(version); }
      var form := Schema();
      if form.None? { return BadForm; }
      var verdict := ValidateAnswers(form.value, input.answers, false, rules.isAddress);
      if !verdict.Fine? { return Refused(verdict); }
      return Written;
    }

    method SaveDraft(input: Input) returns (outcome: Outcome)
      requires input.Save?
      modifies this
      ensures outcome == Alone(rules, old(Contents()), input, true)
      ensures Contents() == if outcome.Written? then After(old(Contents()), input) else old(Contents())
      ensures status == old(status) && resume == old(resume)
      ensures email == old(email) && confirmation == old(confirmation)
      ensures outcome.Written? ==> Some(answers) == input.answers && version == old(version) + 1
      ensures !outcome.Written? ==> answers == old(answers) && version == old(version)
    {
      outcome := CheckDraft(input);
      if !outcome.Written? { return; }
      var updated := AdvanceVersion(input.version);
      if !updated { return Conflicting(version); }
      answers := map[];
      answers := answers + input.answers.value;
      return Written;
    }

    method SubmitDraft(input: Input, open: bool) returns (outcome: Outcome)
      requires input.Submit?
      modifies this
      ensures outcome == Alone(rules, old(Contents()), input, open)
      ensures Contents() == if outcome.Written? then After(old(Contents()), input) else old(Contents())
      ensures answers == old(answers) && resume == old(resume)
      ensures outcome.Written? ==> status == Submitted && version == old(version) + 1 && email == Some(input.email)
      ensures outcome.Written? ==> confirmation == if old(confirmation) == None then Some(input.email)
                                                   else old(confirmation)
      ensures !outcome.Written? ==> status == old(status) && version == old(version)
                                    && email == old(email) && confirmation == old(confirmation)
    {
      if Public(status).Submitted? { return Already; }
      if !status.Draft? || version != input.version { return Conflicting(version); }
      var form := Schema();
      if form.None? { return BadForm; }
      var verdict := ValidateAnswers(form.value, Some(answers), true, rules.isAddress);
      if !verdict.Fine? { return Refused(verdict); }
      if form.value.resumeRequired && !resume { return Refused(Incomplete); }
      if !open { return Closed; }
      var updated := AdvanceVersion(input.version);
      if !updated { return Conflicting(version); }
      status, email := Submitted, Some(input.email);
      if confirmation.None? { confirmation := Some(input.email); }
      return Written;
    }
  }

  // ---- Interleaved calls -------------------------------------------------------------------

  /** A call reads the row, a submission then looks for the resume, the guarded update locks the row, and commit makes
      the write visible. Lost means that the guard failed. */
  datatype Phase = Opened | Seen(row: Row) | Equipped(row: Row) | Holding | Lost | Over(outcome: Outcome)

  datatype Session = Session(input: Input, phase: Phase)
  datatype Write = Write(input: Input, pre: Row)
  datatype State = State(row: Row, sessions: map<Id, Session>, holder: Option<Id>, writes: seq<Write>)

  function Turn(st: State, id: Id, phase: Phase): State
    requires id in st.sessions
  {
    st.(sessions := st.sessions[id := st.sessions[id].(phase := phase)])
  }

  predicate Opens(st: State, st': State, id: Id, input: Input) {
    id !in st.sessions && st' == st.(sessions := st.sessions[id := Session(input, Opened)])
  }

  /** The unlocked read and everything decided from it. */
  ghost predicate Looks(rules: Rules, st: State, st': State, id: Id) {
    && id in st.sessions && st.sessions[id].phase.Opened?
    && var x := st.sessions[id];
    // Neither the resume nor the window is looked at yet.
    var outcome := Alone(rules, st.row.(resume := true), x.input, true);
    st' == Turn(st, id, if outcome.Written? then Seen(st.row) else Over(outcome))
  }

  predicate Equips(rules: Rules, st: State, st': State, id: Id) {
    && id in st.sessions && st.sessions[id].phase.Seen? && st.sessions[id].input.Submit?
    && st' == Turn(st, id, if FormOf(rules).Some? && FormOf(rules).value.resumeRequired && !st.row.resume
                           then Over(Refused(Incomplete)) else Equipped(st.sessions[id].phase.row))
  }

  /** The guarded update waits for the row lock and tests the row it then finds. */
  predicate Updates(st: State, st': State, id: Id, open: bool) {
    && id in st.sessions && st.holder.None?
    && var x := st.sessions[id];
    && (if x.input.Save? then x.phase.Seen? else x.phase.Equipped?)
    && if Matches(st.row, x.input) && (x.input.Submit? ==> open)
       then st' == Turn(st, id, Holding).(holder := Some(id))
       else st' == Turn(st, id, Lost)
  }

  /** After a failed guard the row is read again to say why. */
  predicate Explains(st: State, st': State, id: Id, open: bool) {
    && id in st.sessions && st.sessions[id].phase.Lost?
    && st' == Turn(st, id, Over(if st.sessions[id].input.Submit? && Matches(st.row, st.sessions[id].input) && !open
                                then Closed else Conflicting(st.row.version)))
  }

  predicate Commits(st: State, st': State, id: Id) {
    && id in st.sessions && st.sessions[id].phase.Holding?
    && st' == State(After(st.row, st.sessions[id].input), st.sessions - {id}, None,
                    st.writes + [Write(st.sessions[id].input, st.row)])
  }

  predicate Leaves(st: State, st': State, id: Id) {
    id in st.sessions
        && st' == st.(sessions := st.sessions - {id}, holder := if st.holder == Some(id) then None else st.holder)
  }

  predicate Uploads(st: State, st': State) {
    st' == st.(row := st.row.(resume := true))
  }

  /** A decision changes the status of a submitted application and leaves its version alone. */
  predicate Decides(st: State, st': State, verdict: Status) {
    && st.holder.None? && (st.row.status.Submitted? || IsDecision(st.row.status)) && IsDecision(verdict)
    && st' == st.(row := st.row.(status := verdict))
  }

  ghost predicate Moves(rules: Rules, st: State, st': State) {
    || (exists id, input :: Opens(st, st', id, input))
    || (exists id :: Looks(rules, st, st', id))
    || (exists id :: Equips(rules, st, st', id))
    || (exists id, open :: Updates(st, st', id, open))
    || (exists id, open :: Explains(st, st', id, open))
    || (exists id :: Commits(st, st', id))
    || (exists id :: Leaves(st, st', id))
    || Uploads(st, st')
    || (exists verdict :: Decides(st, st', verdict))
  }

  ghost predicate Init(rules: Rules, st: State) {
    st.sessions == map[] && st.holder.None? && st.writes == [] && Validated(rules, st.row)
  }

  ghost predicate IsRun(rules: Rules, run: seq<State>) {
    && |run| > 0 && Init(rules, run[0])
    && forall i :: 0 <= i < |run| - 1 ==> Moves(rules, run[i], run[i + 1])
  }

  // ---- The invariant -------------------------------------------------------------------------

  /** What was validated when it was read is what a call at that version would still write: every change of the answers
      advances the version. */
  ghost predicate Fresh(rules: Rules, row: Row, input: Input, seen: Row) {
    && Matches(seen, input) && Alone(rules, seen.(resume := true), input, true).Written?
    && (row.version == seen.version ==> row.answers == seen.answers)
    && seen.version <= row.version
  }

  ghost predicate SessionOk(rules: Rules, st: State, id: Id)
    requires id in st.sessions
  {
    var x := st.sessions[id];
    match x.phase
    case Seen(seen) => Fresh(rules, st.row, x.input, seen)
    case Equipped(seen) => Fresh(rules, st.row, x.input, seen)
        && (FormOf(rules).Some? && FormOf(rules).value.resumeRequired ==> st.row.resume)
    case Holding => st.holder == Some(id) && Alone(rules, st.row, x.input, true).Written?
    case _ => true
  }

  ghost predicate Inv(rules: Rules, st: State) {
    && Validated(rules, st.row)
    && (forall id :: id in st.sessions ==> SessionOk(rules, st, id))
    && (st.holder.Some? ==> st.holder.value in st.sessions && st.sessions[st.holder.value].phase.Holding?)
  }

  /** How the row may change while a session is under way. */
  ghost predicate Ahead(row: Row, row': Row) {
    && row.version <= row'.version && (row'.version == row.version ==> row'.answers == row.answers)
       && (row.resume ==> row'.resume)
  }

  lemma FreshStays(rules: Rules, row: Row, row': Row, input: Input, seen: Row)
    requires Fresh(rules, row, input, seen) && Ahead(row, row')
    ensures Fresh(rules, row', input, seen)
  {
  }

  lemma OthersStay(rules: Rules, st: State, st': State, id: Id)
    requires Inv(rules, st) && id in st.sessions && id in st'.sessions && st'.sessions[id] == st.sessions[id]
    requires Ahead(st.row, st'.row)
    requires st.holder == Some(id) ==> st'.holder == st.holder && st'.row == st.row.(resume := st'.row.resume)
    ensures SessionOk(rules, st', id)
  {
    assert SessionOk(rules, st, id);
    var x := st.sessions[id];
    if x.phase.Seen? || x.phase.Equipped? { FreshStays(rules, st.row, st'.row, x.input, x.phase.row); }
  }

  lemma LooksKeeps(rules: Rules, st: State, st': State, id: Id)
    requires Inv(rules, st) && Looks(rules, st, st', id)
    ensures Inv(rules, st')
  {
    forall other | other in st'.sessions ensures SessionOk(rules, st', other) {
      if other != id { OthersStay(rules, st, st', other); }
    }
  }

  lemma EquipsKeeps(rules: Rules, st: State, st': State, id: Id)
    requires Inv(rules, st) && Equips(rules, st, st', id)
    ensures Inv(rules, st')
  {
    assert SessionOk(rules, st, id);
    forall other | other in st'.sessions ensures SessionOk(rules, st', other) {
      if other != id { OthersStay(rules, st, st', other); }
    }
  }

  lemma GuardHolds(rules: Rules, st: State, id: Id)
    requires Inv(rules, st) && id in st.sessions && Matches(st.row, st.sessions[id].input)
    requires if st.sessions[id].input.Save? then st.sessions[id].phase.Seen? else st.sessions[id].phase.Equipped?
    ensures Alone(rules, st.row, st.sessions[id].input, true).Written?
  {
    assert SessionOk(rules, st, id);
  }

  lemma UpdatesKeeps(rules: Rules, st: State, st': State, id: Id, open: bool)
    requires Inv(rules, st) && Updates(st, st', id, open)
    ensures Inv(rules, st')
  {
    if Matches(st.row, st.sessions[id].input) { GuardHolds(rules, st, id); }
    forall other | other in st'.sessions ensures SessionOk(rules, st', other) {
      if other != id { OthersStay(rules, st, st', other); }
    }
  }

  lemma ExplainsKeeps(rules: Rules, st: State, st': State, id: Id, open: bool)
    requires Inv(rules, st) && Explains(st, st', id, open)
    ensures Inv(rules, st')
  {
    forall other | other in st'.sessions ensures SessionOk(rules, st', other) {
      if other != id { OthersStay(rules, st, st', other); }
    }
  }

  lemma WriteValidates(rules: Rules, r: Row, input: Input)
    requires Validated(rules, r) && Alone(rules, r, input, true).Written?
    ensures Validated(rules, After(r, input)) && Ahead(r, After(r, input))
  {
  }

  lemma CommitsKeeps(rules: Rules, st: State, st': State, id: Id)
    requires Inv(rules, st) && Commits(st, st', id)
    ensures Inv(rules, st')
  {
    assert SessionOk(rules, st, id);
    WriteValidates(rules, st.row, st.sessions[id].input);
    forall other | other in st'.sessions ensures SessionOk(rules, st', other) {
      OthersStay(rules, st, st', other);
    }
  }

  lemma LeavesKeeps(rules: Rules, st: State, st': State, id: Id)
    requires Inv(rules, st) && Leaves(st, st', id)
    ensures Inv(rules, st')
  {
    forall other | other in st'.sessions ensures SessionOk(rules, st', other) {
      OthersStay(rules, st, st', other);
    }
  }

  lemma RowChangeKeeps(rules: Rules, st: State, st': State)
    requires Inv(rules, st) && (Uploads(st, st') || exists verdict :: Decides(st, st', verdict))
    ensures Inv(rules, st')
  {
    forall other | other in st'.sessions ensures SessionOk(rules, st', other) {
      OthersStay(rules, st, st', other);
    }
  }

  lemma OpensKeeps(rules: Rules, st: State, st': State, id: Id, input: Input)
    requires Inv(rules, st) && Opens(st, st', id, input)
    ensures Inv(rules, st')
  {
    forall other | other in st'.sessions ensures SessionOk(rules, st', other) {
      if other != id { OthersStay(rules, st, st', other); }
    }
  }

  lemma MoveKeeps(rules: Rules, st: State, st': State)
    requires Inv(rules, st) && Moves(rules, st, st')
    ensures Inv(rules, st')
  {
    if id, input :| Opens(st, st', id, input) { OpensKeeps(rules, st, st', id, input); }
    else if id :| Looks(rules, st, st', id) { LooksKeeps(rules, st, st', id); }
    else if id :| Equips(rules, st, st', id) { EquipsKeeps(rules, st, st', id); }
    else if id, open :| Updates(st, st', id, open) { UpdatesKeeps(rules, st, st', id, open); }
    else if id, open :| Explains(st, st', id, open) { ExplainsKeeps(rules, st, st', id, open); }
    else if id :| Commits(st, st', id) { CommitsKeeps(rules, st, st', id); }
    else if id :| Leaves(st, st', id) { LeavesKeeps(rules, st, st', id); }
    else { RowChangeKeeps(rules, st, st'); }
  }

  lemma {:induction false} RunKeeps(rules: Rules, run: seq<State>, i: nat)
    requires IsRun(rules, run) && i < |run|
    ensures Inv(rules, run[i])
  {
    if i > 0 {
      RunKeeps(rules, run, i - 1);
      MoveKeeps(rules, run[i - 1], run[i]);
    }
  }

  // ---- What holds of every run ------------------------------------------------------------------

  /** Submitted means validated: in every interleaving, an application past its draft holds answers that the validator
      accepts as complete, and the resume its form demands. */
  lemma SubmittedMeansValidated(rules: Rules, run: seq<State>, i: nat)
    requires IsRun(rules, run) && i < |run| && !run[i].row.status.Draft?
    ensures FormOf(rules).Some? && Judged(FormOf(rules).value, Some(run[i].row.answers), true, rules.isAddress).Fine?
    ensures FormOf(rules).value.resumeRequired ==> run[i].row.resume
    ensures run[i].row.email.Some? && run[i].row.confirmation.Some?
  {
    RunKeeps(rules, run, i);
  }

  /** A row past its draft keeps its answers, its version and its address. */
  predicate Settled(row: Row, row': Row) {
    !row.status.Draft? ==>
      && !row'.status.Draft? && row'.answers == row.answers && row'.version == row.version
      && row'.email == row.email && row'.confirmation == row.confirmation
  }

  /** A step that commits no write: at most the resume appears or a decision falls on a submitted application. */
  predicate Quiet(st: State, st': State) {
    && st'.writes == st.writes
    && st'.row == st.row.(status := st'.row.status, resume := st'.row.resume)
    && (st'.row.status.Draft? <==> st.row.status.Draft?)
  }

  lemma MoveIsQuiet(rules: Rules, st: State, st': State)
    requires Moves(rules, st, st')
    ensures Quiet(st, st') || exists id :: Commits(st, st', id)
  {
  }

  lemma MoveSettles(rules: Rules, st: State, st': State)
    requires Inv(rules, st) && (Quiet(st, st') || exists id :: Commits(st, st', id))
    ensures Settled(st.row, st'.row)
  {
    if id :| Commits(st, st', id) { assert SessionOk(rules, st, id); }
  }

  lemma RunSettles(rules: Rules, run: seq<State>, k: nat)
    requires IsRun(rules, run) && k < |run| - 1
    ensures Settled(run[k].row, run[k + 1].row)
  {
    RunKeeps(rules, run, k);
    MoveIsQuiet(rules, run[k], run[k + 1]);
    MoveSettles(rules, run[k], run[k + 1]);
  }

  lemma {:induction false} SettledFrom(run: seq<State>, i: nat, j: nat)
    requires i <= j < |run| && forall k :: i <= k < j ==> Settled(run[k].row, run[k + 1].row)
    ensures Settled(run[i].row, run[j].row)
    decreases j
  {
    if i < j { SettledFrom(run, i, j - 1); }
  }

  /** Once submitted, an application's answers never change again, whatever calls were under way. */
  lemma AnswersAreFinal(rules: Rules, run: seq<State>, i: nat, j: nat)
    requires IsRun(rules, run) && i <= j < |run| && !run[i].row.status.Draft?
    ensures !run[j].row.status.Draft? && run[j].row.answers == run[i].row.answers
    ensures run[j].row.version == run[i].row.version
  {
    forall k | i <= k < j ensures Settled(run[k].row, run[k + 1].row) {
      RunSettles(rules, run, k);
    }
    SettledFrom(run, i, j);
  }

  /** Every committed write was made against the version its call expected, versions advancing by one from write to
      write, and did what the call alone would have done to the row it met. */
  ghost predicate Atomic(rules: Rules, first: Row, st: State) {
    && (forall k :: 0 <= k < |st.writes| ==>
          && Alone(rules, st.writes[k].pre, st.writes[k].input, true).Written?
          && st.writes[k].pre.version == st.writes[k].input.version == first.version + k)
    && st.row.version == first.version + |st.writes|
  }

  lemma CommitIsAtomic(rules: Rules, first: Row, st: State, st': State, id: Id)
    requires Inv(rules, st) && Atomic(rules, first, st) && Commits(st, st', id)
    ensures Atomic(rules, first, st')
  {
    assert SessionOk(rules, st, id);
    forall k | 0 <= k < |st'.writes|
      ensures Alone(rules, st'.writes[k].pre, st'.writes[k].input, true).Written?
      ensures st'.writes[k].pre.version == st'.writes[k].input.version == first.version + k
    {
      if k < |st.writes| { assert st'.writes[k] == st.writes[k]; }
    }
  }

  lemma MoveIsAtomic(rules: Rules, first: Row, st: State, st': State)
    requires Inv(rules, st) && Atomic(rules, first, st) && (Quiet(st, st') || exists id :: Commits(st, st', id))
    ensures Atomic(rules, first, st')
  {
    if id :| Commits(st, st', id) { CommitIsAtomic(rules, first, st, st', id); }
  }

  /** No lost update: in every interleaving the k-th committed write expected, met and advanced version k of the row,
      and was exactly what its call alone does there. */
  lemma {:induction false} WritesAreAtomic(rules: Rules, run: seq<State>, i: nat)
    requires IsRun(rules, run) && i < |run|
    ensures Atomic(rules, run[0].row, run[i])
  {
    if i > 0 {
      WritesAreAtomic(rules, run, i - 1);
      RunKeeps(rules, run, i - 1);
      MoveIsQuiet(rules, run[i - 1], run[i]);
      MoveIsAtomic(rules, run[0].row, run[i - 1], run[i]);
    }
  }

  // ---- What is stored is what was sent --------------------------------------------------------------

  /** The answers of the latest committed save, or those there were before any. */
  function LatestAnswers(initial: map<string, Raw>, writes: seq<Write>): map<string, Raw> {
    if writes == [] then initial
    else
      match writes[|writes| - 1].input
      case Save(Some(answers), _) => answers
      case _ => LatestAnswers(initial, writes[..|writes| - 1])
  }

  /** The address of the latest committed submission, if any. */
  function LatestEmail(initial: Option<string>, writes: seq<Write>): Option<string> {
    if writes == [] then initial
    else
      match writes[|writes| - 1].input
      case Submit(email, _) => Some(email)
      case _ => LatestEmail(initial, writes[..|writes| - 1])
  }

  ghost predicate Latest(first: Row, st: State) {
    && st.row.answers == LatestAnswers(first.answers, st.writes)
    && st.row.email == LatestEmail(first.email, st.writes)
  }

  lemma CommitIsLatest(rules: Rules, first: Row, st: State, st': State, id: Id)
    requires Inv(rules, st) && Latest(first, st) && Commits(st, st', id)
    ensures Latest(first, st')
  {
    assert SessionOk(rules, st, id);
    assert st'.writes[..|st.writes|] == st.writes;
  }

  lemma MoveIsLatest(rules: Rules, first: Row, st: State, st': State)
    requires Inv(rules, st) && Latest(first, st) && (Quiet(st, st') || exists id :: Commits(st, st', id))
    ensures Latest(first, st')
  {
    if id :| Commits(st, st', id) { CommitIsLatest(rules, first, st, st', id); }
  }

  /** In every interleaving the answers of an application are those of its latest committed save, and its address is
      that of its latest committed submission. */
  lemma {:induction false} StoredIsLatest(rules: Rules, run: seq<State>, i: nat)
    requires IsRun(rules, run) && i < |run|
    ensures run[i].row.answers == LatestAnswers(run[0].row.answers, run[i].writes)
    ensures run[i].row.email == LatestEmail(run[0].row.email, run[i].writes)
  {
    if i > 0 {
      StoredIsLatest(rules, run, i - 1);
      RunKeeps(rules, run, i - 1);
      MoveIsQuiet(rules, run[i - 1], run[i]);
      MoveIsLatest(rules, run[0].row, run[i - 1], run[i]);
    }
  }
}
