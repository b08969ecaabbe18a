/** The attendance report of a checkpoint, and what its numbers mean. */
module Reports {
  import opened Domain
  import opened Protocol
  import opened Specs
  import opened Machine
  import opened LedgerInvariants
  import opened DecisionInvariants
  import opened Reachable

  /** The redemptions of a checkpoint, counted. */
  function Total(rs: seq<Redemption>, checkpoint: Id): nat {
    if rs == [] then 0
    else Total(rs[..|rs| - 1], checkpoint) + (if rs[|rs| - 1].checkpoint == checkpoint then 1 else 0)
  }

  /** The distinct attendees among them. */
  function Attended(rs: seq<Redemption>, checkpoint: Id): set<Id> {
    set r | r in rs && r.checkpoint == checkpoint :: r.attendee
  }

  /** The applications of a cycle whose current released acceptance is confirmed, by the cached columns. */
  function ConfirmedApplications(s: Store, cycle: Id): set<Id> {
    set app | app in s.applications && s.applications[app].cycle == cycle && Visible(s.applications[app])
              && s.applications[app].current.Some? && s.applications[app].current.value in s.responses
              && s.responses[s.applications[app].current.value].status.Confirmed?
  }

  datatype CheckpointCount = CheckpointCount(total: nat, unique: nat, confirmed: nat)

  /** One line of the report. */
  function Report(s: Store, checkpoint: Id): CheckpointCount
    requires checkpoint in s.checkpoints
  {
    CheckpointCount(Total(s.redemptions, checkpoint), |Attended(s.redemptions, checkpoint)|,
                    |ConfirmedApplications(s, s.checkpoints[checkpoint].cycle)|)
  }

  // ---- What the numbers mean -----------------------------------------------------

  /** The highest ordinal of one attendee at one checkpoint, zero if there is none. */
  function Highest(rs: seq<Redemption>, attendee: Id, checkpoint: Id): int {
    if rs == [] then 0
    else
      var last := rs[|rs| - 1];
      var before := Highest(rs[..|rs| - 1], attendee, checkpoint);
      if last.attendee == attendee && last.checkpoint == checkpoint then Max(before, last.ordinal) else before
  }

  /** The highest ordinals of a group of attendees, added up in any order. */
  ghost function SumHighest(rs: seq<Redemption>, people: set<Id>, checkpoint: Id): int {
    if people == {} then 0
    else
      var a :| a in people;
      Highest(rs, a, checkpoint) + SumHighest(rs, people - {a}, checkpoint)
  }

  /** How many redemptions of a checkpoint carry ordinal 1. */
  function Firsts(rs: seq<Redemption>, checkpoint: Id): nat {
    if rs == [] then 0
    else
      Firsts(rs[..|rs| - 1], checkpoint)
      + (if rs[|rs| - 1].checkpoint == checkpoint && rs[|rs| - 1].ordinal == 1 then 1 else 0)
  }

  lemma DensePrefix(rs: seq<Redemption>)
    requires Dense(rs) && rs != []
    ensures Dense(rs[..|rs| - 1])
    ensures rs[|rs| - 1].ordinal == Count(rs[..|rs| - 1], rs[|rs| - 1].attendee, rs[|rs| - 1].checkpoint) + 1
  {
    var init := rs[..|rs| - 1];
    forall i | 0 <= i < |init| ensures init[i].ordinal == Count(init[..i], init[i].attendee, init[i].checkpoint) + 1 {
      assert init[..i] == rs[..i];
    }
  }

  lemma {:induction false} HighestIsCount(rs: seq<Redemption>, attendee: Id, checkpoint: Id)
    requires Dense(rs)
    ensures Highest(rs, attendee, checkpoint) == Count(rs, attendee, checkpoint)
  {
    if rs != [] {
      DensePrefix(rs);
      HighestIsCount(rs[..|rs| - 1], attendee, checkpoint);
    }
  }

  /** The redemptions of a checkpoint made by a group of attendees, counted. */
  function TotalOf(rs: seq<Redemption>, people: set<Id>, checkpoint: Id): nat {
    if rs == [] then 0
    else
      var last := rs[|rs| - 1];
      TotalOf(rs[..|rs| - 1], people, checkpoint)
          + (if last.checkpoint == checkpoint && last.attendee in people then 1 else 0)
  }

  lemma {:induction false} TotalOfSplits(rs: seq<Redemption>, people: set<Id>, a: Id, checkpoint: Id)
    requires a in people
    ensures TotalOf(rs, people, checkpoint) == Count(rs, a, checkpoint) + TotalOf(rs, people - {a}, checkpoint)
  {
    if rs != [] { TotalOfSplits(rs[..|rs| - 1], people, a, checkpoint); }
  }

  lemma {:induction false} TotalOfNone(rs: seq<Redemption>, checkpoint: Id)
    ensures TotalOf(rs, {}, checkpoint) == 0
  {
    if rs != [] { TotalOfNone(rs[..|rs| - 1], checkpoint); }
  }

  lemma {:induction false} TotalOfAll(rs: seq<Redemption>, people: set<Id>, checkpoint: Id)
    requires Attended(rs, checkpoint) <= people
    ensures TotalOf(rs, people, checkpoint) == Total(rs, checkpoint)
  {
    if rs != [] {
      var last := rs[|rs| - 1];
      assert last in rs;
      assert last.checkpoint == checkpoint ==> last.attendee in Attended(rs, checkpoint);
      TotalOfAll(rs[..|rs| - 1], people, checkpoint);
    }
  }

  lemma {:induction false} SumIsTotalOf(rs: seq<Redemption>, people: set<Id>, checkpoint: Id)
    requires Dense(rs)
    ensures SumHighest(rs, people, checkpoint) == TotalOf(rs, people, checkpoint)
  {
    if people == {} {
      TotalOfNone(rs, checkpoint);
    } else {
      var a :| a in people
          && SumHighest(rs, people, checkpoint)
             == Highest(rs, a, checkpoint) + SumHighest(rs, people - {a}, checkpoint);
      HighestIsCount(rs, a, checkpoint);
      SumIsTotalOf(rs, people - {a}, checkpoint);
      TotalOfSplits(rs, people, a, checkpoint);
    }
  }

  lemma {:induction false} AttendedMeansCounted(rs: seq<Redemption>, attendee: Id, checkpoint: Id)
    ensures attendee in Attended(rs, checkpoint) <==> Count(rs, attendee, checkpoint) > 0
  {
    if rs != [] {
      var init, last := rs[..|rs| - 1], rs[|rs| - 1];
      AttendedMeansCounted(init, attendee, checkpoint);
      AttendedAppend(init, last, checkpoint);
      assert rs == init + [last];
    }
  }

  lemma AttendedAppend(rs: seq<Redemption>, r: Redemption, checkpoint: Id)
    ensures Attended(rs + [r], checkpoint)
            == Attended(rs, checkpoint) + (if r.checkpoint == checkpoint then {r.attendee} else {})
  {
    assert forall x :: x in rs + [r] <==> x in rs || x == r;
  }

  lemma FirstIsNew(rs: seq<Redemption>, r: Redemption, checkpoint: Id)
    requires r.ordinal == Count(rs, r.attendee, r.checkpoint) + 1
    ensures |Attended(rs + [r], checkpoint)|
         == |Attended(rs, checkpoint)| + (if r.checkpoint == checkpoint && r.ordinal == 1 then 1 else 0)
  {
    AttendedAppend(rs, r, checkpoint);
    if r.checkpoint == checkpoint {
      AttendedMeansCounted(rs, r.attendee, checkpoint);
      if r.attendee in Attended(rs, checkpoint) {
        assert Attended(rs, checkpoint) + {r.attendee} == Attended(rs, checkpoint);
      }
    }
  }

  lemma {:induction false} UniqueAreFirsts(rs: seq<Redemption>, checkpoint: Id)
    requires Dense(rs)
    ensures |Attended(rs, checkpoint)| == Firsts(rs, checkpoint)
  {
    if rs != [] {
      DensePrefix(rs);
      UniqueAreFirsts(rs[..|rs| - 1], checkpoint);
      FirstIsNew(rs[..|rs| - 1], rs[|rs| - 1], checkpoint);
      assert rs == rs[..|rs| - 1] + [rs[|rs| - 1]];
    }
  }

  /** The applications of a cycle that pass the pass gate, which reads the decision tables. */
  function ThroughGate(s: Store, cycle: Id): set<Id> {
    set app | app in s.applications && s.applications[app].cycle == cycle && IsConfirmed(s, app)
  }

  lemma ConfirmedPassGate(s: Store, cycle: Id)
    requires DecisionInv(s)
    ensures ConfirmedApplications(s, cycle) == ThroughGate(s, cycle)
  {
    forall app | app in s.applications
      ensures IsConfirmed(s, app) <==> app in ConfirmedApplications(s, s.applications[app].cycle)
    {
      CacheAgrees(s, app);
    }
  }

  /** In every reachable state a checkpoint's total is the sum of its attendees' highest ordinals, its unique
      attendees are its redemptions with ordinal 1, and its confirmed responses are the applications that pass the
      pass gate. */
  lemma ReportIsTrue(run: seq<State>, i: nat, checkpoint: Id)
    requires IsRun(run) && i < |run| && StoreInv(run[0].store) && checkpoint in run[i].store.checkpoints
    ensures var s := run[i].store;
            var line := Report(s, checkpoint);
            && line.total == SumHighest(s.redemptions, Attended(s.redemptions, checkpoint), checkpoint)
            && line.unique == Firsts(s.redemptions, checkpoint)
            && line.confirmed == |ThroughGate(s, s.checkpoints[checkpoint].cycle)|
  {
    EveryStateIsSafe(run, i);
    ReportOfSafeStore(run[i].store, checkpoint);
  }

  lemma ReportOfSafeStore(s: Store, checkpoint: Id)
    requires StoreInv(s) && checkpoint in s.checkpoints
    ensures var line := Report(s, checkpoint);
            && line.total == SumHighest(s.redemptions, Attended(s.redemptions, checkpoint), checkpoint)
            && line.unique == Firsts(s.redemptions, checkpoint)
            && line.confirmed == |ThroughGate(s, s.checkpoints[checkpoint].cycle)|
  {
    SumIsTotalOf(s.redemptions, Attended(s.redemptions, checkpoint), checkpoint);
    TotalOfAll(s.redemptions, Attended(s.redemptions, checkpoint), checkpoint);
    UniqueAreFirsts(s.redemptions, checkpoint);
    ConfirmedPassGate(s, s.checkpoints[checkpoint].cycle);
  }
}
