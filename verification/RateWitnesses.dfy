/** Runs of the limiter that show its bounds need what they assume: readings that lag, and evictions, both let more
    through. */
module RateWitnesses {
  import opened Domain
  import opened RateLimiter

  /** A run built call by call, each with the table it leaves. */
  datatype Run = Empty | Then(before: Run, table: map<string, Bucket>, call: Event)

  function Table(run: Run): map<string, Bucket> {
    if run.Empty? then map[] else run.table
  }

  function Calls(run: Run): seq<Event> {
    if run.Empty? then [] else Calls(run.before) + [run.call]
  }

  function Tables(run: Run): seq<map<string, Bucket>> {
    if run.Empty? then [map[]] else Tables(run.before) + [run.table]
  }

  predicate UpTo(run: Run, top: Time) {
    run.Then? ==> run.call.now <= top && UpTo(run.before, top)
  }

  predicate Lawful(cfg: Config, skew: nat, run: Run) {
    run.Then? ==>
      && Lawful(cfg, skew, run.before) && Steps(cfg, Table(run.before), run.table, run.call)
      && UpTo(run.before, run.call.now + skew)
  }

  lemma {:induction false} UpToLater(run: Run, top: Time, top': Time)
    requires UpTo(run, top) && top <= top'
    ensures UpTo(run, top')
  {
    if run.Then? { UpToLater(run.before, top, top'); }
  }

  lemma {:induction false} UpToMeans(run: Run, top: Time)
    requires UpTo(run, top)
    ensures forall i :: 0 <= i < |Calls(run)| ==> Calls(run)[i].now <= top
  {
    if run.Then? { UpToMeans(run.before, top); }
  }

  lemma {:induction false} LawfulIsTrace(cfg: Config, skew: nat, run: Run)
    requires Lawful(cfg, skew, run)
    ensures Trace(cfg, skew, Tables(run), Calls(run)) && Tables(run)[|Calls(run)|] == Table(run)
  {
    if run.Then? {
      LawfulIsTrace(cfg, skew, run.before);
      UpToMeans(run.before, run.call.now + skew);
    }
  }

  /** How often an address was allowed, and evicted, in an interval. */
  function Passed(run: Run, a: string, from: Time, to: Time): nat {
    if run.Empty? then 0
    else
      Passed(run.before, a, from, to)
      + (if run.call.address == a && run.call.allowed && from <= run.call.now < to then 1 else 0)
  }

  function Dropped(run: Run, a: string, from: Time, to: Time): nat {
    if run.Empty? then 0
    else Dropped(run.before, a, from, to) + (if run.call.victim == Some(a) && from <= run.call.now < to then 1 else 0)
  }

  lemma {:induction false} CountsAgree(run: Run, a: string, from: Time, to: Time)
    ensures Allowed(Calls(run), a, from, to) == Passed(run, a, from, to)
    ensures Evicted(Calls(run), a, from, to) == Dropped(run, a, from, to)
  {
    if run.Then? {
      CountsAgree(run.before, a, from, to);
      assert Calls(run)[..|Calls(run)| - 1] == Calls(run.before);
    }
  }

  /** One more call. */
  lemma Adds(
    cfg: Config, skew: nat, run: Run, top: Time, m: map<string, Bucket>, e: Event, top': Time, a: string, from: Time,
        to: Time)
    returns (run': Run)
    requires Lawful(cfg, skew, run) && UpTo(run, top) && Steps(cfg, Table(run), m, e) && e.allowed
    requires top <= top' <= e.now + skew && e.now <= top'
    ensures Lawful(cfg, skew, run') && UpTo(run', top') && Table(run') == m
    ensures Passed(run', a, from, to)
            == Passed(run, a, from, to) + (if e.address == a && from <= e.now < to then 1 else 0)
    ensures Dropped(run', a, from, to)
         == Dropped(run, a, from, to) + (if e.victim == Some(a) && from <= e.now < to then 1 else 0)
  {
    UpToLater(run, top, top');
    UpToLater(run, top, e.now + skew);
    run' := Then(run, m, e);
  }

  // ---- Filling a window -----------------------------------------------------------------------

  predicate AllRunning(cfg: Config, m: map<string, Bucket>, now: Time) {
    forall k :: k in m ==> now - m[k].started < cfg.window
  }

  lemma NothingSwept(cfg: Config, m: map<string, Bucket>, now: Time)
    requires AllRunning(cfg, m, now)
    ensures Fresh(m, now, cfg.window) == m
  {
  }

  lemma CountedOnce(cfg: Config, m: map<string, Bucket>, a: string, now: Time)
    requires a in m && m[a].count < cfg.limit && AllRunning(cfg, m, now)
    ensures Steps(cfg, m, m[a := Bucket(m[a].started, m[a].count + 1)], Event(a, now, true, None))
  {
    NothingSwept(cfg, m, now);
  }

  lemma OpenedOnce(cfg: Config, m: map<string, Bucket>, a: string, now: Time)
    requires a !in m && |m| < cfg.maxEntries && AllRunning(cfg, m, now)
    ensures Steps(cfg, m, m[a := Bucket(now, 1)], Event(a, now, true, None))
  {
    NothingSwept(cfg, m, now);
  }

  lemma CountsMore(
    cfg: Config, skew: nat, run: Run, top: Time, a: string, b: Bucket, now: Time, from: Time,
        to: Time) returns (run': Run)
    requires Lawful(cfg, skew, run) && UpTo(run, top) && now <= top <= now + skew && from <= now < to
    requires a in Table(run) && Table(run)[a] == b && b.count < cfg.limit && AllRunning(cfg, Table(run), now)
    ensures Lawful(cfg, skew, run') && UpTo(run', top) && Table(run') == Table(run)[a := Bucket(b.started, b.count + 1)]
    ensures Passed(run', a, from, to) == Passed(run, a, from, to) + 1
    ensures Dropped(run', a, from, to) == Dropped(run, a, from, to)
    ensures AllRunning(cfg, Table(run'), now)
  {
    var m := Table(run)[a := Bucket(b.started, b.count + 1)];
    CountedOnce(cfg, Table(run), a, now);
    StillRunning(cfg, Table(run), a, now, b.count + 1);
    run' := Adds(cfg, skew, run, top, m, Event(a, now, true, None), top, a, from, to);
  }

  lemma OpensMore(
    cfg: Config, skew: nat, run: Run, top: Time, a: string, now: Time, from: Time, to: Time) returns (run': Run)
    requires Usable(cfg) && Lawful(cfg, skew, run) && UpTo(run, top) && now <= top <= now + skew && from <= now < to
    requires a !in Table(run) && |Table(run)| < cfg.maxEntries && AllRunning(cfg, Table(run), now)
    ensures Lawful(cfg, skew, run') && UpTo(run', top) && Table(run') == Table(run)[a := Bucket(now, 1)]
    ensures Passed(run', a, from, to) == Passed(run, a, from, to) + 1
    ensures Dropped(run', a, from, to) == Dropped(run, a, from, to)
    ensures AllRunning(cfg, Table(run'), now)
  {
    OpenedOnce(cfg, Table(run), a, now);
    run' := Adds(cfg, skew, run, top, Table(run)[a := Bucket(now, 1)], Event(a, now, true, None), top, a, from, to);
  }

  lemma TwiceSet(m: map<string, Bucket>, a: string, b: Bucket, c: Bucket)
    ensures m[a := b][a := c] == m[a := c]
  {
  }

  lemma StillRunning(cfg: Config, m: map<string, Bucket>, a: string, now: Time, count: int)
    requires AllRunning(cfg, m, now) && a in m
    ensures AllRunning(cfg, m[a := Bucket(m[a].started, count)], now)
  {
  }

  /** A running address is allowed a number of times more, at one time. */
  lemma {:induction false} Repeats(
    cfg: Config, skew: nat, run: Run, top: Time, a: string, b: Bucket, now: Time, times: nat, from: Time, to: Time)
    returns (run': Run)
    requires Lawful(cfg, skew, run) && UpTo(run, top) && now <= top <= now + skew && from <= now < to
    requires a in Table(run) && Table(run)[a] == b && b.count + times <= cfg.limit && AllRunning(cfg, Table(run), now)
    ensures Lawful(cfg, skew, run') && UpTo(run', top)
    ensures Table(run') == Table(run)[a := Bucket(b.started, b.count + times)]
    ensures Passed(run', a, from, to) == Passed(run, a, from, to) + times
    ensures Dropped(run', a, from, to) == Dropped(run, a, from, to)
    decreases times
  {
    if times == 0 {
      run' := run;
    } else {
      var m := Table(run);
      var b1 := Bucket(b.started, b.count + 1);
      run' := CountsMore(cfg, skew, run, top, a, b, now, from, to);
      run' := Repeats(cfg, skew, run', top, a, b1, now, times - 1, from, to);
      TwiceSet(m, a, b1, Bucket(b.started, b.count + times));
    }
  }

  /** An address whose window has just opened fills it to the limit. */
  lemma FillsRest(cfg: Config, skew: nat, run: Run, top: Time, a: string, now: Time, from: Time, to: Time)
    returns (run': Run)
    requires Usable(cfg) && Lawful(cfg, skew, run) && UpTo(run, top) && now <= top <= now + skew && from <= now < to
    requires a in Table(run) && Table(run)[a] == Bucket(now, 1) && AllRunning(cfg, Table(run), now)
    ensures Lawful(cfg, skew, run') && UpTo(run', top) && Table(run') == Table(run)[a := Bucket(now, cfg.limit)]
    ensures Passed(run', a, from, to) == Passed(run, a, from, to) + cfg.limit - 1
    ensures Dropped(run', a, from, to) == Dropped(run, a, from, to)
  {
    run' := Repeats(cfg, skew, run, top, a, Bucket(now, 1), now, cfg.limit - 1, from, to);
  }

  /** An address opens a window and fills it to the limit, at one time. */
  lemma Fills(cfg: Config, skew: nat, run: Run, top: Time, a: string, now: Time, from: Time, to: Time)
    returns (run': Run)
    requires Usable(cfg) && Lawful(cfg, skew, run) && UpTo(run, top) && now <= top <= now + skew && from <= now < to
    requires a !in Table(run) && |Table(run)| < cfg.maxEntries && AllRunning(cfg, Table(run), now)
    ensures Lawful(cfg, skew, run') && UpTo(run', top) && Table(run') == Table(run)[a := Bucket(now, cfg.limit)]
    ensures Passed(run', a, from, to) == Passed(run, a, from, to) + cfg.limit
    ensures Dropped(run', a, from, to) == Dropped(run, a, from, to)
  {
    var run1 := OpensMore(cfg, skew, run, top, a, now, from, to);
    run' := FillsRest(cfg, skew, run1, top, a, now, from, to);
    TwiceSet(Table(run), a, Bucket(now, 1), Bucket(now, cfg.limit));
  }

  // ---- Readings that lag -------------------------------------------------------------------

  /** A first window, full by its last instant; its first request is older. */
  lemma FirstWindow(cfg: Config, x: string, from: Time, to: Time) returns (run: Run)
    requires Usable(cfg) && from <= cfg.window - 1 < to
    ensures Lawful(cfg, 1, run) && UpTo(run, cfg.window - 1) && Table(run) == map[x := Bucket(0, cfg.limit)]
    ensures Passed(run, x, from, to) >= cfg.limit - 1 && Dropped(run, x, from, to) == 0
  {
    var b := Bucket(0, 1);
    OpenedOnce(cfg, map[], x, 0);
    run := Then(Empty, map[x := b], Event(x, 0, true, None));
    run := Repeats(cfg, 1, run, cfg.window - 1, x, b, cfg.window - 1, cfg.limit - 1, from, to);
    TwiceSet(map[], x, b, Bucket(0, cfg.limit));
  }

  /** Another address comes exactly at the end of the window and sweeps it away. */
  lemma SweepsFirst(cfg: Config, x: string, y: string)
    requires Usable(cfg) && x != y
    ensures Steps(cfg, map[x := Bucket(0, cfg.limit)], map[y := Bucket(cfg.window, 1)],
                  Event(y, cfg.window, true, None))
  {
    assert Fresh(map[x := Bucket(0, cfg.limit)], cfg.window, cfg.window) == map[];
  }

  lemma SweepsSecond(cfg: Config, x: string, y: string)
    requires Usable(cfg) && x != y && cfg.limit >= 2
    ensures Steps(cfg, map[y := Bucket(cfg.window, 1)][x := Bucket(cfg.window - 1, cfg.limit)],
                  map[y := Bucket(cfg.window, 2)],
                  Event(y, 2 * cfg.window - 1, true, None))
  {
    var m := map[y := Bucket(cfg.window, 1)][x := Bucket(cfg.window - 1, cfg.limit)];
    assert Fresh(m, 2 * cfg.window - 1, cfg.window) == map[y := Bucket(cfg.window, 1)];
    assert map[y := Bucket(cfg.window, 1)][y := Bucket(cfg.window, 2)] == map[y := Bucket(cfg.window, 2)];
  }

  lemma FirstSweep(cfg: Config, run: Run, x: string, y: string, from: Time, to: Time) returns (run': Run)
    requires Usable(cfg) && x != y && Lawful(cfg, 1, run) && UpTo(run, cfg.window - 1)
    requires Table(run) == map[x := Bucket(0, cfg.limit)]
    ensures Lawful(cfg, 1, run') && UpTo(run', cfg.window) && Table(run') == map[y := Bucket(cfg.window, 1)]
    ensures Passed(run', x, from, to) == Passed(run, x, from, to)
    ensures Dropped(run', x, from, to) == Dropped(run, x, from, to)
    ensures AllRunning(cfg, Table(run'), cfg.window - 1)
  {
    SweepsFirst(cfg, x, y);
    var e := Event(y, cfg.window, true, None);
    run' := Adds(cfg, 1, run, cfg.window - 1, map[y := Bucket(cfg.window, 1)], e, cfg.window, x, from, to);
  }

  lemma SecondSweep(cfg: Config, run: Run, x: string, y: string, from: Time, to: Time) returns (run': Run)
    requires Usable(cfg) && x != y && cfg.limit >= 2 && Lawful(cfg, 1, run) && UpTo(run, cfg.window)
    requires Table(run) == map[y := Bucket(cfg.window, 1)][x := Bucket(cfg.window - 1, cfg.limit)]
    ensures Lawful(cfg, 1, run') && UpTo(run', 2 * cfg.window - 1) && Table(run') == map[y := Bucket(cfg.window, 2)]
    ensures Passed(run', x, from, to) == Passed(run, x, from, to)
    ensures Dropped(run', x, from, to) == Dropped(run, x, from, to)
    ensures AllRunning(cfg, Table(run'), 2 * cfg.window - 2)
  {
    var top := 2 * cfg.window - 1;
    SweepsSecond(cfg, x, y);
    run' := Adds(cfg, 1, run, cfg.window, map[y := Bucket(cfg.window, 2)], Event(y, top, true, None), top, x, from, to);
  }

  lemma TwoWindows(cfg: Config, x: string, y: string, from: Time, to: Time) returns (run: Run)
    requires Usable(cfg) && x != y && cfg.maxEntries >= 2 && from <= cfg.window - 1 < to
    ensures Lawful(cfg, 1, run) && UpTo(run, cfg.window)
    ensures Table(run) == map[y := Bucket(cfg.window, 1)][x := Bucket(cfg.window - 1, cfg.limit)]
    ensures Passed(run, x, from, to) >= 2 * cfg.limit - 1 && Dropped(run, x, from, to) == 0
  {
    run := FirstWindow(cfg, x, from, to);
    run := FirstSweep(cfg, run, x, y, from, to);
    run := Fills(cfg, 1, run, cfg.window, x, cfg.window - 1, from, to);
  }

  lemma ThreeWindows(cfg: Config, x: string, y: string, from: Time, to: Time) returns (run: Run)
    requires Usable(cfg) && x != y && cfg.maxEntries >= 2 && cfg.limit >= 2
    requires from <= cfg.window - 1 <= 2 * cfg.window - 2 < to
    ensures Lawful(cfg, 1, run)
    ensures Passed(run, x, from, to) >= 3 * cfg.limit - 1 && Dropped(run, x, from, to) == 0
  {
    var top := 2 * cfg.window - 1;
    run := TwoWindows(cfg, x, y, from, to);
    run := SecondSweep(cfg, run, x, y, from, to);
    run := Fills(cfg, 1, run, top, x, top - 1, from, to);
  }

  /** Readings that lag by a single instant already let an address through almost three times its limit within one
      window, without any eviction. */
  lemma LagLiftsTheBound(cfg: Config, x: string, y: string)
    returns (states: seq<map<string, Bucket>>, events: seq<Event>)
    requires Usable(cfg) && x != y && cfg.maxEntries >= 2 && cfg.limit >= 2
    ensures Trace(cfg, 1, states, events)
    ensures Allowed(events, x, cfg.window - 1, 2 * cfg.window - 1) >= 3 * cfg.limit - 1 > 2 * cfg.limit
    ensures Evicted(events, x, cfg.window - 1, 2 * cfg.window - 1) == 0
  {
    var run := ThreeWindows(cfg, x, y, cfg.window - 1, 2 * cfg.window - 1);
    LawfulIsTrace(cfg, 1, run);
    CountsAgree(run, x, cfg.window - 1, 2 * cfg.window - 1);
    states, events := Tables(run), Calls(run);
  }

  // ---- Evictions ---------------------------------------------------------------------------

  /** Addresses that differ: one letter, repeated. */
  function Name(i: nat): (s: string)
    ensures |s| == i + 1
  {
    seq(i + 1, _ => 'x')
  }

  predicate AllAt(m: map<string, Bucket>, now: Time) {
    forall a :: a in m ==> m[a].started == now
  }

  lemma AllAtRuns(cfg: Config, m: map<string, Bucket>, now: Time)
    requires Usable(cfg) && AllAt(m, now)
    ensures AllRunning(cfg, m, now) && Fresh(m, now, cfg.window) == m
  {
    NothingSwept(cfg, m, now);
  }

  /** A table of addresses other than the first two, all of whose windows opened at one time. */
  predicate Crowd(m: map<string, Bucket>, k: nat, now: Time) {
    |m| == k && AllAt(m, now) && Name(0) !in m && Name(1) !in m && forall a :: a in m ==> |a| <= k + 2
  }

  lemma CrowdGrows(m: map<string, Bucket>, k: nat, now: Time)
    requires Crowd(m, k, now)
    ensures Name(k + 2) !in m && Crowd(m[Name(k + 2) := Bucket(now, 1)], k + 1, now)
  {
    OneMore(m, None, Name(k + 2), Bucket(now, 1));
    assert |Name(0)| == 1 && |Name(1)| == 2;
  }

  /** An address opens a window after what has run out was swept. */
  lemma OpensSwept(cfg: Config, run: Run, a: string, now: Time) returns (run': Run)
    requires Usable(cfg) && Lawful(cfg, 0, run) && UpTo(run, now)
    requires a !in Fresh(Table(run), now, cfg.window) && |Fresh(Table(run), now, cfg.window)| < cfg.maxEntries
    ensures Lawful(cfg, 0, run') && UpTo(run', now)
    ensures run' == Then(run, Fresh(Table(run), now, cfg.window)[a := Bucket(now, 1)], Event(a, now, true, None))
  {
    run' := Then(run, Fresh(Table(run), now, cfg.window)[a := Bucket(now, 1)], Event(a, now, true, None));
  }

  /** After a run whose windows have all run out, other addresses take a number of places. */
  lemma {:induction false} Crowds(cfg: Config, run0: Run, now: Time, from: Time, to: Time, k: nat) returns (run: Run)
    requires Usable(cfg) && k < cfg.maxEntries && Lawful(cfg, 0, run0) && UpTo(run0, now)
    requires Fresh(Table(run0), now, cfg.window) == map[]
    ensures Lawful(cfg, 0, run) && UpTo(run, now) && Crowd(Fresh(Table(run), now, cfg.window), k, now)
    ensures Passed(run, Name(0), from, to) == Passed(run0, Name(0), from, to)
    ensures Dropped(run, Name(0), from, to) == Dropped(run0, Name(0), from, to)
  {
    if k == 0 {
      run := run0;
    } else {
      var run1 := Crowds(cfg, run0, now, from, to, k - 1);
      CrowdGrows(Fresh(Table(run1), now, cfg.window), k - 1, now);
      assert |Name(k + 1)| != |Name(0)|;
      run := OpensSwept(cfg, run1, Name(k + 1), now);
      AllAtRuns(cfg, Table(run), now);
    }
  }

  /** A full table with one of the two addresses in it. */
  predicate Seated(cfg: Config, m: map<string, Bucket>, a: string, other: string, now: Time) {
    |m| == cfg.maxEntries && a in m && other !in m && AllAt(m, now)
  }

  /** One address takes the place of the other. */
  lemma TakesPlace(cfg: Config, m: map<string, Bucket>, a: string, b: string, now: Time)
    returns (m': map<string, Bucket>)
    requires Usable(cfg) && a != b && Seated(cfg, m, a, b, now)
    ensures Seated(cfg, m', b, a, now) && m'[b] == Bucket(now, 1)
    ensures Steps(cfg, m, m', Event(b, now, true, Some(a)))
  {
    m' := (m - {a})[b := Bucket(now, 1)];
    AllAtRuns(cfg, m, now);
    OneMore(m, Some(a), b, Bucket(now, 1));
  }

  /** The address is evicted and comes back. */
  lemma ComesBack(cfg: Config, run: Run, a: string, b: string, now: Time, from: Time, to: Time) returns (run': Run)
    requires Usable(cfg) && a != b && Seated(cfg, Table(run), a, b, now) && Lawful(cfg, 0, run) && UpTo(run, now)
    requires from <= now < to
    ensures Lawful(cfg, 0, run') && UpTo(run', now)
    ensures Seated(cfg, Table(run'), a, b, now) && Table(run')[a] == Bucket(now, 1)
    ensures Passed(run', a, from, to) == Passed(run, a, from, to) + 1
    ensures Dropped(run', a, from, to) == Dropped(run, a, from, to) + 1
  {
    var m1 := TakesPlace(cfg, Table(run), a, b, now);
    var run1 := Then(run, m1, Event(b, now, true, Some(a)));
    var m2 := TakesPlace(cfg, m1, b, a, now);
    run' := Then(run1, m2, Event(a, now, true, Some(b)));
  }

  /** An address in the table fills its window. */
  lemma FillsUp(cfg: Config, run: Run, a: string, b: string, now: Time, from: Time, to: Time) returns (run': Run)
    requires Usable(cfg) && a != b && Lawful(cfg, 0, run) && UpTo(run, now) && from <= now < to
    requires Seated(cfg, Table(run), a, b, now) && Table(run)[a] == Bucket(now, 1)
    ensures Lawful(cfg, 0, run') && UpTo(run', now) && Seated(cfg, Table(run'), a, b, now)
    ensures Passed(run', a, from, to) == Passed(run, a, from, to) + cfg.limit - 1
    ensures Dropped(run', a, from, to) == Dropped(run, a, from, to)
  {
    run' := Repeats(cfg, 0, run, now, a, Bucket(now, 1), now, cfg.limit - 1, from, to);
    assert Table(run').Keys == Table(run).Keys;
    SameSize(Table(run), Table(run'));
  }

  lemma TakesLastPlace(cfg: Config, run0: Run, now: Time, from: Time, to: Time) returns (run: Run)
    requires Usable(cfg) && Lawful(cfg, 0, run0) && UpTo(run0, now) && from <= now < to
    requires Fresh(Table(run0), now, cfg.window) == map[]
    ensures Lawful(cfg, 0, run) && UpTo(run, now)
    ensures Seated(cfg, Table(run), Name(0), Name(1), now) && Table(run)[Name(0)] == Bucket(now, 1)
    ensures Passed(run, Name(0), from, to) == Passed(run0, Name(0), from, to) + 1
    ensures Dropped(run, Name(0), from, to) == Dropped(run0, Name(0), from, to)
  {
    var run1 := Crowds(cfg, run0, now, from, to, cfg.maxEntries - 1);
    OneMore(Fresh(Table(run1), now, cfg.window), None, Name(0), Bucket(now, 1));
    assert |Name(0)| != |Name(1)|;
    run := OpensSwept(cfg, run1, Name(0), now);
  }

  lemma SpendsFirst(cfg: Config, run0: Run, now: Time, from: Time, to: Time) returns (run: Run)
    requires Usable(cfg) && Lawful(cfg, 0, run0) && UpTo(run0, now) && from <= now < to
    requires Fresh(Table(run0), now, cfg.window) == map[]
    ensures Lawful(cfg, 0, run) && UpTo(run, now) && Seated(cfg, Table(run), Name(0), Name(1), now)
    ensures Dropped(run, Name(0), from, to) == Dropped(run0, Name(0), from, to)
    ensures Passed(run, Name(0), from, to) == Passed(run0, Name(0), from, to) + cfg.limit
  {
    assert |Name(0)| != |Name(1)|;
    var run1 := TakesLastPlace(cfg, run0, now, from, to);
    run := FillsUp(cfg, run1, Name(0), Name(1), now, from, to);
  }

  lemma SpendsAgain(cfg: Config, run0: Run, x: string, y: string, now: Time, from: Time, to: Time) returns (run: Run)
    requires Usable(cfg) && x != y && Lawful(cfg, 0, run0) && UpTo(run0, now) && from <= now < to
    requires Seated(cfg, Table(run0), x, y, now)
    ensures Lawful(cfg, 0, run) && UpTo(run, now) && Seated(cfg, Table(run), x, y, now)
    ensures Dropped(run, x, from, to) == Dropped(run0, x, from, to) + 1
    ensures Passed(run, x, from, to) == Passed(run0, x, from, to) + cfg.limit
  {
    var run1 := ComesBack(cfg, run0, x, y, now, from, to);
    run := FillsUp(cfg, run1, x, y, now, from, to);
  }

  /** Each number is one limit more than the one before. */
  predicate Climbs(counts: seq<int>, limit: int) {
    forall k :: 0 < k < |counts| ==> counts[k] == counts[k - 1] + limit
  }

  lemma ClimbsOn(counts: seq<int>, limit: int) returns (more: seq<int>)
    requires Climbs(counts, limit) && counts != []
    ensures Climbs(more, limit) && |more| == |counts| + 1 && more[0] == counts[0]
    ensures more[|counts|] == counts[|counts| - 1] + limit
  {
    more := counts + [counts[|counts| - 1] + limit];
  }

  lemma {:induction false} ClimbsTo(counts: seq<int>, limit: int)
    requires Climbs(counts, limit) && counts != []
    ensures counts[|counts| - 1] == counts[0] + limit * (|counts| - 1)
  {
    var last := |counts| - 1;
    if last > 0 { ClimbsTo(counts[..last], limit); }
  }

  /** An address in a full table spends one more limit for every eviction. */
  lemma {:induction false} EvictedOften(
    cfg: Config, run0: Run, x: string, y: string, now: Time, from: Time, to: Time, evictions: nat)
    returns (run: Run, counts: seq<int>)
    requires Usable(cfg) && x != y && Lawful(cfg, 0, run0) && UpTo(run0, now) && from <= now < to
    requires Seated(cfg, Table(run0), x, y, now)
    ensures Lawful(cfg, 0, run) && UpTo(run, now) && Seated(cfg, Table(run), x, y, now)
    ensures Dropped(run, x, from, to) == Dropped(run0, x, from, to) + evictions
    ensures |counts| == evictions + 1 && Climbs(counts, cfg.limit)
    ensures counts[0] == Passed(run0, x, from, to) && counts[evictions] == Passed(run, x, from, to)
  {
    if evictions == 0 {
      run, counts := run0, [Passed(run0, x, from, to)];
    } else {
      var run1, counts1 := EvictedOften(cfg, run0, x, y, now, from, to, evictions - 1);
      run := SpendsAgain(cfg, run1, x, y, now, from, to);
      counts := ClimbsOn(counts1, cfg.limit);
    }
  }

  /** The run as states and events. */
  lemma Written(cfg: Config, skew: nat, run: Run, a: string, from: Time, to: Time)
    returns (states: seq<map<string, Bucket>>, events: seq<Event>)
    requires Lawful(cfg, skew, run)
    ensures Trace(cfg, skew, states, events)
    ensures Evicted(events, a, from, to) == Dropped(run, a, from, to)
    ensures Allowed(events, a, from, to) == Passed(run, a, from, to)
  {
    LawfulIsTrace(cfg, skew, run);
    CountsAgree(run, a, from, to);
    states, events := Tables(run), Calls(run);
  }

  /** After a run whose windows have all run out, an address spends one limit and one more for every eviction. */
  lemma SpendsOn(cfg: Config, run0: Run, now: Time, from: Time, to: Time, evictions: nat)
    returns (states: seq<map<string, Bucket>>, events: seq<Event>, a: string, counts: seq<int>)
    requires Usable(cfg) && Lawful(cfg, 0, run0) && UpTo(run0, now) && from <= now < to
    requires Fresh(Table(run0), now, cfg.window) == map[]
    ensures Trace(cfg, 0, states, events) && a == Name(0)
    ensures Evicted(events, a, from, to) == Dropped(run0, a, from, to) + evictions
    ensures |counts| == evictions + 1 && Climbs(counts, cfg.limit)
    ensures counts[0] == Passed(run0, a, from, to) + cfg.limit && counts[evictions] == Allowed(events, a, from, to)
  {
    a := Name(0);
    assert |Name(0)| != |Name(1)|;
    var run := SpendsFirst(cfg, run0, now, from, to);
    run, counts := EvictedOften(cfg, run, a, Name(1), now, from, to, evictions);
    states, events := Written(cfg, 0, run, a, from, to);
  }

  /** Every eviction can be worth a whole limit: for every configuration and every number of evictions there is a run,
      with all readings equal, in which an address is evicted that often and allowed its limit once more than that. */
  lemma EvictionLiftsTheBound(cfg: Config, evictions: nat)
    returns (states: seq<map<string, Bucket>>, events: seq<Event>, a: string)
    requires Usable(cfg)
    ensures Trace(cfg, 0, states, events)
    ensures Evicted(events, a, 0, cfg.window) == evictions
    ensures Allowed(events, a, 0, cfg.window) == cfg.limit + cfg.limit * evictions
  {
    var counts;
    states, events, a, counts := SpendsOn(cfg, Empty, 0, 0, cfg.window, evictions);
    ClimbsTo(counts, cfg.limit);
  }

  // ---- The bound is attained -----------------------------------------------------------------

  /** A full window whose first request is older than the interval that follows it. */
  lemma OlderWindow(cfg: Config, to: Time) returns (run: Run)
    requires Usable(cfg) && cfg.window >= 2 && 1 < to
    ensures Lawful(cfg, 0, run) && UpTo(run, cfg.window) && Fresh(Table(run), cfg.window, cfg.window) == map[]
    ensures Passed(run, Name(0), 1, to) == cfg.limit - 1 && Dropped(run, Name(0), 1, to) == 0
  {
    var x, b := Name(0), Bucket(0, 1);
    run := OpensSwept(cfg, Empty, x, 0);
    assert Table(run) == map[x := b];
    UpToLater(run, 0, 1);
    run := Repeats(cfg, 0, run, 1, x, b, 1, cfg.limit - 1, 1, to);
    UpToLater(run, 1, cfg.window);
  }

  /** The bound with readings in order is exact: for every window of more than one instant and every number of
      evictions, some run spends all of it. */
  lemma BoundIsAttained(cfg: Config, evictions: nat)
    returns (states: seq<map<string, Bucket>>, events: seq<Event>, a: string)
    requires Usable(cfg) && cfg.window >= 2
    ensures Trace(cfg, 0, states, events)
    ensures Evicted(events, a, 1, 1 + cfg.window) == evictions
    ensures Allowed(events, a, 1, 1 + cfg.window) == 2 * cfg.limit - 1 + cfg.limit * evictions
  {
    var counts;
    var older := OlderWindow(cfg, 1 + cfg.window);
    states, events, a, counts := SpendsOn(cfg, older, cfg.window, 1, 1 + cfg.window, evictions);
    ClimbsTo(counts, cfg.limit);
  }
}
