/** The public claim limiter: fixed windows per address, in bounded memory. */
module RateLimiter {
  import opened Domain

  const DEFAULT_CLAIM_LIMIT := 30
  const DEFAULT_CLAIM_WINDOW := 60_000_000_000 // one minute in nanoseconds
  const DEFAULT_CLAIM_BUCKET_CAP := 10_000

  datatype Bucket = Bucket(started: Time, count: int)
  datatype Config = Config(limit: int, window: int, maxEntries: int)

  // What one call was asked and what it did; an eviction names its victim.
  datatype Event = Event(address: string, now: Time, allowed: bool, victim: Option<string>)

  predicate Usable(cfg: Config) {
    cfg.limit >= 1 && cfg.window > 0 && cfg.maxEntries >= 1
  }

  /** The buckets whose window is still running. */
  function Fresh(m: map<string, Bucket>, now: Time, window: int): map<string, Bucket> {
    map k | k in m && now - m[k].started < window :: m[k]
  }

  predicate Oldest(m: map<string, Bucket>, key: string) {
    key in m && forall k :: k in m ==> m[key].started <= m[k].started
  }

  /** A running window counts up to the limit. */
  predicate Counts(cfg: Config, kept: map<string, Bucket>, m': map<string, Bucket>, e: Event)
    requires e.address in kept
  {
    && e.victim.None? && (e.allowed <==> kept[e.address].count < cfg.limit)
    && m' == if e.allowed then kept[e.address := Bucket(kept[e.address].started, kept[e.address].count + 1)] else kept
  }

  /** A new window starts, which may cost the oldest bucket. */
  predicate Opens(cfg: Config, kept: map<string, Bucket>, m': map<string, Bucket>, e: Event) {
    && e.allowed && (e.victim.Some? <==> |kept| >= cfg.maxEntries) && (e.victim.Some? ==> Oldest(kept, e.victim.value))
    && m' == (if e.victim.Some? then kept - {e.victim.value} else kept)[e.address := Bucket(e.now, 1)]
  }

  /** What one call does: expired windows go, then the address's window counts or opens. */
  predicate Steps(cfg: Config, m: map<string, Bucket>, m': map<string, Bucket>, e: Event) {
    var kept := Fresh(m, e.now, cfg.window);
    if e.address in kept then Counts(cfg, kept, m', e) else Opens(cfg, kept, m', e)
  }

  predicate Bounded(cfg: Config, m: map<string, Bucket>) {
    |m| <= cfg.maxEntries && forall k :: k in m ==> 1 <= m[k].count <= cfg.limit
  }

  // ---- The limiter -----------------------------------------------------------------

  class ClaimRateLimiter {
    var buckets: map<string, Bucket>
    const limit: int
    const window: int
    const maxEntries: int

    function Settings(): Config {
      Config(limit, window, maxEntries)
    }

    predicate Valid()
      reads this
    {
      Usable(Settings()) && Bounded(Settings(), buckets) && "" !in buckets
    }

    /** A limit, window or capacity that makes no sense is replaced by its default. */
    constructor (limit: int, window: int, maxEntries: int)
      ensures Valid() && buckets == map[]
      ensures this.limit == (if limit < 1 then DEFAULT_CLAIM_LIMIT else limit)
      ensures this.window == (if window <= 0 then DEFAULT_CLAIM_WINDOW else window)
      ensures this.maxEntries == (if maxEntries < 1 then DEFAULT_CLAIM_BUCKET_CAP else maxEntries)
    {
      this.limit := if limit < 1 then DEFAULT_CLAIM_LIMIT else limit;
      this.window := if window <= 0 then DEFAULT_CLAIM_WINDOW else window;
      this.maxEntries := if maxEntries < 1 then DEFAULT_CLAIM_BUCKET_CAP else maxEntries;
      buckets := map[];
    }

    /** Removes every bucket whose window has run out, visiting them in any order. */
    method Sweep(now: Time)
      modifies this`buckets
      ensures buckets == Fresh(old(buckets), now, window)
      ensures forall k :: k in buckets <==> k in old(buckets) && now < old(buckets)[k].started + window
      ensures forall k :: k in buckets ==> buckets[k] == old(buckets)[k]
    {
      var pending := buckets.Keys;
      while pending != {}
        invariant pending <= buckets.Keys <= old(buckets).Keys
        invariant forall k :: k in buckets ==> buckets[k] == old(buckets)[k]
        invariant forall k :: k in old(buckets) && k !in pending ==>
                  (k in buckets <==> now - old(buckets)[k].started < window)
        decreases |pending|
      {
        var key :| key in pending;
        pending := pending - {key};
        if now - buckets[key].started >= window {
          buckets := buckets - {key};
        }
      }
    }

    /** Drops a bucket that started first. */
    method EvictOldest() returns (victim: string)
      requires buckets != map[] && "" !in buckets
      modifies this`buckets
      ensures Oldest(old(buckets), victim) && buckets == old(buckets) - {victim}
      ensures victim in old(buckets)
      ensures forall k :: k in old(buckets) ==> old(buckets)[victim].started <= old(buckets)[k].started
    {
      victim := "";
      var oldest: Time := 0;
      var pending := buckets.Keys;
      while pending != {}
        invariant pending <= buckets.Keys && buckets == old(buckets)
        invariant victim == "" ==> pending == buckets.Keys
        invariant victim != "" ==> victim in buckets && oldest == buckets[victim].started
                                   && forall k :: k in buckets && k !in pending ==> oldest <= buckets[k].started
        decreases |pending|
      {
        var key :| key in pending;
        pending := pending - {key};
        if victim == "" || buckets[key].started < oldest {
          victim, oldest := key, buckets[key].started;
        }
      }
      buckets := buckets - {victim};
    }

    /** Starts the window of an address, making room for it if need be. */
    method OpenBucket(address: string, now: Time) returns (victim: Option<string>)
      requires Usable(Settings()) && address !in buckets && "" !in buckets
      modifies this`buckets
      ensures Opens(Settings(), old(buckets), buckets, Event(address, now, true, victim))
      ensures victim.Some? <==> |old(buckets)| >= maxEntries
      ensures victim.None? ==> buckets == old(buckets)[address := Bucket(now, 1)]
      ensures victim.Some? ==>
                && victim.value in old(buckets)
                && buckets == (old(buckets) - {victim.value})[address := Bucket(now, 1)]
                && forall k :: k in old(buckets) ==> old(buckets)[victim.value].started <= old(buckets)[k].started
    {
      victim := None;
      if |buckets| >= maxEntries {
        var key := EvictOldest();
        victim := Some(key);
      }
      buckets := buckets[address := Bucket(now, 1)];
    }

    /** Counts one more request in a running window, unless it is full. */
    method CountUp(address: string, now: Time) returns (allowed: bool)
      requires address in buckets
      modifies this`buckets
      ensures Counts(Settings(), old(buckets), buckets, Event(address, now, allowed, None))
      ensures allowed <==> old(buckets)[address].count < limit
      ensures buckets == if !allowed then old(buckets) else
                old(buckets)[address := Bucket(old(buckets)[address].started, old(buckets)[address].count + 1)]
    {
      var bucket := buckets[address];
      if bucket.count >= limit { return false; }
      buckets := buckets[address := Bucket(bucket.started, bucket.count + 1)];
      return true;
    }

    method Allow(address: string, now: Time) returns (allowed: bool, victim: Option<string>)
      requires Valid() && address != ""
      modifies this`buckets
      ensures Valid() && Steps(Settings(), old(buckets), buckets, Event(address, now, allowed, victim))
      ensures !allowed <==> address in old(buckets) && now < old(buckets)[address].started + window
                            && old(buckets)[address].count >= limit
    {
      Sweep(now);
      if address !in buckets {
        victim := OpenBucket(address, now);
        allowed := true;
      } else {
        allowed := CountUp(address, now);
        victim := None;
      }
      StepBounded(Settings(), old(buckets), buckets, Event(address, now, allowed, victim));
    }
  }

  lemma SameSize(m: map<string, Bucket>, m': map<string, Bucket>)
    requires m.Keys == m'.Keys
    ensures |m| == |m'|
  {
    assert |m| == |m.Keys| && |m'| == |m'.Keys|;
  }

  lemma {:induction false} SubsetSize(x: set<string>, y: set<string>)
    requires x <= y
    ensures |x| <= |y|
  {
    if x != {} {
      var k :| k in x;
      SubsetSize(x - {k}, y - {k});
    }
  }

  lemma FreshIsBounded(cfg: Config, m: map<string, Bucket>, now: Time)
    requires Bounded(cfg, m)
    ensures Bounded(cfg, Fresh(m, now, cfg.window))
  {
    var kept := Fresh(m, now, cfg.window);
    SubsetSize(kept.Keys, m.Keys);
    assert |kept| == |kept.Keys| && |m| == |m.Keys|;
  }

  lemma OneMore(kept: map<string, Bucket>, victim: Option<string>, address: string, b: Bucket)
    requires address !in kept && (victim.Some? ==> victim.value in kept)
    ensures |(if victim.Some? then kept - {victim.value} else kept)[address := b]|
            == |kept| + (if victim.Some? then 0 else 1)
  {
    var rest := if victim.Some? then kept - {victim.value} else kept;
    assert rest[address := b].Keys == rest.Keys + {address};
    assert rest.Keys == if victim.Some? then kept.Keys - {victim.value} else kept.Keys;
    assert |rest[address := b]| == |rest[address := b].Keys| && |kept| == |kept.Keys|;
  }

  lemma StepBounded(cfg: Config, m: map<string, Bucket>, m': map<string, Bucket>, e: Event)
    requires Usable(cfg) && Bounded(cfg, m) && Steps(cfg, m, m', e)
    ensures Bounded(cfg, m')
  {
    var kept := Fresh(m, e.now, cfg.window);
    FreshIsBounded(cfg, m, e.now);
    if e.address !in kept {
      OneMore(kept, e.victim, e.address, Bucket(e.now, 1));
    } else if e.allowed {
      assert m'.Keys == kept.Keys;
      SameSize(kept, m');
    }
  }

  // ---- Runs of the limiter ------------------------------------------------------------

  /** Calls in the order of the lock. The clock is read before the lock is taken, so a reading may lag behind an earlier
      caller's by up to a skew. */
  ghost predicate Trace(cfg: Config, skew: nat, states: seq<map<string, Bucket>>, events: seq<Event>) {
    && |states| == |events| + 1 && states[0] == map[]
    && (forall i :: 0 <= i < |events| ==> Steps(cfg, states[i], states[i + 1], events[i]))
    && (forall i, j :: 0 <= i < j < |events| ==> events[i].now <= events[j].now + skew)
  }

  /** How often an address was allowed at or after a time and before another. */
  function Allowed(events: seq<Event>, a: string, from: Time, to: Time): nat {
    if events == [] then 0
    else
      var last := events[|events| - 1];
      Allowed(events[..|events| - 1], a, from, to)
          + (if last.address == a && last.allowed && from <= last.now < to then 1 else 0)
  }

  /** How often its bucket was evicted for capacity in that interval. */
  function Evicted(events: seq<Event>, a: string, from: Time, to: Time): nat {
    if events == [] then 0
    else
      var last := events[|events| - 1];
      Evicted(events[..|events| - 1], a, from, to) + (if last.victim == Some(a) && from <= last.now < to then 1 else 0)
  }

  /** Allowed requests at or after a time. */
  function Since(events: seq<Event>, a: string, from: Time): nat {
    if events == [] then 0
    else
      var last := events[|events| - 1];
      Since(events[..|events| - 1], a, from) + (if last.address == a && last.allowed && from <= last.now then 1 else 0)
  }

  /** One limit's worth of extra requests for every eviction at or after a time. */
  function Refund(limit: int, events: seq<Event>, a: string, from: Time): int {
    if events == [] then 0
    else
      var last := events[|events| - 1];
      Refund(limit, events[..|events| - 1], a, from) + (if last.victim == Some(a) && from <= last.now then limit else 0)
  }

  /** The latest clock reading so far. */
  function High(events: seq<Event>): (h: Time)
    requires events != []
    ensures forall i :: 0 <= i < |events| ==> events[i].now <= h
    ensures exists i :: 0 <= i < |events| && events[i].now == h
  {
    var last := |events| - 1;
    if last == 0 then events[0].now
    else
      var h := High(events[..last]);
      assert forall i :: 0 <= i < last ==> events[..last][i] == events[i];
      if h < events[last].now then events[last].now else h
  }

  /** k times x. */
  function Times(k: nat, x: int): int {
    if k == 0 then 0 else Times(k - 1, x) + x
  }

  lemma {:induction false} TimesIs(k: nat, x: int)
    ensures Times(k, x) == k * x
  {
    if k > 0 { TimesIs(k - 1, x); }
  }

  lemma {:induction false} TimesArePositive(k: nat, x: int)
    requires x >= 0
    ensures Times(k, x) >= 0 && (x >= 1 ==> Times(k, x) >= k)
  {
    if k > 0 { TimesArePositive(k - 1, x); }
  }

  lemma {:induction false} RefundIsPositive(limit: int, events: seq<Event>, a: string, from: Time)
    requires limit >= 1
    ensures Refund(limit, events, a, from) >= 0
  {
    if events != [] { RefundIsPositive(limit, events[..|events| - 1], a, from); }
  }

  lemma {:induction false} NothingLater(events: seq<Event>, a: string, from: Time)
    requires forall i :: 0 <= i < |events| ==> events[i].now < from
    ensures Since(events, a, from) == 0
  {
    if events != [] { NothingLater(events[..|events| - 1], a, from); }
  }

  /** The requests of k windows, the last of them c, without the first request of the first window. */
  function Share(cfg: Config, c: int, k: nat): int {
    if k == 0 then 0
    else
      var all := c + Times(k - 1, cfg.limit);
      if all == 0 then 0 else all - 1
  }

  /** Windows opened when the latest reading was h or before it by k gaps no longer reach past the end of a window
      opened at h, k gaps earlier: after that the requests of at most k windows count, the first of them without its
      first request, the last of them c, and the refunds. */
  predicate Bounds(cfg: Config, skew: nat, events: seq<Event>, a: string, h: Time, c: int, k: nat, t: Time) {
    t > h + cfg.window - Times(k, cfg.window - skew) ==>
      Since(events, a, t) <= Share(cfg, c, k) + Refund(cfg.limit, events, a, t - skew)
  }

  /** With a running bucket, which opened when the latest reading was h. */
  ghost predicate Running(cfg: Config, skew: nat, events: seq<Event>, a: string, b: Bucket, h: Time) {
    && 1 <= b.count <= cfg.limit && b.started <= h <= b.started + skew
    && b.count <= Since(events, a, b.started - skew)
    && (forall k: nat, t :: Bounds(cfg, skew, events, a, h, b.count, k, t))
  }

  /** Without a bucket, when the latest reading is high. */
  ghost predicate Idle(cfg: Config, skew: nat, events: seq<Event>, a: string, high: Time) {
    forall k: nat, t :: Bounds(cfg, skew, events, a, high, 0, k, t)
  }

  ghost predicate Tracked(cfg: Config, skew: nat, m: map<string, Bucket>, events: seq<Event>, a: string, high: Time,
                          h: Time) {
    if a in m then h <= high && Running(cfg, skew, events, a, m[a], h) else Idle(cfg, skew, events, a, high)
  }

  lemma SinceStep(events: seq<Event>, e: Event, a: string, t: Time)
    ensures Since(events + [e], a, t)
            == Since(events, a, t) + (if e.address == a && e.allowed && t <= e.now then 1 else 0)
  {
    assert (events + [e])[..|events|] == events;
  }

  lemma RefundStep(limit: int, events: seq<Event>, e: Event, a: string, t: Time)
    ensures Refund(limit, events + [e], a, t)
            == Refund(limit, events, a, t) + (if e.victim == Some(a) && t <= e.now then limit else 0)
  {
    assert (events + [e])[..|events|] == events;
  }

  // ---- Each call keeps the bounds ---------------------------------------------------------

  lemma Expires(cfg: Config, skew: nat, events: seq<Event>, a: string, b: Bucket, h: Time, high: Time)
    requires Usable(cfg) && skew < cfg.window && Running(cfg, skew, events, a, b, h) && b.started + cfg.window <= high
    ensures Idle(cfg, skew, events, a, high)
  {
    forall k: nat, t ensures Bounds(cfg, skew, events, a, high, 0, k, t) {
      assert Bounds(cfg, skew, events, a, h, b.count, if k == 0 then 0 else k - 1, t);
    }
  }

  lemma StaysIdle(cfg: Config, skew: nat, events: seq<Event>, a: string, high: Time, high': Time)
    requires Idle(cfg, skew, events, a, high) && high <= high'
    ensures Idle(cfg, skew, events, a, high')
  {
    forall k: nat, t ensures Bounds(cfg, skew, events, a, high', 0, k, t) {
      assert Bounds(cfg, skew, events, a, high, 0, k, t);
    }
  }

  /** Time passing and the sweep keep the bounds. */
  lemma SweepTracks(
    cfg: Config, skew: nat, m: map<string, Bucket>, events: seq<Event>, a: string, high: Time, h: Time, now: Time,
        high': Time)
    requires Usable(cfg) && skew < cfg.window && Tracked(cfg, skew, m, events, a, high, h) && high <= high'
    requires now <= high'
    ensures Tracked(cfg, skew, Fresh(m, now, cfg.window), events, a, high', h)
  {
    if a !in m {
      StaysIdle(cfg, skew, events, a, high, high');
    } else if now - m[a].started >= cfg.window {
      Expires(cfg, skew, events, a, m[a], h, high');
    }
  }

  lemma GrantTracks(cfg: Config, skew: nat, events: seq<Event>, a: string, b: Bucket, h: Time, e: Event)
    requires Usable(cfg) && Running(cfg, skew, events, a, b, h) && b.count < cfg.limit
    requires b.started - skew <= e.now < b.started + cfg.window && e.address == a && e.allowed && e.victim.None?
    ensures Running(cfg, skew, events + [e], a, Bucket(b.started, b.count + 1), h)
  {
    var c := b.count + 1;
    SinceStep(events, e, a, b.started - skew);
    forall k: nat, t ensures Bounds(cfg, skew, events + [e], a, h, c, k, t) {
      assert Bounds(cfg, skew, events, a, h, b.count, k, t);
      SinceStep(events, e, a, t);
      RefundStep(cfg.limit, events, e, a, t - skew);
      TimesArePositive(if k == 0 then 0 else k - 1, cfg.limit);
    }
  }

  lemma OpenTracks(cfg: Config, skew: nat, events: seq<Event>, a: string, e: Event, high: Time)
    requires Usable(cfg) && Idle(cfg, skew, events, a, high) && e.address == a && e.allowed && e.victim != Some(a)
    requires e.now <= high <= e.now + skew
    ensures Running(cfg, skew, events + [e], a, Bucket(e.now, 1), high)
  {
    SinceStep(events, e, a, e.now - skew);
    forall k: nat, t ensures Bounds(cfg, skew, events + [e], a, high, 1, k, t) {
      assert Bounds(cfg, skew, events, a, high, 0, k, t);
      assert k == 1 ==> Times(k, cfg.window - skew) == cfg.window - skew;
      SinceStep(events, e, a, t);
      RefundStep(cfg.limit, events, e, a, t - skew);
      TimesArePositive(if k == 0 then 0 else k - 1, cfg.limit);
    }
  }

  lemma EvictTracks(
    cfg: Config, skew: nat, events: seq<Event>, a: string, b: Bucket, h: Time, e: Event, high: Time)
    requires Usable(cfg) && Running(cfg, skew, events, a, b, h) && h <= high <= e.now + skew
    requires e.address != a && e.victim == Some(a)
    requires forall i :: 0 <= i < |events| ==> events[i].now <= high
    ensures Idle(cfg, skew, events + [e], a, high)
  {
    forall k: nat, t ensures Bounds(cfg, skew, events + [e], a, high, 0, k, t) {
      assert Bounds(cfg, skew, events, a, h, b.count, k, t);
      SinceStep(events, e, a, t);
      RefundStep(cfg.limit, events, e, a, t - skew);
      RefundIsPositive(cfg.limit, events, a, t - skew);
      TimesArePositive(if k == 0 then 0 else k - 1, cfg.limit);
      if high < t { NothingLater(events, a, t); }
    }
  }

  lemma OtherTracks(
    cfg: Config, skew: nat, m: map<string, Bucket>, events: seq<Event>, a: string, e: Event, high: Time, h: Time)
    requires Tracked(cfg, skew, m, events, a, high, h) && !(e.address == a && e.allowed) && e.victim != Some(a)
    ensures Tracked(cfg, skew, m, events + [e], a, high, h)
  {
    if a in m { SinceStep(events, e, a, m[a].started - skew); }
    var from, c := if a in m then h else high, if a in m then m[a].count else 0;
    forall k: nat, t ensures Bounds(cfg, skew, events + [e], a, from, c, k, t) {
      assert Bounds(cfg, skew, events, a, from, c, k, t);
      SinceStep(events, e, a, t);
      RefundStep(cfg.limit, events, e, a, t - skew);
    }
  }

  lemma SameBucket(
    cfg: Config, skew: nat, m: map<string, Bucket>, m': map<string, Bucket>, events: seq<Event>, a: string,
        high: Time, h: Time)
    requires Tracked(cfg, skew, m, events, a, high, h) && Get(m', a) == Get(m, a)
    ensures Tracked(cfg, skew, m', events, a, high, h)
  {
  }

  lemma StepTracks(
    cfg: Config, skew: nat, m: map<string, Bucket>, m': map<string, Bucket>, events: seq<Event>, e: Event, a: string,
    high: Time, h: Time, high': Time) returns (h': Time)
    requires Usable(cfg) && skew < cfg.window && Tracked(cfg, skew, m, events, a, high, h) && Steps(cfg, m, m', e)
    requires high <= high' && e.now <= high' <= e.now + skew
    requires forall i :: 0 <= i < |events| ==> events[i].now <= high'
    ensures Tracked(cfg, skew, m', events + [e], a, high', h')
  {
    var kept := Fresh(m, e.now, cfg.window);
    SweepTracks(cfg, skew, m, events, a, high, h, e.now, high');
    h' := h;
    if e.victim == Some(a) {
      EvictTracks(cfg, skew, events, a, kept[a], h, e, high');
    } else if e.address == a && e.allowed {
      if a in kept {
        GrantTracks(cfg, skew, events, a, kept[a], h, e);
      } else {
        OpenTracks(cfg, skew, events, a, e, high');
        h' := high';
      }
    } else {
      OtherTracks(cfg, skew, kept, events, a, e, high', h);
      SameBucket(cfg, skew, kept, m', events + [e], a, high', h);
    }
  }

  lemma TracePrefix(cfg: Config, skew: nat, states: seq<map<string, Bucket>>, events: seq<Event>, i: nat)
    requires Trace(cfg, skew, states, events) && i <= |events|
    ensures Trace(cfg, skew, states[..i + 1], events[..i])
  {
  }

  lemma NothingYet(cfg: Config, skew: nat, a: string, high: Time)
    requires Usable(cfg)
    ensures Idle(cfg, skew, [], a, high)
  {
    forall k: nat, t ensures Bounds(cfg, skew, [], a, high, 0, k, t) {
      TimesArePositive(if k == 0 then 0 else k - 1, cfg.limit);
    }
  }

  lemma HighStep(cfg: Config, skew: nat, states: seq<map<string, Bucket>>, events: seq<Event>)
    requires Trace(cfg, skew, states, events) && |events| > 1
    ensures High(events[..|events| - 1]) <= High(events)
    ensures events[|events| - 1].now <= High(events) <= events[|events| - 1].now + skew
  {
    var last := |events| - 1;
    var i :| 0 <= i < |events| && events[i].now == High(events);
    var j :| 0 <= j < last && events[..last][j].now == High(events[..last]);
    assert events[..last][j] == events[j];
  }

  lemma {:induction false} TraceTracks(cfg: Config, skew: nat, states: seq<map<string, Bucket>>, events: seq<Event>,
                                       a: string)
    returns (h: Time)
    requires Usable(cfg) && skew < cfg.window && Trace(cfg, skew, states, events) && events != []
    ensures Tracked(cfg, skew, states[|events|], events, a, High(events), h)
  {
    var last := |events| - 1;
    var e, init := events[last], events[..last];
    assert events == init + [e];
    if last == 0 {
      NothingYet(cfg, skew, a, e.now);
      h := StepTracks(cfg, skew, states[0], states[1], [], e, a, e.now, e.now, e.now);
    } else {
      TracePrefix(cfg, skew, states, events, last);
      h := TraceTracks(cfg, skew, states[..last + 1], init, a);
      HighStep(cfg, skew, states, events);
      h := StepTracks(cfg, skew, states[last], states[last + 1], init, e, a, High(init), h, High(events));
    }
  }

  // ---- What the limiter guarantees -------------------------------------------------------

  lemma {:induction false} AllowedSince(events: seq<Event>, a: string, from: Time, to: Time)
    ensures Allowed(events, a, from, to) <= Since(events, a, from)
  {
    if events != [] { AllowedSince(events[..|events| - 1], a, from, to); }
  }

  lemma {:induction false} RefundIs(limit: int, events: seq<Event>, a: string, from: Time, to: Time)
    requires forall i :: 0 <= i < |events| ==> events[i].now < to
    ensures Refund(limit, events, a, from) == limit * Evicted(events, a, from, to)
  {
    if events != [] { RefundIs(limit, events[..|events| - 1], a, from, to); }
  }

  /** In any half-open interval as long as the window, an address is allowed at most as many limits as windows can
      reach into it, less one request, plus once the limit for every time its bucket was evicted for capacity around
      that interval. Windows open at least window - skew apart, and the first of them opened before the interval. */
  lemma {:induction false} RateBound(
    cfg: Config, skew: nat, windows: nat, states: seq<map<string, Bucket>>, events: seq<Event>, a: string, t: Time)
    requires Usable(cfg) && skew < cfg.window && Trace(cfg, skew, states, events)
    requires windows * (cfg.window - skew) >= 2 * cfg.window + skew
    ensures Allowed(events, a, t, t + cfg.window)
         <= windows * cfg.limit - 1 + cfg.limit * Evicted(events, a, t - skew, t + cfg.window + skew)
  {
    TimesIs(windows, cfg.limit);
    SomeWindow(cfg, windows);
    if events != [] {
      var last := |events| - 1;
      if events[last].now < t + cfg.window {
        TimesIs(windows, cfg.window - skew);
        LastInside(cfg, skew, windows, states, events, a, t);
      } else {
        TracePrefix(cfg, skew, states, events, last);
        RateBound(cfg, skew, windows, states[..last + 1], events[..last], a, t);
        MoreEvicted(cfg.limit, events, a, t - skew, t + cfg.window + skew);
      }
    }
  }

  lemma SomeWindow(cfg: Config, windows: nat)
    requires Usable(cfg)
    ensures windows > 0 ==> windows * cfg.limit >= 1
  {
    if windows > 0 { MulGrows(cfg.limit, 1, windows); }
  }

  lemma MoreEvicted(limit: int, events: seq<Event>, a: string, from: Time, to: Time)
    requires limit >= 1 && events != []
    ensures limit * Evicted(events[..|events| - 1], a, from, to) <= limit * Evicted(events, a, from, to)
  {
    MulGrows(limit, Evicted(events[..|events| - 1], a, from, to), Evicted(events, a, from, to));
  }

  lemma MulGrows(limit: int, x: nat, y: nat)
    requires limit >= 0 && x <= y
    ensures limit * x <= limit * y
  {
  }

  lemma BoundReached(
    cfg: Config, skew: nat, events: seq<Event>, a: string, from: Time, c: int, windows: nat, t: Time)
    requires Usable(cfg) && Bounds(cfg, skew, events, a, from, c, windows, t) && 0 <= c <= cfg.limit && windows > 0
    requires t > from + cfg.window - Times(windows, cfg.window - skew)
    ensures Since(events, a, t) <= Times(windows, cfg.limit) - 1 + Refund(cfg.limit, events, a, t - skew)
  {
    TimesArePositive(windows - 1, cfg.limit);
  }

  lemma TrackedBounds(
    cfg: Config, skew: nat, m: map<string, Bucket>, events: seq<Event>, a: string, high: Time, h: Time, windows: nat,
        t: Time)
    requires Usable(cfg) && Tracked(cfg, skew, m, events, a, high, h) && windows > 0
    requires t > high + cfg.window - Times(windows, cfg.window - skew)
    ensures Since(events, a, t) <= Times(windows, cfg.limit) - 1 + Refund(cfg.limit, events, a, t - skew)
  {
    if a in m { BoundReached(cfg, skew, events, a, h, m[a].count, windows, t); }
    else { BoundReached(cfg, skew, events, a, high, 0, windows, t); }
  }

  lemma TailBound(
    cfg: Config, skew: nat, windows: nat, states: seq<map<string, Bucket>>, events: seq<Event>, a: string, t: Time)
    requires Usable(cfg) && skew < cfg.window && Trace(cfg, skew, states, events)
    requires windows > 0 && Times(windows, cfg.window - skew) >= 2 * cfg.window + skew
    requires events != [] && events[|events| - 1].now < t + cfg.window
    ensures Since(events, a, t) <= Times(windows, cfg.limit) - 1 + Refund(cfg.limit, events, a, t - skew)
    ensures High(events) < t + cfg.window + skew
  {
    var h := TraceTracks(cfg, skew, states, events, a);
    if |events| > 1 { HighStep(cfg, skew, states, events); }
    TrackedBounds(cfg, skew, states[|events|], events, a, High(events), h, windows, t);
  }

  lemma LastInside(
    cfg: Config, skew: nat, windows: nat, states: seq<map<string, Bucket>>, events: seq<Event>, a: string, t: Time)
    requires Usable(cfg) && skew < cfg.window && Trace(cfg, skew, states, events)
    requires windows > 0 && Times(windows, cfg.window - skew) >= 2 * cfg.window + skew
    requires events != [] && events[|events| - 1].now < t + cfg.window
    ensures Allowed(events, a, t, t + cfg.window)
         <= Times(windows, cfg.limit) - 1 + cfg.limit * Evicted(events, a, t - skew, t + cfg.window + skew)
  {
    TailBound(cfg, skew, windows, states, events, a, t);
    AllowedSince(events, a, t, t + cfg.window);
    RefundIs(cfg.limit, events, a, t - skew, t + cfg.window + skew);
  }

  /** With readings in the order of the calls the bound is twice the limit, less one request. */
  lemma RateBoundInOrder(
    cfg: Config, states: seq<map<string, Bucket>>, events: seq<Event>, a: string, t: Time)
    requires Usable(cfg) && Trace(cfg, 0, states, events)
    ensures Allowed(events, a, t, t + cfg.window)
         <= 2 * cfg.limit - 1 + cfg.limit * Evicted(events, a, t, t + cfg.window)
  {
    RateBound(cfg, 0, 2, states, events, a, t);
  }

  /** With readings that lag by up to a quarter of the window it is three times the limit, less one request. */
  lemma RateBoundNearlyInOrder(
    cfg: Config, skew: nat, states: seq<map<string, Bucket>>, events: seq<Event>, a: string, t: Time)
    requires Usable(cfg) && 4 * skew <= cfg.window && Trace(cfg, skew, states, events)
    ensures Allowed(events, a, t, t + cfg.window)
         <= 3 * cfg.limit - 1 + cfg.limit * Evicted(events, a, t - skew, t + cfg.window + skew)
  {
    RateBound(cfg, skew, 3, states, events, a, t);
  }

  /** An address is refused only when it was allowed at least the limit's number of times less than a window and a
      skew ago. */
  lemma RefusalIsEarned(
    cfg: Config, skew: nat, states: seq<map<string, Bucket>>, events: seq<Event>, i: nat)
    requires Usable(cfg) && skew < cfg.window && Trace(cfg, skew, states, events) && i < |events| && !events[i].allowed
    ensures Since(events[..i], events[i].address, events[i].now - cfg.window - skew + 1) >= cfg.limit
  {
    var a, now := events[i].address, events[i].now;
    assert Steps(cfg, states[i], states[i + 1], events[i]);
    assert a in Fresh(states[i], now, cfg.window);
    TracePrefix(cfg, skew, states, events, i);
    var h := TraceTracks(cfg, skew, states[..i + 1], events[..i], a);
    assert states[..i + 1][i] == states[i];
    SinceShrinks(events[..i], a, now - cfg.window - skew + 1, states[i][a].started - skew);
  }

  lemma {:induction false} SinceShrinks(events: seq<Event>, a: string, t: Time, t': Time)
    requires t <= t'
    ensures Since(events, a, t') <= Since(events, a, t)
  {
    if events != [] { SinceShrinks(events[..|events| - 1], a, t, t'); }
  }

  /** The table never outgrows its capacity and every count stays between one and the limit, whatever the clock does. */
  lemma {:induction false} TableIsBounded(cfg: Config, skew: nat, states: seq<map<string, Bucket>>,
                                          events: seq<Event>, i: nat)
    requires Usable(cfg) && Trace(cfg, skew, states, events) && i < |states|
    ensures Bounded(cfg, states[i])
  {
    if i > 0 {
      TableIsBounded(cfg, skew, states, events, i - 1);
      StepBounded(cfg, states[i - 1], states[i], events[i - 1]);
    }
  }
}
