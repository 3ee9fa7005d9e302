/**
 The control plane's rate limiter: a token bucket per key, strikes for refused requests, temporary
 blocks, and a bounded table of keys.  Times are seconds.
 */
module RateLimits {
  import opened Hostnames
  import opened Buckets

  const IDLE := 600.0

  datatype Entry = Entry(tokens: real, updated: real, blockedUntil: Option<real>, strikes: int)

  datatype Config = Config(capacity: real, refill: real, block: real, maxEntries: nat)

  datatype Verdict = Verdict(entry: Entry, ok: bool)

  predicate Blocked(e: Entry, now: real) {
    e.blockedUntil.Some? && now < e.blockedUntil.value
  }

  function NewEntry(c: Config, now: real): Entry {
    Entry(c.capacity, now, None, 0)
  }

  function Inflow(c: Config, elapsed: real): real {
    elapsed * c.refill
  }

  /** What flows in before a request is judged; a clock that went back changes nothing. */
  function Refilled(c: Config, e: Entry, now: real): Entry {
    if now - e.updated > 0.0 then
      e.(tokens := Min(c.capacity, e.tokens + Inflow(c, now - e.updated)), updated := now)
    else e
  }

  function Judge(c: Config, e: Entry, now: real): Verdict {
    if Blocked(e, now) then Verdict(e, false)
    else
      var f := Refilled(c, e, now);
      if f.tokens >= 1.0 then
        Verdict(f.(tokens := f.tokens - 1.0, strikes := if f.strikes > 0 then f.strikes - 1 else f.strikes), true)
      else if f.strikes + 1 >= 5 then
        Verdict(f.(strikes := 0, blockedUntil := Some(now + c.block)), false)
      else
        Verdict(f.(strikes := f.strikes + 1), false)
  }

  predicate Idle(e: Entry, now: real) {
    now - e.updated > IDLE && !Blocked(e, now)
  }

  predicate Sensible(c: Config) {
    c.capacity >= 0.0 && c.refill >= 0.0
  }

  predicate EntrySound(c: Config, e: Entry) {
    0.0 <= e.tokens <= c.capacity && 0 <= e.strikes <= 4
  }

  class RateLimiter {
    const config: Config
    var entries: map<string, Entry>

    ghost predicate Valid()
      reads this
    {
      && Sensible(config)
      && (forall k :: k in entries ==> EntrySound(config, entries[k]))
      && (config.maxEntries >= 1 ==> |entries| <= config.maxEntries)
    }

    constructor (config: Config)
      requires Sensible(config)
      ensures Valid() && this.config == config && entries == map[]
    {
      this.config, entries := config, map[];
    }

    /** `allow`. */
    method Allow(key: string, now: real) returns (ok: bool)
      requires Valid()
      modifies this
      ensures Valid() && key in entries
      ensures var before := if key in old(entries) then old(entries)[key] else NewEntry(config, now);
        Verdict(entries[key], ok) == Judge(config, before, now)
      ensures forall k :: k in entries && k != key ==> k in old(entries) && entries[k] == old(entries)[k]
      ensures key in old(entries) || |old(entries)| < config.maxEntries ==> old(entries).Keys <= entries.Keys
    {
      if key !in entries {
        Enter(key, now);
      }
      JudgeKeepsSound(config, entries[key], now);
      PutEntry(entries, key, Judge(config, entries[key], now).entry);
      var e;
      e, ok := Take(entries[key], now);
      entries := entries[key := e];
    }

    /** The part of `allow` that makes an entry for a new key. */
    method Enter(key: string, now: real)
      requires Valid() && key !in entries
      modifies this
      ensures Valid() && key in entries && entries[key] == NewEntry(config, now)
      ensures forall k :: k in entries && k != key ==> k in old(entries) && entries[k] == old(entries)[k]
      ensures |old(entries)| < config.maxEntries ==> entries == old(entries)[key := NewEntry(config, now)]
    {
      if |entries| >= config.maxEntries {
        Evict(now);
      }
      PutEntry(entries, key, NewEntry(config, now));
      entries := entries[key := NewEntry(config, now)];
    }

    /** The part of `allow` that works on the key's entry. */
    method Take(before: Entry, now: real) returns (e: Entry, ok: bool)
      ensures Verdict(e, ok) == Judge(config, before, now)
    {
      e := before;
      if e.blockedUntil.Some? && now < e.blockedUntil.value {
        return e, false;
      }
      var elapsed := now - e.updated;
      if elapsed > 0.0 {
        e := e.(tokens := Min(config.capacity, e.tokens + Inflow(config, elapsed)), updated := now);
      }
      assert e == Refilled(config, before, now);
      ok := e.tokens >= 1.0;
      if ok {
        e := e.(tokens := e.tokens - 1.0);
        if e.strikes > 0 {
          e := e.(strikes := e.strikes - 1);
        }
      } else {
        e := e.(strikes := e.strikes + 1);
        if e.strikes >= 5 {
          e := e.(blockedUntil := Some(now + config.block), strikes := 0);
        }
      }
    }

    /** `evict`: idle keys first; if that makes no room, keys in no particular order until one
        fits. */
    method Evict(now: real)
      requires Valid()
      modifies this
      ensures Valid()
      ensures config.maxEntries >= 1 ==> |entries| < config.maxEntries
      ensures forall k :: k in entries ==> k in old(entries) && entries[k] == old(entries)[k] && !Idle(entries[k], now)
      ensures config.maxEntries >= 1 && |Busy(old(entries), now)| < config.maxEntries ==>
        entries == Busy(old(entries), now)
    {
      SweepIdle(now);
      if |entries| < config.maxEntries {
        return;
      }
      ghost var busy := entries;
      var todo := entries.Keys;
      while todo != {}
        invariant todo == entries.Keys
        invariant config.maxEntries >= 1 ==> config.maxEntries <= |entries|
        invariant forall k :: k in entries ==> k in busy && entries[k] == busy[k]
        invariant Valid()
        decreases |todo|
      {
        var k :| k in todo;
        todo := todo - {k};
        FewerEntries(entries, k);
        entries := entries - {k};
        if |entries| < config.maxEntries {
          return;
        }
      }
    }

    /** The first loop of `evict`. */
    method SweepIdle(now: real)
      requires Valid()
      modifies this
      ensures Valid() && entries == Busy(old(entries), now)
    {
      var todo := entries.Keys;
      while todo != {}
        invariant todo <= entries.Keys <= old(entries).Keys
        invariant forall k :: k in entries ==> entries[k] == old(entries)[k] && (k in todo || !Idle(entries[k], now))
        invariant forall k :: k in old(entries) && !Idle(old(entries)[k], now) ==> k in entries
        invariant Valid()
        decreases |todo|
      {
        var k :| k in todo;
        todo := todo - {k};
        if now - entries[k].updated > 600.0 && !Blocked(entries[k], now) {
          FewerEntries(entries, k);
          entries := entries - {k};
        }
      }
    }
  }

  /** The keys in use. */
  function Busy(entries: map<string, Entry>, now: real): map<string, Entry> {
    map k | k in entries && !Idle(entries[k], now) :: entries[k]
  }

  lemma FewerEntries(entries: map<string, Entry>, k: string)
    requires k in entries
    ensures |entries - {k}| == |entries| - 1
  {
    assert (entries - {k}).Keys == entries.Keys - {k};
  }

  lemma PutEntry(entries: map<string, Entry>, k: string, e: Entry)
    ensures |entries[k := e]| == if k in entries then |entries| else |entries| + 1
  {
    assert entries[k := e].Keys == entries.Keys + {k};
  }

  // -------------------------------------------------------------------- properties

  lemma Scale(a: real, b: real, x: real)
    requires x >= 0.0
    ensures a <= b ==> a * x <= b * x
    ensures a < b && x > 0.0 ==> a * x < b * x
  {
    assert b * x - a * x == (b - a) * x;
  }

  lemma RefillKeepsSound(c: Config, e: Entry, now: real)
    requires Sensible(c) && EntrySound(c, e)
    ensures EntrySound(c, Refilled(c, e, now)) && Refilled(c, e, now).tokens >= e.tokens
  {
    Scale(0.0, now - e.updated, c.refill);
  }

  lemma JudgeKeepsSound(c: Config, e: Entry, now: real)
    requires Sensible(c) && EntrySound(c, e)
    ensures EntrySound(c, Judge(c, e, now).entry)
  {
    RefillKeepsSound(c, e, now);
  }

  /** A key is idle after ten minutes without a request, unless a block still stands. */
  lemma IdleExactly(e: Entry, now: real)
    ensures Idle(e, now) <==> now > e.updated + 600.0 && !(e.blockedUntil.Some? && now < e.blockedUntil.value)
  {
  }

  /** A second brings as much as the configured refill. */
  lemma InflowExactly(c: Config, elapsed: real)
    ensures Inflow(c, elapsed) == elapsed * c.refill && Inflow(c, 1.0) == c.refill
  {
  }

  /** A request in numbers: it is refused without a trace while a block stands; otherwise it is accepted
      exactly if the level has reached one, and then costs one; each refusal is a strike and each accepted
      request takes one back; the fifth strike blocks the key for as long as configured. */
  lemma JudgeExactly(c: Config, e: Entry, now: real)
    ensures var v := Judge(c, e, now);
      var refilled := e.tokens + Inflow(c, now - e.updated);
      var level := if now <= e.updated then e.tokens else if refilled < c.capacity then refilled else c.capacity;
      if e.blockedUntil.Some? && now < e.blockedUntil.value then v == Verdict(e, false)
      else
        && (v.ok <==> level >= 1.0)
        && v.entry.tokens == (if v.ok then level - 1.0 else level)
        && v.entry.updated == (if now <= e.updated then e.updated else now)
        && v.entry.strikes == (if !v.ok then (if e.strikes >= 4 then 0 else e.strikes + 1)
                               else if e.strikes > 0 then e.strikes - 1 else e.strikes)
        && v.entry.blockedUntil == (if !v.ok && e.strikes >= 4 then Some(now + c.block) else e.blockedUntil)
  {
  }

  /** One key over its requests: every entry is what the request before made of it. */
  ghost predicate Trail(c: Config, entries: seq<Entry>, times: seq<real>) {
    && |entries| == |times| + 1
    && EntrySound(c, entries[0])
    && (forall i {:trigger Judge(c, entries[i], times[i])} :: 0 <= i < |times| ==>
          entries[i + 1] == Judge(c, entries[i], times[i]).entry)
    && (forall i, j :: 0 <= i <= j < |times| ==> times[i] <= times[j])
    && (|times| > 0 ==> entries[0].updated <= times[0])
  }

  function Ok(c: Config, entries: seq<Entry>, times: seq<real>, i: nat): bool
    requires i < |times| && |entries| == |times| + 1
  {
    Judge(c, entries[i], times[i]).ok
  }

  /** Accepted requests from i to before j. */
  function Accepted(c: Config, entries: seq<Entry>, times: seq<real>, i: nat, j: nat): nat
    requires i <= j <= |times| && |entries| == |times| + 1
  {
    if i == j then 0 else Accepted(c, entries, times, i, j - 1) + if Ok(c, entries, times, j - 1) then 1 else 0
  }

  lemma {:induction false} TrailSound(c: Config, entries: seq<Entry>, times: seq<real>, i: nat)
    requires Sensible(c) && Trail(c, entries, times) && i < |entries|
    ensures EntrySound(c, entries[i])
    ensures i < |times| ==> entries[i].updated <= times[i]
    ensures 0 < i ==> entries[i].updated <= times[i - 1]
  {
    if i > 0 {
      TrailSound(c, entries, times, i - 1);
      JudgeKeepsSound(c, entries[i - 1], times[i - 1]);
    }
  }

  /** The level a key has at a time. */
  function Level(c: Config, e: Entry, t: real): real {
    Refilled(c, e, t).tokens
  }

  function SampleOf(c: Config, e: Entry, t: real): Sample {
    Sample(t, Level(c, e, t), Level(c, Judge(c, e, t).entry, t), Judge(c, e, t).ok)
  }

  lemma OneSample(c: Config, e: Entry, t: real)
    requires Sensible(c) && EntrySound(c, e) && e.updated <= t
    ensures Fits(SampleOf(c, e, t), c.capacity)
  {
    RefillKeepsSound(c, e, t);
    JudgeKeepsSound(c, e, t);
  }

  /** Between two times a level grows by no more than the refill. */
  lemma LevelGrows(c: Config, e: Entry, t: real, t': real)
    requires Sensible(c) && EntrySound(c, e) && e.updated <= t <= t'
    ensures Level(c, e, t') <= Level(c, e, t) + c.refill * (t' - t)
  {
    var a, b, d := (t - e.updated) * c.refill, (t' - e.updated) * c.refill, c.refill * (t' - t);
    assert b == a + d && d >= 0.0 && a >= 0.0;
    assert t == e.updated ==> a == 0.0;
  }

  function SamplesOf(c: Config, entries: seq<Entry>, times: seq<real>): (samples: seq<Sample>)
    requires |entries| == |times| + 1
    ensures |samples| == |times| && forall i :: 0 <= i < |samples| ==> samples[i].time == times[i]
  {
    seq(|times|, i requires 0 <= i < |times| => SampleOf(c, entries[i], times[i]))
  }

  lemma TrailMetered(c: Config, entries: seq<Entry>, times: seq<real>)
    requires Sensible(c) && Trail(c, entries, times)
    ensures Metered(SamplesOf(c, entries, times), c.capacity, c.refill)
  {
    forall i | 0 <= i < |times| ensures Fits(SampleOf(c, entries[i], times[i]), c.capacity) {
      TrailSound(c, entries, times, i);
      OneSample(c, entries[i], times[i]);
    }
    forall i | 0 < i < |times|
      ensures Follows(SampleOf(c, entries[i - 1], times[i - 1]), SampleOf(c, entries[i], times[i]), c.refill)
    {
      NextSample(c, entries, times, i);
    }
  }

  lemma NextSample(c: Config, entries: seq<Entry>, times: seq<real>, i: nat)
    requires Sensible(c) && Trail(c, entries, times) && 0 < i < |times|
    ensures Follows(SampleOf(c, entries[i - 1], times[i - 1]), SampleOf(c, entries[i], times[i]), c.refill)
  {
    TrailSound(c, entries, times, i);
    assert entries[i] == Judge(c, entries[i - 1], times[i - 1]).entry;
    LevelGrows(c, entries[i], times[i - 1], times[i]);
  }

  lemma {:induction false} AcceptedIsTaken(c: Config, entries: seq<Entry>, times: seq<real>, i: nat, j: nat)
    requires i <= j <= |times| && |entries| == |times| + 1
    ensures Accepted(c, entries, times, i, j) == Taken(SamplesOf(c, entries, times), i, j)
    decreases j
  {
    if i < j {
      AcceptedIsTaken(c, entries, times, i, j - 1);
    }
  }

  lemma TakenBound(c: Config, entries: seq<Entry>, times: seq<real>, i: nat, j: nat)
    requires Sensible(c) && Trail(c, entries, times) && i < j <= |times|
    ensures Taken(SamplesOf(c, entries, times), i, j) as real <= Allowance(c.capacity, c.refill, times[i], times[j - 1])
  {
    var samples := SamplesOf(c, entries, times);
    assert samples[i].time == times[i] && samples[j - 1].time == times[j - 1];
    TrailMetered(c, entries, times);
    WindowBound(samples, c.capacity, c.refill, i, j, times[i], times[j - 1]);
  }

  /** For a key that stays in the table, any window of its requests accepts at most the capacity
      and what is refilled between the first and the last of them. */
  lemma AcceptedBound(c: Config, entries: seq<Entry>, times: seq<real>, i: nat, j: nat)
    requires Sensible(c) && Trail(c, entries, times) && i < j <= |times|
    ensures Accepted(c, entries, times, i, j) as real <= Allowance(c.capacity, c.refill, times[i], times[j - 1])
  {
    TakenBound(c, entries, times, i, j);
    AcceptedIsTaken(c, entries, times, i, j);
  }

  /** A block holds: until it ends no request is accepted and nothing about the key changes. */
  lemma {:induction false} BlockHolds(c: Config, entries: seq<Entry>, times: seq<real>, i: nat, j: nat)
    requires Trail(c, entries, times) && i <= j < |times|
    requires Blocked(entries[i], times[j])
    ensures entries[j] == entries[i] && !Ok(c, entries, times, j)
    decreases j
  {
    if i < j {
      BlockHolds(c, entries, times, i, j - 1);
    }
  }

  /** Requests come no faster than the refill. */
  ghost predicate Paced(c: Config, times: seq<real>) {
    forall i :: 0 < i < |times| ==> Inflow(c, times[i] - times[i - 1]) >= 1.0
  }

  lemma AcceptedIsUnblocked(c: Config, e: Entry, now: real)
    requires e.blockedUntil == None && e.updated <= now && Level(c, e, now) >= 1.0
    ensures var v := Judge(c, e, now);
      v.ok && v.entry.blockedUntil == None && v.entry.updated == now && v.entry.tokens == Level(c, e, now) - 1.0
  {
  }

  lemma PacedLevel(c: Config, e: Entry, now: real)
    requires c.capacity >= 1.0 && e.tokens >= 0.0 && e.updated <= now && Inflow(c, now - e.updated) >= 1.0
    ensures Level(c, e, now) >= 1.0
  {
    assert now == e.updated ==> Inflow(c, now - e.updated) == 0.0;
  }

  /** Whoever asks no faster than the refill, with a token to begin with, is never refused. */
  lemma {:induction false} PacedIsAccepted(c: Config, entries: seq<Entry>, times: seq<real>, i: nat)
    requires Sensible(c) && c.capacity >= 1.0 && Trail(c, entries, times) && Paced(c, times) && i < |times|
    requires entries[0].tokens >= 1.0 && entries[0].blockedUntil == None
    ensures Ok(c, entries, times, i) && entries[i].blockedUntil == None && Level(c, entries[i], times[i]) >= 1.0
  {
    TrailSound(c, entries, times, i);
    RefillKeepsSound(c, entries[i], times[i]);
    if i > 0 {
      PacedIsAccepted(c, entries, times, i - 1);
      TrailSound(c, entries, times, i - 1);
      AcceptedIsUnblocked(c, entries[i - 1], times[i - 1]);
      assert entries[i] == Judge(c, entries[i - 1], times[i - 1]).entry;
      assert Inflow(c, times[i] - times[i - 1]) >= 1.0;
      PacedLevel(c, entries[i], times[i]);
    }
    AcceptedIsUnblocked(c, entries[i], times[i]);
  }

  /** And of a new key the first requests are accepted, as many as the capacity holds, however fast they
      come. */
  lemma {:induction false} BurstIsAccepted(c: Config, entries: seq<Entry>, times: seq<real>, start: real, i: nat)
    requires Sensible(c) && Trail(c, entries, times) && entries[0] == NewEntry(c, start) && i < |times|
    requires (i + 1) as real <= c.capacity
    ensures Ok(c, entries, times, i)
    ensures entries[i].blockedUntil == None && entries[i].tokens >= c.capacity - i as real
  {
    TrailSound(c, entries, times, i);
    RefillKeepsSound(c, entries[i], times[i]);
    if i > 0 {
      BurstIsAccepted(c, entries, times, start, i - 1);
      TrailSound(c, entries, times, i - 1);
      RefillKeepsSound(c, entries[i - 1], times[i - 1]);
      AcceptedIsUnblocked(c, entries[i - 1], times[i - 1]);
      assert entries[i] == Judge(c, entries[i - 1], times[i - 1]).entry;
    }
    AcceptedIsUnblocked(c, entries[i], times[i]);
  }

  /** Whether a request earns its key a block. */
  predicate Blocks(e: Entry, v: Verdict, t: real) {
    !Blocked(e, t) && !v.ok && e.strikes + 1 >= 5
  }

  function BlocksIn(c: Config, entries: seq<Entry>, times: seq<real>, i: nat, j: nat): nat
    requires i <= j <= |times| && |entries| == |times| + 1
  {
    if i == j then 0
    else BlocksIn(c, entries, times, i, j - 1)
         + if Blocks(entries[j - 1], Judge(c, entries[j - 1], times[j - 1]), times[j - 1]) then 1 else 0
  }

  /** Requests refused for want of a token, not because of a block. */
  function RefusedIn(c: Config, entries: seq<Entry>, times: seq<real>, i: nat, j: nat): nat
    requires i <= j <= |times| && |entries| == |times| + 1
  {
    if i == j then 0
    else RefusedIn(c, entries, times, i, j - 1)
         + if !Ok(c, entries, times, j - 1) && !Blocked(entries[j - 1], times[j - 1]) then 1 else 0
  }

  /** Every block is earned by five refusals of its own. */
  lemma {:induction false} BlocksAreEarned(c: Config, entries: seq<Entry>, times: seq<real>, i: nat, j: nat)
    requires Sensible(c) && Trail(c, entries, times) && i <= j <= |times|
    ensures 5 * BlocksIn(c, entries, times, i, j) + entries[j].strikes
         <= entries[i].strikes + RefusedIn(c, entries, times, i, j)
    decreases j
  {
    if i < j {
      BlocksAreEarned(c, entries, times, i, j - 1);
      TrailSound(c, entries, times, j - 1);
    }
  }

  // ------------------------------------------------------------------ the idle sweep

  /** Forgetting this key at this time changes neither its level nor its next verdict. */
  ghost predicate Harmless(c: Config, e: Entry, t: real) {
    && Level(c, e, t) == Level(c, NewEntry(c, t), t)
    && Judge(c, e, t).ok == Judge(c, NewEntry(c, t), t).ok
    && Judge(c, e, t).entry.tokens == Judge(c, NewEntry(c, t), t).entry.tokens
  }

  lemma IdleFills(c: Config, elapsed: real)
    requires c.refill >= 0.0 && c.capacity <= IDLE * c.refill && elapsed >= IDLE
    ensures Inflow(c, elapsed) >= c.capacity
  {
    Scale(IDLE, elapsed, c.refill);
  }

  lemma SweepHarmless(c: Config, e: Entry, now: real, t: real)
    requires Sensible(c) && c.capacity <= IDLE * c.refill
    requires EntrySound(c, e) && Idle(e, now) && now <= t
    ensures Harmless(c, e, t)
  {
    IdleFills(c, t - e.updated);
    assert Refilled(c, e, t) == e.(tokens := c.capacity, updated := t);
    assert Refilled(c, NewEntry(c, t), t) == NewEntry(c, t);
  }

  lemma IdleDoesNotFill(c: Config) returns (t: real)
    requires Sensible(c) && c.capacity > IDLE * c.refill
    ensures t > IDLE && Inflow(c, t) < c.capacity
  {
    if c.refill == 0.0 {
      t := IDLE + 1.0;
      assert t * c.refill == 0.0;
    } else {
      t := Between(IDLE, c.capacity, c.refill);
    }
  }

  lemma Quotient(a: real, x: real)
    requires x > 0.0
    ensures a / x * x == a
  {
  }

  lemma Between(a: real, b: real, x: real) returns (t: real)
    requires x > 0.0 && a * x < b
    ensures a < t && t * x < b
  {
    var q := b / x;
    Quotient(b, x);
    Scale(q, a, x);
    t := (a + q) / 2.0;
    Scale(t, q, x);
  }

  /** A key that would be better off forgotten: emptied, and idle for hardly longer than the
      limit. */
  lemma SweepNoticed(c: Config) returns (e: Entry, t: real)
    requires Sensible(c) && c.capacity > IDLE * c.refill
    ensures EntrySound(c, e) && Idle(e, t) && !Harmless(c, e, t)
  {
    t := IdleDoesNotFill(c);
    e := Entry(0.0, 0.0, None, 0);
    assert Refilled(c, e, t) == e.(tokens := Min(c.capacity, Inflow(c, t)), updated := t);
  }

  /** The idle sweep goes unnoticed exactly when ten minutes fill a bucket. */
  lemma SweepHarmlessExactly(c: Config)
    requires Sensible(c)
    ensures (forall e, now, t :: EntrySound(c, e) && Idle(e, now) && now <= t ==> Harmless(c, e, t))
        <==> c.capacity <= IDLE * c.refill
  {
    if c.capacity <= IDLE * c.refill {
      forall e, now, t | EntrySound(c, e) && Idle(e, now) && now <= t ensures Harmless(c, e, t) {
        SweepHarmless(c, e, now, t);
      }
    } else {
      var e, t := SweepNoticed(c);
    }
  }

  /** The three limiters of the web server. */
  predicate Configured(c: Config) {
    || (c.capacity == 120.0 && c.refill == 2.0)
    || (c.capacity == 10.0 && c.refill == 10.0 / 60.0)
    || (c.capacity == 30.0 && c.refill == 0.5)
  }

  /** None of them notices its sweeps. */
  lemma ConfiguredSweepsHarmless(c: Config, e: Entry, now: real, t: real)
    requires Configured(c) && EntrySound(c, e) && Idle(e, now) && now <= t
    ensures Harmless(c, e, t)
  {
    SweepHarmless(c, e, now, t);
  }
}
