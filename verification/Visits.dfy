/**
 The life of one entry of sish's limiter: attempts at nondecreasing times, and places given back in
 between.
 */
module Visits {
  import opened Hostnames
  import opened Buckets
  import opened Connections

  datatype Deed = Try(now: real) | GiveBack

  function BurstOf(s: Settings, key: Key): nat {
    if key.Connection? then LimitsOf(s, key.kind).burst else AtLeastOne(s.requestBurst)
  }

  function RateOf(s: Settings, key: Key): nat {
    if key.Connection? then LimitsOf(s, key.kind).rate else AtLeastOne(s.requestRate)
  }

  function Attempt(s: Settings, key: Key, l: Levels, now: real): Verdict {
    if key.Connection? then Admit(s, key.kind, l, now) else Ask(s, l, now)
  }

  function Next(s: Settings, key: Key, l: Levels, d: Deed): Levels {
    match d
    case Try(now) => Attempt(s, key, l, now).levels
    case GiveBack => if l.connections > 0 then l.(connections := l.connections - 1) else l
  }

  function Taken(s: Settings, key: Key, l: Levels, d: Deed): bool {
    d.Try? && Attempt(s, key, l, d.now).ok
  }

  function TimeAfter(d: Deed, time: real): real {
    if d.Try? then d.now else time
  }

  /** The levels and the times of an entry from its first moment on. */
  ghost predicate History(s: Settings, key: Key, ls: seq<Levels>, times: seq<real>, deeds: seq<Deed>) {
    && |ls| == |deeds| + 1 && |times| == |deeds| + 1
    && ls[0] == NewLevels(BurstOf(s, key), times[0])
    && (forall i {:trigger Next(s, key, ls[i], deeds[i])} :: 0 <= i < |deeds| ==>
          ls[i + 1] == Next(s, key, ls[i], deeds[i]))
    && (forall i {:trigger TimeAfter(deeds[i], times[i])} :: 0 <= i < |deeds| ==>
          times[i + 1] == TimeAfter(deeds[i], times[i]) && times[i] <= times[i + 1])
  }

  predicate LevelsSound(s: Settings, key: Key, l: Levels, time: real) {
    && 0.0 <= l.tokens <= BurstOf(s, key) as real && l.updated <= time
    && BlockSound(s, l)
  }

  // ------------------------------------------------------------------- one deed

  lemma InflowPositive(elapsed: real, rate: nat)
    requires elapsed >= 0.0
    ensures Inflow(elapsed, rate) >= 0.0
  {
  }

  lemma RefilledSound(l: Levels, burst: nat, rate: nat, now: real)
    requires 0.0 <= l.tokens <= burst as real && l.updated <= now
    ensures l.tokens <= Refilled(l, burst, rate, now).tokens <= burst as real
  {
    InflowPositive(now - l.updated, rate);
  }

  /** An attempt under a block changes nothing, any other takes a token from the refilled bucket or
      none. */
  lemma AttemptLevels(s: Settings, key: Key, l: Levels, now: real)
    ensures var v := Attempt(s, key, l, now);
      if Blocked(l, now) then v == Verdict(l, false)
      else
        && v.levels.updated == now
        && v.levels.tokens == Refilled(l, BurstOf(s, key), RateOf(s, key), now).tokens - (if v.ok then 1.0 else 0.0)
        && (v.ok ==> v.levels.tokens >= 0.0)
  {
  }

  lemma NextSound(s: Settings, key: Key, l: Levels, d: Deed, time: real)
    requires LevelsSound(s, key, l, time) && (d.Try? ==> time <= d.now)
    ensures LevelsSound(s, key, Next(s, key, l, d), TimeAfter(d, time))
  {
    if d.Try? {
      RefilledSound(l, BurstOf(s, key), RateOf(s, key), d.now);
      AttemptLevels(s, key, l, d.now);
      if key.Connection? {
        AdmitKeepsBlockSound(s, key.kind, l, d.now);
      } else {
        AskKeepsBlockSound(s, l, d.now);
      }
    }
  }

  lemma {:induction false} HistorySound(s: Settings, key: Key, ls: seq<Levels>, times: seq<real>, deeds: seq<Deed>, i: nat)
    requires History(s, key, ls, times, deeds) && i < |ls|
    ensures LevelsSound(s, key, ls[i], times[i])
  {
    if i > 0 {
      HistorySound(s, key, ls, times, deeds, i - 1);
      assert ls[i] == Next(s, key, ls[i - 1], deeds[i - 1]);
      assert times[i] == TimeAfter(deeds[i - 1], times[i - 1]);
      NextSound(s, key, ls[i - 1], deeds[i - 1], times[i - 1]);
    }
  }

  // ------------------------------------------------------------------ window bound

  function Level(s: Settings, key: Key, l: Levels, time: real): real {
    Refilled(l, BurstOf(s, key), RateOf(s, key), time).tokens
  }

  function SampleOf(s: Settings, key: Key, l: Levels, d: Deed, time: real): Sample {
    var now := TimeAfter(d, time);
    Sample(now, Level(s, key, l, now), Level(s, key, Next(s, key, l, d), now), Taken(s, key, l, d))
  }

  lemma NoInflow(l: Levels, burst: nat, rate: nat)
    requires l.tokens <= burst as real
    ensures Refilled(l, burst, rate, l.updated).tokens == l.tokens
  {
    assert Inflow(l.updated - l.updated, rate) == 0.0;
  }

  lemma SampleFits(s: Settings, key: Key, l: Levels, d: Deed, time: real)
    requires LevelsSound(s, key, l, time) && (d.Try? ==> time <= d.now)
    ensures Fits(SampleOf(s, key, l, d, time), BurstOf(s, key) as real)
  {
    var now, burst, rate := TimeAfter(d, time), BurstOf(s, key), RateOf(s, key);
    RefilledSound(l, burst, rate, now);
    NextSound(s, key, l, d, time);
    RefilledSound(Next(s, key, l, d), burst, rate, now);
    if d.Try? {
      AttemptLevels(s, key, l, now);
      if !Blocked(l, now) {
        NoInflow(Attempt(s, key, l, now).levels, burst, rate);
      }
    }
  }

  lemma InflowSplits(rate: nat, first: real, middle: real, last: real)
    ensures Inflow(last - first, rate) == Inflow(middle - first, rate) + Inflow(last - middle, rate)
    ensures Inflow(last - middle, rate) == rate as real * (last - middle)
  {
    var a, b := middle - first, last - middle;
    assert last - first == a + b;
    assert (a + b) * rate as real == a * rate as real + b * rate as real;
  }

  lemma MinGrows(cap: real, level: real, more: real)
    requires more >= 0.0
    ensures Min(cap, level + more) <= Min(cap, level) + more
  {
  }

  lemma LevelGrows(s: Settings, key: Key, l: Levels, time: real, later: real)
    requires LevelsSound(s, key, l, time) && time <= later
    ensures Level(s, key, l, later) <= Level(s, key, l, time) + RateOf(s, key) as real * (later - time)
  {
    var burst, rate := BurstOf(s, key), RateOf(s, key);
    InflowSplits(rate, l.updated, time, later);
    InflowPositive(later - time, rate);
    MinGrows(burst as real, l.tokens + Inflow(time - l.updated, rate), Inflow(later - time, rate));
  }

  function SamplesOf(s: Settings, key: Key, ls: seq<Levels>, times: seq<real>, deeds: seq<Deed>): (samples: seq<Sample>)
    requires |ls| == |deeds| + 1 && |times| == |deeds| + 1
    ensures |samples| == |deeds|
  {
    seq(|deeds|, i requires 0 <= i < |deeds| => SampleOf(s, key, ls[i], deeds[i], times[i]))
  }

  /** Between two looks at the same levels. */
  lemma LevelFollows(s: Settings, key: Key, first: Sample, l: Levels, second: Sample)
    requires LevelsSound(s, key, l, first.time) && first.time <= second.time
    requires first.after == Level(s, key, l, first.time) && second.before == Level(s, key, l, second.time)
    ensures Follows(first, second, RateOf(s, key) as real)
  {
    LevelGrows(s, key, l, first.time, second.time);
  }

  lemma NextFollows(s: Settings, key: Key, ls: seq<Levels>, times: seq<real>, deeds: seq<Deed>, i: nat)
    requires History(s, key, ls, times, deeds) && 0 < i < |deeds|
    ensures Follows(SampleOf(s, key, ls[i - 1], deeds[i - 1], times[i - 1]), SampleOf(s, key, ls[i], deeds[i], times[i]),
                    RateOf(s, key) as real)
  {
    HistorySound(s, key, ls, times, deeds, i);
    assert ls[i] == Next(s, key, ls[i - 1], deeds[i - 1]);
    assert times[i] == TimeAfter(deeds[i - 1], times[i - 1]);
    assert times[i] <= TimeAfter(deeds[i], times[i]);
    LevelFollows(s, key, SampleOf(s, key, ls[i - 1], deeds[i - 1], times[i - 1]), ls[i],
                 SampleOf(s, key, ls[i], deeds[i], times[i]));
  }

  lemma HistoryMetered(s: Settings, key: Key, ls: seq<Levels>, times: seq<real>, deeds: seq<Deed>)
    requires History(s, key, ls, times, deeds)
    ensures Metered(SamplesOf(s, key, ls, times, deeds), BurstOf(s, key) as real, RateOf(s, key) as real)
  {
    forall i | 0 <= i < |deeds| ensures Fits(SampleOf(s, key, ls[i], deeds[i], times[i]), BurstOf(s, key) as real) {
      HistorySound(s, key, ls, times, deeds, i);
      assert times[i] <= TimeAfter(deeds[i], times[i]);
      SampleFits(s, key, ls[i], deeds[i], times[i]);
    }
    forall i | 0 < i < |deeds|
      ensures Follows(SampleOf(s, key, ls[i - 1], deeds[i - 1], times[i - 1]),
                      SampleOf(s, key, ls[i], deeds[i], times[i]), RateOf(s, key) as real)
    {
      NextFollows(s, key, ls, times, deeds, i);
    }
  }

  /** What was let in from deed i to before deed j. */
  function LetIn(s: Settings, key: Key, ls: seq<Levels>, deeds: seq<Deed>, i: nat, j: nat): nat
    requires i <= j <= |deeds| && |ls| == |deeds| + 1
  {
    if i == j then 0 else LetIn(s, key, ls, deeds, i, j - 1) + if Taken(s, key, ls[j - 1], deeds[j - 1]) then 1 else 0
  }

  lemma {:induction false} LetInIsTaken(s: Settings, key: Key, ls: seq<Levels>, times: seq<real>, deeds: seq<Deed>, i: nat,
                                        j: nat)
    requires i <= j <= |deeds| && |ls| == |deeds| + 1 && |times| == |deeds| + 1
    ensures LetIn(s, key, ls, deeds, i, j) == Buckets.Taken(SamplesOf(s, key, ls, times, deeds), i, j)
    decreases j
  {
    if i < j {
      LetInIsTaken(s, key, ls, times, deeds, i, j - 1);
    }
  }

  /** An entry that stays in the table lets in, over any stretch of time, at most its burst and what
      its rate allows in between; this holds for connections and for requests. */
  lemma LetInBound(s: Settings, key: Key, ls: seq<Levels>, times: seq<real>, deeds: seq<Deed>, i: nat, j: nat)
    requires History(s, key, ls, times, deeds) && i < j <= |deeds|
    ensures LetIn(s, key, ls, deeds, i, j) as real
         <= Allowance(BurstOf(s, key) as real, RateOf(s, key) as real, times[i + 1], times[j])
  {
    LetInIsTaken(s, key, ls, times, deeds, i, j);
    SampleTimes(s, key, ls, times, deeds, i);
    SampleTimes(s, key, ls, times, deeds, j - 1);
    HistoryMetered(s, key, ls, times, deeds);
    WindowBound(SamplesOf(s, key, ls, times, deeds), BurstOf(s, key) as real, RateOf(s, key) as real, i, j,
                times[i + 1], times[j]);
  }

  lemma SampleTimes(s: Settings, key: Key, ls: seq<Levels>, times: seq<real>, deeds: seq<Deed>, i: nat)
    requires History(s, key, ls, times, deeds) && i < |deeds|
    ensures SamplesOf(s, key, ls, times, deeds)[i].time == times[i + 1]
  {
    assert times[i + 1] == TimeAfter(deeds[i], times[i]);
  }

  // ---------------------------------------------------------------- never refused

  /** Attempts come no faster than the rate, and find a place free. */
  ghost predicate Paced(s: Settings, key: Key, ls: seq<Levels>, deeds: seq<Deed>)
    requires |ls| == |deeds| + 1
  {
    && (forall i, j :: 0 <= i < j < |deeds| && deeds[i].Try? && deeds[j].Try? ==>
          Inflow(deeds[j].now - deeds[i].now, RateOf(s, key)) >= 1.0)
    && (forall i :: 0 <= i < |deeds| && key.Connection? ==> ls[i].connections < LimitsOf(s, key.kind).max)
  }

  /** Never refused so far: no block, and a full token at the first moment or after the last attempt. */
  ghost predicate Welcome(s: Settings, key: Key, l: Levels, deeds: seq<Deed>, i: nat)
    requires i <= |deeds|
  {
    && l.blocked == None && l.tokens >= 0.0
    && (l.tokens >= 1.0 || exists j :: 0 <= j < i && deeds[j].Try? && deeds[j].now == l.updated)
  }

  lemma PacedSince(s: Settings, key: Key, ls: seq<Levels>, deeds: seq<Deed>, j: nat, i: nat, time: real)
    requires |ls| == |deeds| + 1 && Paced(s, key, ls, deeds)
    requires j < i < |deeds| && deeds[j].Try? && deeds[i].Try? && deeds[j].now == time
    ensures Inflow(deeds[i].now - time, RateOf(s, key)) >= 1.0
  {
  }

  lemma WelcomeIsLetIn(s: Settings, key: Key, ls: seq<Levels>, times: seq<real>, deeds: seq<Deed>, i: nat)
    requires History(s, key, ls, times, deeds) && Paced(s, key, ls, deeds) && i < |deeds|
    requires Welcome(s, key, ls[i], deeds, i) && deeds[i].Try?
    ensures Taken(s, key, ls[i], deeds[i]) && Welcome(s, key, ls[i + 1], deeds, i + 1)
  {
    HistorySound(s, key, ls, times, deeds, i);
    assert times[i] <= TimeAfter(deeds[i], times[i]);
    assert ls[i + 1] == Next(s, key, ls[i], deeds[i]);
    EnoughByNow(s, key, ls, deeds, i);
    LetInWithAToken(s, key, ls[i], deeds[i].now);
  }

  lemma EnoughByNow(s: Settings, key: Key, ls: seq<Levels>, deeds: seq<Deed>, i: nat)
    requires |ls| == |deeds| + 1 && Paced(s, key, ls, deeds) && i < |deeds| && deeds[i].Try?
    requires Welcome(s, key, ls[i], deeds, i)
    ensures ls[i].tokens >= 1.0 || Inflow(deeds[i].now - ls[i].updated, RateOf(s, key)) >= 1.0
  {
    if ls[i].tokens < 1.0 {
      var j :| 0 <= j < i && deeds[j].Try? && deeds[j].now == ls[i].updated;
      PacedSince(s, key, ls, deeds, j, i, ls[i].updated);
    }
  }

  lemma TokenByNow(l: Levels, burst: nat, rate: nat, now: real)
    requires burst >= 1 && 0.0 <= l.tokens && l.updated <= now
    requires l.tokens >= 1.0 || Inflow(now - l.updated, rate) >= 1.0
    ensures Refilled(l, burst, rate, now).tokens >= 1.0
  {
    InflowPositive(now - l.updated, rate);
  }

  lemma BurstIsPositive(s: Settings, key: Key)
    ensures BurstOf(s, key) >= 1
  {
  }

  lemma LetInWithAToken(s: Settings, key: Key, l: Levels, now: real)
    requires l.blocked == None && 0.0 <= l.tokens && l.updated <= now
    requires l.tokens >= 1.0 || Inflow(now - l.updated, RateOf(s, key)) >= 1.0
    requires key.Connection? ==> l.connections < LimitsOf(s, key.kind).max
    ensures var v := Attempt(s, key, l, now);
      v.ok && v.levels.blocked == None && v.levels.tokens >= 0.0 && v.levels.updated == now
  {
    BurstIsPositive(s, key);
    TokenByNow(l, BurstOf(s, key), RateOf(s, key), now);
  }

  lemma {:induction false} WelcomeStays(s: Settings, key: Key, ls: seq<Levels>, times: seq<real>, deeds: seq<Deed>, i: nat)
    requires History(s, key, ls, times, deeds) && Paced(s, key, ls, deeds) && i < |ls|
    ensures Welcome(s, key, ls[i], deeds, i)
  {
    if i > 0 {
      WelcomeStays(s, key, ls, times, deeds, i - 1);
      if deeds[i - 1].Try? {
        WelcomeIsLetIn(s, key, ls, times, deeds, i - 1);
      } else {
        assert ls[i] == Next(s, key, ls[i - 1], deeds[i - 1]);
      }
    }
  }

  /** Whoever comes no faster than the rate allows, and finds a place free, is always let in. */
  lemma PacedIsLetIn(s: Settings, key: Key, ls: seq<Levels>, times: seq<real>, deeds: seq<Deed>, i: nat)
    requires History(s, key, ls, times, deeds) && Paced(s, key, ls, deeds) && i < |deeds| && deeds[i].Try?
    ensures Taken(s, key, ls[i], deeds[i])
  {
    WelcomeStays(s, key, ls, times, deeds, i);
    WelcomeIsLetIn(s, key, ls, times, deeds, i);
  }

  // ------------------------------------------------------------- the sweep and blocks

  /** n requests at time zero. */
  lemma {:induction false} ManyRequests(s: Settings, key: Key, n: nat)
      returns (ls: seq<Levels>, times: seq<real>, deeds: seq<Deed>)
    requires key.Request? && n <= BurstOf(s, key) + 10
    ensures History(s, key, ls, times, deeds) && |deeds| == n && times[n] == 0.0
    ensures var burst := BurstOf(s, key); var l := ls[n];
      && l.updated == 0.0 && l.connections == 0
      && l.tokens == (if n <= burst then burst - n else 0) as real
      && l.violations == (if n <= burst || n == burst + 10 then 0 else n - burst)
      && l.blocked == (if n < burst + 10 then None else Some(BlockOf(s)))
  {
    if n == 0 {
      ls, times, deeds := [NewLevels(BurstOf(s, key), 0.0)], [0.0], [];
    } else {
      ls, times, deeds := ManyRequests(s, key, n - 1);
      NoInflow(ls[n - 1], BurstOf(s, key), RateOf(s, key));
      ls, times, deeds := OneDeed(s, key, ls, times, deeds, Try(0.0));
    }
  }

  lemma OneDeed(s: Settings, key: Key, ls: seq<Levels>, times: seq<real>, deeds: seq<Deed>, d: Deed)
      returns (ls': seq<Levels>, times': seq<real>, deeds': seq<Deed>)
    requires History(s, key, ls, times, deeds) && (d.Try? ==> times[|deeds|] <= d.now)
    ensures History(s, key, ls', times', deeds') && |deeds'| == |deeds| + 1
    ensures ls'[|deeds'|] == Next(s, key, ls[|deeds|], d) && times'[|deeds'|] == TimeAfter(d, times[|deeds|])
  {
    var n := |deeds|;
    ls', times', deeds' := ls + [Next(s, key, ls[n], d)], times + [TimeAfter(d, times[n])], deeds + [d];
    forall i | 0 <= i < |deeds'| ensures ls'[i + 1] == Next(s, key, ls'[i], deeds'[i]) {
      assert i < n ==> ls[i + 1] == Next(s, key, ls[i], deeds[i]);
    }
    forall i | 0 <= i < |deeds'|
      ensures times'[i + 1] == TimeAfter(deeds'[i], times'[i]) && times'[i] <= times'[i + 1]
    {
      assert i < n ==> times[i + 1] == TimeAfter(deeds[i], times[i]) && times[i] <= times[i + 1];
    }
  }

  /** An entry with this history, swept at this time, would be forgotten while it is blocked. */
  ghost predicate Forgotten(s: Settings, key: Key, ls: seq<Levels>, times: seq<real>, deeds: seq<Deed>, now: real) {
    && History(s, key, ls, times, deeds) && times[|deeds|] <= now
    && AbuseState.Evictable(ls[|deeds|], now) && Blocked(ls[|deeds|], now)
  }

  lemma NeverForgotten(s: Settings, key: Key, ls: seq<Levels>, times: seq<real>, deeds: seq<Deed>, now: real)
    requires BlockOf(s) <= IDLE
    ensures !Forgotten(s, key, ls, times, deeds, now)
  {
    if History(s, key, ls, times, deeds) {
      HistorySound(s, key, ls, times, deeds, |deeds|);
    }
  }

  lemma LongBlockForgotten(s: Settings)
      returns (key: Key, ls: seq<Levels>, times: seq<real>, deeds: seq<Deed>, now: real)
    requires BlockOf(s) > IDLE
    ensures Forgotten(s, key, ls, times, deeds, now)
  {
    key := Request("", "");
    ls, times, deeds := ManyRequests(s, key, BurstOf(s, key) + 10);
    now := (IDLE + BlockOf(s)) / 2.0;
  }

  /** A sweep frees nobody from a block exactly when blocks are no longer than the ten minutes an entry
      has to be idle. */
  lemma SweepKeepsBlocksExactly(s: Settings)
    ensures (forall key, ls, times, deeds, now :: !Forgotten(s, key, ls, times, deeds, now)) <==> BlockOf(s) <= IDLE
  {
    if BlockOf(s) <= IDLE {
      forall key, ls, times, deeds, now ensures !Forgotten(s, key, ls, times, deeds, now) {
        NeverForgotten(s, key, ls, times, deeds, now);
      }
    } else {
      var key, ls, times, deeds, now := LongBlockForgotten(s);
    }
  }
}
