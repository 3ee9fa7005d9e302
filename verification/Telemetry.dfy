/**
 Security counters: sish counts, cuts batches and posts them until one is acknowledged; the
 control plane stores each batch once, whatever is repeated or lost on the way.
 */
module Telemetry {
  import opened Hostnames

  type Counts = map<string, int>

  datatype Batch = Batch(id: string, events: Counts)

  /** A row of `security_telemetry`: a minute and an event type. */
  datatype Slot = Slot(minute: int, event: string)

  const EVENTS: set<string> :=
    {"unknown_host", "rate_limited", "temporarily_blocked", "connection_limited", "authorization_denied"}
  const MAX_COUNT := 1000000
  const MAX_EVENTS := 16
  const RETENTION := 90 * 24 * 60

  function Get<K>(m: map<K, int>, k: K): int {
    if k in m then m[k] else 0
  }

  // ------------------------------------------------------------------------ sums

  ghost function Pick(b: map<Slot, int>): (k: Slot)
    requires b != map[]
    ensures k in b
  {
    assert b.Keys != {};
    var k :| k in b;
    k
  }

  function Weight(b: map<Slot, int>, k: Slot, e: string): int
    requires k in b
  {
    if k.event == e then b[k] else 0
  }

  /** The sum of an event's rows over all minutes. */
  ghost function Total(b: map<Slot, int>, e: string): int
    decreases |b|
  {
    if b == map[] then 0 else Weight(b, Pick(b), e) + Total(b - {Pick(b)}, e)
  }

  lemma {:induction false} TotalWithout(b: map<Slot, int>, e: string, k: Slot)
    requires k in b
    ensures Total(b, e) == Weight(b, k, e) + Total(b - {k}, e)
    decreases |b|
  {
    var p := Pick(b);
    if p != k {
      TotalWithout(b - {p}, e, k);
      TotalWithout(b - {k}, e, p);
      assert b - {p} - {k} == b - {k} - {p};
    }
  }

  function AddOne(b: map<Slot, int>, k: Slot, n: int): map<Slot, int> {
    b[k := Get(b, k) + n]
  }

  lemma TotalAddOne(b: map<Slot, int>, k: Slot, n: int, e: string)
    ensures Total(AddOne(b, k, n), e) == Total(b, e) + if k.event == e then n else 0
  {
    var after := AddOne(b, k, n);
    TotalWithout(after, e, k);
    assert after - {k} == b - {k};
    if k in b {
      TotalWithout(b, e, k);
    } else {
      assert b - {k} == b;
    }
  }

  /** All counts of a batch added to the rows of one minute. */
  function AddAll(b: map<Slot, int>, minute: int, events: Counts): map<Slot, int> {
    map k | k in b.Keys + (set e | e in events :: Slot(minute, e)) ::
      Get(b, k) + if k.minute == minute then Get(events, k.event) else 0
  }

  lemma AddAllLast(b: map<Slot, int>, minute: int, events: Counts, e: string)
    requires e in events
    ensures AddAll(b, minute, events) == AddOne(AddAll(b, minute, events - {e}), Slot(minute, e), events[e])
  {
    var last := Slot(minute, e);
    var all, one := AddAll(b, minute, events), AddOne(AddAll(b, minute, events - {e}), last, events[e]);
    forall k ensures (k in all <==> k in one) && (k in all ==> all[k] == one[k]) {
      if k == last {
        AddAllAt(b, minute, events - {e}, k);
      } else {
        AddAllElsewhere(b, minute, events, e, k);
      }
    }
  }

  lemma AddAllAt(b: map<Slot, int>, minute: int, events: Counts, k: Slot)
    ensures k in AddAll(b, minute, events) <==> k in b || (k.minute == minute && k.event in events)
    ensures Get(AddAll(b, minute, events), k) == Get(b, k) + if k.minute == minute then Get(events, k.event) else 0
  {
  }

  lemma AddAllElsewhere(b: map<Slot, int>, minute: int, events: Counts, e: string, k: Slot)
    requires k != Slot(minute, e)
    ensures k in AddAll(b, minute, events) <==> k in AddAll(b, minute, events - {e})
    ensures Get(AddAll(b, minute, events), k) == Get(AddAll(b, minute, events - {e}), k)
  {
    AddAllAt(b, minute, events, k);
    AddAllAt(b, minute, events - {e}, k);
  }

  lemma AddAllStarts(b: map<Slot, int>, minute: int, events: Counts)
    ensures AddAll(b, minute, events - events.Keys) == b
    ensures events - {} == events
  {
    assert events - events.Keys == map[];
  }

  lemma AddAllStep(b: map<Slot, int>, minute: int, events: Counts, left: set<string>, e: string)
    requires e in left && left <= events.Keys
    ensures AddAll(b, minute, events - (left - {e})) == AddOne(AddAll(b, minute, events - left), Slot(minute, e), events[e])
  {
    var done := events - (left - {e});
    assert done - {e} == events - left;
    AddAllLast(b, minute, done, e);
  }

  lemma {:induction false} TotalAddAll(b: map<Slot, int>, minute: int, events: Counts, e: string)
    ensures Total(AddAll(b, minute, events), e) == Total(b, e) + Get(events, e)
    decreases |events|
  {
    if events == map[] {
      assert AddAll(b, minute, events) == b;
    } else {
      assert events.Keys != {};
      var x :| x in events;
      AddAllLast(b, minute, events, x);
      TotalAddAll(b, minute, events - {x}, e);
      TotalAddOne(AddAll(b, minute, events - {x}), Slot(minute, x), events[x], e);
    }
  }

  // --------------------------------------------------------------- control plane

  /** The two telemetry tables; a batch is kept with the minute it was received. */
  datatype Ledger = Ledger(batches: map<string, int>, rows: map<Slot, int>)

  /** What retention keeps at a time. */
  function Retained(l: Ledger, now: int): Ledger {
    Ledger(map id | id in l.batches && l.batches[id] >= now - RETENTION :: l.batches[id],
           map k | k in l.rows && k.minute >= now - RETENTION :: l.rows[k])
  }

  /** The checks of the `/v1/telemetry` handler. */
  predicate Accepts(id: string, events: Counts) {
    && id != "" && events != map[] && |events| <= MAX_EVENTS
    && forall e :: e in events ==> e in EVENTS && 1 <= events[e] <= MAX_COUNT
  }

  /** In numbers: an id, one to sixteen counters, all of the five known events, each from one to a million. */
  lemma AcceptsExactly(id: string, events: Counts)
    ensures Accepts(id, events) <==>
      && |id| > 0 && 1 <= |events| <= 16
      && (forall e :: e in events ==> 1 <= events[e] <= 1000000)
      && (forall e :: e in events ==>
            e in ["unknown_host", "rate_limited", "temporarily_blocked", "connection_limited", "authorization_denied"])
  {
    assert events == map[] <==> |events| == 0;
  }

  /** The checks of the store. */
  predicate WellFormed(events: Counts) {
    forall e :: e in events ==> e != "" && events[e] >= 1
  }

  /** A batch stored at a time: known ids change nothing. */
  function Recorded(l: Ledger, id: string, events: Counts, now: int): Ledger {
    if id in l.batches then l
    else
      var kept := Retained(l.(batches := l.batches[id := now]), now);
      kept.(rows := AddAll(kept.rows, now, events))
  }

  lemma RecordedNew(l: Ledger, id: string, events: Counts, now: int)
    requires id !in l.batches
    ensures var kept := Retained(l.(batches := l.batches[id := now]), now);
      Recorded(l, id, events, now) == Ledger(kept.batches, AddAll(kept.rows, now, events))
  {
  }

  /** A new batch in fields: its id is kept with the minute, its counts are added to the rows of that minute,
      and all ids and rows older than 90 days go. */
  lemma RecordedInFields(l: Ledger, id: string, events: Counts, now: int)
    requires id !in l.batches
    ensures var after := Recorded(l, id, events, now); var oldest := now - 129600;
      && (forall b :: b in after.batches <==> b == id || (b in l.batches && l.batches[b] >= oldest))
      && (forall b :: b in after.batches ==> after.batches[b] == if b == id then now else l.batches[b])
      && (forall k :: k in after.rows <==>
            (k in l.rows && k.minute >= oldest) || (k.minute == now && k.event in events))
      && (forall k :: k in after.rows ==>
            var before := if k in l.rows then l.rows[k] else 0;
            var counted := if k.minute == now && k.event in events then events[k.event] else 0;
            after.rows[k] == before + counted)
  {
    RecordedNew(l, id, events, now);
    var kept := Retained(l.(batches := l.batches[id := now]), now);
    forall k ensures k in AddAll(kept.rows, now, events) <==> k in kept.rows || (k.minute == now && k.event in events) {
      AddAllAt(kept.rows, now, events, k);
    }
  }

  class TelemetryStore {
    const reliable: bool
    var ledger: Ledger

    constructor (reliable: bool)
      ensures this.reliable == reliable && ledger == Ledger(map[], map[])
    {
      this.reliable, ledger := reliable, Ledger(map[], map[]);
    }

    /** One statement of the database. */
    method Execute() returns (done: bool)
      ensures done || !reliable
    {
      var failed: bool := *;
      done := !failed || reliable;
    }

    /** `AddSecurityTelemetryBatch`: one transaction with a loop over the counts; any error,
        also of the database, leaves everything as it was. */
    method AddBatch(id: string, events: Counts, now: int) returns (ok: bool)
      modifies this
      ensures ledger == if ok then Recorded(old(ledger), id, events, now) else old(ledger)
      ensures ok ==> id != "" && events != map[] && (id in old(ledger).batches || WellFormed(events))
      ensures !ok ==> id == "" || events == map[] || (id !in ledger.batches && !WellFormed(events)) || !reliable
    {
      if id == "" || events == map[] {
        return false;
      }
      var begun := Execute();
      if !begun {
        return false;
      }
      var tx := ledger;
      if id in tx.batches {
        ok := Execute(); // commit
        return;
      }
      tx := Retained(tx.(batches := tx.batches[id := now]), now);
      ghost var kept := tx.rows;
      RecordedNew(ledger, id, events, now);
      AddAllStarts(kept, now, events);
      var left := events.Keys;
      while left != {}
        invariant left <= events.Keys && ledger == old(ledger)
        invariant forall e :: e in events && e !in left ==> e != "" && events[e] >= 1
        invariant tx.batches == Retained(old(ledger).(batches := old(ledger).batches[id := now]), now).batches
        invariant tx.rows == AddAll(kept, now, events - left)
        decreases |left|
      {
        var e :| e in left;
        if e == "" || events[e] < 1 {
          return false;
        }
        var done := Execute();
        if !done {
          return false;
        }
        AddAllStep(kept, now, events, left, e);
        tx := tx.(rows := AddOne(tx.rows, Slot(now, e), events[e]));
        left := left - {e};
      }
      var committed := Execute();
      if !committed {
        return false;
      }
      ledger := tx;
      return true;
    }
  }

  // ------------------------------------------------------------------------ sish

  /** The counters that have something to report. */
  function Positive(live: Counts): Counts {
    map e | e in live && live[e] > 0 :: live[e]
  }

  function Zeroed(live: Counts): Counts {
    map e | e in live :: if live[e] > 0 then 0 else live[e]
  }

  /** Some counters reported and set back, the others as they were. */
  function Reported(live: Counts, left: set<string>): Counts {
    map e | e in live :: if e in left || live[e] <= 0 then live[e] else 0
  }

  lemma ReportedAll(live: Counts)
    ensures Reported(live, {}) == Zeroed(live) && Reported(live, live.Keys) == live
    ensures Positive(live - {}) == Positive(live) && Positive(live - live.Keys) == map[]
  {
    assert live - {} == live && live - live.Keys == map[];
  }

  lemma ReportedOne(live: Counts, left: set<string>, e: string)
    requires e in left && left <= live.Keys
    ensures live[e] > 0 ==>
      && Reported(live, left - {e}) == Reported(live, left)[e := 0]
      && Positive(live - (left - {e})) == Positive(live - left)[e := live[e]]
    ensures live[e] <= 0 ==>
      && Reported(live, left - {e}) == Reported(live, left)
      && Positive(live - (left - {e})) == Positive(live - left)
    ensures Reported(live, left)[e] == live[e]
  {
  }

  /** `securityCounters` and the state of `telemetryLoop`. */
  class SecurityCounters {
    var live: Counts
    var pending: Option<Batch>

    constructor ()
      ensures live == map[] && pending == None
    {
      live, pending := map[], None;
    }

    /** `countSecurity`. */
    method Count(event: string, n: int)
      modifies this
      ensures live == old(live)[event := Get(old(live), event) + n] && pending == old(pending)
    {
      live := live[event := Get(live, event) + n];
    }

    /** The first half of a tick: cut a batch unless one is still pending.  The loop goes over the
        counters under their lock. */
    method Cut(id: string) returns (post: bool)
      modifies this
      ensures post <==> pending.Some?
      ensures old(pending).Some? || Positive(old(live)) == map[] ==> pending == old(pending)
      ensures old(pending).None? && Positive(old(live)) != map[] ==> pending == Some(Batch(id, Positive(old(live))))
      ensures live == if old(pending).Some? then old(live) else Zeroed(old(live))
    {
      if pending.None? {
        var m: Counts := map[];
        var left := live.Keys;
        ReportedAll(live);
        while left != {}
          invariant left <= old(live).Keys
          invariant m == Positive(old(live) - left)
          invariant live == Reported(old(live), left)
          invariant pending == old(pending)
          decreases |left|
        {
          var e :| e in left;
          ReportedOne(old(live), left, e);
          left := left - {e};
          if live[e] > 0 {
            m := m[e := live[e]];
            live := live[e := 0];
          }
        }
        if |m| == 0 {
          return false;
        }
        pending := Some(Batch(id, m));
      }
      return true;
    }

    /** The second half: only an acknowledgement drops the batch. */
    method Answered(acknowledged: bool)
      modifies this
      ensures live == old(live) && pending == if acknowledged then None else old(pending)
    {
      if acknowledged {
        pending := None;
      }
    }

    /** One tick: what is pending, or else what has been counted, is posted, and stays pending unless
        the control plane acknowledges it. */
    method Tick(id: string) returns (posted: Option<Batch>, acknowledged: bool)
      modifies this
      ensures posted == if old(pending).Some? then old(pending)
                        else if Positive(old(live)) == map[] then None else Some(Batch(id, Positive(old(live))))
      ensures live == if old(pending).Some? then old(live) else Zeroed(old(live))
      ensures acknowledged ==> posted.Some?
      ensures pending == if acknowledged then None else posted
    {
      var post := Cut(id);
      posted, acknowledged := pending, false;
      if post {
        acknowledged := *;
        Answered(acknowledged);
      }
    }
  }

  // ------------------------------------------------------------------ more on sums

  /** The rows retention drops at a time. */
  function Dropped(b: map<Slot, int>, now: int): map<Slot, int> {
    map k | k in b && k.minute < now - RETENTION :: b[k]
  }

  function KeptRows(b: map<Slot, int>, now: int): map<Slot, int> {
    map k | k in b && k.minute >= now - RETENTION :: b[k]
  }

  lemma {:induction false} TotalSplits(b: map<Slot, int>, now: int, e: string)
    ensures Total(b, e) == Total(KeptRows(b, now), e) + Total(Dropped(b, now), e)
    decreases |b|
  {
    if b != map[] {
      var p := Pick(b);
      var rest := b - {p};
      TotalSplits(rest, now, e);
      if p.minute < now - RETENTION {
        TotalWithout(Dropped(b, now), e, p);
        assert Dropped(b, now) - {p} == Dropped(rest, now) && KeptRows(b, now) == KeptRows(rest, now);
      } else {
        TotalWithout(KeptRows(b, now), e, p);
        assert KeptRows(b, now) - {p} == KeptRows(rest, now) && Dropped(b, now) == Dropped(rest, now);
      }
    }
  }

  ghost function PickBatch(m: map<string, Counts>): (id: string)
    requires m != map[]
    ensures id in m
  {
    assert m.Keys != {};
    var id :| id in m;
    id
  }

  /** An event's counts over some batches. */
  ghost function Sum(m: map<string, Counts>, e: string): int
    decreases |m|
  {
    if m == map[] then 0 else Get(m[PickBatch(m)], e) + Sum(m - {PickBatch(m)}, e)
  }

  lemma {:induction false} SumWithout(m: map<string, Counts>, e: string, id: string)
    requires id in m
    ensures Sum(m, e) == Get(m[id], e) + Sum(m - {id}, e)
    decreases |m|
  {
    var p := PickBatch(m);
    if p != id {
      SumWithout(m - {p}, e, id);
      SumWithout(m - {id}, e, p);
      assert m - {p} - {id} == m - {id} - {p};
    }
  }

  lemma SumWith(m: map<string, Counts>, e: string, id: string, events: Counts)
    requires id !in m
    ensures Sum(m[id := events], e) == Sum(m, e) + Get(events, e)
  {
    var after := m[id := events];
    SumWithout(after, e, id);
    assert after - {id} == m;
  }

  // --------------------------------------------------------------------- both ends

  /** Both ends and every batch that was ever posted, with the history that accounts for the counts:
      all counting, the batch each id was drawn for, when each id was last stored, what retention has
      dropped, what was live when sish stopped, what was stored once more, and the last time seen. */
  datatype World = World(
    live: Counts, pending: Option<Batch>, posted: set<Batch>, ledger: Ledger,
    counted: Counts, cut: map<string, Counts>, ever: map<string, int>,
    expired: Counts, lost: Counts, again: Counts, clock: int)

  datatype Step =
    | Count(event: string)
    | Cut(id: string)
    | Post
    | Arrive(batch: Batch, now: int, stored: bool)
    | Acknowledge
    | Clean(now: int, rows: bool, batches: bool)
    | Restart

  ghost predicate Can(w: World, a: Step) {
    match a
    case Count(e) => e in EVENTS
    case Cut(id) => w.pending.None? && Positive(w.live) != map[] && id != "" && id !in w.cut
    case Post => w.pending.Some?
    case Arrive(b, _, _) => b in w.posted
    case Acknowledge => w.pending.Some? && w.pending.value.id in w.ever
    case Clean(_, _, _) => true
    case Restart => true
  }

  function Plus(a: Counts, b: Counts): Counts {
    map e | e in a.Keys + b.Keys :: Get(a, e) + Get(b, e)
  }

  /** What the rows of these slots amount to, event by event. */
  ghost function Totals(b: map<Slot, int>): Counts {
    map e | e in (set k | k in b :: k.event) :: Total(b, e)
  }

  ghost function AfterArrival(w: World, b: Batch, now: int): World {
    if b.id in w.ledger.batches then w
    else
      w.(ledger := Recorded(w.ledger, b.id, b.events, now),
         ever := w.ever[b.id := now],
         expired := Plus(w.expired, Totals(Dropped(w.ledger.rows, now))),
         again := if b.id in w.ever then Plus(w.again, b.events) else w.again)
  }

  function AfterCut(w: World, id: string): World {
    var events := Positive(w.live);
    w.(live := Zeroed(w.live), pending := Some(Batch(id, events)), cut := w.cut[id := events])
  }

  ghost function Do(w: World, a: Step): World {
    match a
    case Count(e) => w.(live := w.live[e := Get(w.live, e) + 1], counted := w.counted[e := Get(w.counted, e) + 1])
    case Cut(id) => AfterCut(w, id)
    case Post => if w.pending.Some? then w.(posted := w.posted + {w.pending.value}) else w
    case Arrive(b, now, stored) =>
      (if stored && Accepts(b.id, b.events) then AfterArrival(w, b, now) else w).(clock := now)
    case Acknowledge => w.(pending := None)
    case Clean(now, rows, batches) => AfterClean(w, now, rows, batches).(clock := now)
    case Restart => w.(live := map[], pending := None, lost := Plus(w.lost, w.live))
  }

  ghost function AfterClean(w: World, now: int, rows: bool, batches: bool): World {
    var kept := Retained(w.ledger, now);
    w.(ledger := Ledger(if batches then kept.batches else w.ledger.batches, if rows then kept.rows else w.ledger.rows),
       expired := if rows then Plus(w.expired, Totals(Dropped(w.ledger.rows, now))) else w.expired)
  }

  const START: World := World(map[], None, {}, Ledger(map[], map[]), map[], map[], map[], map[], map[], map[], 0)

  ghost predicate TakesStep(states: seq<World>, steps: seq<Step>, i: nat)
    requires i < |steps| && |states| == |steps| + 1
  {
    Can(states[i], steps[i]) && states[i + 1] == Do(states[i], steps[i])
  }

  ghost predicate Run(states: seq<World>, steps: seq<Step>) {
    && |states| == |steps| + 1 && states[0] == START
    && forall i :: 0 <= i < |steps| ==> TakesStep(states, steps, i)
  }

  /** The batches cut and never stored. */
  function Unstored(w: World): map<string, Counts> {
    map id | id in w.cut && id !in w.ever :: w.cut[id]
  }

  /** Every event counted is in one place: live, in a batch cut and not stored, in a row, dropped with
      its row, or lost with the live counters of a stopped process; and nothing else is, except what
      was stored once more after its id had been forgotten. */
  ghost predicate ConservedFor(w: World, e: string) {
    Get(w.counted, e) + Get(w.again, e)
    == Get(w.live, e) + Sum(Unstored(w), e) + Total(w.ledger.rows, e) + Get(w.expired, e) + Get(w.lost, e)
  }

  ghost predicate Conserved(w: World) {
    forall e :: ConservedFor(w, e)
  }

  ghost predicate Traced(w: World) {
    && (forall b :: b in w.posted ==> b.id in w.cut && w.cut[b.id] == b.events)
    && (w.pending.Some? ==> w.pending.value.id in w.cut && w.cut[w.pending.value.id] == w.pending.value.events)
    && (forall id :: id in w.ledger.batches ==> id in w.ever && w.ledger.batches[id] == w.ever[id])
    && (forall id :: id in w.ever ==> id in w.cut)
    && (forall e :: e in w.live ==> w.live[e] >= 0)
  }

  /** sish counts only known events, and only accepted batches were ever stored. */
  ghost predicate Known(w: World) {
    && (forall id :: id in w.ever ==> id in w.cut && Accepts(id, w.cut[id]))
    && (forall e :: e in w.live ==> e in EVENTS)
  }

  lemma RecordedTotal(l: Ledger, id: string, events: Counts, now: int, e: string)
    requires id !in l.batches
    ensures Total(Recorded(l, id, events, now).rows, e)
         == Total(l.rows, e) - Total(Dropped(l.rows, now), e) + Get(events, e)
  {
    assert Recorded(l, id, events, now).rows == AddAll(KeptRows(l.rows, now), now, events);
    TotalSplits(l.rows, now, e);
    TotalAddAll(KeptRows(l.rows, now), now, events, e);
  }

  lemma {:induction false} TotalAbsent(b: map<Slot, int>, e: string)
    requires forall k :: k in b ==> k.event != e
    ensures Total(b, e) == 0
    decreases |b|
  {
    if b != map[] {
      TotalAbsent(b - {Pick(b)}, e);
    }
  }

  lemma TotalsGet(b: map<Slot, int>, e: string)
    ensures Get(Totals(b), e) == Total(b, e)
  {
    if e !in Totals(b) {
      TotalAbsent(b, e);
    }
  }

  /** What the arrival of a batch that is not in the ledger changes. */
  ghost predicate Arrived(w: World, b: Batch, now: int, w': World) {
    && w' == w.(ledger := w'.ledger, ever := w.ever[b.id := now], expired := w'.expired, again := w'.again)
    && b.id in w'.ledger.batches && w'.ledger.batches[b.id] == now
    && (forall id :: id in w'.ledger.batches && id != b.id ==>
          id in w.ledger.batches && w'.ledger.batches[id] == w.ledger.batches[id])
    && (forall id :: id in w.ledger.batches && w.ledger.batches[id] >= now - RETENTION ==> id in w'.ledger.batches)
    && w'.again == if b.id in w.ever then Plus(w.again, b.events) else w.again
  }

  lemma ArrivalArrives(w: World, b: Batch, now: int)
    requires b.id !in w.ledger.batches
    ensures Arrived(w, b, now, AfterArrival(w, b, now))
  {
  }

  lemma ArrivedTraced(w: World, b: Batch, now: int, w': World)
    requires Traced(w) && b in w.posted && Arrived(w, b, now, w')
    ensures Traced(w')
  {
  }

  lemma ArrivalTraced(w: World, b: Batch, now: int)
    requires Traced(w) && b in w.posted
    ensures Traced(AfterArrival(w, b, now))
  {
    if b.id !in w.ledger.batches {
      ArrivalArrives(w, b, now);
      ArrivedTraced(w, b, now, AfterArrival(w, b, now));
    }
  }

  lemma CleanTraced(w: World, now: int, rows: bool, batches: bool)
    requires Traced(w)
    ensures Traced(AfterClean(w, now, rows, batches))
  {
  }

  lemma ClockTraced(w: World, now: int)
    requires Traced(w)
    ensures Traced(w.(clock := now))
  {
  }

  lemma TracedStep(w: World, a: Step)
    requires Traced(w) && Can(w, a)
    ensures Traced(Do(w, a))
  {
    if a.Arrive? {
      if a.stored && Accepts(a.batch.id, a.batch.events) {
        ArrivalTraced(w, a.batch, a.now);
        ClockTraced(AfterArrival(w, a.batch, a.now), a.now);
      }
    } else if a.Clean? {
      CleanTraced(w, a.now, a.rows, a.batches);
      ClockTraced(AfterClean(w, a.now, a.rows, a.batches), a.now);
    } else if a.Cut? {
      CutTraced(w, a.id);
    }
  }

  lemma CutTraced(w: World, id: string)
    requires Traced(w) && id !in w.cut
    ensures Traced(AfterCut(w, id))
  {
  }

  lemma CutSum(w: World, id: string, events: Counts, e: string)
    requires Traced(w) && id !in w.cut
    ensures Sum(Unstored(w.(cut := w.cut[id := events])), e) == Sum(Unstored(w), e) + Get(events, e)
  {
    assert id !in w.ever;
    assert Unstored(w.(cut := w.cut[id := events])) == Unstored(w)[id := events];
    SumWith(Unstored(w), e, id, events);
  }

  lemma CutConserves(w: World, id: string, e: string)
    requires Traced(w) && id !in w.cut && ConservedFor(w, e)
    ensures ConservedFor(AfterCut(w, id), e)
  {
    var events := Positive(w.live);
    CutSum(w, id, events, e);
    assert Unstored(AfterCut(w, id)) == Unstored(w.(cut := w.cut[id := events]));
    LiveSplits(w.live, e);
  }

  lemma LiveSplits(live: Counts, e: string)
    ensures Get(live, e) == Get(Zeroed(live), e) + Get(Positive(live), e)
  {
  }

  lemma ArrivalTotals(w: World, b: Batch, now: int, e: string)
    requires b.id !in w.ledger.batches
    ensures Gained(w, b.events, AfterArrival(w, b, now), e)
  {
    RecordedTotal(w.ledger, b.id, b.events, now, e);
    TotalsGet(Dropped(w.ledger.rows, now), e);
    PlusGet(w.expired, Totals(Dropped(w.ledger.rows, now)), e);
  }

  lemma PlusGet(a: Counts, b: Counts, e: string)
    ensures Get(Plus(a, b), e) == Get(a, e) + Get(b, e)
  {
  }

  /** The rows and what was dropped from them have gained the batch. */
  ghost predicate Gained(w: World, events: Counts, w': World, e: string) {
    Total(w'.ledger.rows, e) + Get(w'.expired, e) == Total(w.ledger.rows, e) + Get(w.expired, e) + Get(events, e)
  }

  lemma FirstArrivedConserves(w: World, b: Batch, now: int, w': World, e: string)
    requires Traced(w) && b in w.posted && ConservedFor(w, e) && b.id !in w.ever
    requires Arrived(w, b, now, w') && Gained(w, b.events, w', e)
    ensures ConservedFor(w', e)
  {
    SumWithout(Unstored(w), e, b.id);
    assert Unstored(w') == Unstored(w) - {b.id};
  }

  lemma LateArrivedConserves(w: World, b: Batch, now: int, w': World, e: string)
    requires ConservedFor(w, e) && b.id in w.ever
    requires Arrived(w, b, now, w') && Gained(w, b.events, w', e)
    ensures ConservedFor(w', e)
  {
    PlusGet(w.again, b.events, e);
    assert Unstored(w') == Unstored(w);
  }

  lemma ArrivalConserves(w: World, b: Batch, now: int, e: string)
    requires Traced(w) && b in w.posted && ConservedFor(w, e)
    ensures ConservedFor(AfterArrival(w, b, now), e)
  {
    if b.id !in w.ledger.batches {
      var w' := AfterArrival(w, b, now);
      ArrivalArrives(w, b, now);
      ArrivalTotals(w, b, now, e);
      if b.id in w.ever {
        LateArrivedConserves(w, b, now, w', e);
      } else {
        FirstArrivedConserves(w, b, now, w', e);
      }
    }
  }

  lemma CleanConserves(w: World, now: int, rows: bool, batches: bool, e: string)
    requires ConservedFor(w, e)
    ensures ConservedFor(AfterClean(w, now, rows, batches), e)
  {
    TotalSplits(w.ledger.rows, now, e);
    TotalsGet(Dropped(w.ledger.rows, now), e);
    assert Retained(w.ledger, now).rows == KeptRows(w.ledger.rows, now);
    assert Unstored(AfterClean(w, now, rows, batches)) == Unstored(w);
  }

  lemma ClockConserves(w: World, now: int, e: string)
    requires ConservedFor(w, e)
    ensures ConservedFor(w.(clock := now), e)
  {
    assert Unstored(w.(clock := now)) == Unstored(w);
  }

  lemma ConservedStep(w: World, a: Step, e: string)
    requires Traced(w) && ConservedFor(w, e) && Can(w, a)
    ensures ConservedFor(Do(w, a), e)
  {
    if a.Cut? {
      CutConserves(w, a.id, e);
    } else if a.Arrive? {
      ArrivalConserves(w, a.batch, a.now, e);
      ClockConserves(if a.stored && Accepts(a.batch.id, a.batch.events) then AfterArrival(w, a.batch, a.now) else w, a.now, e);
    } else if a.Clean? {
      CleanConserves(w, a.now, a.rows, a.batches, e);
      ClockConserves(AfterClean(w, a.now, a.rows, a.batches), a.now, e);
    } else {
      assert Unstored(Do(w, a)) == Unstored(w);
    }
  }

  lemma {:induction false} TracedAlways(states: seq<World>, steps: seq<Step>, i: nat)
    requires Run(states, steps) && i < |states|
    ensures Traced(states[i])
  {
    if i > 0 {
      TracedAlways(states, steps, i - 1);
      assert TakesStep(states, steps, i - 1);
      TracedStep(states[i - 1], steps[i - 1]);
    }
  }

  lemma ArrivedKnown(w: World, b: Batch, now: int, w': World)
    requires Traced(w) && Known(w) && b in w.posted && Accepts(b.id, b.events) && Arrived(w, b, now, w')
    ensures Known(w')
  {
  }

  lemma KnownStep(w: World, a: Step)
    requires Traced(w) && Known(w) && Can(w, a)
    ensures Known(Do(w, a))
  {
    if a.Arrive? {
      if a.stored && Accepts(a.batch.id, a.batch.events) && a.batch.id !in w.ledger.batches {
        ArrivalArrives(w, a.batch, a.now);
        ArrivedKnown(w, a.batch, a.now, AfterArrival(w, a.batch, a.now));
      }
    } else {
      StoredElsewhere(w, a);
    }
  }

  lemma StoredElsewhere(w: World, a: Step)
    requires Traced(w) && Known(w) && Can(w, a) && !a.Arrive?
    ensures Known(Do(w, a))
  {
    assert Do(w, a).ever == w.ever;
  }

  lemma {:induction false} KnownAlways(states: seq<World>, steps: seq<Step>, i: nat)
    requires Run(states, steps) && i < |states|
    ensures Known(states[i])
  {
    if i > 0 {
      KnownAlways(states, steps, i - 1);
      TracedAlways(states, steps, i - 1);
      assert TakesStep(states, steps, i - 1);
      KnownStep(states[i - 1], steps[i - 1]);
    }
  }

  /** Conservation: however counting, lost requests, lost acknowledgements, repeated and late arrivals,
      retention and restarts of sish interleave. */
  lemma {:induction false} CountsAreConserved(states: seq<World>, steps: seq<Step>, i: nat)
    requires Run(states, steps) && i < |states|
    ensures Conserved(states[i])
  {
    if i > 0 {
      CountsAreConserved(states, steps, i - 1);
      TracedAlways(states, steps, i - 1);
      assert TakesStep(states, steps, i - 1);
      forall e ensures ConservedFor(states[i], e) {
        ConservedStep(states[i - 1], steps[i - 1], e);
      }
    }
  }

  // ------------------------------------------------------------- counted exactly once

  predicate HasTime(a: Step) {
    a.Arrive? || a.Clean?
  }

  /** Times do not go back, and no batch arrives when its id may have been forgotten. */
  ghost predicate Prompt(states: seq<World>, steps: seq<Step>)
    requires |states| == |steps| + 1
  {
    && (forall i :: 0 <= i < |steps| && HasTime(steps[i]) ==> states[i].clock <= steps[i].now)
    && (forall i :: 0 <= i < |steps| && steps[i].Arrive? && steps[i].batch.id in states[i].ever ==>
          states[i].ever[steps[i].batch.id] >= steps[i].now - RETENTION)
  }

  /** Nothing stored within the retention has been forgotten, and nothing has been stored twice. */
  ghost predicate Remembers(w: World) {
    && (forall id :: id in w.ever && w.ever[id] >= w.clock - RETENTION ==> id in w.ledger.batches)
    && (forall e :: Get(w.again, e) == 0)
  }

  lemma ArrivedRemembers(w: World, b: Batch, now: int, w': World)
    requires Traced(w) && Remembers(w) && w.clock <= now && Arrived(w, b, now, w')
    requires b.id in w.ever ==> b.id in w.ledger.batches
    requires b.id !in w.ledger.batches
    ensures Remembers(w'.(clock := now))
  {
  }

  lemma ArrivalRemembers(w: World, b: Batch, now: int)
    requires Traced(w) && Remembers(w) && w.clock <= now
    requires b.id in w.ever ==> w.ever[b.id] >= now - RETENTION
    ensures Remembers(AfterArrival(w, b, now).(clock := now))
  {
    if b.id !in w.ledger.batches {
      ArrivalArrives(w, b, now);
      ArrivedRemembers(w, b, now, AfterArrival(w, b, now));
    }
  }

  lemma RemembersStep(w: World, a: Step)
    requires Traced(w) && Can(w, a) && Remembers(w) && (HasTime(a) ==> w.clock <= a.now)
    requires a.Arrive? && a.batch.id in w.ever ==> w.ever[a.batch.id] >= a.now - RETENTION
    ensures Remembers(Do(w, a))
  {
    if a.Arrive? && a.stored && Accepts(a.batch.id, a.batch.events) {
      ArrivalRemembers(w, a.batch, a.now);
    }
  }

  lemma {:induction false} RemembersAlways(states: seq<World>, steps: seq<Step>, i: nat)
    requires Run(states, steps) && Prompt(states, steps) && i < |states|
    ensures Remembers(states[i])
  {
    if i > 0 {
      RemembersAlways(states, steps, i - 1);
      TracedAlways(states, steps, i - 1);
      assert TakesStep(states, steps, i - 1);
      RemembersStep(states[i - 1], steps[i - 1]);
    }
  }

  ghost predicate NoRestart(steps: seq<Step>) {
    forall i :: 0 <= i < |steps| ==> !steps[i].Restart?
  }

  /** While sish runs, at most the pending batch is not stored, and nothing live is lost. */
  ghost predicate OneOpen(w: World) {
    && (forall id :: id in w.cut && id !in w.ever ==> w.pending.Some? && w.pending.value.id == id)
    && (forall e :: Get(w.lost, e) == 0)
  }

  lemma {:induction false} OneOpenAlways(states: seq<World>, steps: seq<Step>, i: nat)
    requires Run(states, steps) && NoRestart(steps) && i < |states|
    ensures OneOpen(states[i])
  {
    if i > 0 {
      OneOpenAlways(states, steps, i - 1);
      assert TakesStep(states, steps, i - 1);
      assert !steps[i - 1].Restart?;
    }
  }

  /** What of the pending batch is not in the ledger yet. */
  function Waiting(w: World, e: string): int {
    if w.pending.Some? && w.pending.value.id !in w.ever then Get(w.pending.value.events, e) else 0
  }

  lemma OpenIsWaiting(w: World, e: string)
    requires Traced(w) && OneOpen(w)
    ensures Sum(Unstored(w), e) == Waiting(w, e)
  {
    var open := Unstored(w);
    if w.pending.Some? && w.pending.value.id !in w.ever {
      var b := w.pending.value;
      SumWithout(open, e, b.id);
      assert open - {b.id} == map[];
    } else {
      assert open == map[];
    }
  }

  /** While sish runs and no batch arrives so late that its id has been forgotten, every event counted
      is in exactly one place: live, in the pending batch while that is not stored, in one row, or
      dropped with its row after the retention. */
  lemma NothingLostOrCountedTwice(states: seq<World>, steps: seq<Step>, i: nat, e: string)
    requires Run(states, steps) && Prompt(states, steps) && NoRestart(steps) && i < |states|
    ensures var w := states[i];
      Get(w.counted, e) == Get(w.live, e) + Waiting(w, e) + Total(w.ledger.rows, e) + Get(w.expired, e)
  {
    CountsAreConserved(states, steps, i);
    TracedAlways(states, steps, i);
    RemembersAlways(states, steps, i);
    OneOpenAlways(states, steps, i);
    OpenIsWaiting(states[i], e);
    assert ConservedFor(states[i], e);
  }

  // ------------------------------------------------------------------- a stuck batch

  /** A pending batch the handler refuses. */
  predicate Stuck(w: World) {
    w.pending.Some? && !Accepts(w.pending.value.id, w.pending.value.events)
  }

  lemma StuckStep(w: World, a: Step)
    requires Traced(w) && Known(w) && Can(w, a) && Stuck(w) && !a.Restart?
    ensures Do(w, a).pending == w.pending && Do(w, a).cut == w.cut
  {
  }

  lemma StuckIsNotStored(w: World)
    requires Traced(w) && Known(w) && Stuck(w)
    ensures w.pending.value.id !in w.ledger.batches && w.pending.value.id !in w.ever
  {
  }

  lemma StuckAt(states: seq<World>, steps: seq<Step>, k: nat)
    requires Run(states, steps) && k < |steps| && Stuck(states[k]) && !steps[k].Restart?
    ensures states[k + 1].pending == states[k].pending && states[k + 1].cut == states[k].cut
  {
    TracedAlways(states, steps, k);
    KnownAlways(states, steps, k);
    assert TakesStep(states, steps, k);
    StuckStep(states[k], steps[k]);
  }

  lemma {:induction false} StuckStays(states: seq<World>, steps: seq<Step>, i: nat, j: nat)
    requires Run(states, steps) && i <= j < |states| && Stuck(states[i])
    requires forall k :: i <= k < j ==> !steps[k].Restart?
    ensures states[j].pending == states[i].pending && states[j].cut == states[i].cut
    decreases j - i
  {
    if i < j {
      StuckStays(states, steps, i, j - 1);
      StuckAt(states, steps, j - 1);
    }
  }

  /** Until sish restarts the batch stays pending and is never stored, and no other batch is cut: what
      is counted from then on is never reported ... */
  lemma StuckForever(states: seq<World>, steps: seq<Step>, i: nat, j: nat)
    requires Run(states, steps) && i <= j < |states| && Stuck(states[i])
    requires forall k :: i <= k < j ==> !steps[k].Restart?
    ensures states[j].pending == states[i].pending && states[j].cut == states[i].cut
    ensures states[i].pending.value.id !in states[j].ledger.batches
  {
    StuckStays(states, steps, i, j);
    TracedAlways(states, steps, j);
    KnownAlways(states, steps, j);
    StuckIsNotStored(states[j]);
  }

  /** ... while a batch the handler accepts can be posted, stored and dropped from any state of a run. */
  lemma AcceptedCanBeDelivered(w: World, now: int) returns (posted: World, stored: World, last: World)
    requires Traced(w) && w.pending.Some? && !Stuck(w)
    ensures Can(w, Post) && posted == Do(w, Post)
    ensures var arrive := Arrive(w.pending.value, now, true); Can(posted, arrive) && stored == Do(posted, arrive)
    ensures Can(stored, Acknowledge) && last == Do(stored, Acknowledge)
    ensures last.pending.None? && w.pending.value.id in last.ever
  {
    var b := w.pending.value;
    posted := w.(posted := w.posted + {b});
    stored := AfterArrival(posted, b, now).(clock := now);
    last := stored.(pending := None);
    if b.id !in w.ledger.batches {
      ArrivalArrives(posted, b, now);
    }
  }

  lemma {:induction false} FewerOf(a: set<string>, b: set<string>)
    requires a <= b
    ensures |a| <= |b|
    decreases |a|
  {
    if a != {} {
      var x :| x in a;
      FewerOf(a - {x}, b - {x});
    }
  }

  /** Of a batch of known events the handler only looks at the sizes. */
  lemma AcceptsKnown(id: string, events: Counts)
    requires id != "" && events != map[] && events.Keys <= EVENTS && forall e :: e in events ==> events[e] >= 1
    ensures Accepts(id, events) <==> forall e :: e in events ==> events[e] <= MAX_COUNT
  {
    FewerOf(events.Keys, EVENTS);
    assert |events| == |events.Keys|;
  }

  /** The batch cut next is refused if and only if one of its counters has passed the maximum. */
  lemma CutSticksExactlyWhen(w: World, id: string)
    requires Traced(w) && Known(w) && Can(w, Cut(id))
    ensures Stuck(Do(w, Cut(id))) <==> exists e :: e in w.live && w.live[e] > MAX_COUNT
  {
    var events := Positive(w.live);
    AcceptsKnown(id, events);
    assert forall e :: e in w.live && w.live[e] > MAX_COUNT ==> e in events && events[e] > MAX_COUNT;
  }

  /** Counting one type of event again and again. */
  lemma {:induction false} CountMany(e: string, n: nat) returns (states: seq<World>, steps: seq<Step>)
    requires e in EVENTS
    ensures Run(states, steps) && |steps| == n
    ensures var w := states[n]; Get(w.live, e) == n && (e in w.live <==> n > 0) && w.pending.None? && w.cut == map[]
  {
    if n == 0 {
      states, steps := [START], [];
    } else {
      states, steps := CountMany(e, n - 1);
      states, steps := ExtendRun(states, steps, Count(e));
    }
  }

  lemma ExtendRun(states: seq<World>, steps: seq<Step>, a: Step) returns (states': seq<World>, steps': seq<Step>)
    requires Run(states, steps) && Can(states[|steps|], a)
    ensures Run(states', steps') && steps' == steps + [a] && states'[|steps'|] == Do(states[|steps|], a)
  {
    states', steps' := states + [Do(states[|steps|], a)], steps + [a];
    forall i | 0 <= i < |steps'| ensures TakesStep(states', steps', i) {
      if i < |steps| {
        assert TakesStep(states, steps, i);
        assert states'[i] == states[i] && states'[i + 1] == states[i + 1] && steps'[i] == steps[i];
      }
    }
  }

  /** A million and one events between two ticks are enough to get stuck. */
  lemma OverflowingBatchSticks() returns (states: seq<World>, steps: seq<Step>)
    ensures Run(states, steps) && |steps| == MAX_COUNT + 2 && Stuck(states[|steps|])
  {
    states, steps := CountMany("unknown_host", MAX_COUNT + 1);
    var w := states[|steps|];
    assert "unknown_host" in w.live && "unknown_host" in Positive(w.live);
    TracedAlways(states, steps, |steps|);
    KnownAlways(states, steps, |steps|);
    CutSticksExactlyWhen(w, "a");
    states, steps := ExtendRun(states, steps, Cut("a"));
  }
}
