/**
 Lifecycle events of one sish process delivered in any order and any number of times, to an index
 that may already know the tunnels and some of the events.
 */
module Ordering {
  import opened Hostnames
  import opened Tables
  import opened Lifecycle

  /** A lifecycle event on its way: its event id and what it reports. */
  datatype Message =
    | Up(event: string, tunnel: Tunnel)
    | Down(event: string, closed: string, at: int)
  {
    function Id(): string {
      if Up? then tunnel.id else closed
    }

    function Sequence(): int {
      if Up? then tunnel.sequence else at
    }
  }

  function Deliver(db: Db, source: string, m: Message): Db {
    match m
    case Up(event, t) => OrElse(Connect(db, t, LabelOf(t.host), source, event), db)
    case Down(event, id, at) => db.(index := OrElse(DisconnectIndex(db.index, id, source, event, at), db.index))
  }

  function DeliverAll(db: Db, source: string, ms: seq<Message>): Db
    decreases |ms|
  {
    if ms == [] then db
    else Deliver(DeliverAll(db, source, ms[..|ms| - 1]), source, ms[|ms| - 1])
  }

  /** A connect that passes the generation and ownership checks. */
  predicate Acceptable(db: Db, m: Message) {
    m.Up? ==> m.tunnel.generation == db.generation && ListedEntitled(db.rights, m.tunnel)
  }

  /** An event that can still change something: accepted, and not processed before. */
  predicate Counts(db: Db, m: Message) {
    Acceptable(db, m) && m.event !in db.index.events
  }

  /** sish gives every event its own id and its own sequence number. */
  ghost predicate Distinct(ms: seq<Message>) {
    forall i, j :: 0 <= i < |ms| && 0 <= j < |ms| && ms[i] != ms[j] ==>
      ms[i].event != ms[j].event && ms[i].Sequence() != ms[j].Sequence()
  }

  /** Events not processed yet have numbers not used yet. */
  ghost predicate NumbersFree(x: Index, source: string, ms: seq<Message>) {
    forall i :: 0 <= i < |ms| ==> ms[i].event in x.events || !SequenceUsed(x, source, ms[i].Sequence())
  }

  ghost predicate Setting(x: Index, source: string, ms: seq<Message>) {
    SourceError(x, source).None? && Distinct(ms) && NumbersFree(x, source, ms)
  }

  /** m counts and no event of its tunnel that counts has a higher sequence number. */
  ghost predicate Latest(db: Db, ms: seq<Message>, m: Message) {
    && m in ms && Counts(db, m)
    && forall i :: 0 <= i < |ms| && ms[i].Id() == m.Id() && Counts(db, ms[i]) ==> ms[i].Sequence() <= m.Sequence()
  }

  // ------------------------------------------------- the index part of a delivery

  /** One delivery, where db stands for the rights and the generation. */
  function Move(db: Db, x: Index, source: string, m: Message): Index {
    if !Acceptable(db, m) then x
    else match m
      case Up(event, t) => OrElse(ConnectIndex(x, t, source, event), x)
      case Down(event, id, at) => OrElse(DisconnectIndex(x, id, source, event, at), x)
  }

  function MoveAll(db: Db, x: Index, source: string, ms: seq<Message>): Index
    decreases |ms|
  {
    if ms == [] then x
    else Move(db, MoveAll(db, x, source, ms[..|ms| - 1]), source, ms[|ms| - 1])
  }

  lemma DeliverMoves(db: Db, x: Index, source: string, m: Message)
    ensures Deliver(db.(index := x), source, m) == db.(index := Move(db, x, source, m))
  {
  }

  lemma {:induction false} DeliverAllMoves(db: Db, source: string, ms: seq<Message>)
    ensures DeliverAll(db, source, ms) == db.(index := MoveAll(db, db.index, source, ms))
    decreases |ms|
  {
    if ms != [] {
      var before := ms[..|ms| - 1];
      DeliverAllMoves(db, source, before);
      DeliverMoves(db, MoveAll(db, db.index, source, before), source, ms[|ms| - 1]);
    }
  }

  /** What was processed before, and the accepted events delivered since; the source stands. */
  ghost predicate Recorded(db: Db, source: string, ms: seq<Message>, y: Index) {
    && y.source == db.index.source && y.retired == db.index.retired
    && (forall e :: e in db.index.events ==> e in y.events)
    && (forall m :: m in ms && Acceptable(db, m) ==> m.event in y.events)
    && (forall e :: e in y.events ==> Explained(db, source, ms, e, y.events[e]))
  }

  ghost predicate Explained(db: Db, source: string, ms: seq<Message>, e: string, k: EventKey) {
    (e in db.index.events && db.index.events[e] == k)
    || exists m :: m in ms && Acceptable(db, m) && m.event == e && k == EventKey(source, m.Sequence())
  }

  ghost predicate SameTunnel(x: Index, y: Index, id: string) {
    SameCursor(x, y, id) && SameRow(x, y, id)
  }

  ghost predicate SameCursor(x: Index, y: Index, id: string) {
    (id in x.cursors <==> id in y.cursors) && (id in x.cursors ==> y.cursors[id] == x.cursors[id])
  }

  ghost predicate SameRow(x: Index, y: Index, id: string) {
    (id in x.tunnels <==> id in y.tunnels) && (id in x.tunnels ==> y.tunnels[id] == x.tunnels[id])
  }

  /** The cursor of a tunnel stands at or beyond an event; so does its row. */
  predicate CursorHolds(x: Index, source: string, m: Message) {
    !Advances(x, m.Id(), source, m.Sequence())
  }

  predicate RowHolds(x: Index, m: Message) {
    m.Id() in x.tunnels && m.Sequence() <= x.tunnels[m.Id()].sequence
  }

  ghost predicate RowShows(y: Index, m: Message) {
    if m.Up? then m.Id() in y.tunnels && y.tunnels[m.Id()] == RowOf(m.tunnel, m.Sequence())
    else m.Id() in y.tunnels ==>
      y.tunnels[m.Id()].status.Disconnected? && y.tunnels[m.Id()].sequence <= m.Sequence()
  }

  /** From x, cursor and row of a tunnel stand where this event leaves them: unmoved as far as they
      were at or beyond it. */
  ghost predicate Shows(x: Index, source: string, y: Index, m: Message) {
    && (if CursorHolds(x, source, m) then SameCursor(x, y, m.Id())
        else m.Id() in y.cursors && y.cursors[m.Id()] == Cursor(source, m.Sequence(), m.Down?))
    && (if CursorHolds(x, source, m) || RowHolds(x, m) then SameRow(x, y, m.Id()) else RowShows(y, m))
  }

  ghost predicate Mentions(db: Db, ms: seq<Message>, id: string) {
    exists m :: m in ms && m.Id() == id && Counts(db, m)
  }

  /** What delivering ms has done to one tunnel: nothing, or its latest event shows. */
  ghost predicate Tracks(db: Db, source: string, ms: seq<Message>, y: Index, id: string) {
    if Mentions(db, ms, id) then
      exists m: Message :: m.Id() == id && Latest(db, ms, m) && Shows(db.index, source, y, m)
    else SameTunnel(db.index, y, id)
  }

  // ----------------------------------------------------------------- one delivery

  lemma MoveSeen(db: Db, y: Index, source: string, m: Message)
    requires m.event in y.events || !Acceptable(db, m)
    ensures Move(db, y, source, m) == y
  {
  }

  lemma MoveRecords(db: Db, y: Index, source: string, m: Message)
    requires SourceError(y, source).None? && Acceptable(db, m)
    requires m.event !in y.events && !SequenceUsed(y, source, m.Sequence())
    ensures var z := Move(db, y, source, m);
      && z.events == y.events[m.event := EventKey(source, m.Sequence())]
      && z.source == y.source && z.retired == y.retired
  {
  }

  lemma MoveTouchesOne(db: Db, y: Index, source: string, m: Message, id: string)
    requires id != m.Id()
    ensures SameTunnel(y, Move(db, y, source, m), id)
  {
  }

  /** The first event that counts for a tunnel. */
  lemma MoveFirst(db: Db, y: Index, source: string, m: Message)
    requires SourceError(y, source).None? && Acceptable(db, m)
    requires m.event !in y.events && !SequenceUsed(y, source, m.Sequence())
    requires SameTunnel(db.index, y, m.Id())
    ensures Shows(db.index, source, Move(db, y, source, m), m)
  {
  }

  /** A further one moves the tunnel exactly if it is later. */
  lemma MoveLater(db: Db, y: Index, source: string, m: Message, n: Message)
    requires SourceError(y, source).None? && Acceptable(db, m)
    requires m.event !in y.events && !SequenceUsed(y, source, m.Sequence())
    requires n.Id() == m.Id() && Shows(db.index, source, y, n) && m.Sequence() != n.Sequence()
    ensures Shows(db.index, source, Move(db, y, source, m), if m.Sequence() > n.Sequence() then m else n)
  {
  }

  lemma NewIsUnused(db: Db, source: string, ms: seq<Message>, m: Message, y: Index)
    requires Setting(db.index, source, ms + [m]) && m !in ms && Recorded(db, source, ms, y) && Counts(db, m)
    ensures m.event !in y.events && !SequenceUsed(y, source, m.Sequence())
  {
    var all := ms + [m];
    assert all[|ms|] == m;
    forall e | e in y.events ensures e != m.event && y.events[e] != EventKey(source, m.Sequence()) {
      assert Explained(db, source, ms, e, y.events[e]);
      if !(e in db.index.events && db.index.events[e] == y.events[e]) {
        var n :| n in ms && Acceptable(db, n) && n.event == e && y.events[e] == EventKey(source, n.Sequence());
        var i :| 0 <= i < |ms| && ms[i] == n;
        assert all[i] == n;
      }
    }
  }

  lemma RecordedStep(db: Db, source: string, ms: seq<Message>, m: Message, y: Index)
    requires Setting(db.index, source, ms + [m]) && Recorded(db, source, ms, y)
    ensures Recorded(db, source, ms + [m], Move(db, y, source, m))
  {
    var all := ms + [m];
    var z := Move(db, y, source, m);
    if m in ms || !Counts(db, m) {
      MoveSeen(db, y, source, m);
    } else {
      NewIsUnused(db, source, ms, m, y);
      MoveRecords(db, y, source, m);
    }
    forall e | e in z.events ensures Explained(db, source, all, e, z.events[e]) {
      if e in y.events && y.events[e] == z.events[e] {
        assert Explained(db, source, ms, e, y.events[e]);
        assert forall n :: n in ms ==> n in all;
      } else {
        assert m in all;
      }
    }
  }

  lemma LatestCarries(db: Db, ms: seq<Message>, ns: seq<Message>, m: Message)
    requires Latest(db, ms, m) && m in ns
    requires forall n :: n in ns && n.Id() == m.Id() && Counts(db, n) ==> n in ms
    ensures Latest(db, ns, m)
  {
    forall i | 0 <= i < |ns| && ns[i].Id() == m.Id() && Counts(db, ns[i]) ensures ns[i].Sequence() <= m.Sequence() {
      assert ns[i] in ms;
      var j :| 0 <= j < |ms| && ms[j] == ns[i];
    }
  }

  lemma ShowsSame(x: Index, source: string, y: Index, z: Index, m: Message)
    requires Shows(x, source, y, m) && SameTunnel(y, z, m.Id())
    ensures Shows(x, source, z, m)
  {
  }

  /** A tunnel the delivered event does not concern, or an event that does not count any more. */
  lemma OtherTracks(db: Db, source: string, ms: seq<Message>, m: Message, y: Index, z: Index, id: string)
    requires Tracks(db, source, ms, y, id) && (m in ms || m.Id() != id || !Counts(db, m))
    requires SameTunnel(y, z, id)
    ensures Tracks(db, source, ms + [m], z, id)
  {
    assert forall n :: n in ms + [m] <==> n in ms || n == m;
    assert Mentions(db, ms + [m], id) <==> Mentions(db, ms, id);
    if Mentions(db, ms, id) {
      var n: Message :| n.Id() == id && Latest(db, ms, n) && Shows(db.index, source, y, n);
      LatestCarries(db, ms, ms + [m], n);
      ShowsSame(db.index, source, y, z, n);
    }
  }

  /** A new event of a tunnel moves its cursor and row exactly when it is the latest. */
  lemma NewEventTracks(db: Db, source: string, ms: seq<Message>, m: Message, y: Index)
    requires Setting(db.index, source, ms + [m]) && m !in ms && Counts(db, m) && Recorded(db, source, ms, y)
    requires Tracks(db, source, ms, y, m.Id())
    ensures Tracks(db, source, ms + [m], Move(db, y, source, m), m.Id())
  {
    var all := ms + [m];
    assert all[|ms|] == m && m in all;
    NewIsUnused(db, source, ms, m, y);
    if Mentions(db, ms, m.Id()) {
      var n: Message :| n.Id() == m.Id() && Latest(db, ms, n) && Shows(db.index, source, y, n);
      var k :| 0 <= k < |ms| && ms[k] == n;
      assert all[k] == n;
      MoveLater(db, y, source, m, n);
      TopOfBoth(db, ms, m, n);
    } else {
      MoveFirst(db, y, source, m);
      assert forall i :: 0 <= i < |ms| ==> ms[i] in ms && all[i] == ms[i];
      assert Latest(db, all, m);
    }
  }

  lemma TopOfBoth(db: Db, ms: seq<Message>, m: Message, n: Message)
    requires Latest(db, ms, n) && Counts(db, m) && n.Id() == m.Id()
    ensures Latest(db, ms + [m], if m.Sequence() > n.Sequence() then m else n)
    ensures Mentions(db, ms + [m], m.Id())
  {
    var all := ms + [m];
    assert all[|ms|] == m && m in all && n in all;
    var top := if m.Sequence() > n.Sequence() then m else n;
    forall i | 0 <= i < |all| && all[i].Id() == m.Id() && Counts(db, all[i]) ensures all[i].Sequence() <= top.Sequence() {
      assert i < |ms| ==> all[i] == ms[i];
    }
  }

  lemma {:induction false} MoveAllTracks(db: Db, source: string, ms: seq<Message>, id: string)
    requires Setting(db.index, source, ms)
    ensures Recorded(db, source, ms, MoveAll(db, db.index, source, ms))
    ensures Tracks(db, source, ms, MoveAll(db, db.index, source, ms), id)
    decreases |ms|
  {
    if ms != [] {
      var before := ms[..|ms| - 1];
      var m := ms[|ms| - 1];
      assert before + [m] == ms;
      assert Setting(db.index, source, before);
      MoveAllTracks(db, source, before, id);
      var y := MoveAll(db, db.index, source, before);
      RecordedStep(db, source, before, m, y);
      if m in before || !Counts(db, m) {
        MoveSeen(db, y, source, m);
        OtherTracks(db, source, before, m, y, y, id);
      } else if m.Id() != id {
        MoveTouchesOne(db, y, source, m, id);
        OtherTracks(db, source, before, m, y, Move(db, y, source, m), id);
      } else {
        NewEventTracks(db, source, before, m, y);
      }
    }
  }

  // ------------------------------------------------------------------ main results

  /** However the events of one source arrive, and however often, a tunnel ends where the latest of
      its events that count leaves it, unless the index was at or beyond that event already: then
      nothing has changed.  So it ends open exactly when that event is a connect. */
  lemma LatestEventWins(db: Db, source: string, ms: seq<Message>, m: Message)
    requires Setting(db.index, source, ms) && Latest(db, ms, m)
    ensures var x := db.index; var y := DeliverAll(db, source, ms).index;
      && Shows(x, source, y, m)
      && (Open(y, m.Id()) <==> if CursorHolds(x, source, m) || RowHolds(x, m) then Open(x, m.Id()) else m.Up?)
  {
    DeliverAllMoves(db, source, ms);
    assert Mentions(db, ms, m.Id());
    MoveAllTracks(db, source, ms, m.Id());
    var y := MoveAll(db, db.index, source, ms);
    var n: Message :| n.Id() == m.Id() && Latest(db, ms, n) && Shows(db.index, source, y, n);
    OneLatest(db, ms, m, n);
  }

  lemma OneLatest(db: Db, ms: seq<Message>, m: Message, n: Message)
    requires Distinct(ms) && Latest(db, ms, m) && Latest(db, ms, n) && m.Id() == n.Id()
    ensures m == n
  {
    var i :| 0 <= i < |ms| && ms[i] == m;
    var j :| 0 <= j < |ms| && ms[j] == n;
    assert ms[i].Sequence() == ms[j].Sequence();
  }

  /** A tunnel none of whose events counts stays as it was. */
  lemma NothingCounts(db: Db, source: string, ms: seq<Message>, id: string)
    requires Setting(db.index, source, ms)
    requires forall m :: m in ms && m.Id() == id ==> !Counts(db, m)
    ensures SameTunnel(db.index, DeliverAll(db, source, ms).index, id)
  {
    DeliverAllMoves(db, source, ms);
    MoveAllTracks(db, source, ms, id);
  }

  /** Two delivery orders of the same events, with any repetitions, leave every tunnel's cursor in
      the same place and the same tunnels open with the same rows. */
  lemma OrderDoesNotMatter(db: Db, source: string, ms: seq<Message>, ns: seq<Message>, id: string)
    requires Setting(db.index, source, ms) && Setting(db.index, source, ns)
    requires forall n :: n in ms <==> n in ns
    ensures var y := DeliverAll(db, source, ms).index;
      var z := DeliverAll(db, source, ns).index;
      && SameCursor(y, z, id)
      && (Open(y, id) <==> Open(z, id))
      && (Open(y, id) ==> y.tunnels[id] == z.tunnels[id])
  {
    if Mentions(db, ms, id) {
      DeliverAllMoves(db, source, ms);
      MoveAllTracks(db, source, ms, id);
      var top: Message :| top.Id() == id && Latest(db, ms, top)
                          && Shows(db.index, source, MoveAll(db, db.index, source, ms), top);
      LatestCarries(db, ms, ns, top);
      LatestEventWins(db, source, ms, top);
      LatestEventWins(db, source, ns, top);
    } else {
      forall m | m in ms && m.Id() == id ensures !Counts(db, m) {
        assert !Mentions(db, ms, id);
      }
      NothingCounts(db, source, ms, id);
      NothingCounts(db, source, ns, id);
    }
  }
}
