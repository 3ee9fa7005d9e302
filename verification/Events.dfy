/**
 The numbers of lifecycle events: sish never uses one twice, so the store never mistakes one event
 for another, and whatever a run has sent may be delivered in any order.
 */
module Events {
  import opened Hostnames
  import opened Tables
  import opened Lifecycle
  import opened Registry
  import opened Coordination
  import opened Safety
  import opened Mirror
  import opened Ordering

  predicate Posted(net: Net, e: string) {
    e in net.connects || e in net.disconnects
  }

  /** Source and sequence of a posted event. */
  function KeyOf(net: Net, e: string): EventKey
    requires Posted(net, e)
  {
    if e in net.connects then EventKey(net.connects[e].source, net.connects[e].tunnel.sequence)
    else EventKey(net.disconnects[e].source, net.disconnects[e].sequence)
  }

  ghost predicate KeysApart(net: Net) {
    && (forall e :: !(e in net.connects && e in net.disconnects))
    && (forall e, f :: Posted(net, e) && Posted(net, f) && KeyOf(net, e) == KeyOf(net, f) ==> e == f)
  }

  /** The index has processed only events that were posted, under their own numbers. */
  ghost predicate Processed(net: Net, x: Index) {
    forall e :: e in x.events ==> Posted(net, e) && x.events[e] == KeyOf(net, e)
  }

  lemma NewKeyApart(s: System, e: string)
    requires PostsNumbered(s) && Posted(s.net, e)
    ensures KeyOf(s.net, e) != EventKey(s.sish.source, s.sish.table.sequence + 1)
  {
  }

  /** One event more, under a number no event has yet. */
  lemma AddedApart(net: Net, net': Net, event: string)
    requires KeysApart(net) && !Posted(net, event) && Posted(net', event)
    requires forall e :: !(e in net'.connects && e in net'.disconnects)
    requires forall e :: Posted(net', e) && e != event ==> Posted(net, e) && KeyOf(net', e) == KeyOf(net, e)
    requires forall e :: Posted(net, e) ==> KeyOf(net, e) != KeyOf(net', event)
    ensures KeysApart(net')
  {
  }

  lemma ConnectPostedApart(s: System, event: string, post: ConnectPost)
    requires KeysApart(s.net) && PostsNumbered(s) && Fresh(s, event)
    requires post.source == s.sish.source && post.tunnel.sequence == s.sish.table.sequence + 1
    ensures KeysApart(s.net.(connects := s.net.connects[event := post]))
  {
    forall e | Posted(s.net, e) ensures KeyOf(s.net, e) != EventKey(post.source, post.tunnel.sequence) {
      NewKeyApart(s, e);
    }
    AddedApart(s.net, s.net.(connects := s.net.connects[event := post]), event);
  }

  lemma DisconnectPostedApart(s: System, event: string, post: DisconnectPost)
    requires KeysApart(s.net) && PostsNumbered(s) && Fresh(s, event)
    requires post.source == s.sish.source && post.sequence == s.sish.table.sequence + 1
    ensures KeysApart(s.net.(disconnects := s.net.disconnects[event := post]))
  {
    forall e | Posted(s.net, e) ensures KeyOf(s.net, e) != EventKey(post.source, post.sequence) {
      NewKeyApart(s, e);
    }
    AddedApart(s.net, s.net.(disconnects := s.net.disconnects[event := post]), event);
  }

  lemma SameKeys(net: Net, net': Net)
    requires KeysApart(net) && net'.connects == net.connects && net'.disconnects == net.disconnects
    ensures KeysApart(net')
  {
    forall e, f | Posted(net', e) && Posted(net', f) && KeyOf(net', e) == KeyOf(net', f) ensures e == f {
      assert KeyOf(net, e) == KeyOf(net, f);
    }
  }

  lemma RemovalApart(s: System, id: string, event: string)
    requires KeysApart(s.net) && PostsNumbered(s) && Fresh(s, event)
    ensures KeysApart(AfterUnregister(s, id, event).net)
  {
    DisconnectPostedApart(s, event, DisconnectPost(id, s.sish.source, s.sish.table.sequence + 1));
  }

  lemma KeysApartStep(s: System, a: Step)
    requires Can(s, a) && KeysApart(s.net) && PostsNumbered(s)
    ensures KeysApart(Do(s, a).net)
  {
    if !Posts(a) {
      NetFrame(s, a);
    } else if a.Begin? {
      ConnectPostedApart(s, a.event, ConnectPost(
        Bind(a.grant.principal, a.grant.protocol, a.id, a.bound, s.sish.table.sequence + 1), s.sish.source));
    } else if a.Unregister? {
      RemovalApart(s, a.id, a.event);
    } else if a.CleanUp? {
      RemovalApart(s, a.id, a.event);
    } else if a.TakeSnapshot? {
      SameKeys(s.net, Do(s, a).net);
    }
  }

  /** What was posted stays posted, with its number. */
  lemma PostedStays(s: System, a: Step, e: string)
    requires Can(s, a) && KeysApart(s.net) && Posted(s.net, e)
    ensures Posted(Do(s, a).net, e) && KeyOf(Do(s, a).net, e) == KeyOf(s.net, e)
  {
    if !Posts(a) {
      NetFrame(s, a);
    }
  }

  lemma MutationKeepsEvents(db: Db, m: Mutation)
    requires Sound(db) && Allowed(db.rights, m)
    ensures After(db, m).index.events == db.index.events
  {
    if After(db, m) != db {
      var _ := MutationPlan(db, m);
    }
  }

  lemma {:induction false} RestoreKeepsEvents(r: Rights, x: Index, s: Snapshot, n: nat)
    requires n <= |s.tunnels|
    ensures RestoreFirst(r, x, s, n).events == x.events
  {
    if n > 0 {
      RestoreKeepsEvents(r, x, s, n - 1);
    }
  }

  lemma SnapshotKeepsEvents(r: Rights, x: Index, s: Snapshot)
    ensures OrElse(ReconcileIndex(r, x, s), x).events == x.events
  {
    if SnapshotError(x, s).None? {
      RestoreKeepsEvents(r, Prepared(x, s), s, |s.tunnels|);
    }
  }

  lemma ConnectAddsEvent(x: Index, t: Tunnel, source: string, event: string)
    ensures var y := OrElse(ConnectIndex(x, t, source, event), x);
      y.events == x.events || y.events == x.events[event := EventKey(source, t.sequence)]
  {
  }

  lemma DisconnectAddsEvent(x: Index, id: string, source: string, event: string, sequence: int)
    ensures var y := OrElse(DisconnectIndex(x, id, source, event, sequence), x);
      y.events == x.events || y.events == x.events[event := EventKey(source, sequence)]
  {
  }

  lemma ConnectProcesses(s: System, event: string)
    requires NormalDomain(s.domain) && Registered(s) && event in s.net.connects && Processed(s.net, s.db.index)
    ensures Processed(s.net, AfterConnect(s, event).db.index)
  {
    var post := s.net.connects[event];
    HandlerPassesThrough(s, post, event);
    ConnectAddsEvent(s.db.index, post.tunnel, post.source, event);
    var y := AfterConnect(s, event).db.index;
    assert y == s.db.index || y == OrElse(ConnectIndex(s.db.index, post.tunnel, post.source, event), s.db.index);
  }

  lemma DisconnectProcesses(s: System, event: string)
    requires KeysApart(s.net) && event in s.net.disconnects && Processed(s.net, s.db.index)
    ensures var post := s.net.disconnects[event];
      Processed(s.net, OrElse(DisconnectIndex(s.db.index, post.id, post.source, event, post.sequence), s.db.index))
  {
    var post := s.net.disconnects[event];
    DisconnectAddsEvent(s.db.index, post.id, post.source, event, post.sequence);
  }

  lemma ProcessedStep(s: System, a: Step)
    requires NormalDomain(s.domain) && Sound(s.db) && Registered(s) && Can(s, a)
    requires KeysApart(s.net) && Processed(s.net, s.db.index)
    ensures Processed(s.net, Do(s, a).db.index)
  {
    if !OnIndex(a) {
      IndexFrame(s, a);
    } else if a.Mutate? {
      MutationKeepsEvents(s.db, a.m);
    } else if a.DeliverConnect? {
      ConnectProcesses(s, a.event);
    } else if a.DeliverDisconnect? {
      DisconnectProcesses(s, a.event);
    } else if a.DeliverSnapshot? {
      SnapshotKeepsEvents(s.db.rights, s.db.index, a.snapshot);
    }
  }

  lemma NumbersStep(s: System, a: Step)
    requires NormalDomain(s.domain) && Sound(s.db) && Registered(s) && PostsNumbered(s) && Can(s, a)
    requires KeysApart(s.net) && Processed(s.net, s.db.index)
    ensures KeysApart(Do(s, a).net) && Processed(Do(s, a).net, Do(s, a).db.index)
  {
    KeysApartStep(s, a);
    ProcessedStep(s, a);
    ProcessedCarries(s, a, Do(s, a).db.index);
  }

  lemma NumbersStepAt(states: seq<System>, steps: seq<Step>, i: nat)
    requires Run(states, steps) && i < |steps|
    requires KeysApart(states[i].net) && Processed(states[i].net, states[i].db.index)
    ensures KeysApart(states[i + 1].net) && Processed(states[i + 1].net, states[i + 1].db.index)
  {
    SoundAlways(states, steps, i);
    RegisteredAlways(states, steps, i);
    NumberedAlways(states, steps, i);
    assert TakesStep(states, steps, i);
    NumbersStep(states[i], steps[i]);
  }

  lemma {:induction false} NumbersAlways(states: seq<System>, steps: seq<Step>, i: nat)
    requires Run(states, steps) && i < |states|
    ensures KeysApart(states[i].net) && Processed(states[i].net, states[i].db.index)
  {
    if i > 0 {
      NumbersAlways(states, steps, i - 1);
      NumbersStepAt(states, steps, i - 1);
    }
  }

  lemma ProcessedCarries(s: System, a: Step, x: Index)
    requires Can(s, a) && KeysApart(s.net) && Processed(s.net, x)
    ensures Processed(Do(s, a).net, x)
  {
    forall e | e in x.events ensures Posted(Do(s, a).net, e) && x.events[e] == KeyOf(Do(s, a).net, e) {
      PostedStays(s, a, e);
    }
  }

  /** In no run does an event meet the number of another: whatever was posted is either known by its
      own id already, or its number is free. */
  lemma NoNumberClash(states: seq<System>, steps: seq<Step>, i: nat, event: string)
    requires Run(states, steps) && i < |states| && Posted(states[i].net, event)
    ensures var x := states[i].db.index; var k := KeyOf(states[i].net, event);
      event in x.events || !SequenceUsed(x, k.source, k.sequence)
  {
    NumbersAlways(states, steps, i);
  }

  /** So no genuine event is refused by the uniqueness of numbers. */
  lemma NeverRefusedAsDuplicate(states: seq<System>, steps: seq<Step>, i: nat, event: string)
    requires Run(states, steps) && i < |states|
    ensures var s := states[i];
      && (event in s.net.connects ==>
            ConnectIndex(s.db.index, s.net.connects[event].tunnel, s.net.connects[event].source, event) != Err(Constraint))
      && (event in s.net.disconnects ==>
            var post := s.net.disconnects[event];
            DisconnectIndex(s.db.index, post.id, post.source, event, post.sequence) != Err(Constraint))
  {
    NumbersAlways(states, steps, i);
    if Posted(states[i].net, event) {
      NoNumberClash(states, steps, i, event);
    }
  }

  /** A posted event as a message. */
  function MessageOf(net: Net, e: string): Message
    requires Posted(net, e)
  {
    if e in net.connects then Up(e, net.connects[e].tunnel)
    else Down(e, net.disconnects[e].id, net.disconnects[e].sequence)
  }

  function MessagesOf(net: Net, es: seq<string>): (ms: seq<Message>)
    requires forall k :: 0 <= k < |es| ==> Posted(net, es[k])
    ensures |ms| == |es| && forall k :: 0 <= k < |es| ==> ms[k] == MessageOf(net, es[k])
  {
    seq(|es|, k requires 0 <= k < |es| => MessageOf(net, es[k]))
  }

  /** These events were all posted by this process. */
  ghost predicate PostedBy(net: Net, source: string, es: seq<string>) {
    forall k :: 0 <= k < |es| ==> Posted(net, es[k]) && KeyOf(net, es[k]).source == source
  }

  /** A delivered callback of a run does what the message does. */
  lemma ConnectDelivers(s: System, e: string)
    requires NormalDomain(s.domain) && Registered(s) && e in s.net.connects
    ensures AfterConnect(s, e).db == Deliver(s.db, KeyOf(s.net, e).source, MessageOf(s.net, e))
  {
    HandlerPassesThrough(s, s.net.connects[e], e);
  }

  lemma DisconnectDelivers(s: System, e: string)
    requires KeysApart(s.net) && e in s.net.disconnects
    ensures var post := s.net.disconnects[e];
      SetIndex(s, DisconnectIndex(s.db.index, post.id, post.source, e, post.sequence)).db
      == Deliver(s.db, KeyOf(s.net, e).source, MessageOf(s.net, e))
  {
  }

  lemma PostedAreDistinct(net: Net, source: string, es: seq<string>)
    requires KeysApart(net) && PostedBy(net, source, es)
    ensures Distinct(MessagesOf(net, es))
  {
    var ms := MessagesOf(net, es);
    forall a, b | 0 <= a < |ms| && 0 <= b < |ms| && ms[a] != ms[b]
      ensures ms[a].event != ms[b].event && ms[a].Sequence() != ms[b].Sequence()
    {
      assert es[a] != es[b];
      assert KeyOf(net, es[a]) != KeyOf(net, es[b]);
    }
  }

  lemma PostedAreFree(net: Net, x: Index, source: string, es: seq<string>)
    requires KeysApart(net) && Processed(net, x) && PostedBy(net, source, es)
    ensures NumbersFree(x, source, MessagesOf(net, es))
  {
    var ms := MessagesOf(net, es);
    forall k | 0 <= k < |ms| ensures ms[k].event in x.events || !SequenceUsed(x, source, ms[k].Sequence()) {
      assert KeyOf(net, es[k]) == EventKey(source, ms[k].Sequence());
    }
  }

  /** Whatever events one sish process has posted in a run, in whatever order and however often they
      are listed, and whatever the index has seen of them: as long as the index accepts the
      process, they are what order independence asks for. */
  lemma PostedSetting(states: seq<System>, steps: seq<Step>, i: nat, source: string, es: seq<string>)
    requires Run(states, steps) && i < |states| && PostedBy(states[i].net, source, es)
    requires SourceError(states[i].db.index, source).None?
    ensures Setting(states[i].db.index, source, MessagesOf(states[i].net, es))
  {
    NumbersAlways(states, steps, i);
    PostedAreDistinct(states[i].net, source, es);
    PostedAreFree(states[i].net, states[i].db.index, source, es);
  }

  /** So from every state of every run the order of delivery does not matter ... */
  lemma AnyOrderInRuns(states: seq<System>, steps: seq<Step>, i: nat, source: string, es: seq<string>, fs: seq<string>,
                       id: string)
    requires Run(states, steps) && i < |states|
    requires SourceError(states[i].db.index, source).None?
    requires PostedBy(states[i].net, source, es) && PostedBy(states[i].net, source, fs)
    requires forall e :: e in es <==> e in fs
    ensures var db := states[i].db;
      var y := Ordering.DeliverAll(db, source, MessagesOf(states[i].net, es)).index;
      var z := Ordering.DeliverAll(db, source, MessagesOf(states[i].net, fs)).index;
      && SameCursor(y, z, id)
      && (Open(y, id) <==> Open(z, id))
      && (Open(y, id) ==> y.tunnels[id] == z.tunnels[id])
  {
    var net := states[i].net;
    PostedSetting(states, steps, i, source, es);
    PostedSetting(states, steps, i, source, fs);
    SameMembers(net, es, fs);
    SameMembers(net, fs, es);
    OrderDoesNotMatter(states[i].db, source, MessagesOf(net, es), MessagesOf(net, fs), id);
  }

  lemma SameMembers(net: Net, es: seq<string>, fs: seq<string>)
    requires forall k :: 0 <= k < |es| ==> Posted(net, es[k])
    requires forall k :: 0 <= k < |fs| ==> Posted(net, fs[k])
    requires forall e :: e in es ==> e in fs
    ensures forall m :: m in MessagesOf(net, es) ==> m in MessagesOf(net, fs)
  {
    var ms, ns := MessagesOf(net, es), MessagesOf(net, fs);
    forall m | m in ms ensures m in ns {
      var k :| 0 <= k < |ms| && ms[k] == m;
      assert es[k] in fs;
      var j :| 0 <= j < |fs| && fs[j] == es[k];
      assert ns[j] == m;
    }
  }

  /** ... and the latest event of a tunnel that counts decides. */
  lemma LatestWinsInRuns(states: seq<System>, steps: seq<Step>, i: nat, source: string, es: seq<string>, m: Message)
    requires Run(states, steps) && i < |states|
    requires SourceError(states[i].db.index, source).None? && PostedBy(states[i].net, source, es)
    requires Latest(states[i].db, MessagesOf(states[i].net, es), m)
    ensures var db := states[i].db;
      var y := Ordering.DeliverAll(db, source, MessagesOf(states[i].net, es)).index;
      Open(y, m.Id()) <==>
        if CursorHolds(db.index, source, m) || RowHolds(db.index, m) then Open(db.index, m.Id()) else m.Up?
  {
    PostedSetting(states, steps, i, source, es);
    LatestEventWins(states[i].db, source, MessagesOf(states[i].net, es), m);
  }

  // ------------------------------------------------------------- runs that go on

  /** The step that delivers a posted event. */
  function DeliveryOf(net: Net, e: string): Step
    requires Posted(net, e)
  {
    if e in net.connects then DeliverConnect(e) else DeliverDisconnect(e)
  }

  /** From state i on the run delivers these events of one process, one after the other. */
  ghost predicate GoesOn(states: seq<System>, steps: seq<Step>, i: nat, source: string, es: seq<string>) {
    && Run(states, steps) && i + |es| <= |steps| && PostedBy(states[i].net, source, es)
    && forall k {:trigger es[k]} :: 0 <= k < |es| ==> steps[i + k] == DeliveryOf(states[i].net, es[k])
  }

  lemma DeliveryDelivers(s: System, e: string)
    requires NormalDomain(s.domain) && Registered(s) && KeysApart(s.net) && Posted(s.net, e)
    requires Can(s, DeliveryOf(s.net, e))
    ensures var s' := Do(s, DeliveryOf(s.net, e));
      s'.net == s.net && s'.db == Deliver(s.db, KeyOf(s.net, e).source, MessageOf(s.net, e))
  {
    if e in s.net.connects {
      ConnectDelivers(s, e);
    } else {
      DisconnectDelivers(s, e);
    }
  }

  lemma DeliveredNext(states: seq<System>, steps: seq<Step>, j: nat, e: string)
    requires Run(states, steps) && j < |steps|
    requires Posted(states[j].net, e) && steps[j] == DeliveryOf(states[j].net, e)
    ensures states[j + 1].net == states[j].net
    ensures states[j + 1].db == Deliver(states[j].db, KeyOf(states[j].net, e).source, MessageOf(states[j].net, e))
  {
    SoundAlways(states, steps, j);
    RegisteredAlways(states, steps, j);
    NumbersAlways(states, steps, j);
    assert TakesStep(states, steps, j);
    DeliveryDelivers(states[j], e);
  }

  lemma DeliveredOneMore(db: Db, net: Net, source: string, es: seq<string>, n: nat)
    requires n < |es| && forall k :: 0 <= k < |es| ==> Posted(net, es[k])
    ensures Ordering.DeliverAll(db, source, MessagesOf(net, es[..n + 1]))
         == Deliver(Ordering.DeliverAll(db, source, MessagesOf(net, es[..n])), source, MessageOf(net, es[n]))
  {
    var ms := MessagesOf(net, es[..n + 1]);
    assert ms[..n] == MessagesOf(net, es[..n]);
  }

  ghost predicate SoFar(states: seq<System>, i: nat, source: string, es: seq<string>, n: nat)
    requires n <= |es| && i + n < |states| && PostedBy(states[i].net, source, es)
  {
    && states[i + n].net == states[i].net
    && states[i + n].db == Ordering.DeliverAll(states[i].db, source, MessagesOf(states[i].net, es[..n]))
  }

  lemma SoFarOneMore(states: seq<System>, steps: seq<Step>, i: nat, source: string, es: seq<string>, n: nat)
    requires GoesOn(states, steps, i, source, es) && n < |es| && SoFar(states, i, source, es, n)
    ensures SoFar(states, i, source, es, n + 1)
  {
    var e := es[n];
    assert steps[i + n] == DeliveryOf(states[i].net, e);
    DeliveredNext(states, steps, i + n, e);
    DeliveredOneMore(states[i].db, states[i].net, source, es, n);
  }

  /** A run that goes on so is where the messages lead. */
  lemma {:induction false} DeliveredSoFar(states: seq<System>, steps: seq<Step>, i: nat, source: string, es: seq<string>,
                                          n: nat)
    requires GoesOn(states, steps, i, source, es) && n <= |es|
    ensures SoFar(states, i, source, es, n)
  {
    if n > 0 {
      DeliveredSoFar(states, steps, i, source, es, n - 1);
      SoFarOneMore(states, steps, i, source, es, n - 1);
    }
  }

  lemma DeliveredInRun(states: seq<System>, steps: seq<Step>, i: nat, source: string, es: seq<string>)
    requires GoesOn(states, steps, i, source, es)
    ensures states[i + |es|].db == Ordering.DeliverAll(states[i].db, source, MessagesOf(states[i].net, es))
  {
    DeliveredSoFar(states, steps, i, source, es, |es|);
    assert es[..|es|] == es;
  }

  /** Two runs that are in the same state and then deliver the same events of one process, each in its
      own order and as often as it likes, end with the same cursors and the same tunnels open with the
      same rows. */
  lemma RunsMeetAgain(states: seq<System>, steps: seq<Step>, states': seq<System>, steps': seq<Step>, i: nat, i': nat,
                      source: string, es: seq<string>, fs: seq<string>, id: string)
    requires GoesOn(states, steps, i, source, es) && GoesOn(states', steps', i', source, fs)
    requires states[i] == states'[i'] && SourceError(states[i].db.index, source).None?
    requires forall e :: e in es <==> e in fs
    ensures var y, z := states[i + |es|].db.index, states'[i' + |fs|].db.index;
      && SameCursor(y, z, id)
      && (Open(y, id) <==> Open(z, id))
      && (Open(y, id) ==> y.tunnels[id] == z.tunnels[id])
  {
    DeliveredInRun(states, steps, i, source, es);
    DeliveredInRun(states', steps', i', source, fs);
    AnyOrderInRuns(states, steps, i, source, es, fs, id);
  }
}
