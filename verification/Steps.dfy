/**
 The steps of a run are the operations of sish and of the control plane: what each of them makes of the
 registry and of the messages under way.
 */
module Steps {
  import opened Hostnames
  import opened Tables
  import opened Lifecycle
  import opened Registry
  import opened Coordination
  import opened Safety
  import opened Theorems
  import opened Rollback

  /** A bind counts once, posts its callback and waits for the answer; ... */
  lemma BeginExactly(s: System, g: Grant, id: string, bound: int, event: string)
    requires Can(s, Begin(g, id, bound, event))
    ensures var s', p, n := Do(s, Begin(g, id, bound, event)), g.principal, s.sish.table.sequence + 1;
      var t := Tunnel(id, p.user, p.key, g.protocol, p.host, bound, p.generation, n);
      && s'.db == s.db && s'.deliveries == s.deliveries
      && s'.sish == s.sish.(table := s.sish.table.(sequence := n), pending := Some(Pending(t, event, false)))
      && s'.net == s.net.(connects := s.net.connects[event := ConnectPost(t, s.sish.source)])
  {
  }

  /** ... an answer acknowledges exactly the registration it belongs to, and only if the control plane has
      accepted it; ... */
  lemma AnsweredExactly(s: System, event: string)
    requires Can(s, DeliverConnect(event))
    ensures var s', post := Do(s, DeliverConnect(event)), s.net.connects[event];
      var r := HandleConnect(s.db, s.domain, post.tunnel, post.source, event);
      && s'.net == s.net && s'.deliveries == s.deliveries
      && s'.db == (if r.Ok? then r.value else s.db)
      && s'.sish == if r.Ok? && s.sish.pending.Some? && s.sish.pending.value.event == event
                    then s.sish.(pending := Some(Pending(s.sish.pending.value.tunnel, event, true))) else s.sish
  {
  }

  /** ... with the answer the tunnel enters the registry, without it nothing is left but the number. */
  lemma FinishExactly(s: System)
    requires s.sish.pending.Some?
    ensures var t := s.sish.pending.value.tunnel;
      Can(s, Finish) ==>
        Do(s, Finish) == s.(sish := s.sish.(
          table := s.sish.table.(tunnels := s.sish.table.tunnels[t.id := t]), pending := None))
    ensures Can(s, Abandon) && Do(s, Abandon) == s.(sish := s.sish.(pending := None))
  {
  }

  /** A tunnel that ends, by itself or for a disconnect, leaves the registry and counts once; if it was
      there its disconnect is posted under that number. */
  lemma RemovalExactly(s: System, a: Step)
    requires Can(s, a) && (a.Unregister? || a.CleanUp?)
    ensures var s', t := Do(s, a), s.sish.table;
      && s'.db == s.db
      && s'.sish == s.sish.(table := t.(tunnels := t.tunnels - {a.id}, sequence := t.sequence + 1))
      && s'.net == (if a.id in t.tunnels
                    then s.net.(disconnects :=
                           s.net.disconnects[a.event := DisconnectPost(a.id, s.sish.source, t.sequence + 1)])
                    else s.net)
  {
  }

  /** A snapshot says what the registry holds, under its number and source. */
  lemma SnapshotExactly(s: System, list: seq<Tunnel>)
    requires Can(s, TakeSnapshot(list))
    ensures Do(s, TakeSnapshot(list)) ==
      s.(net := s.net.(snapshots := s.net.snapshots + {Snapshot(s.sish.source, s.sish.table.sequence, list)}))
    ensures forall t :: t in list <==> t in s.sish.table.tunnels.Values
  {
  }

  /** A process that starts knows no tunnel, no barrier and no authorization, and counts from zero; requests
      its predecessor was working on are lost, those answered or still under way are not. */
  lemma RestartExactly(s: System, source: string, d: nat)
    requires Can(s, Restart(source)) && d < |s.deliveries|
    ensures var s' := Do(s, Restart(source));
      && s'.db == s.db && s'.net == s.net && |s'.deliveries| == |s.deliveries|
      && s'.sish == Sish(source, Table(map[], map[], map[], map[], map[], 0), {}, {}, None)
      && s'.deliveries[d] == (if s.deliveries[d].phase.Cleaning? then s.deliveries[d].(phase := Lost) else s.deliveries[d])
  {
  }

  /** All other steps leave the registry and the registration on its way alone, but for the barriers a
      request raises. */
  lemma OthersLeaveTunnels(s: System, a: Step)
    requires Can(s, a) && !a.Begin? && !a.DeliverConnect? && !a.Finish? && !a.Abandon? && !a.Unregister? && !a.CleanUp?
    requires !a.Restart?
    ensures var s' := Do(s, a);
      && s'.sish.table.tunnels == s.sish.table.tunnels && s'.sish.table.sequence == s.sish.table.sequence
      && s'.sish.source == s.sish.source && s'.sish.pending == s.sish.pending
  {
  }

  // ------------------------------------------------------- one tunnel from bind to end

  lemma FinishLeads(s: System, t: Tunnel, event: string)
    requires s.sish.pending == Some(Pending(t, event, true))
    ensures Leads(s, Finish, s.(sish := s.sish.(
              table := s.sish.table.(tunnels := s.sish.table.tunnels[t.id := t]), pending := None)))
  {
  }

  lemma EndLeads(s: System, id: string, event: string)
    requires s.sish.pending == None && id != "" && id in s.sish.table.tunnels && Fresh(s, event)
    ensures var n := s.sish.table.sequence + 1;
      Leads(s, Unregister(id, event), s.(
        sish := s.sish.(table := s.sish.table.(tunnels := s.sish.table.tunnels - {id}, sequence := n)),
        net := s.net.(disconnects := s.net.disconnects[event := DisconnectPost(id, s.sish.source, n)])))
  {
  }

  lemma EndDelivered(s: System, event: string, x: Index)
    requires event in s.net.disconnects
    requires var post := s.net.disconnects[event];
      DisconnectIndex(s.db.index, post.id, post.source, event, post.sequence) == Ok(x)
    ensures Leads(s, DeliverDisconnect(event), s.(db := s.db.(index := x)))
  {
  }

  lemma SyncFailsLeads(s: System)
    ensures Leads(s, SyncFails, s.(db := s.db.(index := MarkStale(s.db.index))))
  {
  }

  lemma RetryLeads(s: System, i: nat, attempts: nat, available: int)
    requires i < |s.db.outbox| && !s.db.outbox[i].completed
    ensures Leads(s, Retry(i, attempts, available), s.(db := s.db.(outbox :=
              s.db.outbox[i := s.db.outbox[i].(attempts := attempts, available := available)])))
  {
  }

  /** The index once the first tunnel has ended. */
  function Ended(host: string): Index {
    Index(map["t" := Row(1, 1, Http, host, 0, 1, 2, Disconnected)], map["t" := Cursor("s", 2, true)],
          map["e" := EventKey("s", 1), "f" := EventKey("s", 2)], "", 2, false, {})
  }

  lemma EndIndexed(host: string)
    ensures DisconnectIndex(Bound(host), "t", "s", "f", 2) == Ok(Ended(host))
  {
    var x, y := Bound(host), Ended(host);
    assert !SequenceUsed(x, "s", 2);
    assert CloseOlder(x.tunnels, "t", 2) == y.tunnels;
    assert x.cursors["t" := Cursor("s", 2, true)] == y.cursors;
    assert x.events["f" := EventKey("s", 2)] == y.events;
  }

  /** After a synchronization has failed, a tunnel that is stale in the index and waits to be served is
      served, ends, and is closed in the index: the four steps after the first seven. */
  lemma TunnelEnds(s: System, host: string) returns (s1: System, s2: System, s3: System, s4: System)
    requires s.sish.pending == Some(Pending(TunnelFor(host), "e", true)) && s.db.index == Bound(host)
    requires s.sish.source == "s" && s.sish.table.sequence == 1
    requires s.net.connects.Keys == {"e"} && s.net.disconnects == map[]
    requires |s.db.outbox| > 0 && !s.db.outbox[0].completed
    ensures Leads(s, Finish, s1) && Leads(s1, Unregister("t", "f"), s2)
    ensures Leads(s2, DeliverDisconnect("f"), s3) && Leads(s3, SyncFails, s4)
    ensures "t" in s1.sish.table.tunnels && s1.sish.table.tunnels["t"] == TunnelFor(host)
    ensures "t" !in s2.sish.table.tunnels && s2.net.disconnects == map["f" := DisconnectPost("t", "s", 2)]
    ensures s3.db == s.db.(index := Ended(host)) && s4.db == s.db.(index := MarkStale(Ended(host)))
  {
    FinishLeads(s, TunnelFor(host), "e");
    s1 := s.(sish := s.sish.(
      table := s.sish.table.(tunnels := s.sish.table.tunnels["t" := TunnelFor(host)]), pending := None));
    EndLeads(s1, "t", "f");
    s2 := s1.(sish := s1.sish.(table := s1.sish.table.(tunnels := s1.sish.table.tunnels - {"t"}, sequence := 2)),
              net := s1.net.(disconnects := s1.net.disconnects["f" := DisconnectPost("t", "s", 2)]));
    EndIndexed(host);
    EndDelivered(s2, "f", Ended(host));
    s3 := s2.(db := s2.db.(index := Ended(host)));
    SyncFailsLeads(s3);
    s4 := s3.(db := s3.db.(index := MarkStale(s3.db.index)));
  }

  /** A run in which a tunnel is bound, served, ended, and closed in the index, a synchronization fails, and
      an item of the outbox is put back. */
  lemma LifeRun() returns (states: seq<System>, steps: seq<Step>, host: string)
    ensures Run(states, steps) && |steps| == 12
    ensures var s := states[12];
      && "t" in s.db.index.tunnels && s.db.index.tunnels["t"].status == Disconnected
      && s.db.outbox == [Item(WriteKey(1, 0), KeyAdded(1), false, 1, 2)]
  {
    states, steps, host := BoundRun();
    var s := states[7];
    var s1, s2, s3, s4 := TunnelEnds(s, host);
    states, steps := ExtendToFourth(states, steps, Finish, s1, Unregister("t", "f"), s2, DeliverDisconnect("f"), s3,
                                    SyncFails, s4);
    RetryLeads(s4, 0, 1, 2);
    states, steps := ExtendTo(states, steps, Retry(0, 1, 2),
                              s4.(db := s4.db.(outbox := s4.db.outbox[0 := s4.db.outbox[0].(attempts := 1, available := 2)])));
  }

  // ------------------------------------------------------------ binds were authorized

  /** The control plane has authorized this grant before state i, and sish has found it clear since. */
  ghost predicate Authorized(states: seq<System>, steps: seq<Step>, i: nat, g: Grant)
    requires i <= |steps| < |states|
  {
    exists j, k :: 0 <= j < k < i && AnswersWith(steps[j], g) && steps[k] == Accept(g) && !Barred(states[k].sish.table, g.principal)
  }

  predicate AnswersWith(a: Step, g: Grant) {
    a.Answer? && a.grant == g
  }

  ghost predicate Answered(steps: seq<Step>, i: nat, g: Grant)
    requires i <= |steps|
  {
    exists j :: 0 <= j < i && AnswersWith(steps[j], g)
  }

  lemma GrantsComeFrom(s: System, a: Step, g: Grant)
    requires Can(s, a)
    ensures g in Do(s, a).sish.answers ==> g in s.sish.answers || AnswersWith(a, g)
    ensures g in Do(s, a).sish.grants ==> g in s.sish.grants || a == Accept(g)
    ensures a == Accept(g) ==> g in s.sish.answers && !Barred(s.sish.table, g.principal)
  {
  }

  lemma {:induction false} GrantsAreAuthorized(states: seq<System>, steps: seq<Step>, i: nat, g: Grant)
    requires Run(states, steps) && i < |states|
    ensures g in states[i].sish.answers ==> Answered(steps, i, g)
    ensures g in states[i].sish.grants ==> Authorized(states, steps, i, g)
  {
    if i > 0 {
      GrantsAreAuthorized(states, steps, i - 1, g);
      assert TakesStep(states, steps, i - 1);
      GrantsComeFrom(states[i - 1], steps[i - 1], g);
      AuthorizedStays(states, steps, i - 1, g);
    }
  }

  lemma AuthorizedStays(states: seq<System>, steps: seq<Step>, i: nat, g: Grant)
    requires i < |steps| < |states|
    ensures Answered(steps, i, g) || AnswersWith(steps[i], g) ==> Answered(steps, i + 1, g)
    ensures Authorized(states, steps, i, g) ==> Authorized(states, steps, i + 1, g)
    ensures Answered(steps, i, g) && steps[i] == Accept(g) && !Barred(states[i].sish.table, g.principal) ==>
      Authorized(states, steps, i + 1, g)
  {
    if j :| 0 <= j < i && AnswersWith(steps[j], g) {
      assert Answered(steps, i + 1, g);
    }
    if j, k :| 0 <= j < k < i && AnswersWith(steps[j], g) && steps[k] == Accept(g)
               && !Barred(states[k].sish.table, g.principal) {
      assert Authorized(states, steps, i + 1, g);
    }
  }

  /** Every registration of a run was authorized by the control plane, was found clear by sish after that,
      and is clear when it begins. */
  lemma BindsWereAuthorized(states: seq<System>, steps: seq<Step>, i: nat)
    requires Run(states, steps) && i < |steps| && steps[i].Begin?
    ensures Authorized(states, steps, i, steps[i].grant)
    ensures !Barred(states[i].sish.table, steps[i].grant.principal)
  {
    GrantsAreAuthorized(states, steps, i, steps[i].grant);
    assert TakesStep(states, steps, i);
  }

  // ------------------------------------------------------------- completed is final

  predicate WorksOn(a: Step, item: nat) {
    (a.Send? && a.item == item) || (a.Complete? && a.item == item) || (a.Retry? && a.item == item)
  }

  lemma CompletedStays(s: System, a: Step, item: nat)
    requires Can(s, a) && Sound(s.db) && item < |s.db.outbox| && s.db.outbox[item].completed
    ensures item < |Do(s, a).db.outbox| && Do(s, a).db.outbox[item] == s.db.outbox[item]
    ensures !WorksOn(a, item)
  {
    if a.Mutate? {
      NothingSwallowed(s.db, a.m);
    } else if TouchesIndexOnly(a) {
      DbFrame(s, a);
    }
  }

  /** An item that has been completed is never changed, sent or completed again. */
  lemma {:induction false} CompletedIsFinal(states: seq<System>, steps: seq<Step>, i: nat, j: nat, item: nat)
    requires Run(states, steps) && i <= j < |states|
    requires item < |states[i].db.outbox| && states[i].db.outbox[item].completed
    ensures item < |states[j].db.outbox| && states[j].db.outbox[item] == states[i].db.outbox[item]
    ensures j < |steps| ==> !WorksOn(steps[j], item)
    decreases j
  {
    if i < j {
      CompletedIsFinal(states, steps, i, j - 1, item);
      SoundAlways(states, steps, j - 1);
      assert TakesStep(states, steps, j - 1);
      CompletedStays(states[j - 1], steps[j - 1], item);
    }
    if j < |steps| {
      SoundAlways(states, steps, j);
      assert TakesStep(states, steps, j);
      CompletedStays(states[j], steps[j], item);
    }
  }
}
