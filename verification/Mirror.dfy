/**
 The index follows the registry: a snapshot that is taken and delivered at once makes the open
 rows equal to the tunnels sish serves that hold their right.
 */
module Mirror {
  import opened Hostnames
  import opened Tables
  import opened Lifecycle
  import opened Registry
  import opened Coordination
  import opened Safety

  /** Nothing the running sish process has sent, and nothing the index has recorded of it, is
      ahead of the process's own counter; and the index only knows processes that have existed. */
  ghost predicate PostsNumbered(s: System) {
    var n := s.sish.table.sequence;
    && n >= 0
    && (forall e :: e in s.net.connects && s.net.connects[e].source == s.sish.source ==>
          s.net.connects[e].tunnel.sequence <= n)
    && (forall e :: e in s.net.disconnects && s.net.disconnects[e].source == s.sish.source ==>
          s.net.disconnects[e].sequence <= n)
    && (forall x :: x in s.net.snapshots ==>
          x.sequence >= 0 && x.source in s.past.sources && (x.source == s.sish.source ==> x.sequence <= n))
  }

  /** The same for an index x. */
  ghost predicate IndexNumbered(s: System, x: Index) {
    && (x.source == "" || x.source in s.past.sources)
    && (x.source == s.sish.source ==> x.lastSequence <= s.sish.table.sequence)
    && (forall id :: id in x.tunnels && id in s.past.births && s.past.births[id].source == s.sish.source ==>
          x.tunnels[id].sequence <= s.sish.table.sequence)
  }

  ghost predicate Numbered(s: System) {
    PostsNumbered(s) && IndexNumbered(s, s.db.index)
  }

  lemma RestartPosts(s: System, a: Step)
    requires a.Restart? && Can(s, a) && Registered(s) && PostsNumbered(s)
    ensures PostsNumbered(Do(s, a))
  {
    forall e | e in s.net.connects ensures s.net.connects[e].source != a.source {
      assert BirthSound(s, s.net.connects[e].tunnel.id);
    }
    forall e | e in s.net.disconnects ensures s.net.disconnects[e].source != a.source {
      assert BirthSound(s, s.net.disconnects[e].id);
    }
  }

  /** While a sish process runs its counter does not go back. */
  lemma CounterGrows(s: System, a: Step)
    requires Can(s, a) && !a.Restart?
    ensures Do(s, a).sish.source == s.sish.source && Do(s, a).past.sources == s.past.sources
    ensures Do(s, a).sish.table.sequence >= s.sish.table.sequence
  {
  }

  /** Nothing new is on the net, and the counter has not gone back. */
  lemma PostsNumberedCarry(s: System, s': System)
    requires PostsNumbered(s) && s'.net == s.net && s'.past.sources == s.past.sources
    requires s'.sish.source == s.sish.source && s'.sish.table.sequence >= s.sish.table.sequence
    ensures PostsNumbered(s')
  {
  }

  lemma BeginPostsNumbered(s: System, g: Grant, id: string, bound: int, event: string)
    requires PostsNumbered(s)
    ensures PostsNumbered(AfterBegin(s, g, id, bound, event))
  {
  }

  lemma RemovalPostsNumbered(s: System, id: string, event: string)
    requires PostsNumbered(s)
    ensures PostsNumbered(AfterUnregister(s, id, event))
  {
  }

  lemma PostingNumbered(s: System, a: Step)
    requires Can(s, a) && Posts(a) && PostsNumbered(s) && s.sish.source in s.past.sources
    ensures PostsNumbered(Do(s, a))
  {
    if a.Begin? {
      BeginPostsNumbered(s, a.grant, a.id, a.bound, a.event);
    } else if a.Unregister? {
      RemovalPostsNumbered(s, a.id, a.event);
    } else if a.CleanUp? {
      RemovalPostsNumbered(s, a.id, a.event);
    }
  }

  lemma PostsNumberedStep(s: System, a: Step)
    requires Can(s, a) && Registered(s) && PostsNumbered(s)
    ensures PostsNumbered(Do(s, a))
  {
    if a.Restart? {
      RestartPosts(s, a);
    } else if Posts(a) {
      PostingNumbered(s, a);
    } else {
      CounterGrows(s, a);
      NetFrame(s, a);
      PostsNumberedCarry(s, Do(s, a));
    }
  }

  lemma ConnectNumbered(s: System, x: Index, t: Tunnel, source: string, event: string)
    requires IndexNumbered(s, x) && Born(s, t, source) && source in s.past.sources && s.sish.source != ""
    requires source == s.sish.source ==> t.sequence <= s.sish.table.sequence
    ensures IndexNumbered(s, OrElse(ConnectIndex(x, t, source, event), x))
  {
  }

  lemma DisconnectNumbered(s: System, x: Index, id: string, source: string, event: string, sequence: int)
    requires IndexNumbered(s, x) && id in s.past.births && s.past.births[id].source == source
    requires s.sish.source != ""
    requires source == s.sish.source ==> sequence <= s.sish.table.sequence
    ensures IndexNumbered(s, OrElse(DisconnectIndex(x, id, source, event, sequence), x))
  {
  }

  /** The part of the bound that concerns rows. */
  ghost predicate RowsNumbered(s: System, x: Index) {
    forall id :: id in x.tunnels && id in s.past.births && s.past.births[id].source == s.sish.source ==>
      x.tunnels[id].sequence <= s.sish.table.sequence
  }

  lemma OneRestoredNumbered(s: System, r: Rights, x: Index, snapshot: Snapshot, t: Tunnel)
    requires RowsNumbered(s, x) && t.id in s.past.births && s.past.births[t.id].source == snapshot.source
    requires snapshot.source == s.sish.source ==> snapshot.sequence <= s.sish.table.sequence
    ensures RowsNumbered(s, Restore(r, x, snapshot, t))
  {
  }

  lemma {:induction false} RestoreNumbered(s: System, x: Index, snapshot: Snapshot, n: nat)
    requires n <= |snapshot.tunnels| && Lists(s.past.births, snapshot) && RowsNumbered(s, x)
    requires snapshot.source == s.sish.source ==> snapshot.sequence <= s.sish.table.sequence
    ensures RowsNumbered(s, RestoreFirst(s.db.rights, x, snapshot, n))
  {
    if n > 0 {
      RestoreNumbered(s, x, snapshot, n - 1);
      OneRestoredNumbered(s, s.db.rights, RestoreFirst(s.db.rights, x, snapshot, n - 1), snapshot, snapshot.tunnels[n - 1]);
    }
  }

  /** Rows swept by a snapshot of the running process stand at its sequence; rows swept by any
      other are of another process. */
  lemma AdoptNumbered(s: System, x: Index)
    requires RowsNumbered(s, x) && s.sish.table.sequence >= 0
    ensures RowsNumbered(s, Adopt(x))
  {
  }

  /** Closing the rows the snapshot has seen leaves them at its sequence. */
  lemma SweepNumbered(s: System, x: Index, snapshot: Snapshot)
    requires RowsNumbered(s, x)
    requires forall id :: (id in x.tunnels && id in s.past.births && s.past.births[id].source == s.sish.source
                           && !x.tunnels[id].status.Disconnected?) ==> snapshot.sequence <= s.sish.table.sequence
    ensures RowsNumbered(s, Sweep(x, snapshot))
  {
  }

  lemma PreparedNumbered(s: System, x: Index, snapshot: Snapshot)
    requires PostsNumbered(s) && IndexSound(x, s.past.births) && IndexNumbered(s, x)
    requires snapshot in s.net.snapshots && SnapshotError(x, snapshot).None?
    ensures RowsNumbered(s, Prepared(x, snapshot))
  {
    if snapshot.source != x.source {
      AdoptNumbered(s, x);
      AdoptClosesAll(x);
      SweepNumbered(s, Adopt(x), snapshot);
    } else {
      forall id | id in x.tunnels && id in s.past.births && s.past.births[id].source == s.sish.source
        && !x.tunnels[id].status.Disconnected?
        ensures snapshot.sequence <= s.sish.table.sequence
      {
        assert id in x.cursors && x.cursors[id].source == x.source;
      }
      SweepNumbered(s, x, snapshot);
    }
  }

  lemma AdoptClosesAll(x: Index)
    ensures forall id :: id in Adopt(x).tunnels ==> Adopt(x).tunnels[id].status.Disconnected?
  {
  }

  lemma SnapshotNumbered(s: System, snapshot: Snapshot)
    requires Registered(s) && Numbered(s) && IndexSound(s.db.index, s.past.births)
    requires snapshot in s.net.snapshots
    ensures IndexNumbered(s, OrElse(ReconcileIndex(s.db.rights, s.db.index, snapshot), s.db.index))
  {
    if SnapshotError(s.db.index, snapshot).None? {
      PreparedNumbered(s, s.db.index, snapshot);
      RestoreNumbered(s, Prepared(s.db.index, snapshot), snapshot, |snapshot.tunnels|);
    }
  }

  lemma MutationNumbered(s: System, m: Mutation)
    requires Sound(s.db) && Allowed(s.db.rights, m) && IndexNumbered(s, s.db.index)
    ensures IndexNumbered(s, After(s.db, m).index)
  {
    if After(s.db, m) != s.db {
      var _ := MutationPlan(s.db, m);
    }
  }

  lemma BeginNumbered(s: System, g: Grant, id: string, bound: int, event: string)
    requires IndexNumbered(s, s.db.index) && RowsBorn(s.db.index, s.past.births) && id !in s.past.births
    ensures IndexNumbered(AfterBegin(s, g, id, bound, event), s.db.index)
  {
  }

  lemma RestartNumbered(s: System, source: string)
    requires IndexNumbered(s, s.db.index) && RowsBorn(s.db.index, s.past.births) && Registered(s)
    requires source != "" && source !in s.past.sources
    ensures IndexNumbered(AfterRestart(s, source), s.db.index)
  {
    forall id | id in s.db.index.tunnels ensures s.past.births[id].source != source {
      assert BirthSound(s, id);
    }
  }

  lemma CounterNumbered(s: System, s': System, x: Index)
    requires IndexNumbered(s, x) && s'.past == s.past && s'.sish.source == s.sish.source
    requires s'.sish.table.sequence >= s.sish.table.sequence
    ensures IndexNumbered(s', x)
  {
  }

  /** Steps of sish alone: its counter does not go back, new ids are unknown to the index, and a
      restarted process has no rows yet. */
  lemma SishStepNumbered(s: System, a: Step)
    requires Can(s, a) && Registered(s) && RowsBorn(s.db.index, s.past.births) && IndexNumbered(s, s.db.index)
    ensures IndexNumbered(Do(s, a), s.db.index)
  {
    if a.Begin? {
      BeginNumbered(s, a.grant, a.id, a.bound, a.event);
    } else if a.Restart? {
      RestartNumbered(s, a.source);
    } else {
      ProcessFrame(s, a);
      CounterGrows(s, a);
      CounterNumbered(s, Do(s, a), s.db.index);
    }
  }

  lemma ConnectStepNumbered(s: System, event: string)
    requires NormalDomain(s.domain) && Registered(s) && Numbered(s) && event in s.net.connects
    ensures IndexNumbered(s, AfterConnect(s, event).db.index)
  {
    var post := s.net.connects[event];
    HandlerPassesThrough(s, post, event);
    assert BirthSound(s, post.tunnel.id);
    ConnectNumbered(s, s.db.index, post.tunnel, post.source, event);
  }

  lemma DisconnectStepNumbered(s: System, event: string)
    requires Registered(s) && Numbered(s) && event in s.net.disconnects
    ensures var post := s.net.disconnects[event];
      IndexNumbered(s, OrElse(DisconnectIndex(s.db.index, post.id, post.source, event, post.sequence), s.db.index))
  {
    var post := s.net.disconnects[event];
    DisconnectNumbered(s, s.db.index, post.id, post.source, event, post.sequence);
  }

  /** The bound only looks at the registrations, the running process and its counter. */
  lemma SameBound(s: System, s': System, x: Index)
    requires IndexNumbered(s, x) && s'.past == s.past && s'.sish.source == s.sish.source
    requires s'.sish.table.sequence == s.sish.table.sequence
    ensures IndexNumbered(s', x)
  {
  }

  lemma SishFrame(s: System, a: Step)
    requires Can(s, a) && OnIndex(a)
    ensures var s' := Do(s, a);
      && s'.past == s.past && s'.sish.source == s.sish.source && s'.sish.table == s.sish.table
  {
  }

  lemma OnIndexNumbered(s: System, a: Step)
    requires NormalDomain(s.domain) && Sound(s.db) && Registered(s) && IndexSound(s.db.index, s.past.births)
    requires Can(s, a) && Numbered(s) && OnIndex(a)
    ensures IndexNumbered(s, Do(s, a).db.index)
  {
    if a.Mutate? {
      MutationNumbered(s, a.m);
    } else if a.DeliverConnect? {
      ConnectStepNumbered(s, a.event);
    } else if a.DeliverDisconnect? {
      DisconnectStepNumbered(s, a.event);
    } else if a.DeliverSnapshot? {
      SnapshotNumbered(s, a.snapshot);
    }
  }

  lemma NumberedStep(s: System, a: Step)
    requires Inv(s) && Can(s, a) && Numbered(s)
    ensures Numbered(Do(s, a))
  {
    PostsNumberedStep(s, a);
    if OnIndex(a) {
      OnIndexNumbered(s, a);
      SishFrame(s, a);
      SameBound(s, Do(s, a), Do(s, a).db.index);
    } else {
      IndexFrame(s, a);
      SishStepNumbered(s, a);
    }
  }

  lemma NumberedStepAt(states: seq<System>, steps: seq<Step>, i: nat)
    requires Run(states, steps) && i < |steps| && Numbered(states[i])
    ensures Numbered(states[i + 1])
  {
    InvAlways(states, steps, i);
    assert TakesStep(states, steps, i);
    NumberedStep(states[i], steps[i]);
  }

  lemma {:induction false} NumberedAlways(states: seq<System>, steps: seq<Step>, i: nat)
    requires Run(states, steps) && i < |states|
    ensures Numbered(states[i])
  {
    if i > 0 {
      NumberedAlways(states, steps, i - 1);
      NumberedStepAt(states, steps, i - 1);
    }
  }

  /** While the running sish process has not been retired, a snapshot taken and reconciled on the
      spot is accepted, and leaves open exactly the tunnels of the registry that hold their right,
      each with the registry's own data. */
  lemma MirrorsUnlessRetired(states: seq<System>, steps: seq<Step>, i: nat, list: seq<Tunnel>, id: string)
    requires Run(states, steps) && i < |states| && Can(states[i], TakeSnapshot(list))
    requires states[i].sish.source !in states[i].db.index.retired
    ensures var s := states[i];
      var r := ReconcileIndex(s.db.rights, s.db.index, Snapshot(s.sish.source, s.sish.table.sequence, list));
      && r.Ok?
      && (Open(r.value, id) <==> id in s.sish.table.tunnels && ListedEntitled(s.db.rights, s.sish.table.tunnels[id]))
      && (Open(r.value, id) ==>
            Agrees(r.value.tunnels[id], s.sish.table.tunnels[id]) && r.value.tunnels[id].status.Active?)
  {
    var s := states[i];
    var snapshot := Snapshot(s.sish.source, s.sish.table.sequence, list);
    InvAlways(states, steps, i);
    NumberedAlways(states, steps, i);
    SnapshotIsExact(s.db.rights, s.db.index, s.past.births, snapshot, id);
    ListedIsRegistered(s, snapshot, id);
    assert Lists(s.past.births, snapshot);
    SnapshotKeepsIndex(s.db.rights, s.db.index, s.past.births, snapshot);
  }

  lemma ListedIsRegistered(s: System, snapshot: Snapshot, id: string)
    requires TunnelsBorn(s) && Enumerates(snapshot.tunnels, s.sish.table.tunnels)
    ensures Listed(s.db.rights, snapshot, |snapshot.tunnels|, id)
       <==> id in s.sish.table.tunnels && ListedEntitled(s.db.rights, s.sish.table.tunnels[id])
  {
    if id in s.sish.table.tunnels && ListedEntitled(s.db.rights, s.sish.table.tunnels[id]) {
      var k :| 0 <= k < |snapshot.tunnels| && snapshot.tunnels[k] == s.sish.table.tunnels[id];
      assert snapshot.tunnels[k].id == id;
    }
  }
}
