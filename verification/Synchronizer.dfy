/**
 The control plane fetches snapshots one after the other: a snapshot is reconciled before the next
 one is fetched.  So what is reconciled comes from the sish process the last fetch reached, and the
 running process is never retired.
 */
module Synchronizer {
  import opened Hostnames
  import opened Tables
  import opened Lifecycle
  import opened Registry
  import opened Coordination
  import opened Safety
  import opened Theorems
  import opened Mirror

  /** The process the last snapshot in front of state i was taken from. */
  function LastTaken(states: seq<System>, steps: seq<Step>, i: nat): Option<string>
    requires i <= |steps| && |states| == |steps| + 1
  {
    if i == 0 then None
    else if steps[i - 1].TakeSnapshot? then Some(states[i - 1].sish.source)
    else LastTaken(states, steps, i - 1)
  }

  /** Fetches do not overlap: a snapshot that is reconciled is of the process the last fetch
      reached.  Fetched snapshots may be lost, and sish may have restarted since. */
  ghost predicate Sequential(states: seq<System>, steps: seq<Step>)
    requires |states| == |steps| + 1
  {
    forall i :: 0 <= i < |steps| && steps[i].DeliverSnapshot? ==>
      LastTaken(states, steps, i) == Some(steps[i].snapshot.source)
  }

  /** The sources the index has followed are processes that have existed. */
  ghost predicate SourcesKnown(s: System) {
    && s.db.index.retired <= s.past.sources
    && (s.db.index.source == "" || s.db.index.source in s.past.sources)
    && (forall snapshot :: snapshot in s.net.snapshots ==> snapshot.source in s.past.sources)
    && s.sish.source in s.past.sources
  }

  /** The running process has not been retired, and if the index follows it, it was also the last
      one a snapshot was taken from. */
  ghost predicate Current(s: System, last: Option<string>) {
    && s.sish.source !in s.db.index.retired
    && (s.db.index.source == s.sish.source ==> last == Some(s.sish.source))
  }

  function TakenAfter(s: System, a: Step, last: Option<string>): Option<string> {
    if a.TakeSnapshot? then Some(s.sish.source) else last
  }

  // ------------------------------------------------------------------------ steps

  /** Everything here that tells sish processes apart is as before. */
  ghost predicate SameSources(s: System, s': System) {
    && SameFollowed(s.db.index, s'.db.index) && s'.sish.source == s.sish.source
    && s'.past.sources == s.past.sources && s'.net.snapshots == s.net.snapshots
  }

  predicate SameFollowed(x: Index, y: Index) {
    y.source == x.source && y.retired == x.retired
  }

  predicate MovesSources(a: Step) {
    a.DeliverSnapshot? || a.TakeSnapshot? || a.Restart?
  }

  lemma MutationKeepsSource(db: Db, m: Mutation)
    requires Sound(db) && Allowed(db.rights, m)
    ensures SameFollowed(db.index, After(db, m).index)
  {
    if After(db, m) != db {
      var _ := MutationPlan(db, m);
    }
  }

  lemma ConnectIndexKeepsSource(x: Index, t: Tunnel, source: string, event: string)
    ensures SameFollowed(x, OrElse(ConnectIndex(x, t, source, event), x))
  {
  }

  lemma ConnectKeepsSource(s: System, event: string)
    requires NormalDomain(s.domain) && Registered(s) && event in s.net.connects
    ensures SameSources(s, AfterConnect(s, event))
  {
    var post := s.net.connects[event];
    ConnectStepIndex(s, event);
    ConnectIndexKeepsSource(s.db.index, post.tunnel, post.source, event);
  }

  lemma SnapshotMovesSource(r: Rights, x: Index, s: Snapshot)
    ensures var y := OrElse(ReconcileIndex(r, x, s), x);
      if SnapshotError(x, s).Some? then y == x
      else y.source == s.source
           && y.retired == (if s.source != x.source && x.source != "" then x.retired + {x.source} else x.retired)
  {
    if SnapshotError(x, s).None? {
      RestoreKeepsSources(r, Prepared(x, s), s, |s.tunnels|);
    }
  }

  lemma OnIndexKeepsSources(s: System, a: Step)
    requires NormalDomain(s.domain) && Sound(s.db) && Registered(s) && Can(s, a)
    requires OnIndex(a) && !a.DeliverSnapshot?
    ensures SameSources(s, Do(s, a))
  {
    if a.Mutate? {
      MutationKeepsSource(s.db, a.m);
    } else if a.DeliverConnect? {
      ConnectKeepsSource(s, a.event);
    }
  }

  /** Only a snapshot, taken or accepted, and a restart concern the sources. */
  lemma SourceFrame(s: System, a: Step)
    requires NormalDomain(s.domain) && Sound(s.db) && Registered(s) && Can(s, a) && !MovesSources(a)
    ensures SameSources(s, Do(s, a))
  {
    if OnIndex(a) {
      OnIndexKeepsSources(s, a);
    } else {
      IndexFrame(s, a);
    }
  }

  lemma SnapshotDelivered(s: System, snapshot: Snapshot)
    requires Can(s, DeliverSnapshot(snapshot))
    ensures var s' := Do(s, DeliverSnapshot(snapshot));
      && s' == s.(db := s.db.(index := s'.db.index))
      && if SnapshotError(s.db.index, snapshot).Some? then s' == s
         else s'.db.index.source == snapshot.source
              && s'.db.index.retired == (if snapshot.source != s.db.index.source && s.db.index.source != ""
                                         then s.db.index.retired + {s.db.index.source} else s.db.index.retired)
  {
    SnapshotMovesSource(s.db.rights, s.db.index, snapshot);
  }

  lemma KnownStep(s: System, a: Step)
    requires NormalDomain(s.domain) && Sound(s.db) && Registered(s) && Can(s, a) && SourcesKnown(s)
    ensures SourcesKnown(Do(s, a))
  {
    if !MovesSources(a) {
      SourceFrame(s, a);
    } else if a.DeliverSnapshot? {
      SnapshotDelivered(s, a.snapshot);
    }
  }

  lemma CurrentStep(s: System, a: Step, last: Option<string>)
    requires NormalDomain(s.domain) && Sound(s.db) && Registered(s) && Can(s, a) && SourcesKnown(s)
    requires Current(s, last) && (a.DeliverSnapshot? ==> last == Some(a.snapshot.source))
    ensures Current(Do(s, a), TakenAfter(s, a, last))
  {
    if !MovesSources(a) {
      SourceFrame(s, a);
    } else if a.DeliverSnapshot? {
      SnapshotDelivered(s, a.snapshot);
    }
  }

  lemma KnownStepAt(states: seq<System>, steps: seq<Step>, i: nat)
    requires Run(states, steps) && i < |steps| && SourcesKnown(states[i])
    ensures SourcesKnown(states[i + 1])
  {
    SoundAlways(states, steps, i);
    RegisteredAlways(states, steps, i);
    assert TakesStep(states, steps, i);
    KnownStep(states[i], steps[i]);
  }

  lemma {:induction false} KnownAlways(states: seq<System>, steps: seq<Step>, i: nat)
    requires Run(states, steps) && i < |states|
    ensures SourcesKnown(states[i])
  {
    if i > 0 {
      KnownAlways(states, steps, i - 1);
      KnownStepAt(states, steps, i - 1);
    }
  }

  lemma CurrentStepAt(states: seq<System>, steps: seq<Step>, i: nat, last: Option<string>)
    requires Run(states, steps) && i < |steps| && Current(states[i], last)
    requires steps[i].DeliverSnapshot? ==> last == Some(steps[i].snapshot.source)
    ensures Current(states[i + 1], TakenAfter(states[i], steps[i], last))
  {
    SoundAlways(states, steps, i);
    RegisteredAlways(states, steps, i);
    KnownAlways(states, steps, i);
    assert TakesStep(states, steps, i);
    CurrentStep(states[i], steps[i], last);
  }

  lemma {:induction false} CurrentAlways(states: seq<System>, steps: seq<Step>, i: nat)
    requires Run(states, steps) && Sequential(states, steps) && i < |states|
    ensures Current(states[i], LastTaken(states, steps, i))
  {
    if i > 0 {
      CurrentAlways(states, steps, i - 1);
      CurrentStepAt(states, steps, i - 1, LastTaken(states, steps, i - 1));
    }
  }

  // ------------------------------------------------------------------ main results

  /** With one fetch after the other the running sish process is never retired. */
  lemma RunningIsNeverRetired(states: seq<System>, steps: seq<Step>, i: nat)
    requires Run(states, steps) && Sequential(states, steps) && i < |states|
    ensures states[i].sish.source !in states[i].db.index.retired
  {
    CurrentAlways(states, steps, i);
  }

  /** At every moment at which the lock is free, a snapshot taken and reconciled on the spot is
      accepted, and leaves open exactly the tunnels of the registry that hold their right, each with
      the registry's own data. */
  lemma IndexMirrorsRegistry(states: seq<System>, steps: seq<Step>, i: nat, list: seq<Tunnel>, id: string)
    requires Run(states, steps) && Sequential(states, steps)
    requires i < |states| && Can(states[i], TakeSnapshot(list))
    ensures var s := states[i];
      var r := ReconcileIndex(s.db.rights, s.db.index, Snapshot(s.sish.source, s.sish.table.sequence, list));
      && r.Ok?
      && (Open(r.value, id) <==> id in s.sish.table.tunnels && ListedEntitled(s.db.rights, s.sish.table.tunnels[id]))
      && (Open(r.value, id) ==>
            Agrees(r.value.tunnels[id], s.sish.table.tunnels[id]) && r.value.tunnels[id].status.Active?)
  {
    RunningIsNeverRetired(states, steps, i);
    MirrorsUnlessRetired(states, steps, i, list, id);
  }

  // ------------------------------------------------------------- overlapping fetches

  /** This step moves the index from the running process to another one. */
  predicate Leaves(s: System, a: Step) {
    && a.DeliverSnapshot? && s.db.index.source == s.sish.source
    && a.snapshot.source != s.sish.source && SnapshotError(s.db.index, a.snapshot).None?
  }

  lemma RetiredStep(s: System, a: Step)
    requires NormalDomain(s.domain) && Sound(s.db) && Registered(s) && Can(s, a) && SourcesKnown(s)
    ensures var s' := Do(s, a);
      s'.sish.source in s'.db.index.retired <==>
        s'.sish.source == s.sish.source && (s.sish.source in s.db.index.retired || Leaves(s, a))
  {
    if !MovesSources(a) {
      SourceFrame(s, a);
    } else if a.DeliverSnapshot? {
      SnapshotDelivered(s, a.snapshot);
    }
  }

  /** The running process of state i was left by the index before. */
  ghost predicate LeftBefore(states: seq<System>, steps: seq<Step>, i: nat)
    requires i < |states| && |states| == |steps| + 1
  {
    exists j: nat :: j < i && states[j].sish.source == states[i].sish.source && Leaves(states[j], steps[j])
  }

  lemma {:induction false} SourceNeverReturns(states: seq<System>, steps: seq<Step>, j: nat, i: nat)
    requires Run(states, steps) && j <= i < |states|
    ensures states[j].sish.source in states[i].past.sources
    decreases i - j
  {
    KnownAlways(states, steps, i);
    if j < i {
      SourceNeverReturns(states, steps, j, i - 1);
      assert TakesStep(states, steps, i - 1);
      SourcesGrow(states[i - 1], steps[i - 1]);
    }
  }

  lemma SourcesGrow(s: System, a: Step)
    requires Can(s, a)
    ensures s.past.sources <= Do(s, a).past.sources
    ensures Do(s, a).sish.source != s.sish.source ==> Do(s, a).sish.source !in s.past.sources
  {
  }

  lemma RetiredStepAt(states: seq<System>, steps: seq<Step>, i: nat)
    requires Run(states, steps) && i < |steps|
    ensures var s, s' := states[i], states[i + 1];
      && (s'.sish.source in s'.db.index.retired <==>
            s'.sish.source == s.sish.source && (s.sish.source in s.db.index.retired || Leaves(s, steps[i])))
      && (s'.sish.source != s.sish.source ==> s'.sish.source !in s.past.sources)
  {
    SoundAlways(states, steps, i);
    RegisteredAlways(states, steps, i);
    KnownAlways(states, steps, i);
    assert TakesStep(states, steps, i);
    RetiredStep(states[i], steps[i]);
    SourcesGrow(states[i], steps[i]);
  }

  /** If deliveries could overtake one another, the running process would be retired exactly when,
      since it started, a snapshot of another process was accepted after one of its own. */
  lemma {:induction false} RetiredExactlyWhen(states: seq<System>, steps: seq<Step>, i: nat)
    requires Run(states, steps) && i < |states|
    ensures states[i].sish.source in states[i].db.index.retired <==> LeftBefore(states, steps, i)
  {
    if i > 0 {
      RetiredExactlyWhen(states, steps, i - 1);
      RetiredStepAt(states, steps, i - 1);
      forall j: nat | j < i && states[j].sish.source == states[i].sish.source
        ensures states[i].sish.source == states[i - 1].sish.source
      {
        SourceNeverReturns(states, steps, j, i - 1);
      }
    }
  }

  lemma EmptySnapshotAdopts(s: System, snapshot: Snapshot)
    requires snapshot in s.net.snapshots && snapshot.tunnels == [] && snapshot.source != ""
    requires snapshot.source != s.db.index.source && snapshot.source !in s.db.index.retired
    ensures Can(s, DeliverSnapshot(snapshot))
    ensures var s' := Do(s, DeliverSnapshot(snapshot));
      && s'.sish == s.sish && s'.net == s.net && s'.db.index.source == snapshot.source
      && s'.db.index.retired
           == if s.db.index.source != "" then s.db.index.retired + {s.db.index.source} else s.db.index.retired
  {
    SnapshotMovesSource(s.db.rights, s.db.index, snapshot);
  }

  lemma EmptySnapshotTaken(s: System)
    requires s.sish.pending.None? && s.sish.table.tunnels == map[]
    ensures Can(s, TakeSnapshot([]))
    ensures Do(s, TakeSnapshot([]))
         == s.(net := s.net.(snapshots := s.net.snapshots + {Snapshot(s.sish.source, s.sish.table.sequence, [])}))
  {
  }

  lemma Restarted(s: System, source: string)
    requires source != "" && source !in s.past.sources
    ensures Can(s, Restart(source)) && Do(s, Restart(source)) == AfterRestart(s, source)
  {
  }

  /** It takes two fetches at once: one reaches sish before a restart, one after it, and the first is
      reconciled last. */
  lemma OverlapRetires() returns (states: seq<System>, steps: seq<Step>)
    ensures Run(states, steps) && |steps| == 5
    ensures states[5].sish.source in states[5].db.index.retired
    ensures !Sequential(states, steps)
  {
    var s0 := FromScratch();
    EmptySnapshotTaken(s0);
    states, steps := Extend([s0], [], TakeSnapshot([]));
    Restarted(states[1], "t");
    states, steps := Extend(states, steps, Restart("t"));
    EmptySnapshotTaken(states[2]);
    states, steps := Extend(states, steps, TakeSnapshot([]));
    var first, second := Snapshot("s", 0, []), Snapshot("t", 0, []);
    EmptySnapshotAdopts(states[3], second);
    states, steps := Extend(states, steps, DeliverSnapshot(second));
    EmptySnapshotAdopts(states[4], first);
    states, steps := Extend(states, steps, DeliverSnapshot(first));
    if Sequential(states, steps) {
      RunningIsNeverRetired(states, steps, 5);
    }
  }
}
