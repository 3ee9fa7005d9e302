/**
 How current the index is shown: what a failed synchronization does to it, and what it takes for a row
 to be active and for the index to be synchronized again.
 */
module Staleness {
  import opened Hostnames
  import opened Tables
  import opened Lifecycle
  import opened Registry
  import opened Coordination
  import opened Safety
  import opened Theorems

  /** In the fields: exactly the active rows become stale, with all their data kept; rows that are
      leaving or closed, and everything else, stay; and the index is not synchronized. */
  lemma StaleExactly(x: Index)
    ensures var y := MarkStale(x);
      && y == x.(tunnels := y.tunnels, synced := false)
      && (forall id :: id in y.tunnels <==> id in x.tunnels)
      && forall id :: id in x.tunnels ==>
           var row := x.tunnels[id];
           y.tunnels[id] ==
             if row.status == Active
             then Row(row.user, row.key, row.protocol, row.host, row.port, row.generation, row.sequence, Stale)
             else row
  {
  }

  predicate ActiveRow(x: Index, id: string) {
    id in x.tunnels && x.tunnels[id].status == Active
  }

  // ------------------------------------------------------------------------ steps

  /** The step is an accepted snapshot. */
  predicate Confirms(s: System, a: Step) {
    a.DeliverSnapshot? && SnapshotError(s.db.index, a.snapshot).None?
  }

  /** sish has been heard of this tunnel: its connect has been accepted, or a snapshot that lists it with
      its right. */
  ghost predicate Heard(s: System, a: Step, id: string) {
    || (a.DeliverConnect? && a.event in s.net.connects && s.net.connects[a.event].tunnel.id == id
        && HandleConnect(s.db, s.domain, s.net.connects[a.event].tunnel, s.net.connects[a.event].source, a.event).Ok?)
    || (Confirms(s, a) && Listed(s.db.rights, a.snapshot, |a.snapshot.tunnels|, id))
  }

  lemma ConnectActivates(x: Index, t: Tunnel, source: string, event: string, id: string)
    requires ConnectIndex(x, t, source, event).Ok?
    ensures ActiveRow(ConnectIndex(x, t, source, event).value, id) ==> ActiveRow(x, id) || id == t.id
    ensures ConnectIndex(x, t, source, event).value.synced == x.synced
  {
  }

  lemma ConnectedActivates(db: Db, t: Tunnel, name: string, source: string, event: string, id: string)
    requires Connect(db, t, name, source, event).Ok?
    ensures var y := Connect(db, t, name, source, event).value.index;
      (ActiveRow(y, id) ==> ActiveRow(db.index, id) || id == t.id) && y.synced == db.index.synced
  {
    ConnectActivates(db.index, t, source, event, id);
  }

  /** The callback either changes nothing or has been accepted. */
  lemma ConnectOutcome(s: System, event: string)
    requires event in s.net.connects
    ensures var post := s.net.connects[event];
      var r := HandleConnect(s.db, s.domain, post.tunnel, post.source, event);
      AfterConnect(s, event).db == OrElse(r, s.db)
  {
  }

  lemma DisconnectActivates(x: Index, t: string, source: string, event: string, sequence: int, id: string)
    ensures ActiveRow(OrElse(DisconnectIndex(x, t, source, event, sequence), x), id) ==> ActiveRow(x, id)
    ensures OrElse(DisconnectIndex(x, t, source, event, sequence), x).synced == x.synced
  {
  }

  lemma SnapshotActivates(r: Rights, x: Index, births: map<string, Birth>, s: Snapshot, id: string)
    requires IndexSound(x, births)
    ensures var y := OrElse(ReconcileIndex(r, x, s), x);
      if SnapshotError(x, s).Some? then y == x
      else y.synced && (ActiveRow(y, id) ==> Listed(r, s, |s.tunnels|, id))
  {
    if SnapshotError(x, s).None? {
      SweepClosesEverything(x, births, s);
      RestoreFirstOpens(r, Prepared(x, s), s, |s.tunnels|, id);
    }
  }

  lemma MutationActivates(db: Db, m: Mutation, id: string)
    requires Sound(db) && Allowed(db.rights, m)
    ensures ActiveRow(After(db, m).index, id) ==> ActiveRow(db.index, id)
    ensures After(db, m).index.synced == db.index.synced
  {
    if After(db, m) != db {
      var _ := MutationPlan(db, m);
    }
  }

  lemma ConnectStepActivates(s: System, event: string, id: string)
    requires NormalDomain(s.domain) && Registered(s) && event in s.net.connects
    ensures var y := AfterConnect(s, event).db.index;
      && (ActiveRow(y, id) ==> ActiveRow(s.db.index, id) || Heard(s, DeliverConnect(event), id))
      && y.synced == s.db.index.synced
  {
    var post := s.net.connects[event];
    ConnectOutcome(s, event);
    HandlerPassesThrough(s, post, event);
    if HandleConnect(s.db, s.domain, post.tunnel, post.source, event).Ok? {
      ConnectedActivates(s.db, post.tunnel, LabelOf(post.tunnel.host), post.source, event, id);
    }
  }

  lemma OnIndexActivates(s: System, a: Step, id: string)
    requires NormalDomain(s.domain) && Sound(s.db) && Registered(s) && IndexSound(s.db.index, s.past.births)
    requires Can(s, a) && OnIndex(a)
    ensures var y := Do(s, a).db.index;
      && (ActiveRow(y, id) ==> (ActiveRow(s.db.index, id) && !a.SyncFails?) || Heard(s, a, id))
      && y.synced == if a.SyncFails? then false else if Confirms(s, a) then true else s.db.index.synced
  {
    if a.Mutate? {
      MutationActivates(s.db, a.m, id);
    } else if a.DeliverConnect? {
      ConnectStepActivates(s, a.event, id);
    } else if a.DeliverDisconnect? {
      var post := s.net.disconnects[a.event];
      DisconnectActivates(s.db.index, post.id, post.source, a.event, post.sequence, id);
    } else if a.DeliverSnapshot? {
      SnapshotActivates(s.db.rights, s.db.index, s.past.births, a.snapshot, id);
    } else {
      StaleExactly(s.db.index);
    }
  }

  lemma StepActivates(states: seq<System>, steps: seq<Step>, i: nat, id: string)
    requires Run(states, steps) && i < |steps|
    ensures var x, y, a := states[i].db.index, states[i + 1].db.index, steps[i];
      && (ActiveRow(y, id) ==> (ActiveRow(x, id) && !a.SyncFails?) || Heard(states[i], a, id))
      && y.synced == if a.SyncFails? then false else if Confirms(states[i], a) then true else x.synced
  {
    InvAlways(states, steps, i);
    assert TakesStep(states, steps, i);
    if OnIndex(steps[i]) {
      OnIndexActivates(states[i], steps[i], id);
    } else {
      IndexFrame(states[i], steps[i]);
    }
  }

  // ------------------------------------------------------------------ main results

  /** After a failed synchronization a row is shown as active only if sish has been heard of that tunnel
      since. */
  lemma {:induction false} ActiveWasHeardSince(states: seq<System>, steps: seq<Step>, j: nat, i: nat, id: string)
    requires Run(states, steps) && j < i < |states| && steps[j].SyncFails?
    requires ActiveRow(states[i].db.index, id)
    ensures exists k :: j < k < i && Heard(states[k], steps[k], id)
    decreases i
  {
    StepActivates(states, steps, i - 1, id);
    if Heard(states[i - 1], steps[i - 1], id) {
      assert j < i - 1;
    } else {
      ActiveWasHeardSince(states, steps, j, i - 1, id);
    }
  }

  /** A snapshot has been accepted and no synchronization has failed since. */
  ghost predicate ConfirmedSince(states: seq<System>, steps: seq<Step>, i: nat)
    requires i < |states| && |states| == |steps| + 1
  {
    exists k :: 0 <= k < i && Confirms(states[k], steps[k]) && forall m :: k < m < i ==> !steps[m].SyncFails?
  }

  /** The index is shown as synchronized exactly then. */
  lemma {:induction false} SyncedExactlyWhen(states: seq<System>, steps: seq<Step>, i: nat)
    requires Run(states, steps) && i < |states|
    ensures states[i].db.index.synced <==> ConfirmedSince(states, steps, i)
  {
    if i > 0 {
      SyncedExactlyWhen(states, steps, i - 1);
      StepActivates(states, steps, i - 1, "");
      if Confirms(states[i - 1], steps[i - 1]) {
        assert ConfirmedSince(states, steps, i);
      } else if steps[i - 1].SyncFails? {
        assert !ConfirmedSince(states, steps, i);
      } else {
        assert ConfirmedSince(states, steps, i) <==> ConfirmedSince(states, steps, i - 1);
      }
    }
  }
}
