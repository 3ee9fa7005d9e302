/**
 Why a snapshot may leave a tunnel closed that it lists: the tunnel was closed by an event newer than
 the snapshot before the index had adopted any sish process.
 */
module Closings {
  import opened Hostnames
  import opened Tables
  import opened Lifecycle
  import opened Registry
  import opened Coordination
  import opened Safety
  import opened Theorems
  import opened Mirror

  /** A disconnect of a tunnel, at this number. */
  datatype Closing = Closing(id: string, sequence: int)

  /** What a step delivers of that kind while no process has been adopted. */
  function EarlyClosings(s: System, a: Step): set<Closing> {
    if a.DeliverDisconnect? && a.event in s.net.disconnects && s.db.index.source == "" then
      {Closing(s.net.disconnects[a.event].id, s.net.disconnects[a.event].sequence)}
    else {}
  }

  function EarlyBefore(states: seq<System>, steps: seq<Step>, i: nat): set<Closing>
    requires i <= |steps| && |states| == |steps| + 1
  {
    if i == 0 then {} else EarlyBefore(states, steps, i - 1) + EarlyClosings(states[i - 1], steps[i - 1])
  }

  /** Why a row of this process may be closed at q: the index follows the process and is at or beyond
      q, or has left it, or the row was closed early, or it was closed with all others. */
  predicate Explained(x: Index, source: string, id: string, q: int, early: set<Closing>) {
    || (source == x.source && q <= x.lastSequence)
    || source in x.retired
    || Closing(id, q) in early
    || q <= 0
  }

  ghost predicate RowExplained(x: Index, births: map<string, Birth>, early: set<Closing>, id: string) {
    id in x.tunnels && x.tunnels[id].status.Disconnected? ==>
      id in births && Explained(x, births[id].source, id, x.tunnels[id].sequence, early)
  }

  ghost predicate ClosedExplained(x: Index, births: map<string, Birth>, early: set<Closing>) {
    forall id :: RowExplained(x, births, early, id)
  }

  // ------------------------------------------------------------------- the index

  /** Explanations carry over to an index that has moved on by events. */
  lemma ExplainedCarries(x: Index, y: Index, births: map<string, Birth>, early: set<Closing>, early': set<Closing>,
                         id: string)
    requires RowExplained(x, births, early, id) && early <= early'
    requires y.source == x.source && y.retired == x.retired && y.lastSequence >= x.lastSequence
    requires id in y.tunnels && y.tunnels[id].status.Disconnected? ==> id in x.tunnels && y.tunnels[id] == x.tunnels[id]
    ensures RowExplained(y, births, early', id)
  {
  }

  lemma ConnectExplained(x: Index, births: map<string, Birth>, early: set<Closing>, t: Tunnel, source: string,
                         event: string)
    requires ClosedExplained(x, births, early)
    ensures ClosedExplained(OrElse(ConnectIndex(x, t, source, event), x), births, early)
  {
    var y := OrElse(ConnectIndex(x, t, source, event), x);
    forall id ensures RowExplained(y, births, early, id) {
      ExplainedCarries(x, y, births, early, early, id);
    }
  }

  lemma DisconnectExplained(x: Index, births: map<string, Birth>, early: set<Closing>, id: string, source: string,
                            event: string, sequence: int)
    requires ClosedExplained(x, births, early) && id in births && births[id].source == source
    ensures var early' := if x.source == "" then early + {Closing(id, sequence)} else early;
      ClosedExplained(OrElse(DisconnectIndex(x, id, source, event, sequence), x), births, early')
  {
    var y := OrElse(DisconnectIndex(x, id, source, event, sequence), x);
    var early' := if x.source == "" then early + {Closing(id, sequence)} else early;
    forall other ensures RowExplained(y, births, early', other) {
      if other == id && y.tunnels != x.tunnels {
        SourceFits(x, source);
      } else {
        ExplainedCarries(x, y, births, early, early', other);
      }
    }
  }

  lemma PreparedExplained(x: Index, births: map<string, Birth>, early: set<Closing>, s: Snapshot, id: string)
    requires IndexSound(x, births) && SnapshotError(x, s).None? && RowExplained(x, births, early, id)
    requires "" !in x.retired && (id in births ==> births[id].source != "")
    ensures RowExplained(Prepared(x, s).(source := s.source, lastSequence := s.sequence), births, early, id)
  {
  }

  /** The loop opens rows or leaves them alone. */
  lemma SnapshotExplained(r: Rights, x: Index, births: map<string, Birth>, early: set<Closing>, s: Snapshot)
    requires IndexSound(x, births) && ClosedExplained(x, births, early)
    requires forall id :: id in births ==> births[id].source != ""
    ensures ClosedExplained(OrElse(ReconcileIndex(r, x, s), x), births, early)
  {
    if SnapshotError(x, s).None? {
      var p, y := Prepared(x, s), OrElse(ReconcileIndex(r, x, s), x);
      SweepClosesEverything(x, births, s);
      RestoreKeepsSources(r, p, s, |s.tunnels|);
      forall id ensures RowExplained(y, births, early, id) {
        PreparedExplained(x, births, early, s, id);
        RestoreFirstOpens(r, p, s, |s.tunnels|, id);
      }
    }
  }

  lemma StaleExplained(x: Index, births: map<string, Birth>, early: set<Closing>)
    requires ClosedExplained(x, births, early)
    ensures ClosedExplained(MarkStale(x), births, early)
  {
    forall id ensures RowExplained(MarkStale(x), births, early, id) {
      ExplainedCarries(x, MarkStale(x), births, early, early, id);
    }
  }

  lemma MarkExplained(x: Index, births: map<string, Birth>, early: set<Closing>, e: Effect)
    requires ClosedExplained(x, births, early)
    ensures ClosedExplained(x.(tunnels := Mark(x.tunnels, e)), births, early)
  {
    var y := x.(tunnels := Mark(x.tunnels, e));
    forall id ensures RowExplained(y, births, early, id) {
      ExplainedCarries(x, y, births, early, early, id);
    }
  }

  lemma MutationExplained(db: Db, births: map<string, Birth>, early: set<Closing>, m: Mutation)
    requires Sound(db) && Allowed(db.rights, m) && ClosedExplained(db.index, births, early)
    ensures ClosedExplained(After(db, m).index, births, early)
  {
    if After(db, m) != db {
      var p := MutationPlan(db, m);
      if p.cut.Some? {
        MarkExplained(db.index, births, early, p.cut.value);
      }
    }
  }

  // -------------------------------------------------------------------- the steps

  lemma ConnectStepExplained(s: System, event: string, early: set<Closing>)
    requires NormalDomain(s.domain) && Registered(s) && event in s.net.connects
    requires ClosedExplained(s.db.index, s.past.births, early)
    ensures ClosedExplained(AfterConnect(s, event).db.index, s.past.births, early)
  {
    var post := s.net.connects[event];
    ConnectStepIndex(s, event);
    ConnectExplained(s.db.index, s.past.births, early, post.tunnel, post.source, event);
  }

  lemma SnapshotStepExplained(s: System, snapshot: Snapshot, early: set<Closing>)
    requires Registered(s) && IndexSound(s.db.index, s.past.births) && ClosedExplained(s.db.index, s.past.births, early)
    ensures ClosedExplained(OrElse(ReconcileIndex(s.db.rights, s.db.index, snapshot), s.db.index), s.past.births, early)
  {
    forall id | id in s.past.births ensures s.past.births[id].source != "" {
      assert BirthSound(s, id);
    }
    SnapshotExplained(s.db.rights, s.db.index, s.past.births, early, snapshot);
  }

  lemma DisconnectStepExplained(s: System, event: string, early: set<Closing>)
    requires Registered(s) && event in s.net.disconnects && ClosedExplained(s.db.index, s.past.births, early)
    ensures var post := s.net.disconnects[event];
      ClosedExplained(OrElse(DisconnectIndex(s.db.index, post.id, post.source, event, post.sequence), s.db.index),
                      s.past.births, early + EarlyClosings(s, DeliverDisconnect(event)))
  {
    var post := s.net.disconnects[event];
    DisconnectExplained(s.db.index, s.past.births, early, post.id, post.source, event, post.sequence);
    if s.db.index.source != "" {
      assert early + EarlyClosings(s, DeliverDisconnect(event)) == early;
    }
  }

  lemma OnIndexExplained(s: System, a: Step, early: set<Closing>)
    requires NormalDomain(s.domain) && Sound(s.db) && Registered(s) && IndexSound(s.db.index, s.past.births)
    requires Can(s, a) && OnIndex(a) && ClosedExplained(s.db.index, s.past.births, early)
    ensures ClosedExplained(Do(s, a).db.index, s.past.births, early + EarlyClosings(s, a))
  {
    if a.DeliverDisconnect? {
      DisconnectStepExplained(s, a.event, early);
    } else {
      assert early + EarlyClosings(s, a) == early;
      if a.Mutate? {
        MutationExplained(s.db, s.past.births, early, a.m);
      } else if a.DeliverConnect? {
        ConnectStepExplained(s, a.event, early);
      } else if a.DeliverSnapshot? {
        SnapshotStepExplained(s, a.snapshot, early);
      } else {
        StaleExplained(s.db.index, s.past.births, early);
      }
    }
  }

  lemma BirthsExplained(x: Index, births: map<string, Birth>, births': map<string, Birth>, early: set<Closing>)
    requires ClosedExplained(x, births, early)
    requires forall id :: id in births ==> id in births' && births'[id] == births[id]
    ensures ClosedExplained(x, births', early)
  {
    forall id ensures RowExplained(x, births', early, id) {
      assert RowExplained(x, births, early, id);
    }
  }

  lemma ExplainedStep(s: System, a: Step, early: set<Closing>)
    requires NormalDomain(s.domain) && Sound(s.db) && Registered(s) && IndexSound(s.db.index, s.past.births)
    requires Can(s, a) && ClosedExplained(s.db.index, s.past.births, early)
    ensures ClosedExplained(Do(s, a).db.index, Do(s, a).past.births, early + EarlyClosings(s, a))
  {
    if OnIndex(a) {
      OnIndexExplained(s, a, early);
    } else {
      IndexFrame(s, a);
      assert early + EarlyClosings(s, a) == early;
    }
    forall id | id in s.past.births ensures id in Do(s, a).past.births && Do(s, a).past.births[id] == s.past.births[id] {
      BirthsStand(s, a, id);
    }
    BirthsExplained(Do(s, a).db.index, s.past.births, Do(s, a).past.births, early + EarlyClosings(s, a));
  }

  lemma ExplainedStepAt(states: seq<System>, steps: seq<Step>, i: nat, early: set<Closing>)
    requires Run(states, steps) && i < |steps| && ClosedExplained(states[i].db.index, states[i].past.births, early)
    ensures ClosedExplained(states[i + 1].db.index, states[i + 1].past.births, early + EarlyClosings(states[i], steps[i]))
  {
    InvAlways(states, steps, i);
    assert TakesStep(states, steps, i);
    ExplainedStep(states[i], steps[i], early);
  }

  lemma {:induction false} ExplainedAlways(states: seq<System>, steps: seq<Step>, i: nat)
    requires Run(states, steps) && i < |states|
    ensures ClosedExplained(states[i].db.index, states[i].past.births, EarlyBefore(states, steps, i))
  {
    if i > 0 {
      ExplainedAlways(states, steps, i - 1);
      ExplainedStepAt(states, steps, i - 1, EarlyBefore(states, steps, i - 1));
    }
  }

  // ------------------------------------------------------------------- main result

  /** The step delivers a disconnect of this tunnel that is newer than the snapshot, to an index that
      has not adopted any process. */
  predicate OvertakesEarly(s: System, a: Step, snapshot: Snapshot, id: string) {
    && a.DeliverDisconnect? && a.event in s.net.disconnects && s.db.index.source == ""
    && s.net.disconnects[a.event].id == id && s.net.disconnects[a.event].sequence > snapshot.sequence
  }

  lemma {:induction false} EarlyMeans(states: seq<System>, steps: seq<Step>, i: nat, c: Closing) returns (j: nat)
    requires i <= |steps| && |states| == |steps| + 1 && c in EarlyBefore(states, steps, i)
    ensures j < i && c in EarlyClosings(states[j], steps[j])
  {
    if c in EarlyClosings(states[i - 1], steps[i - 1]) {
      j := i - 1;
    } else {
      j := EarlyMeans(states, steps, i - 1, c);
    }
  }

  /** A row that an accepted snapshot lists and finds closed and newer was closed early. */
  lemma OutdatedIsEarly(s: System, snapshot: Snapshot, id: string, early: set<Closing>)
    requires Registered(s) && IndexSound(s.db.index, s.past.births) && ClosedExplained(s.db.index, s.past.births, early)
    requires snapshot in s.net.snapshots && snapshot.sequence >= 0 && SnapshotError(s.db.index, snapshot).None?
    requires Listed(s.db.rights, snapshot, |snapshot.tunnels|, id) && Outdated(s.db.index, snapshot, id)
    ensures Closing(id, s.db.index.tunnels[id].sequence) in early
  {
    assert RowExplained(s.db.index, s.past.births, early, id);
    var k :| 0 <= k < |snapshot.tunnels| && snapshot.tunnels[k].id == id;
    assert Lists(s.past.births, snapshot);
  }

  lemma OutdatedWasOvertaken(states: seq<System>, steps: seq<Step>, i: nat, id: string) returns (j: nat)
    requires Run(states, steps) && i < |steps| && steps[i].DeliverSnapshot?
    requires SnapshotError(states[i].db.index, steps[i].snapshot).None?
    requires var s := steps[i].snapshot;
      Listed(states[i].db.rights, s, |s.tunnels|, id) && Outdated(states[i].db.index, s, id)
    ensures j < i && OvertakesEarly(states[j], steps[j], steps[i].snapshot, id)
  {
    InvAlways(states, steps, i);
    NumberedAlways(states, steps, i);
    assert TakesStep(states, steps, i);
    ExplainedAlways(states, steps, i);
    OutdatedIsEarly(states[i], steps[i].snapshot, id, EarlyBefore(states, steps, i));
    j := EarlyMeans(states, steps, i, Closing(id, states[i].db.index.tunnels[id].sequence));
  }

  lemma SnapshotOpens(s: System, snapshot: Snapshot, id: string)
    requires IndexSound(s.db.index, s.past.births) && PostsNumbered(s) && snapshot in s.net.snapshots
    requires SnapshotError(s.db.index, snapshot).None?
    ensures Open(OrElse(ReconcileIndex(s.db.rights, s.db.index, snapshot), s.db.index), id)
       <==> Listed(s.db.rights, snapshot, |snapshot.tunnels|, id) && !Outdated(s.db.index, snapshot, id)
  {
    SnapshotIsExact(s.db.rights, s.db.index, s.past.births, snapshot, id);
  }

  /** An accepted snapshot of a run leaves open exactly the tunnels it lists that hold their right,
      except those whose row, when it arrives, is closed and newer.  There is none of these unless a
      disconnect of the tunnel, newer than the snapshot, was delivered before any process was
      adopted. */
  lemma SnapshotsArePlain(states: seq<System>, steps: seq<Step>, i: nat, id: string)
    requires Run(states, steps) && i < |steps| && steps[i].DeliverSnapshot?
    requires SnapshotError(states[i].db.index, steps[i].snapshot).None?
    ensures var s := steps[i].snapshot; var y := states[i + 1].db.index;
      Open(y, id) <==> Listed(states[i].db.rights, s, |s.tunnels|, id) && !Outdated(states[i].db.index, s, id)
    ensures var s := steps[i].snapshot;
      Listed(states[i].db.rights, s, |s.tunnels|, id) && Outdated(states[i].db.index, s, id) ==>
        exists j :: 0 <= j < i && OvertakesEarly(states[j], steps[j], s, id)
  {
    var s, snapshot := states[i], steps[i].snapshot;
    InvAlways(states, steps, i);
    NumberedAlways(states, steps, i);
    assert TakesStep(states, steps, i);
    SnapshotOpens(s, snapshot, id);
    if Listed(s.db.rights, snapshot, |snapshot.tunnels|, id) && Outdated(s.db.index, snapshot, id) {
      var j := OutdatedWasOvertaken(states, steps, i, id);
    }
  }
}
