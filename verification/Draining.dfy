/**
 The system can always settle: from every state of a run the disconnects that are due can be delivered
 and completed, and the next snapshot then shows exactly what sish serves.
 */
module Draining {
  import opened Hostnames
  import opened Tables
  import opened Lifecycle
  import opened Registry
  import opened Coordination
  import opened Safety
  import opened Theorems
  import opened Synchronizer
  import opened Reach

  // ------------------------------------------------------------------ ways to go on

  predicate Drains(a: Step) {
    a.Abandon? || a.Send? || a.Handle? || a.CleanUp? || a.Acknowledge? || a.Complete?
  }

  /** The run has gone on, and only to get disconnects done. */
  ghost predicate Continues(states: seq<System>, steps: seq<Step>, states': seq<System>, steps': seq<Step>) {
    && Run(states', steps') && |states| == |steps| + 1 && states <= states' && steps <= steps'
    && forall k :: |steps| <= k < |steps'| ==> Drains(steps'[k])
  }

  lemma ContinuesNot(states: seq<System>, steps: seq<Step>)
    requires Run(states, steps)
    ensures Continues(states, steps, states, steps)
  {
  }

  lemma GoOn(states: seq<System>, steps: seq<Step>, a: Step, s: System) returns (states': seq<System>, steps': seq<Step>)
    requires Run(states, steps) && Leads(states[|steps|], a, s)
    ensures Run(states', steps') && states' == states + [s] && steps' == steps + [a]
    ensures Drains(a) ==> Continues(states, steps, states', steps')
    ensures states'[|steps'|] == s
  {
    RunExtends(states, steps, a);
    states', steps' := states + [s], steps + [a];
  }

  lemma ContinuesThen(states: seq<System>, steps: seq<Step>, states': seq<System>, steps': seq<Step>,
                      states'': seq<System>, steps'': seq<Step>)
    requires Continues(states, steps, states', steps') && Continues(states', steps', states'', steps'')
    ensures Continues(states, steps, states'', steps'')
  {
    forall k | |steps| <= k < |steps''| ensures Drains(steps''[k]) {
      assert k < |steps'| ==> steps''[k] == steps'[k];
    }
  }

  /** One step further on. */
  lemma GoOnFurther(states: seq<System>, steps: seq<Step>, states': seq<System>, steps': seq<Step>, a: Step, s: System)
      returns (states'': seq<System>, steps'': seq<Step>)
    requires Continues(states, steps, states', steps') && Leads(states'[|steps'|], a, s) && Drains(a)
    ensures Continues(states, steps, states'', steps'') && states''[|steps''|] == s
  {
    states'', steps'' := GoOn(states', steps', a, s);
    ContinuesThen(states, steps, states', steps', states'', steps'');
  }

  // --------------------------------------------------------------------- new ids

  lemma {:induction false} LongerThanAll(ids: set<string>) returns (n: nat)
    ensures forall id :: id in ids ==> |id| < n
    decreases |ids|
  {
    if ids == {} {
      n := 0;
    } else {
      var id :| id in ids;
      var m := LongerThanAll(ids - {id});
      n := if |id| < m then m else |id| + 1;
    }
  }

  lemma NewEvent(s: System) returns (event: string)
    ensures Fresh(s, event)
  {
    var n := LongerThanAll(s.net.connects.Keys + s.net.disconnects.Keys);
    event := seq(n, i => 'e');
  }

  // ------------------------------------------------------------- one disconnect done

  /** What the database, the registry and the lock look like is all that matters here. */
  ghost predicate Left(s: System, s': System, db: Db, gone: set<string>) {
    && s'.db == db && s'.domain == s.domain && s'.sish.source == s.sish.source && s'.sish.pending.None?
    && s'.sish.table.tunnels == s.sish.table.tunnels - gone
  }

  lemma CleanUpLeads(s: System, d: nat, id: string, event: string, ids: set<string>, at: string)
    requires s.sish.pending.None? && Fresh(s, event) && d < |s.deliveries|
    requires s.deliveries[d].phase == Cleaning(ids, at) && id in ids
    ensures var s' := SetPhase(AfterUnregister(s, id, event), d, Cleaning(ids - {id}, at));
      && Leads(s, CleanUp(d, id, event), s')
      && Left(s, s', s.db, {id}) && |s'.deliveries| == |s.deliveries|
      && s'.deliveries[d] == s.deliveries[d].(phase := Cleaning(ids - {id}, at))
  {
  }

  lemma LeftThen(s: System, s1: System, s2: System, gone: set<string>, more: set<string>)
    requires Left(s, s1, s.db, gone) && Left(s1, s2, s1.db, more)
    ensures Left(s, s2, s.db, gone + more)
  {
  }

  /** The collected tunnels can be closed one by one. */
  lemma {:induction false} CleanAll(states: seq<System>, steps: seq<Step>, d: nat, ids: set<string>, at: string)
      returns (states': seq<System>, steps': seq<Step>)
    requires Run(states, steps) && states[|steps|].sish.pending.None?
    requires d < |states[|steps|].deliveries| && states[|steps|].deliveries[d].phase == Cleaning(ids, at)
    ensures Continues(states, steps, states', steps')
    ensures var s, s' := states[|steps|], states'[|steps'|];
      && Left(s, s', s.db, ids)
      && d < |s'.deliveries| && s'.deliveries[d] == s.deliveries[d].(phase := Cleaning({}, at))
    decreases |ids|
  {
    var s := states[|steps|];
    if ids == {} {
      states', steps' := states, steps;
    } else {
      var id :| id in ids;
      var event := NewEvent(s);
      CleanUpLeads(s, d, id, event, ids, at);
      var next := SetPhase(AfterUnregister(s, id, event), d, Cleaning(ids - {id}, at));
      var states1, steps1 := GoOn(states, steps, CleanUp(d, id, event), next);
      states', steps' := CleanAll(states1, steps1, d, ids - {id}, at);
      ContinuesThen(states, steps, states1, steps1, states', steps');
      LeftThen(s, next, states'[|steps'|], {id}, ids - {id});
      assert {id} + (ids - {id}) == ids;
    }
  }

  lemma AcknowledgeLeads(s: System, d: nat, at: string)
    requires d < |s.deliveries| && s.deliveries[d].phase == Cleaning({}, at)
    ensures Leads(s, Acknowledge(d), SetPhase(s, d, Returned(at)))
  {
  }

  lemma CompleteLeads(s: System, item: nat, d: nat)
    requires item < |s.db.outbox| && !s.db.outbox[item].completed
    requires d < |s.deliveries| && s.deliveries[d].item == item && s.deliveries[d].phase.Returned?
    ensures Leads(s, Complete(item), AfterComplete(s, item))
  {
    assert AnsweredItem(s, item);
  }

  function Done(db: Db, item: nat): Db
    requires item < |db.outbox|
  {
    db.(outbox := db.outbox[item := db.outbox[item].(completed := true)])
  }

  /** A disconnect that is due can be sent and handled ... */
  lemma HandleItem(states: seq<System>, steps: seq<Step>, item: nat, q: Request)
      returns (states': seq<System>, steps': seq<Step>)
    requires Run(states, steps) && states[|steps|].sish.pending.None?
    requires var s := states[|steps|];
      && item < |s.db.outbox| && !s.db.outbox[item].completed && s.db.outbox[item].effect.Disconnects()
      && RequestOf(s.db.outbox[item].effect, s.domain) == Some(q)
    ensures Continues(states, steps, states', steps')
    ensures var s, s' := states[|steps|], states'[|steps'|];
      && Left(s, s', s.db, {})
      && |s'.deliveries| == |s.deliveries| + 1 && s'.deliveries[|s.deliveries|].item == item
      && s'.deliveries[|s.deliveries|].phase == Cleaning(Collected(s.sish.table, q), s.sish.source)
  {
    var s := states[|steps|];
    var e := s.db.outbox[item].effect;
    SendLeads(s, item, e);
    var s1 := s.(deliveries := s.deliveries + [Delivery(item, e, Sent)]);
    states', steps' := GoOn(states, steps, Send(item), s1);
    HandleLeads(s1, |s.deliveries|, q);
    states', steps' := GoOnFurther(states, steps, states', steps', Handle(|s.deliveries|),
                                   AfterHandle(s1, |s.deliveries|, q));
  }

  /** ... its tunnels closed, the answer given, and the item completed. */
  lemma FinishItem(states: seq<System>, steps: seq<Step>, item: nat, d: nat, ids: set<string>, at: string)
      returns (states': seq<System>, steps': seq<Step>)
    requires Run(states, steps) && states[|steps|].sish.pending.None?
    requires var s := states[|steps|];
      && item < |s.db.outbox| && !s.db.outbox[item].completed
      && d < |s.deliveries| && s.deliveries[d].item == item && s.deliveries[d].phase == Cleaning(ids, at)
    ensures Continues(states, steps, states', steps')
    ensures Left(states[|steps|], states'[|steps'|], Done(states[|steps|].db, item), ids)
  {
    states', steps' := CleanAll(states, steps, d, ids, at);
    var s2 := states'[|steps'|];
    AcknowledgeLeads(s2, d, at);
    states', steps' := GoOnFurther(states, steps, states', steps', Acknowledge(d), SetPhase(s2, d, Returned(at)));
    var s3 := states'[|steps'|];
    CompleteLeads(s3, item, d);
    states', steps' := GoOnFurther(states, steps, states', steps', Complete(item), AfterComplete(s3, item));
  }

  lemma DrainItem(states: seq<System>, steps: seq<Step>, item: nat, q: Request)
      returns (states': seq<System>, steps': seq<Step>)
    requires Run(states, steps) && states[|steps|].sish.pending.None?
    requires var s := states[|steps|];
      && item < |s.db.outbox| && !s.db.outbox[item].completed && s.db.outbox[item].effect.Disconnects()
      && RequestOf(s.db.outbox[item].effect, s.domain) == Some(q)
    ensures Continues(states, steps, states', steps')
    ensures var s := states[|steps|];
      Left(s, states'[|steps'|], Done(s.db, item), Collected(s.sish.table, q))
  {
    var s := states[|steps|];
    var states1, steps1 := HandleItem(states, steps, item, q);
    states', steps' := FinishItem(states1, steps1, item, |s.deliveries|, Collected(s.sish.table, q), s.sish.source);
    ContinuesThen(states, steps, states1, steps1, states', steps');
  }

  // --------------------------------------------------------------- all of them done

  predicate IsDue(item: Item) {
    !item.completed && item.effect.Disconnects()
  }

  /** A disconnect that is due, from item i on, closes this tunnel. */
  predicate Closes(outbox: seq<Item>, domain: string, t: Tunnel, i: nat) {
    exists k :: i <= k < |outbox| && IsDue(outbox[k]) && Hits(outbox[k].effect, domain, t)
  }

  function Spared(tunnels: map<string, Tunnel>, outbox: seq<Item>, domain: string, i: nat): map<string, Tunnel> {
    map id | id in tunnels && !Closes(outbox, domain, tunnels[id], i) :: tunnels[id]
  }

  function Drained(outbox: seq<Item>): seq<Item> {
    seq(|outbox|, k requires 0 <= k < |outbox| =>
      if outbox[k].effect.Disconnects() then outbox[k].(completed := true) else outbox[k])
  }

  lemma ClosesMore(outbox: seq<Item>, domain: string, t: Tunnel, i: nat)
    requires i < |outbox|
    ensures Closes(outbox, domain, t, i)
       <==> (IsDue(outbox[i]) && Hits(outbox[i].effect, domain, t)) || Closes(outbox, domain, t, i + 1)
  {
  }

  lemma ClosesLater(outbox: seq<Item>, outbox': seq<Item>, domain: string, t: Tunnel, i: nat)
    requires |outbox'| == |outbox| && forall k :: i <= k < |outbox| ==> outbox'[k] == outbox[k]
    ensures Closes(outbox', domain, t, i) <==> Closes(outbox, domain, t, i)
  {
  }

  lemma SparedSkips(tunnels: map<string, Tunnel>, outbox: seq<Item>, domain: string, i: nat)
    requires i < |outbox| && !IsDue(outbox[i])
    ensures Spared(tunnels, outbox, domain, i + 1) == Spared(tunnels, outbox, domain, i)
  {
    forall id | id in tunnels
      ensures Closes(outbox, domain, tunnels[id], i) <==> Closes(outbox, domain, tunnels[id], i + 1)
    {
      ClosesMore(outbox, domain, tunnels[id], i);
    }
  }

  lemma SparedDone(tunnels: map<string, Tunnel>, left: map<string, Tunnel>, db: Db, domain: string, i: nat)
    requires i < |db.outbox| && IsDue(db.outbox[i])
    requires forall id :: id in left <==> id in tunnels && !Hits(db.outbox[i].effect, domain, tunnels[id])
    requires forall id :: id in left ==> left[id] == tunnels[id]
    ensures Spared(left, Done(db, i).outbox, domain, i + 1) == Spared(tunnels, db.outbox, domain, i)
    ensures Drained(Done(db, i).outbox) == Drained(db.outbox)
  {
    forall id | id in tunnels
      ensures Closes(db.outbox, domain, tunnels[id], i)
         <==> Hits(db.outbox[i].effect, domain, tunnels[id]) || Closes(Done(db, i).outbox, domain, tunnels[id], i + 1)
    {
      ClosesMore(db.outbox, domain, tunnels[id], i);
      ClosesLater(db.outbox, Done(db, i).outbox, domain, tunnels[id], i + 1);
    }
  }

  /** The disconnects have all been done, and nothing else. */
  ghost predicate AllDone(s: System, s': System, i: nat) {
    && s'.db == s.db.(outbox := Drained(s.db.outbox)) && s'.domain == s.domain
    && s'.sish.source == s.sish.source && s'.sish.pending.None?
    && s'.sish.table.tunnels == Spared(s.sish.table.tunnels, s.db.outbox, s.domain, i)
  }

  lemma NothingDue(s: System)
    requires s.sish.pending.None? && forall k :: 0 <= k < |s.db.outbox| ==> !IsDue(s.db.outbox[k])
    ensures AllDone(s, s, |s.db.outbox|)
  {
    assert Drained(s.db.outbox) == s.db.outbox;
  }

  lemma DoneThen(s: System, s1: System, s2: System, i: nat, q: Request)
    requires i < |s.db.outbox| && IsDue(s.db.outbox[i]) && RequestOf(s.db.outbox[i].effect, s.domain) == Some(q)
    requires NormalDomain(s.domain) && EffectBounded(s.db.rights, s.db.generation, s.db.outbox[i].effect)
    requires Left(s, s1, Done(s.db, i), Collected(s.sish.table, q)) && AllDone(s1, s2, i + 1)
    ensures AllDone(s, s2, i)
  {
    forall t ensures Collects(q, t) <==> Hits(s.db.outbox[i].effect, s.domain, t) {
      CollectsExactly(s.db.rights, s.db.generation, s.db.outbox[i].effect, s.domain, t);
    }
    SparedDone(s.sish.table.tunnels, s1.sish.table.tunnels, s.db, s.domain, i);
  }

  lemma ItemBounded(states: seq<System>, steps: seq<Step>, i: nat)
    requires Run(states, steps) && i < |states[|steps|].db.outbox|
    ensures var s := states[|steps|];
      NormalDomain(s.domain) && EffectBounded(s.db.rights, s.db.generation, s.db.outbox[i].effect)
  {
    SoundAlways(states, steps, |steps|);
    var db := states[|steps|].db;
    assert ItemSound(db.rights, db.generation, db.outbox[i]);
  }

  lemma DrainFrom(states: seq<System>, steps: seq<Step>, i: nat) returns (states': seq<System>, steps': seq<Step>)
    requires Run(states, steps) && states[|steps|].sish.pending.None? && i <= |states[|steps|].db.outbox|
    requires forall k :: 0 <= k < i ==> !IsDue(states[|steps|].db.outbox[k])
    ensures Continues(states, steps, states', steps')
    ensures AllDone(states[|steps|], states'[|steps'|], i)
    decreases |states[|steps|].db.outbox| - i
  {
    var s := states[|steps|];
    if i == |s.db.outbox| {
      states', steps' := states, steps;
      NothingDue(s);
    } else if !IsDue(s.db.outbox[i]) {
      states', steps' := DrainFrom(states, steps, i + 1);
      SparedSkips(s.sish.table.tunnels, s.db.outbox, s.domain, i);
    } else {
      ItemBounded(states, steps, i);
      var q := RequestOf(s.db.outbox[i].effect, s.domain).value;
      var states1, steps1 := DrainItem(states, steps, i, q);
      states', steps' := DrainFrom(states1, steps1, i + 1);
      ContinuesThen(states, steps, states1, steps1, states', steps');
      DoneThen(s, states1[|steps1|], states'[|steps'|], i, q);
    }
  }

  // ------------------------------------------------------------------- main results

  /** From every state of a run, whatever is lost, late or half done in it, the system can go on, without
      a change of rights and without a restart, until every disconnect is completed.  sish then serves
      exactly what no disconnect that was due has closed, and all of it holds its right. */
  lemma CanDrain(states: seq<System>, steps: seq<Step>) returns (states': seq<System>, steps': seq<Step>)
    requires Run(states, steps)
    ensures Continues(states, steps, states', steps')
    ensures AllDone(states[|steps|], states'[|steps'|], 0)
    ensures var s' := states'[|steps'|];
      forall id :: id in s'.sish.table.tunnels ==> ListedEntitled(s'.db.rights, s'.sish.table.tunnels[id])
    ensures var s, s' := states[|steps|], states'[|steps'|];
      forall id :: id in s.sish.table.tunnels ==>
        (id in s'.sish.table.tunnels <==>
           forall k :: 0 <= k < |s.db.outbox| && !s.db.outbox[k].completed ==>
             !Hits(s.db.outbox[k].effect, s.domain, s.sish.table.tunnels[id]))
  {
    var s := states[|steps|];
    if s.sish.pending.None? {
      states', steps' := DrainFrom(states, steps, 0);
    } else {
      var states1, steps1 := GoOn(states, steps, Abandon, s.(sish := s.sish.(pending := None)));
      states', steps' := DrainFrom(states1, steps1, 0);
      ContinuesThen(states, steps, states1, steps1, states', steps');
    }
    var s' := states'[|steps'|];
    forall id | id in s'.sish.table.tunnels ensures ListedEntitled(s'.db.rights, s'.sish.table.tunnels[id]) {
      DrainedMeansEntitled(states', steps', |steps'|, id);
    }
  }

  lemma {:induction false} Enumerated(tunnels: map<string, Tunnel>) returns (list: seq<Tunnel>)
    requires forall id :: id in tunnels ==> tunnels[id].id == id
    ensures Enumerates(list, tunnels)
    decreases |tunnels|
  {
    if tunnels == map[] {
      list := [];
    } else {
      var id :| id in tunnels;
      var rest := Enumerated(tunnels - {id});
      list := rest + [tunnels[id]];
      forall other | other in tunnels ensures tunnels[other] in list {
        if other != id {
          assert (tunnels - {id})[other] in rest;
        } else {
          assert list[|rest|] == tunnels[id];
        }
      }
    }
  }

  /** Steps that only get disconnects done keep fetches apart. */
  lemma StaysSequential(states: seq<System>, steps: seq<Step>, states': seq<System>, steps': seq<Step>)
    requires Continues(states, steps, states', steps') && Sequential(states, steps)
    ensures Sequential(states', steps')
  {
    forall i | 0 <= i < |steps'| && steps'[i].DeliverSnapshot?
      ensures LastTaken(states', steps', i) == Some(steps'[i].snapshot.source)
    {
      assert i < |steps| && steps'[i] == steps[i];
      SameLastTaken(states, steps, states', steps', i);
    }
  }

  lemma {:induction false} SameLastTaken(states: seq<System>, steps: seq<Step>, states': seq<System>, steps': seq<Step>,
                                         i: nat)
    requires |states| == |steps| + 1 && |states'| == |steps'| + 1 && states <= states' && steps <= steps' && i <= |steps|
    ensures LastTaken(states', steps', i) == LastTaken(states, steps, i)
  {
    if i > 0 {
      assert steps'[i - 1] == steps[i - 1] && states'[i - 1] == states[i - 1];
      SameLastTaken(states, steps, states', steps', i - 1);
    }
  }

  /** A run after which sish serves only what holds its right, and the index shows exactly that. */
  ghost predicate Settles(s: System, s': System) {
    && s'.db.rights == s.db.rights && s'.db.generation == s.db.generation && s'.sish.source == s.sish.source
    && s'.db.outbox == Drained(s.db.outbox)
    && s'.sish.table.tunnels == Spared(s.sish.table.tunnels, s.db.outbox, s.domain, 0)
    && s'.db.index.synced
    && forall id :: Mirrored(s', id)
  }

  /** A tunnel is open in the index exactly if sish serves it, with sish's data and active, and then it
      holds its right. */
  ghost predicate Mirrored(s: System, id: string) {
    && (Open(s.db.index, id) <==> id in s.sish.table.tunnels)
    && (Open(s.db.index, id) ==>
          && Agrees(s.db.index.tunnels[id], s.sish.table.tunnels[id]) && s.db.index.tunnels[id].status.Active?
          && ListedEntitled(s.db.rights, s.sish.table.tunnels[id]))
  }

  /** A snapshot of what sish serves can be taken and reconciled. */
  lemma SnapshotLeads(s: System, list: seq<Tunnel>, x: Index)
    requires Can(s, TakeSnapshot(list))
    requires ReconcileIndex(s.db.rights, s.db.index, Snapshot(s.sish.source, s.sish.table.sequence, list)) == Ok(x)
    ensures var snapshot := Snapshot(s.sish.source, s.sish.table.sequence, list);
      var s1 := s.(net := s.net.(snapshots := s.net.snapshots + {snapshot}));
      && Leads(s, TakeSnapshot(list), s1)
      && Leads(s1, DeliverSnapshot(snapshot), s1.(db := s.db.(index := x)))
  {
  }

  lemma CanTake(states: seq<System>, steps: seq<Step>) returns (list: seq<Tunnel>)
    requires Run(states, steps) && states[|steps|].sish.pending.None?
    ensures Can(states[|steps|], TakeSnapshot(list))
  {
    RegisteredAlways(states, steps, |steps|);
    list := Enumerated(states[|steps|].sish.table.tunnels);
  }

  lemma TwoMoreSequential(states: seq<System>, steps: seq<Step>, states': seq<System>, steps': seq<Step>, list: seq<Tunnel>)
    requires |states| == |steps| + 1 && Sequential(states, steps) && |states'| == |steps'| + 1 && states <= states'
    requires steps' == steps + [TakeSnapshot(list)]
                       + [DeliverSnapshot(Snapshot(states[|steps|].sish.source, states[|steps|].sish.table.sequence, list))]
    ensures Sequential(states', steps')
  {
    forall i | 0 <= i < |steps'| && steps'[i].DeliverSnapshot?
      ensures LastTaken(states', steps', i) == Some(steps'[i].snapshot.source)
    {
      if i < |steps| {
        assert steps <= steps' && steps'[i] == steps[i];
        SameLastTaken(states, steps, states', steps', i);
      } else {
        assert i == |steps| + 1 && steps'[i - 1].TakeSnapshot? && states'[i - 1] == states[|steps|];
      }
    }
  }

  /** What a snapshot reconciled on the spot leaves open. */
  lemma MirroredNow(states: seq<System>, steps: seq<Step>, list: seq<Tunnel>) returns (x: Index)
    requires Run(states, steps) && Sequential(states, steps) && Can(states[|steps|], TakeSnapshot(list))
    requires var s := states[|steps|];
      forall id :: id in s.sish.table.tunnels ==> ListedEntitled(s.db.rights, s.sish.table.tunnels[id])
    ensures var s := states[|steps|];
      && ReconcileIndex(s.db.rights, s.db.index, Snapshot(s.sish.source, s.sish.table.sequence, list)) == Ok(x)
      && x.synced && forall id :: Mirrored(s.(db := s.db.(index := x)), id)
  {
    var s := states[|steps|];
    IndexMirrorsRegistry(states, steps, |steps|, list, "");
    x := ReconcileIndex(s.db.rights, s.db.index, Snapshot(s.sish.source, s.sish.table.sequence, list)).value;
    forall id ensures Mirrored(s.(db := s.db.(index := x)), id) {
      IndexMirrorsRegistry(states, steps, |steps|, list, id);
    }
  }

  /** From every state of a run that fetches one snapshot after the other, the system can go on so that
      every disconnect is completed and the index shows exactly the tunnels sish serves, all of which
      hold their right: nothing is ever stuck. */
  lemma CanSettle(states: seq<System>, steps: seq<Step>) returns (states': seq<System>, steps': seq<Step>)
    requires Run(states, steps) && Sequential(states, steps)
    ensures Run(states', steps') && Sequential(states', steps') && states <= states' && steps <= steps'
    ensures Settles(states[|steps|], states'[|steps'|])
  {
    var states1, steps1 := CanDrain(states, steps);
    StaysSequential(states, steps, states1, steps1);
    var s := states1[|steps1|];
    var list := CanTake(states1, steps1);
    var x := MirroredNow(states1, steps1, list);
    SnapshotLeads(s, list, x);
    var snapshot := Snapshot(s.sish.source, s.sish.table.sequence, list);
    var s1 := s.(net := s.net.(snapshots := s.net.snapshots + {snapshot}));
    states', steps' := GoOn(states1, steps1, TakeSnapshot(list), s1);
    states', steps' := GoOn(states', steps', DeliverSnapshot(snapshot), s1.(db := s.db.(index := x)));
    TwoMoreSequential(states1, steps1, states', steps', list);
    SettledThere(states[|steps|], s, s1.(db := s.db.(index := x)), x);
  }

  lemma SettledThere(s: System, s1: System, s': System, x: Index)
    requires AllDone(s, s1, 0) && s'.db == s1.db.(index := x) && s'.sish == s1.sish && x.synced
    requires forall id :: Mirrored(s1.(db := s1.db.(index := x)), id)
    ensures Settles(s, s')
  {
    forall id ensures Mirrored(s', id) {
      assert Mirrored(s1.(db := s1.db.(index := x)), id);
    }
  }
}
