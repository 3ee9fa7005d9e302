/**
 What a disconnect reaches: the tunnels of the key, the user or the name its item is about, the older
 TCP tunnels of its port, and nothing else.
 */
module Reach {
  import opened Hostnames
  import opened Tables
  import opened Lifecycle
  import opened Registry
  import opened Coordination
  import opened Safety
  import opened Theorems

  /** The tunnels an item of the outbox is about. */
  predicate Hits(e: Effect, domain: string, t: Tunnel) {
    match e
    case DisconnectKey(k, _) => t.key == k
    case DisconnectUser(u, _) => t.user == u
    case DisconnectHost(n, _) => t.host == Fqdn(n, domain)
    case DisconnectPort(p, g) => t.protocol.Tcp? && t.port == p && t.generation <= g
    case _ => false
  }

  /** The request of an item collects exactly the tunnels the item is about. */
  lemma CollectsExactly(r: Rights, generation: int, e: Effect, domain: string, t: Tunnel)
    requires NormalDomain(domain) && e.Disconnects() && EffectBounded(r, generation, e)
    ensures RequestOf(e, domain).Some?
    ensures Collects(RequestOf(e, domain).value, t) <==> Hits(e, domain, t)
  {
    if e.DisconnectHost? {
      BoundariesAgree(e.name, domain);
    }
  }

  /** The tunnels a disconnect still has to close were all found to be about its item. */
  ghost predicate CleansOnlyHits(s: System, d: Delivery) {
    d.phase.Cleaning? ==>
      forall id :: id in d.phase.ids ==> id in s.past.births && Hits(d.effect, s.domain, s.past.births[id].tunnel)
  }

  ghost predicate AllCleanOnlyHits(s: System) {
    forall d :: 0 <= d < |s.deliveries| ==> CleansOnlyHits(s, s.deliveries[d])
  }

  // ------------------------------------------------------------------------ steps

  lemma HandleCleansHits(s: System, d: nat, q: Request)
    requires NormalDomain(s.domain) && Sound(s.db) && Registered(s) && Delivered(s) && AllCleanOnlyHits(s)
    requires d < |s.deliveries| && RequestOf(s.deliveries[d].effect, s.domain) == Some(q)
    ensures AllCleanOnlyHits(AfterHandle(s, d, q))
  {
    var s', e := AfterHandle(s, d, q), s.deliveries[d].effect;
    assert Quiet(s, s.deliveries[d]);
    assert ItemSound(s.db.rights, s.db.generation, s.db.outbox[s.deliveries[d].item]);
    forall id | id in Collected(s.sish.table, q) ensures Hits(e, s.domain, s.past.births[id].tunnel) {
      CollectsExactly(s.db.rights, s.db.generation, e, s.domain, s.sish.table.tunnels[id]);
    }
    forall i | 0 <= i < |s'.deliveries| ensures CleansOnlyHits(s', s'.deliveries[i]) {
      assert CleansOnlyHits(s, s.deliveries[i]);
    }
  }

  lemma CleanUpCleansHits(s: System, d: nat, id: string, event: string)
    requires AllCleanOnlyHits(s) && d < |s.deliveries| && s.deliveries[d].phase.Cleaning?
    ensures AllCleanOnlyHits(SetPhase(AfterUnregister(s, id, event), d,
                                      Cleaning(s.deliveries[d].phase.ids - {id}, s.deliveries[d].phase.at)))
  {
    assert CleansOnlyHits(s, s.deliveries[d]);
  }

  /** Births only grow, and no delivery has got more to close. */
  lemma HitsCarry(s: System, s': System)
    requires AllCleanOnlyHits(s) && s'.domain == s.domain
    requires forall id :: id in s.past.births ==> id in s'.past.births && s'.past.births[id] == s.past.births[id]
    requires forall d :: 0 <= d < |s'.deliveries| && s'.deliveries[d].phase.Cleaning? ==>
      d < |s.deliveries| && s'.deliveries[d] == s.deliveries[d]
    ensures AllCleanOnlyHits(s')
  {
    forall d | 0 <= d < |s'.deliveries| ensures CleansOnlyHits(s', s'.deliveries[d]) {
      if s'.deliveries[d].phase.Cleaning? {
        assert CleansOnlyHits(s, s.deliveries[d]);
      }
    }
  }

  lemma NoNewCleaning(s: System, a: Step, d: nat)
    requires Can(s, a) && !a.Handle? && !a.CleanUp? && d < |Do(s, a).deliveries| && Do(s, a).deliveries[d].phase.Cleaning?
    ensures d < |s.deliveries| && Do(s, a).deliveries[d] == s.deliveries[d]
  {
    if !OnDeliveries(a) {
      DeliveriesFrame(s, a);
    }
  }

  lemma CleaningStep(s: System, a: Step)
    requires NormalDomain(s.domain) && Sound(s.db) && Registered(s) && Delivered(s) && Can(s, a) && AllCleanOnlyHits(s)
    ensures AllCleanOnlyHits(Do(s, a))
  {
    if a.Handle? {
      var q := RequestOf(s.deliveries[a.delivery].effect, s.domain);
      if q.Some? {
        HandleCleansHits(s, a.delivery, q.value);
      }
    } else if a.CleanUp? {
      CleanUpCleansHits(s, a.delivery, a.id, a.event);
    } else {
      OtherStepCleansHits(s, a);
    }
  }

  lemma OtherStepCleansHits(s: System, a: Step)
    requires Can(s, a) && !a.Handle? && !a.CleanUp? && AllCleanOnlyHits(s)
    ensures AllCleanOnlyHits(Do(s, a))
  {
    var s' := Do(s, a);
    DomainStands(s, a);
    forall id | id in s.past.births ensures id in s'.past.births && s'.past.births[id] == s.past.births[id] {
      BirthsStand(s, a, id);
    }
    forall d | 0 <= d < |s'.deliveries| && s'.deliveries[d].phase.Cleaning?
      ensures d < |s.deliveries| && s'.deliveries[d] == s.deliveries[d]
    {
      NoNewCleaning(s, a, d);
    }
    HitsCarry(s, s');
  }

  lemma CleaningStepAt(states: seq<System>, steps: seq<Step>, i: nat)
    requires Run(states, steps) && i < |steps| && AllCleanOnlyHits(states[i])
    ensures AllCleanOnlyHits(states[i + 1])
  {
    InvAlways(states, steps, i);
    assert TakesStep(states, steps, i);
    CleaningStep(states[i], steps[i]);
  }

  lemma {:induction false} CleaningAlways(states: seq<System>, steps: seq<Step>, i: nat)
    requires Run(states, steps) && i < |states|
    ensures AllCleanOnlyHits(states[i])
  {
    if i > 0 {
      CleaningAlways(states, steps, i - 1);
      CleaningStepAt(states, steps, i - 1);
    }
  }

  // ------------------------------------------------------------------ main results

  lemma OnlyRemovals(s: System, a: Step, id: string)
    requires Can(s, a) && id in s.sish.table.tunnels && id !in Do(s, a).sish.table.tunnels
    ensures a.Restart? || (a.Unregister? && a.id == id) || (a.CleanUp? && a.id == id)
  {
    if KeepsRegistry(a) {
      RegistryFrame(s, a);
    }
  }

  /** A tunnel leaves the registry only when its own bind ends, when sish stops, or for a disconnect that
      is about its key, its user or its name, or about its TCP port and not older than it: so every
      disconnect that closes a tunnel has taken away the right of that tunnel. */
  lemma TunnelsLeaveFor(states: seq<System>, steps: seq<Step>, i: nat, id: string)
    requires Run(states, steps) && i < |steps|
    requires id in states[i].sish.table.tunnels && id !in states[i + 1].sish.table.tunnels
    ensures || steps[i].Restart?
      || (steps[i].Unregister? && steps[i].id == id)
      || (steps[i].CleanUp? && steps[i].id == id && steps[i].delivery < |states[i].deliveries|
          && var t, e := states[i].sish.table.tunnels[id], states[i].deliveries[steps[i].delivery].effect;
             e.Disconnects() && Hits(e, states[i].domain, t) && Revokes(e, TunnelClaim(t, LabelOf(t.host))))
  {
    InvAlways(states, steps, i);
    CleaningAlways(states, steps, i);
    assert TakesStep(states, steps, i);
    OnlyRemovals(states[i], steps[i], id);
    if steps[i].CleanUp? {
      CleanedIsHit(states[i], steps[i].delivery, id);
    }
  }

  lemma CleanedIsHit(s: System, d: nat, id: string)
    requires NormalDomain(s.domain) && Sound(s.db) && Registered(s) && Delivered(s) && AllCleanOnlyHits(s)
    requires d < |s.deliveries| && s.deliveries[d].phase.Cleaning? && id in s.deliveries[d].phase.ids
    requires id in s.sish.table.tunnels
    ensures var t, e := s.sish.table.tunnels[id], s.deliveries[d].effect;
      e.Disconnects() && Hits(e, s.domain, t) && Revokes(e, TunnelClaim(t, LabelOf(t.host)))
  {
    assert CleansOnlyHits(s, s.deliveries[d]) && Quiet(s, s.deliveries[d]);
    assert ItemSound(s.db.rights, s.db.generation, s.db.outbox[s.deliveries[d].item]);
    assert BirthSound(s, id);
    HitIsRevoked(s.deliveries[d].effect, s.domain, s.sish.table.tunnels[id]);
  }

  lemma HitIsRevoked(e: Effect, domain: string, t: Tunnel)
    requires Shaped(t.protocol, t.host, domain) && Hits(e, domain, t) && (e.DisconnectHost? ==> IsLabel(e.name))
    ensures Revokes(e, TunnelClaim(t, LabelOf(t.host)))
  {
    if e.DisconnectHost? {
      FirstDotOfFqdn(e.name, domain);
    }
  }

  /** And a disconnect leaves none of them out: what a process starts to close is all it serves that the
      item is about. */
  lemma HandlesAllItHits(states: seq<System>, steps: seq<Step>, i: nat)
    requires Run(states, steps) && i < |steps| && steps[i].Handle?
    ensures steps[i].delivery < |states[i].deliveries| && steps[i].delivery < |states[i + 1].deliveries|
    ensures var s, d, d' := states[i], states[i].deliveries[steps[i].delivery], states[i + 1].deliveries[steps[i].delivery];
      && d'.phase.Cleaning?
      && forall id :: id in d'.phase.ids <==>
           id in s.sish.table.tunnels && Hits(d.effect, s.domain, s.sish.table.tunnels[id])
  {
    var s, d := states[i], steps[i].delivery;
    InvAlways(states, steps, i);
    assert TakesStep(states, steps, i);
    assert Quiet(s, s.deliveries[d]);
    assert ItemSound(s.db.rights, s.db.generation, s.db.outbox[s.deliveries[d].item]);
    HandledExactly(s, d);
  }

  lemma HandledExactly(s: System, d: nat)
    requires NormalDomain(s.domain) && Can(s, Handle(d)) && s.deliveries[d].effect.Disconnects()
    requires EffectBounded(s.db.rights, s.db.generation, s.deliveries[d].effect)
    ensures d < |Do(s, Handle(d)).deliveries| && Do(s, Handle(d)).deliveries[d].phase.Cleaning?
    ensures forall id :: id in Do(s, Handle(d)).deliveries[d].phase.ids <==>
      id in s.sish.table.tunnels && Hits(s.deliveries[d].effect, s.domain, s.sish.table.tunnels[id])
  {
    var e := s.deliveries[d].effect;
    forall t ensures RequestOf(e, s.domain).Some? && (Collects(RequestOf(e, s.domain).value, t) <==> Hits(e, s.domain, t)) {
      CollectsExactly(s.db.rights, s.db.generation, e, s.domain, t);
    }
    assert Do(s, Handle(d)) == AfterHandle(s, d, RequestOf(e, s.domain).value);
  }
}
