/**
 Who raised the barrier of a host, and so when the holder of a name cannot bind it.
 */
module Releases {
  import opened Hostnames
  import opened Tables
  import opened Lifecycle
  import opened Registry
  import opened Coordination
  import opened Safety
  import opened Theorems

  /** The running sish process has handled this disconnect. */
  predicate HandledHere(s: System, d: nat) {
    d < |s.deliveries| &&
    match s.deliveries[d].phase
    case Cleaning(_, at) => at == s.sish.source
    case Returned(at) => at == s.sish.source
    case _ => false
  }

  /** A release of the label of this host, at this generation. */
  predicate Releases(e: Effect, domain: string, host: string, generation: int) {
    e.DisconnectHost? && IsLabel(e.name) && host == Fqdn(e.name, domain) && e.generation == generation
  }

  ghost predicate Backed(s: System, host: string, generation: int) {
    exists d: nat :: HandledHere(s, d) && Releases(s.deliveries[d].effect, s.domain, host, generation)
  }

  /** Every host barrier was raised by a release that the running process has handled. */
  ghost predicate HostBarriersBacked(s: System) {
    var b := s.sish.table.hostBarrier;
    forall host :: host in b ==> Backed(s, host, b[host])
  }

  // ------------------------------------------------------------------------ steps

  lemma HandledStays(s: System, a: Step, d: nat)
    requires Can(s, a) && !a.Restart? && HandledHere(s, d)
    ensures HandledHere(Do(s, a), d) && Do(s, a).deliveries[d].effect == s.deliveries[d].effect
  {
    if !a.Begin? {
      ProcessFrame(s, a);
    }
    if !OnDeliveries(a) {
      DeliveriesFrame(s, a);
    }
  }

  lemma BackedStays(s: System, a: Step, host: string, generation: int)
    requires Can(s, a) && !a.Restart? && Backed(s, host, generation)
    ensures Backed(Do(s, a), host, generation)
  {
    var d: nat :| HandledHere(s, d) && Releases(s.deliveries[d].effect, s.domain, host, generation);
    HandledStays(s, a, d);
    DomainStands(s, a);
  }

  /** The request of a queued release is about exactly the full name of its label. */
  lemma ReleaseRequest(e: Effect, domain: string)
    requires NormalDomain(domain) && e.DisconnectHost? && IsLabel(e.name)
    ensures RequestOf(e, domain) == Some(Request(0, 0, Fqdn(e.name, domain), 0, e.generation))
  {
    BoundariesAgree(e.name, domain);
  }

  lemma DeliveredSound(s: System, d: nat)
    requires Sound(s.db) && Delivered(s) && d < |s.deliveries|
    ensures EffectBounded(s.db.rights, s.db.generation, s.deliveries[d].effect)
  {
    assert ItemSound(s.db.rights, s.db.generation, s.db.outbox[s.deliveries[d].item]);
  }

  lemma HandleBacks(s: System, d: nat, q: Request, ids: set<string>)
    requires NormalDomain(s.domain) && d < |s.deliveries| && HostBarriersBacked(s)
    requires s.deliveries[d].phase.Sent? && RequestOf(s.deliveries[d].effect, s.domain) == Some(q)
    requires s.deliveries[d].effect.DisconnectHost? ==> IsLabel(s.deliveries[d].effect.name)
    ensures HostBarriersBacked(SetPhase(s.(sish := s.sish.(table := Raise(s.sish.table, q))), d,
                                        Cleaning(ids, s.sish.source)))
  {
    var e := s.deliveries[d].effect;
    var s' := SetPhase(s.(sish := s.sish.(table := Raise(s.sish.table, q))), d, Cleaning(ids, s.sish.source));
    assert HandledHere(s', d);
    var b, b' := s.sish.table.hostBarrier, s'.sish.table.hostBarrier;
    forall host | host in b' ensures Backed(s', host, b'[host]) {
      if host in b && b'[host] == b[host] {
        var other: nat :| HandledHere(s, other) && Releases(s.deliveries[other].effect, s.domain, host, b[host]);
        assert other != d && HandledHere(s', other);
      } else {
        assert e.DisconnectHost?;
        ReleaseRequest(e, s.domain);
      }
    }
  }

  lemma BackedStep(s: System, a: Step)
    requires Can(s, a) && NormalDomain(s.domain) && Sound(s.db) && Delivered(s) && HostBarriersBacked(s)
    ensures HostBarriersBacked(Do(s, a))
  {
    if a.Handle? {
      var q := RequestOf(s.deliveries[a.delivery].effect, s.domain);
      DeliveredSound(s, a.delivery);
      if q.Some? {
        HandleBacks(s, a.delivery, q.value, Collected(s.sish.table, q.value));
      }
    } else if !a.Restart? {
      BarriersFrame(s, a);
      var b := s.sish.table.hostBarrier;
      forall host | host in b ensures Backed(Do(s, a), host, b[host]) {
        BackedStays(s, a, host, b[host]);
      }
    }
  }

  lemma BackedStepAt(states: seq<System>, steps: seq<Step>, i: nat)
    requires Run(states, steps) && i < |steps| && HostBarriersBacked(states[i])
    ensures HostBarriersBacked(states[i + 1])
  {
    InvAlways(states, steps, i);
    assert TakesStep(states, steps, i);
    BackedStep(states[i], steps[i]);
  }

  lemma {:induction false} BackedAlways(states: seq<System>, steps: seq<Step>, i: nat)
    requires Run(states, steps) && i < |states|
    ensures HostBarriersBacked(states[i])
  {
    if i > 0 {
      BackedAlways(states, steps, i - 1);
      BackedStepAt(states, steps, i - 1);
    }
  }

  // ------------------------------------------------------------------ main result

  /** A handled release bars its host up to its generation. */
  lemma HandledReleaseStands(s: System, d: nat)
    requires Inv(s) && HandledHere(s, d) && s.deliveries[d].effect.DisconnectHost?
    ensures var e := s.deliveries[d].effect;
      At(s.sish.table.hostBarrier, Fqdn(e.name, s.domain)) >= e.generation
  {
    DeliveredSound(s, d);
    ReleaseRequest(s.deliveries[d].effect, s.domain);
    assert Quiet(s, s.deliveries[d]);
  }

  /** The running process has handled a release of this name under the current generation. */
  ghost predicate JustReleased(s: System, name: string) {
    exists d: nat :: HandledHere(s, d) && s.deliveries[d].effect == DisconnectHost(name, s.db.generation)
  }

  lemma HostBarredExactlyWhen(s: System, name: string)
    requires Inv(s) && HostBarriersBacked(s) && IsLabel(name)
    ensures At(s.sish.table.hostBarrier, Fqdn(name, s.domain)) == s.db.generation <==> JustReleased(s, name)
  {
    var host := Fqdn(name, s.domain);
    HostBarrierBounded(s, host);
    if At(s.sish.table.hostBarrier, host) == s.db.generation {
      assert Backed(s, host, s.db.generation);
      var d: nat :| HandledHere(s, d) && Releases(s.deliveries[d].effect, s.domain, host, s.db.generation);
      FqdnInjective(s.deliveries[d].effect.name, name, s.domain);
      assert s.deliveries[d].effect == DisconnectHost(name, s.db.generation);
    }
    if JustReleased(s, name) {
      var d: nat :| HandledHere(s, d) && s.deliveries[d].effect == DisconnectHost(name, s.db.generation);
      HandledReleaseStands(s, d);
    }
  }

  /** A current authorization of a name is shut out exactly when the last generation was taken by a
      release of that name and the running sish process has handled the disconnect of it. */
  lemma NameBarredExactlyWhen(states: seq<System>, steps: seq<Step>, i: nat, j: nat)
    requires Run(states, steps) && i <= j < |states| && i < |steps| && steps[i].Answer?
    requires steps[i].grant.protocol.Named() && states[j].db.generation == states[i].db.generation
    ensures Barred(states[j].sish.table, steps[i].grant.principal) <==> JustReleased(states[j], steps[i].name)
  {
    NameBarredByHost(states, steps, i, j);
    InvAlways(states, steps, j);
    BackedAlways(states, steps, j);
    HostBarredExactlyWhen(states[j], steps[i].name);
  }
}
