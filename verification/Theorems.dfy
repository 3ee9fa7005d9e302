/**
 What holds of every run of the control plane and sish.
 */
module Theorems {
  import opened Hostnames
  import opened Tables
  import opened Lifecycle
  import opened Registry
  import opened Coordination
  import opened Safety

  // ------------------------------------------------------------------ joint safety

  /** At every moment of every run, each tunnel sish serves, or has had acknowledged and is about
      to serve, holds its right in the database now, or an outbox item that is not completed, is
      newer than the tunnel and selects it is still to be delivered. */
  lemma JointSafety(states: seq<System>, steps: seq<Step>, i: nat, t: Tunnel)
    requires Run(states, steps) && i < |states|
    requires var sish := states[i].sish;
      || (t.id in sish.table.tunnels && sish.table.tunnels[t.id] == t)
      || (sish.pending.Some? && sish.pending.value.acknowledged && sish.pending.value.tunnel == t)
    ensures Entitled(states[i].db.rights, TunnelClaim(t, LabelOf(t.host)))
         || Doomed(states[i].db.outbox, states[i].domain, t)
  {
    InvAlways(states, steps, i);
  }

  /** Once every disconnect of the outbox is completed, everything sish serves holds its right. */
  lemma DrainedMeansEntitled(states: seq<System>, steps: seq<Step>, i: nat, id: string)
    requires Run(states, steps) && i < |states|
    requires forall k :: 0 <= k < |states[i].db.outbox| && states[i].db.outbox[k].effect.Disconnects() ==>
      states[i].db.outbox[k].completed
    requires id in states[i].sish.table.tunnels
    ensures ListedEntitled(states[i].db.rights, states[i].sish.table.tunnels[id])
  {
    InvAlways(states, steps, i);
    assert Covered(states[i], states[i].sish.table.tunnels[id]);
  }

  /** At every moment of every run, each row shown as active or stale is backed by an enabled key,
      an active user and a reservation of that user. */
  lemma LiveRowsAreBacked(states: seq<System>, steps: seq<Step>, i: nat, id: string)
    requires Run(states, steps) && i < |states|
    requires var x := states[i].db.index; id in x.tunnels && x.tunnels[id].Live()
    ensures var r := states[i].db.rights; var row := states[i].db.index.tunnels[id];
      && Entitled(r, RowClaim(row))
      && (row.user > 0 ==> KeyLive(r, row.key, row.user))
      && (row.user > 0 && row.protocol.Named() ==> OwnsName(r, row.user, LabelOf(row.host)))
      && (row.user > 0 && !row.protocol.Named() ==> OwnsPort(r, row.user, row.port))
  {
    InvAlways(states, steps, i);
  }

  /** Whatever transaction runs in a run, every item it queues reaches the outbox. */
  lemma EveryNoteIsQueued(states: seq<System>, steps: seq<Step>, i: nat)
    requires Run(states, steps) && i < |steps| && steps[i].Mutate?
    ensures states[i + 1].db.outbox == states[i].db.outbox + ItemsOf(NotesOf(states[i].db, steps[i].m))
    ensures forall item :: item in ItemsOf(NotesOf(states[i].db, steps[i].m)) ==>
      !item.completed && item.attempts == 0 && item.available == 0
  {
    InvAlways(states, steps, i);
    assert TakesStep(states, steps, i);
    NothingSwallowed(states[i].db, steps[i].m);
  }

  /** At every moment of every run the index is coherent: an open row has an open cursor at or
      beyond it, cursors are of the adopted source and not ahead of its last sequence, and every
      row describes the registration its id was drawn for. */
  lemma IndexIsCoherent(states: seq<System>, steps: seq<Step>, i: nat, id: string)
    requires Run(states, steps) && i < |states|
    ensures var x := states[i].db.index;
      && (Open(x, id) ==> id in x.cursors && !x.cursors[id].disconnected
                          && x.tunnels[id].sequence <= x.cursors[id].sequence <= x.lastSequence)
      && (id in x.cursors && x.source != "" ==> x.cursors[id].source == x.source)
      && (id in x.tunnels ==> id in states[i].past.births && Agrees(x.tunnels[id], states[i].past.births[id].tunnel))
  {
    InvAlways(states, steps, i);
  }

  /** An accepted snapshot of a run leaves open exactly the tunnels it lists that hold their right
      now, except those closed after it was taken. */
  lemma SnapshotsAreExact(states: seq<System>, steps: seq<Step>, i: nat, id: string)
    requires Run(states, steps) && i < |steps| && steps[i].DeliverSnapshot?
    requires SnapshotError(states[i].db.index, steps[i].snapshot).None?
    ensures var s := steps[i].snapshot; var x := states[i].db.index; var y := states[i + 1].db.index;
      && (Open(y, id) <==> Listed(states[i].db.rights, s, |s.tunnels|, id) && !Outdated(Prepared(x, s), s, id))
      && (Open(y, id) ==> y.tunnels[id].status.Active? && y.tunnels[id].sequence == s.sequence == y.lastSequence)
  {
    InvAlways(states, steps, i);
    assert TakesStep(states, steps, i);
    SnapshotIsExact(states[i].db.rights, states[i].db.index, states[i].past.births, steps[i].snapshot, id);
  }

  // ------------------------------------------------------------------------ quiesce

  lemma ReturnedStays(s: System, a: Step, d: nat)
    requires Can(s, a) && d < |s.deliveries| && s.deliveries[d].phase.Returned?
    ensures d < |Do(s, a).deliveries| && Do(s, a).deliveries[d] == s.deliveries[d]
    ensures Do(s, a).domain == s.domain
  {
    DomainStands(s, a);
    if !OnDeliveries(a) {
      DeliveriesFrame(s, a);
    }
  }

  lemma {:induction false} ReturnedForever(states: seq<System>, steps: seq<Step>, i: nat, j: nat, d: nat)
    requires Run(states, steps) && i <= j < |states|
    requires d < |states[i].deliveries| && states[i].deliveries[d].phase.Returned?
    ensures d < |states[j].deliveries| && states[j].deliveries[d] == states[i].deliveries[d]
    ensures states[j].domain == states[i].domain
    decreases j - i
  {
    if i < j {
      ReturnedForever(states, steps, i, j - 1, d);
      assert TakesStep(states, steps, j - 1);
      ReturnedStays(states[j - 1], steps[j - 1], d);
    }
  }

  /** Quiesce is permanent: once a sish process has answered a disconnect of generation g, that
      process never again serves, or registers, a tunnel the disconnect selects whose generation
      is g or older, whenever it was authorized. */
  lemma QuiesceIsPermanent(states: seq<System>, steps: seq<Step>, i: nat, j: nat, d: nat)
    requires Run(states, steps) && i <= j < |states|
    requires d < |states[i].deliveries| && states[i].deliveries[d].phase == Returned(states[j].sish.source)
    ensures RequestOf(states[i].deliveries[d].effect, states[i].domain).Some?
    ensures var q := RequestOf(states[i].deliveries[d].effect, states[i].domain).value; var sish := states[j].sish;
      && (forall id :: id in sish.table.tunnels ==> !Behind(q, sish.table.tunnels[id]))
      && (sish.pending.Some? ==> !Behind(q, sish.pending.value.tunnel))
  {
    ReturnedForever(states, steps, i, j, d);
    InvAlways(states, steps, j);
    assert Quiet(states[j], states[j].deliveries[d]);
  }

  // --------------------------------------------------------------- two-phase agreement

  lemma AnswerTaken(states: seq<System>, steps: seq<Step>, i: nat)
    requires Run(states, steps) && i < |steps| && steps[i].Answer?
    ensures var a := steps[i]; Answers(states[i], a.fingerprint, a.hostname, a.name, a.grant)
  {
    assert TakesStep(states, steps, i);
  }

  /** From one state to a later one the generation grows, and while it stands still no right is
      lost. */
  ghost predicate RightsCarry(s: System, s': System) {
    && s'.domain == s.domain && s.db.generation <= s'.db.generation
    && (s.db.generation == s'.db.generation ==>
          forall c :: Entitled(s.db.rights, c) ==> Entitled(s'.db.rights, c))
  }

  lemma RightsCarryStep(s: System, a: Step)
    requires Sound(s.db) && Can(s, a)
    ensures RightsCarry(s, Do(s, a))
  {
    OutboxGrows(s, a);
    if a.Mutate? {
      forall c | Entitled(s.db.rights, c) && After(s.db, a.m).generation == s.db.generation
        ensures Entitled(After(s.db, a.m).rights, c)
      {
        SameGenerationKeepsRights(s.db, a.m, c);
      }
    } else if TouchesIndexOnly(a) {
      DbFrame(s, a);
    }
  }

  lemma RightsCarryAt(states: seq<System>, steps: seq<Step>, i: nat)
    requires Run(states, steps) && i < |steps|
    ensures RightsCarry(states[i], states[i + 1])
  {
    SoundAlways(states, steps, i);
    assert TakesStep(states, steps, i);
    RightsCarryStep(states[i], steps[i]);
  }

  lemma {:induction false} RightsCarryOver(states: seq<System>, i: nat, j: nat)
    requires i <= j < |states|
    requires forall k :: i <= k < j ==> RightsCarry(states[k], states[k + 1])
    ensures RightsCarry(states[i], states[j])
    decreases j - i
  {
    if i < j {
      RightsCarryOver(states, i, j - 1);
      assert RightsCarry(states[j - 1], states[j - 1 + 1]);
    }
  }

  lemma RightsHold(states: seq<System>, steps: seq<Step>, i: nat, j: nat)
    requires Run(states, steps) && i <= j < |states|
    ensures RightsCarry(states[i], states[j])
  {
    forall k | i <= k < j ensures RightsCarry(states[k], states[k + 1]) {
      RightsCarryAt(states, steps, k);
    }
    RightsCarryOver(states, i, j);
  }

  /** The right an authorization was answered for. */
  function AnswerClaim(a: Step): Claim
    requires a.Answer?
  {
    Claim(a.grant.principal.user, a.grant.principal.key, a.grant.protocol, a.name, a.grant.principal.port)
  }

  /** What an answer says, and that it is true. */
  lemma AnswerSays(s: System, fingerprint: string, hostname: string, name: string, g: Grant)
    requires NormalDomain(s.domain) && Sound(s.db) && Answers(s, fingerprint, hostname, name, g)
    ensures var p := g.principal;
      && p.generation == s.db.generation
      && Entitled(s.db.rights, Claim(p.user, p.key, g.protocol, name, p.port))
      && Shaped(g.protocol, p.host, s.domain)
      && (g.protocol.Tcp? ==> p.host == "")
      && (g.protocol.Named() ==> p.port == 0 && IsLabel(name) && p.host == Fqdn(name, s.domain))
  {
    AnswerSound(s, fingerprint, hostname, name, g);
    if g.protocol.Named() {
      AnswerNames(s, fingerprint, hostname, name, g);
    }
  }

  lemma AnswerFacts(states: seq<System>, steps: seq<Step>, i: nat)
    requires Run(states, steps) && i < |steps| && steps[i].Answer?
    ensures NormalDomain(states[i].domain)
    ensures var g := steps[i].grant; var p := g.principal;
      && p.generation == states[i].db.generation
      && Entitled(states[i].db.rights, AnswerClaim(steps[i]))
      && Shaped(g.protocol, p.host, states[i].domain)
      && (g.protocol.Tcp? ==> p.host == "")
      && (g.protocol.Named() ==> p.port == 0 && IsLabel(steps[i].name) && p.host == Fqdn(steps[i].name, states[i].domain))
  {
    var a := steps[i];
    InvAlways(states, steps, i);
    AnswerTaken(states, steps, i);
    AnswerSays(states[i], a.fingerprint, a.hostname, a.name, a.grant);
  }

  /** The right holds as long as the generation stands. */
  lemma AnswerHolds(states: seq<System>, steps: seq<Step>, i: nat, j: nat)
    requires Run(states, steps) && i <= j < |states| && i < |steps| && steps[i].Answer?
    ensures states[j].domain == states[i].domain && states[j].db.generation >= states[i].db.generation
    ensures states[j].db.generation == states[i].db.generation ==> Entitled(states[j].db.rights, AnswerClaim(steps[i]))
  {
    AnswerFacts(states, steps, i);
    RightsHold(states, steps, i, j);
  }

  /** The generation and the join are the only reasons for these two refusals. */
  lemma ConnectOutcome(db: Db, t: Tunnel, name: string, source: string, event: string)
    requires t.generation == db.generation ==> Entitled(db.rights, TunnelClaim(t, name))
    ensures var r := Connect(db, t, name, source, event);
      && (t.generation != db.generation <==> r == Err(StaleGeneration)) && r != Err(NoRows)
  {
  }

  /** The host of an answered name is its full name. */
  lemma AnswerNames(s: System, fingerprint: string, hostname: string, name: string, g: Grant)
    requires NormalDomain(s.domain) && Answers(s, fingerprint, hostname, name, g) && g.protocol.Named()
    ensures IsLabel(name) && g.principal.host == Fqdn(name, s.domain)
  {
    CanonicalIsLabel(hostname, s.domain);
    BoundariesAgree(name, s.domain);
  }

  /** Authorize and connect agree: the connect callback of an authorization is refused for its
      generation or for want of rights in exactly those later states whose generation is not the one
      the authorization returned, and then always for its generation. */
  lemma TwoPhaseAgreement(states: seq<System>, steps: seq<Step>, i: nat, j: nat, id: string, bound: int, sequence: int,
                          source: string, event: string)
    requires Run(states, steps) && i <= j < |states| && i < |steps| && steps[i].Answer?
    requires steps[i].grant.protocol.Tcp? ==> bound == steps[i].grant.principal.port
    ensures var g := steps[i].grant;
      var t := Bind(g.principal, g.protocol, id, bound, sequence);
      var r := HandleConnect(states[j].db, states[j].domain, t, source, event);
      && (states[j].db.generation != g.principal.generation <==> r == Err(StaleGeneration))
      && r != Err(NoRows)
  {
    var g := steps[i].grant;
    AnswerFacts(states, steps, i);
    AnswerHolds(states, steps, i, j);
    if g.protocol.Named() {
      FirstDotOfFqdn(steps[i].name, states[i].domain);
    }
    GrantConnects(states[j].db, states[j].domain, g, AnswerClaim(steps[i]),
                  Bind(g.principal, g.protocol, id, bound, sequence), source, event);
  }

  /** The callback of a grant, in a state whose rights include its claim if the generation is current. */
  lemma GrantConnects(db: Db, domain: string, g: Grant, c: Claim, t: Tunnel, source: string, event: string)
    requires NormalDomain(domain) && Shaped(g.protocol, g.principal.host, domain)
    requires t == Bind(g.principal, g.protocol, t.id, t.port, t.sequence)
    requires c == Claim(t.user, t.key, t.protocol, c.name, c.port)
    requires if t.protocol.Named() then LabelOf(t.host) == c.name else t.port == c.port
    requires db.generation == t.generation ==> Entitled(db.rights, c)
    ensures var r := HandleConnect(db, domain, t, source, event);
      (db.generation != t.generation <==> r == Err(StaleGeneration)) && r != Err(NoRows)
  {
    ShapedPassesThrough(db, domain, t, source, event);
    SameClaim(db.rights, c, TunnelClaim(t, LabelOf(t.host)));
    ConnectOutcome(db, t, LabelOf(t.host), source, event);
  }

  /** For a named protocol only the name of a claim matters, for TCP only the port. */
  lemma SameClaim(r: Rights, c: Claim, d: Claim)
    requires d.user == c.user && d.key == c.key && d.protocol == c.protocol
    requires if c.protocol.Named() then d.name == c.name else d.port == c.port
    ensures Entitled(r, c) <==> Entitled(r, d)
  {
  }

  // ------------------------------------------------------------------ fresh barriers

  /** Barriers for the key and the user of a right held now are below the current generation. */
  lemma KeyAndUserAreClear(s: System, c: Claim)
    requires Inv(s) && Entitled(s.db.rights, c)
    ensures At(s.sish.table.keyBarrier, c.key) < s.db.generation
    ensures At(s.sish.table.userBarrier, c.user) < s.db.generation
  {
    var t := s.sish.table;
    if c.key in t.keyBarrier {
      ItemIsSound(s, DisconnectKey(c.key, t.keyBarrier[c.key]));
    }
    if c.user in t.userBarrier {
      ItemIsSound(s, DisconnectUser(c.user, t.userBarrier[c.user]));
    }
  }

  lemma ItemIsSound(s: System, e: Effect)
    requires Sound(s.db) && InOutbox(s.db.outbox, e)
    ensures EffectBounded(s.db.rights, s.db.generation, e) && RevokedBefore(s.db.rights, s.db.generation, e)
  {
    var i :| 0 <= i < |s.db.outbox| && s.db.outbox[i].effect == e;
    assert ItemSound(s.db.rights, s.db.generation, s.db.outbox[i]);
  }

  lemma PortIsClear(s: System, c: Claim)
    requires Inv(s) && Entitled(s.db.rights, c) && c.protocol.Tcp?
    ensures At(s.sish.table.portBarrier, c.port) < s.db.generation
  {
    var t := s.sish.table;
    if c.port in t.portBarrier {
      ItemIsSound(s, DisconnectPort(c.port, t.portBarrier[c.port]));
    }
  }

  /** No barrier reaches a current principal of a TCP port. */
  lemma TcpIsClear(s: System, p: Principal, c: Claim)
    requires Inv(s) && Entitled(s.db.rights, c) && c.protocol.Tcp?
    requires p.user == c.user && p.key == c.key && p.port == c.port && p.host == "" && p.generation == s.db.generation
    ensures !Barred(s.sish.table, p)
  {
    KeyAndUserAreClear(s, c);
    PortIsClear(s, c);
  }

  /** No queued disconnect of a port held now closes a tunnel of the current generation. */
  lemma PortDisconnectSpares(s: System, e: Effect, p: Principal, c: Claim, id: string, sequence: int)
    requires Inv(s) && Entitled(s.db.rights, c) && c.protocol.Tcp? && p.port == c.port && p.generation == s.db.generation
    requires e.DisconnectPort? && InOutbox(s.db.outbox, e)
    ensures !Collects(RequestOf(e, s.domain).value, Bind(p, Tcp, id, p.port, sequence))
  {
    ItemIsSound(s, e);
  }

  /** A TCP authorization is never shut out by an old revocation: as long as the generation it
      returned is current, no barrier reaches it, however late disconnects were delivered; and no
      port disconnect of the outbox, whenever it is delivered, closes its tunnel. */
  lemma FreshTcpIsNeverBarred(states: seq<System>, steps: seq<Step>, i: nat, j: nat, e: Effect, id: string, sequence: int)
    requires Run(states, steps) && i <= j < |states| && i < |steps| && steps[i].Answer?
    requires steps[i].grant.protocol.Tcp? && states[j].db.generation == states[i].db.generation
    ensures !Barred(states[j].sish.table, steps[i].grant.principal)
    ensures e.DisconnectPort? && InOutbox(states[j].db.outbox, e) ==>
      !Collects(RequestOf(e, states[j].domain).value,
                Bind(steps[i].grant.principal, Tcp, id, steps[i].grant.principal.port, sequence))
  {
    var p := steps[i].grant.principal;
    AnswerFacts(states, steps, i);
    AnswerHolds(states, steps, i, j);
    InvAlways(states, steps, j);
    TcpIsClear(states[j], p, AnswerClaim(steps[i]));
    if e.DisconnectPort? && InOutbox(states[j].db.outbox, e) {
      PortDisconnectSpares(states[j], e, p, AnswerClaim(steps[i]), id, sequence);
    }
  }

  lemma HostBarrierBounded(s: System, host: string)
    requires Inv(s)
    ensures At(s.sish.table.hostBarrier, host) <= s.db.generation
  {
    var t := s.sish.table;
    if host in t.hostBarrier {
      var n :| InOutbox(s.db.outbox, DisconnectHost(n, t.hostBarrier[host]));
      ItemIsSound(s, DisconnectHost(n, t.hostBarrier[host]));
    }
  }

  /** For names only the barrier of the host can reach a current principal. */
  lemma NamedBarredByHost(s: System, p: Principal, c: Claim)
    requires Inv(s) && Entitled(s.db.rights, c) && c.protocol.Named()
    requires p.user == c.user && p.key == c.key && p.port == 0 && p.generation == s.db.generation
    requires IsLabel(c.name) && p.host == Fqdn(c.name, s.domain)
    ensures Barred(s.sish.table, p) <==> At(s.sish.table.hostBarrier, p.host) == s.db.generation
  {
    KeyAndUserAreClear(s, c);
    HostBarrierBounded(s, p.host);
    BoundariesAgree(c.name, s.domain);
  }

  lemma NameBarredByHost(states: seq<System>, steps: seq<Step>, i: nat, j: nat)
    requires Run(states, steps) && i <= j < |states| && i < |steps| && steps[i].Answer?
    requires steps[i].grant.protocol.Named() && states[j].db.generation == states[i].db.generation
    ensures var p := steps[i].grant.principal;
      && (Barred(states[j].sish.table, p) <==>
            At(states[j].sish.table.hostBarrier, p.host) == states[j].db.generation)
      && IsLabel(steps[i].name) && p.host == Fqdn(steps[i].name, states[j].domain)
  {
    AnswerFacts(states, steps, i);
    AnswerHolds(states, steps, i, j);
    InvAlways(states, steps, j);
    NamedBarredByHost(states[j], steps[i].grant.principal, AnswerClaim(steps[i]));
  }

  lemma ReleaseResult(db: Db, id: int, name: string)
    requires Sound(db) && id in db.rights.subdomains && db.rights.subdomains[id].name == name
    ensures var after := After(db, DeleteSubdomain(id, name)); var g := db.generation + 1;
      && after.generation == g
      && after.rights == db.rights.(subdomains := db.rights.subdomains - {id})
      && after.outbox == db.outbox + [NewItem(AtGeneration(g, Cut, OfHost(name)), DisconnectHost(name, g))]
    ensures IsLabel(name) && !NameTaken(db.rights.(subdomains := db.rights.subdomains - {id}), name)
  {
    NothingSwallowed(db, DeleteSubdomain(id, name));
  }

  lemma ReserveResult(db: Db, user: int, name: string)
    requires UserActive(db.rights, user) && !NameTaken(db.rights, name)
    ensures After(db, InsertSubdomain(user, name)) == db.(rights := db.rights.(
              subdomains := db.rights.subdomains[db.rights.nextSubdomain := Subdomain(user, name)],
              nextSubdomain := db.rights.nextSubdomain + 1))
  {
  }

  /** One state leads to the next by a step. */
  ghost predicate Leads(s: System, a: Step, s': System) {
    Can(s, a) && s' == Do(s, a)
  }

  lemma MutationLeads(s: System, m: Mutation)
    requires Allowed(s.db.rights, m)
    ensures Leads(s, Mutate(m), s.(db := After(s.db, m)))
  {
  }

  /** The holder of a name who cannot bind it. */
  ghost predicate HeldButBarred(s: System, user: int, key: int, name: string) {
    && Entitled(s.db.rights, Claim(user, key, Http, name, 0))
    && Barred(s.sish.table, Principal(user, key, s.db.generation, Fqdn(name, s.domain), 0))
  }

  /** And it does happen: whoever releases a name, reserves it again and has the disconnect
      delivered before the next generation is taken holds the name but cannot bind it. */
  lemma RereservedNameIsBarred(s: System, id: int, key: int, name: string)
      returns (s1: System, s2: System, s3: System, s4: System)
    requires Sound(s.db) && NormalDomain(s.domain) && s.sish.pending.None?
    requires id in s.db.rights.subdomains && s.db.rights.subdomains[id].name == name
    requires KeyLive(s.db.rights, key, s.db.rights.subdomains[id].user)
    ensures var user := s.db.rights.subdomains[id].user;
      && Leads(s, Mutate(DeleteSubdomain(id, name)), s1)
      && Leads(s1, Mutate(InsertSubdomain(user, name)), s2)
      && Leads(s2, Send(|s.db.outbox|), s3) && Leads(s3, Handle(|s.deliveries|), s4)
      && HeldButBarred(s4, user, key, name)
  {
    var user := s.db.rights.subdomains[id].user;
    ReleaseResult(s.db, id, name);
    MutationLeads(s, DeleteSubdomain(id, name));
    s1 := s.(db := After(s.db, DeleteSubdomain(id, name)));
    s2 := NameReservedAgain(s1, user, key, name);
    s3, s4 := DeliveryBars(s2, |s.db.outbox|, name, user, key);
  }

  lemma NameReservedAgain(s: System, user: int, key: int, name: string) returns (s': System)
    requires IsLabel(name) && key > 0 && KeyLive(s.db.rights, key, user) && !NameTaken(s.db.rights, name)
    ensures Leads(s, Mutate(InsertSubdomain(user, name)), s')
    ensures s' == s.(db := s'.db) && s'.db == s.db.(rights := s'.db.rights)
    ensures Entitled(s'.db.rights, Claim(user, key, Http, name, 0))
  {
    ReserveResult(s.db, user, name);
    MutationLeads(s, InsertSubdomain(user, name));
    s' := s.(db := After(s.db, InsertSubdomain(user, name)));
    assert s'.db.rights.subdomains[s.db.rights.nextSubdomain] == Subdomain(user, name);
  }

  lemma RunExtends(states: seq<System>, steps: seq<Step>, a: Step)
    requires Run(states, steps) && Can(states[|steps|], a)
    ensures Run(states + [Do(states[|steps|], a)], steps + [a])
  {
    var states', steps' := states + [Do(states[|steps|], a)], steps + [a];
    forall i | 0 <= i < |steps'| ensures TakesStep(states', steps', i) {
      if i < |steps| {
        assert TakesStep(states, steps, i);
        assert states'[i] == states[i] && states'[i + 1] == states[i + 1] && steps'[i] == steps[i];
      }
    }
  }

  lemma Extend(states: seq<System>, steps: seq<Step>, a: Step) returns (states': seq<System>, steps': seq<Step>)
    requires Run(states, steps) && Can(states[|steps|], a)
    ensures Run(states', steps') && |steps'| == |steps| + 1
    ensures states'[|steps'|] == Do(states[|steps|], a)
  {
    RunExtends(states, steps, a);
    states', steps' := states + [Do(states[|steps|], a)], steps + [a];
  }

  /** One transaction more. */
  lemma ExtendByMutation(states: seq<System>, steps: seq<Step>, m: Mutation)
    returns (states': seq<System>, steps': seq<Step>)
    requires Run(states, steps) && Allowed(states[|steps|].db.rights, m)
    ensures Run(states', steps') && |steps'| == |steps| + 1
    ensures states'[|steps'|] == states[|steps|].(db := After(states[|steps|].db, m))
  {
    states', steps' := Extend(states, steps, Mutate(m));
  }

  lemma ExtendTo(states: seq<System>, steps: seq<Step>, a: Step, s: System)
    returns (states': seq<System>, steps': seq<Step>)
    requires Run(states, steps) && Leads(states[|steps|], a, s)
    ensures Run(states', steps') && |steps'| == |steps| + 1 && states'[|steps'|] == s
  {
    states', steps' := Extend(states, steps, a);
  }

  lemma ExtendToFourth(states: seq<System>, steps: seq<Step>, a: Step, s1: System, b: Step, s2: System,
                       c: Step, s3: System, d: Step, s4: System)
    returns (states': seq<System>, steps': seq<Step>)
    requires Run(states, steps)
    requires Leads(states[|steps|], a, s1) && Leads(s1, b, s2) && Leads(s2, c, s3) && Leads(s3, d, s4)
    ensures Run(states', steps') && |steps'| == |steps| + 4 && states'[|steps'|] == s4
  {
    states', steps' := ExtendTo(states, steps, a, s1);
    states', steps' := ExtendTo(states', steps', b, s2);
    states', steps' := ExtendTo(states', steps', c, s3);
    states', steps' := ExtendTo(states', steps', d, s4);
  }

  /** sish has just started and the index is empty. */
  predicate Quiescent(s: System) {
    && s.domain == "d" && s.sish == Sish("s", EMPTY, {}, {}, None) && s.net == Net(map[], map[], {})
    && s.past == Past(map[], {"s"}) && s.db.index == Index(map[], map[], map[], "", 0, false, {})
    && s.db.generation == 1
  }

  /** Nothing but the system's own configuration. */
  lemma FromScratch() returns (s: System)
    ensures Init(s) && s.db.rights.users == map[] && Quiescent(s)
  {
    var rights := Rights(map[], 1, map[], 1, map[], 1, map[], 1, map[], map[]);
    s := System(Db(1, rights, Index(map[], map[], map[], "", 0, false, {}), []), "d",
                Sish("s", EMPTY, {}, {}, None), Net(map[], map[], {}), [], Past(map[], {"s"}));
    assert ToLower("d") == "d";
  }

  lemma FirstUser(db: Db)
    requires db.rights.users == map[] && db.rights.nextUser == 1
    ensures After(db, CreateUser(false))
         == db.(rights := db.rights.(users := map[1 := User(false, true)], nextUser := 2))
  {
  }

  lemma FirstKey(db: Db)
    requires Sound(db) && UserActive(db.rights, 1) && db.rights.keys == map[] && db.rights.nextKey == 1
    ensures var after := After(db, InsertKey(1, "f", "k"));
      && after.rights == db.rights.(keys := map[1 := Key(1, "f", "k", true)], nextKey := 2)
      && after.outbox == db.outbox + [NewItem(KeyAdded(1), WriteKey(1, 0))]
      && after.index == db.index && after.generation == db.generation
  {
    NothingSwallowed(db, InsertKey(1, "f", "k"));
  }

  lemma OneUser() returns (states: seq<System>, steps: seq<Step>)
    ensures Run(states, steps) && |steps| == 1 && Quiescent(states[1])
    ensures var r := states[1].db.rights;
      && r.users == map[1 := User(false, true)] && r.keys == map[] && r.subdomains == map[]
      && r.nextKey == 1 && r.nextSubdomain == 1 && states[1].db.outbox == []
  {
    var s0 := FromScratch();
    FirstUser(s0.db);
    states, steps := ExtendByMutation([s0], [], CreateUser(false));
  }

  /** A user and a key. */
  lemma OneKey() returns (states: seq<System>, steps: seq<Step>)
    ensures Run(states, steps) && |steps| == 2 && Quiescent(states[2])
    ensures var db := states[2].db;
      && db.rights.users == map[1 := User(false, true)] && db.rights.keys == map[1 := Key(1, "f", "k", true)]
      && db.rights.subdomains == map[] && db.rights.nextSubdomain == 1
      && db.outbox == [NewItem(KeyAdded(1), WriteKey(1, 0))]
  {
    states, steps := OneUser();
    SoundAlways(states, steps, 1);
    FirstKey(states[1].db);
    states, steps := ExtendByMutation(states, steps, InsertKey(1, "f", "k"));
  }

  /** A user, a key and a name. */
  lemma OneReservation() returns (states: seq<System>, steps: seq<Step>)
    ensures Run(states, steps) && |steps| == 3 && Quiescent(states[3])
    ensures var db := states[3].db;
      && KeyLive(db.rights, 1, 1) && db.rights.keys == map[1 := Key(1, "f", "k", true)]
      && 1 in db.rights.subdomains && db.rights.subdomains[1] == Subdomain(1, "a")
      && db.outbox == [NewItem(KeyAdded(1), WriteKey(1, 0))]
  {
    states, steps := OneKey();
    ReserveResult(states[2].db, 1, "a");
    states, steps := ExtendByMutation(states, steps, InsertSubdomain(1, "a"));
  }

  /** Every run in which no tunnel is being registered goes on to that state. */
  lemma RereservedNameAfter(states: seq<System>, steps: seq<Step>, id: int, key: int, name: string)
      returns (states': seq<System>, steps': seq<Step>)
    requires Run(states, steps) && states[|steps|].sish.pending.None?
    requires var r := states[|steps|].db.rights;
      id in r.subdomains && r.subdomains[id].name == name && KeyLive(r, key, r.subdomains[id].user)
    ensures Run(states', steps') && |steps'| == |steps| + 4
    ensures HeldButBarred(states'[|steps'|], states[|steps|].db.rights.subdomains[id].user, key, name)
  {
    var s := states[|steps|];
    SoundAlways(states, steps, |steps|);
    var s1, s2, s3, s4 := RereservedNameIsBarred(s, id, key, name);
    states', steps' := ExtendToFourth(states, steps, Mutate(DeleteSubdomain(id, name)), s1,
                                      Mutate(InsertSubdomain(s.db.rights.subdomains[id].user, name)), s2,
                                      Send(|s.db.outbox|), s3, Handle(|s.deliveries|), s4);
  }

  /** A run that gets there. */
  lemma RereservedNameRun() returns (states: seq<System>, steps: seq<Step>)
    ensures Run(states, steps) && |steps| == 7 && HeldButBarred(states[7], 1, 1, "a")
  {
    states, steps := OneReservation();
    states, steps := RereservedNameAfter(states, steps, 1, 1, "a");
  }

  /** Delivering a host disconnect shuts out every principal of that name up to its generation. */
  lemma SendLeads(s: System, item: nat, e: Effect)
    requires item < |s.db.outbox| && s.db.outbox[item].effect == e && !s.db.outbox[item].completed && e.Disconnects()
    ensures Leads(s, Send(item), s.(deliveries := s.deliveries + [Delivery(item, e, Sent)]))
  {
  }

  lemma HandleLeads(s: System, d: nat, q: Request)
    requires s.sish.pending.None? && d < |s.deliveries| && s.deliveries[d].phase.Sent?
    requires RequestOf(s.deliveries[d].effect, s.domain) == Some(q)
    ensures Leads(s, Handle(d), AfterHandle(s, d, q))
  {
  }

  lemma DeliveryBars(s: System, item: nat, name: string, user: int, key: int) returns (s1: System, s2: System)
    requires NormalDomain(s.domain) && IsLabel(name) && s.sish.pending.None? && item < |s.db.outbox|
    requires s.db.outbox[item].effect == DisconnectHost(name, s.db.generation) && !s.db.outbox[item].completed
    ensures Leads(s, Send(item), s1) && Leads(s1, Handle(|s.deliveries|), s2)
    ensures s2.db == s.db && s2.domain == s.domain
    ensures Barred(s2.sish.table, Principal(user, key, s.db.generation, Fqdn(name, s.domain), 0))
  {
    var e, d := DisconnectHost(name, s.db.generation), |s.deliveries|;
    var q := Request(0, 0, Fqdn(name, s.domain), 0, s.db.generation);
    BoundariesAgree(name, s.domain);
    SendLeads(s, item, e);
    s1 := s.(deliveries := s.deliveries + [Delivery(item, e, Sent)]);
    HandleLeads(s1, d, q);
    s2 := AfterHandle(s1, d, q);
    HostRequestBars(s.sish.table, q, Principal(user, key, s.db.generation, Fqdn(name, s.domain), 0));
  }

  lemma HostRequestBars(t: Table, q: Request, p: Principal)
    requires q.host != "" && p.host == q.host && Clean(p.host) == p.host && p.generation <= q.generation
    ensures Barred(Raise(t, q), p)
  {
    RaiseReaches(t, q);
    ReachedBars(Raise(t, q), q, p, Http, "", 0, 0);
  }

  // ------------------------------------------------------------------- source epochs

  lemma ConnectMovesSource(s: System, event: string)
    requires NormalDomain(s.domain) && Registered(s) && event in s.net.connects
    ensures SourceStep(s.db.index, AfterConnect(s, event).db.index)
  {
    var post := s.net.connects[event];
    HandlerPassesThrough(s, post, event);
    ConnectSourceStep(s.db.index, post.tunnel, post.source, event);
  }

  lemma SourceMoves(s: System, a: Step)
    requires NormalDomain(s.domain) && Sound(s.db) && Registered(s) && Can(s, a)
    ensures SourceStep(s.db.index, Do(s, a).db.index)
  {
    if !OnIndex(a) {
      IndexFrame(s, a);
    } else if a.Mutate? {
      MutationSourceStep(s.db, a.m);
    } else if a.DeliverConnect? {
      ConnectMovesSource(s, a.event);
    } else if a.DeliverDisconnect? {
      var post := s.net.disconnects[a.event];
      DisconnectSourceStep(s.db.index, post.id, post.source, a.event, post.sequence);
    } else if a.DeliverSnapshot? {
      SnapshotSourceStep(s.db.rights, s.db.index, a.snapshot);
    }
  }

  lemma SourceMovesAt(states: seq<System>, steps: seq<Step>, i: nat)
    requires Run(states, steps) && i < |steps|
    ensures SourceStep(states[i].db.index, states[i + 1].db.index)
  {
    InvAlways(states, steps, i);
    assert TakesStep(states, steps, i);
    SourceMoves(states[i], steps[i]);
  }

  /** From one index to a later one: a source that was left is retired, a source that was kept
      has only moved forward. */
  ghost predicate EpochOrder(x: Index, y: Index) {
    && x.retired <= y.retired && y.source !in y.retired
    && (x.source != "" ==>
          if y.source == x.source then x.lastSequence <= y.lastSequence else x.source in y.retired)
  }

  lemma EpochOrderAt(states: seq<System>, steps: seq<Step>, i: nat)
    requires Run(states, steps) && i < |steps|
    ensures EpochOrder(states[i].db.index, states[i + 1].db.index)
  {
    SourceMovesAt(states, steps, i);
    InvAlways(states, steps, i + 1);
  }

  lemma {:induction false} EpochOrderOver(states: seq<System>, i: nat, j: nat)
    requires i <= j < |states| && EpochOrder(states[i].db.index, states[i].db.index)
    requires forall k :: i <= k < j ==> EpochOrder(states[k].db.index, states[k + 1].db.index)
    ensures EpochOrder(states[i].db.index, states[j].db.index)
    decreases j - i
  {
    if i < j {
      EpochOrderOver(states, i, j - 1);
      assert EpochOrder(states[j - 1].db.index, states[j - 1 + 1].db.index);
    }
  }

  lemma EpochsInOrder(states: seq<System>, steps: seq<Step>, i: nat, j: nat)
    requires Run(states, steps) && i <= j < |states|
    ensures EpochOrder(states[i].db.index, states[j].db.index)
  {
    InvAlways(states, steps, i);
    forall k | i <= k < j ensures EpochOrder(states[k].db.index, states[k + 1].db.index) {
      EpochOrderAt(states, steps, k);
    }
    EpochOrderOver(states, i, j);
  }

  /** Source epochs never repeat: once the index has left a sish process for another, it never
      follows that process again; and while it follows one process, the last sequence it has
      seen of it only grows. */
  lemma EpochsNeverRepeat(states: seq<System>, steps: seq<Step>, i: nat, j: nat, k: nat)
    requires Run(states, steps) && i <= j <= k < |states|
    requires states[i].db.index.source != ""
    ensures states[j].db.index.source != states[i].db.index.source ==>
      states[k].db.index.source != states[i].db.index.source
    ensures states[k].db.index.source == states[i].db.index.source ==>
      states[i].db.index.lastSequence <= states[j].db.index.lastSequence <= states[k].db.index.lastSequence
  {
    EpochsInOrder(states, steps, i, j);
    EpochsInOrder(states, steps, j, k);
  }

  /** What a callback or a snapshot brings, and from which process. */
  predicate Brings(s: System, a: Step, source: string) {
    match a
    case DeliverConnect(e) => e in s.net.connects && s.net.connects[e].source == source
    case DeliverDisconnect(e) => e in s.net.disconnects && s.net.disconnects[e].source == source
    case DeliverSnapshot(snapshot) => snapshot.source == source
    case _ => false
  }

  lemma RetiredBringsNothing(s: System, a: Step, source: string)
    requires NormalDomain(s.domain) && Registered(s) && Can(s, a) && Brings(s, a, source)
    requires source in s.db.index.retired && source != s.db.index.source
    ensures Do(s, a).db == s.db
  {
    if a.DeliverConnect? {
      HandlerPassesThrough(s, s.net.connects[a.event], a.event);
    }
  }

  /** Nothing an earlier sish process sent changes any row once the index has left it. */
  lemma EarlierProcessesChangeNothing(states: seq<System>, steps: seq<Step>, i: nat, j: nat)
    requires Run(states, steps) && i <= j && j < |steps|
    requires states[i].db.index.source != "" && states[j].db.index.source != states[i].db.index.source
    requires Brings(states[j], steps[j], states[i].db.index.source)
    ensures states[j + 1].db == states[j].db
  {
    EpochsInOrder(states, steps, i, j);
    InvAlways(states, steps, j);
    assert TakesStep(states, steps, j);
    RetiredBringsNothing(states[j], steps[j], states[i].db.index.source);
  }
}
