/**
 Every step keeps the invariants of the protocol.
 */
module Safety {
  import opened Hostnames
  import opened Tables
  import opened Lifecycle
  import opened Registry
  import opened Coordination

  // ------------------------------------------------------------- what the db does

  /** Steps that leave generation, rights and outbox alone. */
  predicate TouchesIndexOnly(a: Step) {
    !a.Mutate? && !a.Complete? && !a.Retry?
  }

  lemma HandleConnectFrame(db: Db, domain: string, t: Tunnel, source: string, event: string)
    ensures var after := OrElse(HandleConnect(db, domain, t, source, event), db);
      after.generation == db.generation && after.rights == db.rights && after.outbox == db.outbox
  {
  }

  lemma DbFrame(s: System, a: Step)
    requires Can(s, a) && TouchesIndexOnly(a)
    ensures var after := Do(s, a).db;
      after.generation == s.db.generation && after.rights == s.db.rights && after.outbox == s.db.outbox
    ensures Do(s, a).domain == s.domain
  {
    if a.DeliverConnect? {
      var post := s.net.connects[a.event];
      HandleConnectFrame(s.db, s.domain, post.tunnel, post.source, a.event);
    }
  }

  /** The outbox only grows, and an item keeps what it says. */
  ghost predicate Extends(before: seq<Item>, after: seq<Item>) {
    && |before| <= |after|
    && forall i :: 0 <= i < |before| ==> after[i].effect == before[i].effect && after[i].dedupe == before[i].dedupe
  }

  lemma DomainStands(s: System, a: Step)
    requires Can(s, a)
    ensures Do(s, a).domain == s.domain
  {
    if TouchesIndexOnly(a) {
      DbFrame(s, a);
    }
  }

  /** The steps that work on a delivery. */
  predicate OnDeliveries(a: Step) {
    a.Send? || a.Handle? || a.CleanUp? || a.Acknowledge? || a.Restart?
  }

  lemma DeliveriesFrame(s: System, a: Step)
    requires Can(s, a) && !OnDeliveries(a)
    ensures Do(s, a).deliveries == s.deliveries
  {
    if TouchesIndexOnly(a) {
      DbFrame(s, a);
    }
  }

  lemma OutboxGrows(s: System, a: Step)
    requires Can(s, a) && Sound(s.db)
    ensures Extends(s.db.outbox, Do(s, a).db.outbox)
    ensures s.db.generation <= Do(s, a).db.generation
    ensures Do(s, a).domain == s.domain
  {
    if a.Mutate? {
      NothingSwallowed(s.db, a.m);
    } else if TouchesIndexOnly(a) {
      DbFrame(s, a);
    }
  }

  lemma SoundStep(s: System, a: Step)
    requires Can(s, a) && Sound(s.db)
    ensures Sound(Do(s, a).db)
  {
    var after := Do(s, a).db;
    if a.Mutate? {
      SoundKept(s.db, a.m);
    } else if TouchesIndexOnly(a) {
      DbFrame(s, a);
    } else {
      forall i | 0 <= i < |after.outbox| ensures ItemSound(after.rights, after.generation, after.outbox[i]) {
        assert ItemSound(s.db.rights, s.db.generation, s.db.outbox[i]);
      }
    }
  }

  // ---------------------------------------------------------------- registrations

  lemma AnswerSound(s: System, fingerprint: string, hostname: string, name: string, g: Grant)
    requires NormalDomain(s.domain) && Sound(s.db) && Answers(s, fingerprint, hostname, name, g)
    ensures GrantSound(s, g)
    ensures Entitled(s.db.rights, Claim(g.principal.user, g.principal.key, g.protocol, name, g.principal.port))
  {
    AuthorizedIsEntitled(s.db.rights, fingerprint,
                         Claim(g.principal.user, g.principal.key, g.protocol, name, g.principal.port));
    if g.protocol.Named() {
      CanonicalIsLabel(hostname, s.domain);
      BoundariesAgree(name, s.domain);
    }
  }

  /** Only a registration draws a tunnel id. */
  lemma PastFrame(s: System, a: Step)
    requires Can(s, a) && !a.Begin?
    ensures Do(s, a).past.births == s.past.births && s.past.sources <= Do(s, a).past.sources
  {
  }

  lemma BirthsStand(s: System, a: Step, id: string)
    requires Can(s, a) && id in s.past.births
    ensures id in Do(s, a).past.births && Do(s, a).past.births[id] == s.past.births[id]
  {
    if !a.Begin? {
      PastFrame(s, a);
    }
  }

  lemma BeginBirth(s: System, g: Grant, id: string, bound: int, event: string, other: string)
    requires GrantSound(s, g) && s.sish.source in s.past.sources && s.sish.source != "" && BirthSound(s, other)
    ensures BirthSound(AfterBegin(s, g, id, bound, event), other)
  {
  }

  lemma BirthCarries(s: System, s': System, id: string)
    requires BirthSound(s, id) && s'.domain == s.domain && s.db.generation <= s'.db.generation
    requires s'.past.births == s.past.births && s.past.sources <= s'.past.sources
    ensures BirthSound(s', id)
  {
  }

  lemma BirthsStep(s: System, a: Step, id: string)
    requires Can(s, a) && NormalDomain(s.domain) && Sound(s.db) && Registered(s)
    ensures BirthSound(Do(s, a), id)
  {
    assert BirthSound(s, id);
    if a.Begin? {
      assert GrantSound(s, a.grant);
      BeginBirth(s, a.grant, a.id, a.bound, a.event, id);
    } else {
      OutboxGrows(s, a);
      PastFrame(s, a);
      BirthCarries(s, Do(s, a), id);
    }
  }

  /** Only an answer brings a grant, and only an accepted one is used. */
  lemma GrantsFrame(s: System, a: Step)
    requires Can(s, a) && !a.Answer?
    ensures Do(s, a).sish.answers <= s.sish.answers
    ensures Do(s, a).sish.grants <= s.sish.grants + s.sish.answers
  {
  }

  lemma GrantsCarry(s: System, s': System)
    requires GrantsSound(s) && s'.domain == s.domain && s.db.generation <= s'.db.generation
    requires s'.sish.answers <= s.sish.answers && s'.sish.grants <= s.sish.grants + s.sish.answers
    ensures GrantsSound(s')
  {
    forall g | g in s'.sish.answers || g in s'.sish.grants ensures GrantSound(s', g) {
      assert GrantSound(s, g);
    }
  }

  lemma AnswerBringsSound(s: System, g: Grant)
    requires GrantsSound(s) && GrantSound(s, g)
    ensures GrantsSound(AfterAnswer(s, g))
  {
    var s' := AfterAnswer(s, g);
    forall h | h in s'.sish.answers || h in s'.sish.grants ensures GrantSound(s', h) {
      assert GrantSound(s, h);
    }
  }

  lemma GrantsStep(s: System, a: Step)
    requires Can(s, a) && NormalDomain(s.domain) && Sound(s.db) && GrantsSound(s)
    ensures GrantsSound(Do(s, a))
  {
    if a.Answer? {
      AnswerSound(s, a.fingerprint, a.hostname, a.name, a.grant);
      AnswerBringsSound(s, a.grant);
    } else {
      OutboxGrows(s, a);
      GrantsFrame(s, a);
      GrantsCarry(s, Do(s, a));
    }
  }

  /** Steps that leave the registry, the counter, the barriers and the random ids alone. */
  predicate KeepsRegistry(a: Step) {
    || a.Mutate? || a.Answer? || a.Accept? || a.DeliverConnect? || a.DeliverDisconnect? || a.TakeSnapshot?
    || a.DeliverSnapshot? || a.SyncFails? || a.Send? || a.Acknowledge? || a.Complete? || a.Retry?
  }

  /** The same registration is on its way; at most its callback has been acknowledged. */
  predicate SamePending(p: Option<Pending>, p': Option<Pending>) {
    (p.Some? <==> p'.Some?) && (p.Some? ==> p'.value.tunnel == p.value.tunnel && p'.value.event == p.value.event)
  }

  lemma RegistryFrame(s: System, a: Step)
    requires Can(s, a) && KeepsRegistry(a)
    ensures Do(s, a).sish.table == s.sish.table && Do(s, a).sish.source == s.sish.source
    ensures SamePending(s.sish.pending, Do(s, a).sish.pending) && Do(s, a).past == s.past
    ensures Do(s, a).net.connects == s.net.connects && Do(s, a).net.disconnects == s.net.disconnects
  {
  }

  lemma ProcessFrame(s: System, a: Step)
    requires Can(s, a) && !a.Begin? && !a.Restart?
    ensures Do(s, a).past == s.past && Do(s, a).sish.source == s.sish.source
  {
    if KeepsRegistry(a) {
      RegistryFrame(s, a);
    }
  }

  /** What the registry may gain and lose at once: nothing but the registration on its way. */
  ghost predicate TunnelsFrom(s: System, s': System) {
    && s'.sish.source == s.sish.source
    && (forall id :: id in s.past.births ==> id in s'.past.births && s'.past.births[id] == s.past.births[id])
    && (forall id :: id in s'.sish.table.tunnels ==>
          || (id in s.sish.table.tunnels && s'.sish.table.tunnels[id] == s.sish.table.tunnels[id])
          || (s.sish.pending.Some? && s.sish.pending.value.tunnel.id == id
              && s'.sish.table.tunnels[id] == s.sish.pending.value.tunnel))
  }

  lemma TunnelsFromBorn(s: System, s': System)
    requires TunnelsBorn(s) && PendingBorn(s) && TunnelsFrom(s, s')
    ensures TunnelsBorn(s')
  {
  }

  lemma StepTunnels(s: System, a: Step)
    requires Can(s, a) && !a.Restart?
    ensures TunnelsFrom(s, Do(s, a))
  {
    if KeepsRegistry(a) {
      RegistryFrame(s, a);
    }
  }

  lemma TunnelsBornStep(s: System, a: Step)
    requires Can(s, a) && TunnelsBorn(s) && PendingBorn(s)
    ensures TunnelsBorn(Do(s, a))
  {
    if !a.Restart? {
      StepTunnels(s, a);
      TunnelsFromBorn(s, Do(s, a));
    }
  }

  lemma BeginPends(s: System, g: Grant, id: string, bound: int, event: string)
    requires id !in s.past.births && TunnelsBorn(s)
    ensures PendingBorn(AfterBegin(s, g, id, bound, event))
  {
    assert id !in s.sish.table.tunnels;
  }

  /** The registration on its way is still the same, or there is none; the registry has only lost. */
  ghost predicate PendingFrom(s: System, s': System) {
    s'.sish.pending.Some? ==>
      && SamePending(s.sish.pending, s'.sish.pending) && s'.sish.source == s.sish.source
      && s'.past.births == s.past.births && s'.net.connects == s.net.connects
      && s'.sish.table.tunnels.Keys <= s.sish.table.tunnels.Keys
  }

  lemma PendingFromBorn(s: System, s': System)
    requires PendingBorn(s) && PendingFrom(s, s')
    ensures PendingBorn(s')
  {
  }

  lemma StepPending(s: System, a: Step)
    requires Can(s, a) && !a.Begin?
    ensures PendingFrom(s, Do(s, a))
  {
    if KeepsRegistry(a) {
      RegistryFrame(s, a);
    }
  }

  lemma PendingBornStep(s: System, a: Step)
    requires Can(s, a) && TunnelsBorn(s) && PendingBorn(s)
    ensures PendingBorn(Do(s, a))
  {
    if a.Begin? {
      BeginPends(s, a.grant, a.id, a.bound, a.event);
    } else {
      StepPending(s, a);
      PendingFromBorn(s, Do(s, a));
    }
  }

  /** Only registrations, removals and snapshots put anything on the net. */
  predicate Posts(a: Step) {
    a.Begin? || a.Unregister? || a.CleanUp? || a.TakeSnapshot?
  }

  lemma NetFrame(s: System, a: Step)
    requires Can(s, a) && !Posts(a)
    ensures Do(s, a).net == s.net && Do(s, a).past.births == s.past.births
  {
  }

  lemma BeginPosts(s: System, g: Grant, id: string, bound: int, event: string)
    requires PostsBorn(s) && Fresh(s, event) && id !in s.past.births
    ensures PostsBorn(AfterBegin(s, g, id, bound, event))
  {
  }

  lemma RemovalPosts(s: System, id: string, event: string)
    requires PostsBorn(s) && TunnelsBorn(s) && Fresh(s, event)
    ensures PostsBorn(AfterUnregister(s, id, event))
  {
  }

  lemma SnapshotPosts(s: System, list: seq<Tunnel>)
    requires PostsBorn(s) && TunnelsBorn(s) && Enumerates(list, s.sish.table.tunnels)
    ensures Lists(s.past.births, Snapshot(s.sish.source, s.sish.table.sequence, list))
  {
  }

  lemma PostsBornStep(s: System, a: Step)
    requires Can(s, a) && PostsBorn(s) && TunnelsBorn(s)
    ensures PostsBorn(Do(s, a))
  {
    if !Posts(a) {
      NetFrame(s, a);
    } else if a.Begin? {
      BeginPosts(s, a.grant, a.id, a.bound, a.event);
    } else if a.TakeSnapshot? {
      SnapshotPosts(s, a.list);
    } else if a.Unregister? {
      RemovalPosts(s, a.id, a.event);
    } else if a.CleanUp? {
      RemovalPosts(s, a.id, a.event);
    }
  }

  lemma RegisteredStep(s: System, a: Step)
    requires Can(s, a) && NormalDomain(s.domain) && Sound(s.db) && Registered(s)
    ensures Registered(Do(s, a))
  {
    forall id ensures BirthSound(Do(s, a), id) {
      BirthsStep(s, a, id);
    }
    GrantsStep(s, a);
    TunnelsBornStep(s, a);
    PendingBornStep(s, a);
    PostsBornStep(s, a);
  }

  // ------------------------------------------------------------------------ index

  /** A delivered connect leaves the index alone or does to it what the registration says. */
  lemma ConnectStepIndex(s: System, event: string)
    requires NormalDomain(s.domain) && Registered(s) && event in s.net.connects
    ensures var post := s.net.connects[event];
      || AfterConnect(s, event).db.index == s.db.index
      || AfterConnect(s, event).db.index == OrElse(ConnectIndex(s.db.index, post.tunnel, post.source, event), s.db.index)
  {
    var post := s.net.connects[event];
    HandlerPassesThrough(s, post, event);
    assert BirthSound(s, post.tunnel.id);
  }

  /** The handler hands the registration's own tunnel and label to the transaction. */
  lemma HandlerPassesThrough(s: System, post: ConnectPost, event: string)
    requires NormalDomain(s.domain) && Registered(s) && Born(s, post.tunnel, post.source)
    ensures HandleConnect(s.db, s.domain, post.tunnel, post.source, event)
         == Connect(s.db, post.tunnel, LabelOf(post.tunnel.host), post.source, event)
  {
    assert BirthSound(s, post.tunnel.id);
    ShapedPassesThrough(s.db, s.domain, post.tunnel, post.source, event);
  }

  lemma ShapedPassesThrough(db: Db, domain: string, t: Tunnel, source: string, event: string)
    requires NormalDomain(domain) && Shaped(t.protocol, t.host, domain)
    ensures HandleConnect(db, domain, t, source, event) == Connect(db, t, LabelOf(t.host), source, event)
  {
    if t.protocol.Tcp? {
      assert t.(host := "") == t;
      assert LabelOf("") == "";
    } else {
      var name :| IsLabel(name) && t.host == Fqdn(name, domain);
      BoundariesAgree(name, domain);
      assert t.(host := Fqdn(name, domain)) == t;
    }
  }

  lemma RowsAreShaped(s: System)
    requires Registered(s) && RowsBorn(s.db.index, s.past.births)
    ensures RowsShaped(s.db.index, s.domain)
  {
    forall id | id in s.db.index.tunnels ensures HostShaped(s.db.index.tunnels[id].protocol, s.db.index.tunnels[id].host, s.domain) {
      assert BirthSound(s, id);
    }
  }

  /** More registrations leave a sound index sound. */
  lemma MoreBirths(x: Index, births: map<string, Birth>, id: string, b: Birth)
    requires IndexSound(x, births) && id !in births
    ensures IndexSound(x, births[id := b])
  {
  }

  lemma MutateKeepsIndex(s: System, m: Mutation)
    requires Allowed(s.db.rights, m) && Sound(s.db) && Registered(s) && Indexed(s)
    ensures IndexSound(After(s.db, m).index, s.past.births)
    ensures LiveRowsEntitled(After(s.db, m).rights, After(s.db, m).index)
  {
    RowsAreShaped(s);
    MutationKeepsRights(s.db, m, s.domain);
    if After(s.db, m) != s.db {
      var p := MutationPlan(s.db, m);
      if p.cut.Some? {
        MarkKeepsIndex(s.db.index, s.past.births, p.cut.value);
      }
    }
  }

  lemma ConnectKeepsIndexed(s: System, event: string)
    requires event in s.net.connects
    requires NormalDomain(s.domain) && Registered(s) && Indexed(s)
    ensures Indexed(AfterConnect(s, event))
  {
    var post := s.net.connects[event];
    var t := post.tunnel;
    HandlerPassesThrough(s, post, event);
    ConnectKeepsIndex(s.db.index, s.past.births, t, post.source, event);
    ConnectKeepsRights(s.db, s.past.births, t, LabelOf(t.host), post.source, event);
  }

  lemma DisconnectKeepsIndexed(s: System, event: string)
    requires event in s.net.disconnects && Registered(s) && Indexed(s)
    ensures var post := s.net.disconnects[event];
      Indexed(SetIndex(s, DisconnectIndex(s.db.index, post.id, post.source, event, post.sequence)))
  {
    var post := s.net.disconnects[event];
    DisconnectKeepsIndex(s.db.index, s.past.births, post.id, post.source, event, post.sequence);
    DisconnectKeepsRights(s.db.rights, s.db.index, post.id, post.source, event, post.sequence);
  }

  lemma SnapshotKeepsIndexed(s: System, snapshot: Snapshot)
    requires snapshot in s.net.snapshots && Registered(s) && Indexed(s)
    ensures Indexed(SetIndex(s, ReconcileIndex(s.db.rights, s.db.index, snapshot)))
  {
    SnapshotKeepsIndex(s.db.rights, s.db.index, s.past.births, snapshot);
    SnapshotKeepsRights(s.db.rights, s.db.index, s.past.births, snapshot);
  }

  lemma StaleKeepsIndexed(s: System)
    requires Indexed(s)
    ensures Indexed(s.(db := s.db.(index := MarkStale(s.db.index))))
  {
    StaleKeepsIndex(s.db.index, s.past.births);
  }

  lemma BeginKeepsIndexed(s: System, g: Grant, id: string, bound: int, event: string)
    requires id !in s.past.births && Indexed(s)
    ensures Indexed(AfterBegin(s, g, id, bound, event))
  {
    MoreBirths(s.db.index, s.past.births, id, AfterBegin(s, g, id, bound, event).past.births[id]);
  }

  /** Only mutations change rights or take generations. */
  lemma RightsFrame(s: System, a: Step)
    requires Can(s, a) && !a.Mutate?
    ensures Do(s, a).db.rights == s.db.rights && Do(s, a).db.generation == s.db.generation
  {
    if TouchesIndexOnly(a) {
      DbFrame(s, a);
    }
  }

  lemma OnIndexIndexed(s: System, a: Step)
    requires Can(s, a) && OnIndex(a) && NormalDomain(s.domain) && Sound(s.db) && Registered(s) && Indexed(s)
    ensures Indexed(Do(s, a))
  {
    if a.Mutate? {
      MutateKeepsIndex(s, a.m);
    } else if a.DeliverConnect? {
      ConnectKeepsIndexed(s, a.event);
    } else if a.DeliverDisconnect? {
      DisconnectKeepsIndexed(s, a.event);
    } else if a.DeliverSnapshot? {
      SnapshotKeepsIndexed(s, a.snapshot);
    } else if a.SyncFails? {
      StaleKeepsIndexed(s);
    }
  }

  lemma IndexedStep(s: System, a: Step)
    requires Can(s, a) && NormalDomain(s.domain) && Sound(s.db) && Registered(s) && Indexed(s)
    ensures Indexed(Do(s, a))
  {
    if OnIndex(a) {
      OnIndexIndexed(s, a);
    } else if a.Begin? {
      BeginKeepsIndexed(s, a.grant, a.id, a.bound, a.event);
    } else {
      IndexFrame(s, a);
      RightsFrame(s, a);
      PastFrame(s, a);
    }
  }

  // ------------------------------------------------------------------- joint safety

  lemma DoomedCarries(before: seq<Item>, after: seq<Item>, domain: string, t: Tunnel)
    requires Extends(before, after) && Doomed(before, domain, t)
    requires forall i :: 0 <= i < |before| && after[i].completed ==> before[i].completed
    ensures Doomed(after, domain, t)
  {
    var i :| 0 <= i < |before| && !before[i].completed && Aims(before[i].effect, domain, t);
    assert after[i].effect == before[i].effect;
  }

  /** A disconnect that takes a tunnel's right is a request about that tunnel. */
  lemma CutAims(e: Effect, domain: string, t: Tunnel)
    requires NormalDomain(domain) && Shaped(t.protocol, t.host, domain)
    requires Revokes(e, TunnelClaim(t, LabelOf(t.host))) && e.generation > t.generation
    requires match e
      case DisconnectKey(k, _) => k > 0
      case DisconnectUser(u, _) => u > 0
      case DisconnectPort(p, _) => p > 0
      case DisconnectHost(n, _) => IsLabel(n)
      case _ => false
    ensures Aims(e, domain, t)
  {
    if e.DisconnectHost? {
      var name :| IsLabel(name) && t.host == Fqdn(name, domain);
      FirstDotOfFqdn(name, domain);
      BoundariesAgree(name, domain);
    }
  }

  /** The disconnect a plan queues aims at every older tunnel whose right it takes. */
  lemma CutDooms(db: Db, p: Plan, after: Db, domain: string, t: Tunnel)
    requires NormalDomain(domain) && Shaped(t.protocol, t.host, domain) && t.generation <= db.generation
    requires after.outbox == db.outbox + ItemsOf(p.notes) && Sound(after)
    requires CutsAt(p, db.generation + 1, TunnelClaim(t, LabelOf(t.host)))
    requires exists i :: 0 <= i < |p.notes| && p.notes[i].effect == p.cut.value
    ensures Doomed(after.outbox, domain, t)
  {
    var i :| 0 <= i < |p.notes| && p.notes[i].effect == p.cut.value;
    var at := |db.outbox| + i;
    assert after.outbox[at] == NewItem(p.notes[i].dedupe, p.cut.value);
    assert ItemSound(after.rights, after.generation, after.outbox[at]);
    CutAims(p.cut.value, domain, t);
  }

  lemma MutateKeepsCovered(s: System, m: Mutation, t: Tunnel)
    requires Allowed(s.db.rights, m) && NormalDomain(s.domain) && Sound(s.db)
    requires Shaped(t.protocol, t.host, s.domain) && t.generation <= s.db.generation
    requires Covered(s, t)
    ensures Covered(s.(db := After(s.db, m)), t)
  {
    var after := After(s.db, m);
    if after != s.db {
      var p := MutationPlan(s.db, m);
      SoundKept(s.db, m);
      FreshNotesAppend(s.db.outbox, p.notes);
      PerformKeepsCovered(s, p, after, t);
    }
  }

  lemma PerformKeepsCovered(s: System, p: Plan, after: Db, t: Tunnel)
    requires NormalDomain(s.domain) && Sound(after)
    requires Shaped(t.protocol, t.host, s.domain) && t.generation <= s.db.generation
    requires after.rights == p.rights && after.outbox == s.db.outbox + ItemsOf(p.notes)
    requires KeepsOrCuts(s.db.rights, p, s.db.generation + 1)
    requires p.cut.Some? ==> exists i :: 0 <= i < |p.notes| && p.notes[i].effect == p.cut.value
    requires Covered(s, t)
    ensures Covered(s.(db := after), t)
  {
    var c := TunnelClaim(t, LabelOf(t.host));
    if Entitled(s.db.rights, c) {
      if CutsAt(p, s.db.generation + 1, c) {
        CutDooms(s.db, p, after, s.domain, t);
      }
    } else {
      DoomedCarries(s.db.outbox, after.outbox, s.domain, t);
    }
  }

  /** An acknowledged connect held its right at that very moment. */
  lemma AcknowledgedIsEntitled(s: System, event: string)
    requires event in s.net.connects && NormalDomain(s.domain) && Registered(s)
    requires HandleConnect(s.db, s.domain, s.net.connects[event].tunnel, s.net.connects[event].source, event).Ok?
    ensures var t := s.net.connects[event].tunnel; Entitled(s.db.rights, TunnelClaim(t, LabelOf(t.host)))
    ensures s.net.connects[event].tunnel.generation == s.db.generation
  {
    HandlerPassesThrough(s, s.net.connects[event], event);
  }

  /** A tunnel in the registry or on its way there. */
  ghost predicate Held(s: System, t: Tunnel) {
    || (exists id :: id in s.sish.table.tunnels && s.sish.table.tunnels[id] == t)
    || (s.sish.pending.Some? && s.sish.pending.value.tunnel == t)
  }

  /** Completing an item takes cover away from nothing: the process that answered has no tunnel
      left that the item was needed for. */
  lemma CompleteKeepsCovered(s: System, i: nat, t: Tunnel)
    requires i < |s.db.outbox| && (s.db.outbox[i].effect.Disconnects() ==> AnsweredItem(s, i))
    requires Delivered(s) && Covered(s, t)
    requires Held(s, t)
    ensures Covered(AfterComplete(s, i), t)
  {
    var outbox := AfterComplete(s, i).db.outbox;
    if !Entitled(s.db.rights, TunnelClaim(t, LabelOf(t.host))) {
      var j :| 0 <= j < |s.db.outbox| && !s.db.outbox[j].completed && Aims(s.db.outbox[j].effect, s.domain, t);
      if j == i {
        var d :| 0 <= d < |s.deliveries| && s.deliveries[d].item == i && s.deliveries[d].phase.Returned?;
        assert Quiet(s, s.deliveries[d]);
        assert Behind(RequestOf(s.db.outbox[i].effect, s.domain).value, t);
        assert false;
      }
      assert !outbox[j].completed && Aims(outbox[j].effect, s.domain, t);
    }
  }

  lemma CoveredCarries(s: System, s': System, t: Tunnel)
    requires Covered(s, t) && s'.db.rights == s.db.rights && s'.domain == s.domain
    requires Extends(s.db.outbox, s'.db.outbox)
    requires forall i :: 0 <= i < |s.db.outbox| && s'.db.outbox[i].completed ==> s.db.outbox[i].completed
    ensures Covered(s', t)
  {
    if !Entitled(s.db.rights, TunnelClaim(t, LabelOf(t.host))) {
      DoomedCarries(s.db.outbox, s'.db.outbox, s.domain, t);
    }
  }

  lemma OthersKeepCovered(s: System, a: Step, t: Tunnel)
    requires Can(s, a) && !a.Mutate? && !a.Complete? && Sound(s.db) && Covered(s, t)
    ensures Covered(Do(s, a), t)
  {
    OutboxGrows(s, a);
    RightsFrame(s, a);
    if TouchesIndexOnly(a) {
      DbFrame(s, a);
    }
    CoveredCarries(s, Do(s, a), t);
  }

  /** Cover is kept by every step for a tunnel that is served or acknowledged. */
  lemma CoverStep(s: System, a: Step, t: Tunnel)
    requires Can(s, a) && NormalDomain(s.domain) && Sound(s.db) && Registered(s) && Delivered(s)
    requires Held(s, t)
    requires Covered(s, t)
    ensures Covered(Do(s, a), t)
  {
    if a.Mutate? {
      HeldKeepsCovered(s, a.m, t);
    } else if a.Complete? {
      CompleteKeepsCovered(s, a.item, t);
    } else {
      OthersKeepCovered(s, a, t);
    }
  }

  lemma HeldKeepsCovered(s: System, m: Mutation, t: Tunnel)
    requires Allowed(s.db.rights, m) && NormalDomain(s.domain) && Sound(s.db) && Registered(s)
    requires Held(s, t) && Covered(s, t)
    ensures Covered(s.(db := After(s.db, m)), t)
  {
    assert BirthSound(s, t.id);
    MutateKeepsCovered(s, m, t);
  }

  lemma TunnelsComeFrom(s: System, a: Step, id: string)
    requires Can(s, a) && id in Do(s, a).sish.table.tunnels
    ensures var t := Do(s, a).sish.table.tunnels[id];
      || (id in s.sish.table.tunnels && s.sish.table.tunnels[id] == t)
      || (a.Finish? && s.sish.pending.value.tunnel == t && s.sish.pending.value.acknowledged)
  {
  }

  lemma PendingComesFrom(s: System, a: Step)
    requires Can(s, a) && Do(s, a).sish.pending.Some? && Do(s, a).sish.pending.value.acknowledged
    ensures s.sish.pending.Some? && s.sish.pending.value.tunnel == Do(s, a).sish.pending.value.tunnel
    ensures s.sish.pending.value.event == Do(s, a).sish.pending.value.event
    ensures !s.sish.pending.value.acknowledged ==>
      a == DeliverConnect(s.sish.pending.value.event)
      && HandleConnect(s.db, s.domain, s.net.connects[a.event].tunnel, s.net.connects[a.event].source, a.event).Ok?
  {
  }

  lemma SafeStep(s: System, a: Step)
    requires Can(s, a) && NormalDomain(s.domain) && Sound(s.db) && Registered(s) && Delivered(s) && Safe(s)
    ensures Safe(Do(s, a))
  {
    var s' := Do(s, a);
    forall id | id in s'.sish.table.tunnels ensures Covered(s', s'.sish.table.tunnels[id]) {
      TunnelsComeFrom(s, a, id);
      CoverStep(s, a, s'.sish.table.tunnels[id]);
    }
    if s'.sish.pending.Some? && s'.sish.pending.value.acknowledged {
      PendingComesFrom(s, a);
      var t := s.sish.pending.value.tunnel;
      if !s.sish.pending.value.acknowledged {
        AcknowledgedIsEntitled(s, a.event);
        assert Covered(s, t);
      }
      CoverStep(s, a, t);
    }
  }

  // --------------------------------------------------------------------- deliveries

  lemma ShapedIsClean(protocol: Protocol, host: string, domain: string)
    requires NormalDomain(domain) && Shaped(protocol, host, domain)
    ensures Clean(host) == host
  {
    if protocol.Named() {
      var name :| IsLabel(name) && host == Fqdn(name, domain);
      BoundariesAgree(name, domain);
    }
  }

  /** A registration that is let in is not behind any request whose barriers stand. */
  lemma LetInIsAhead(s: System, a: Step, q: Request)
    requires a.Begin? && Can(s, a) && NormalDomain(s.domain) && Registered(s) && Reached(s.sish.table, q)
    ensures !Behind(q, Do(s, a).sish.pending.value.tunnel)
  {
    var p := a.grant.principal;
    assert GrantSound(s, a.grant);
    ShapedIsClean(a.grant.protocol, p.host, s.domain);
    var t := Do(s, a).sish.pending.value.tunnel;
    if Matches(q, t) && p.generation <= q.generation {
      ReachedBars(s.sish.table, q, p, a.grant.protocol, a.id, a.bound, t.sequence);
    }
  }

  predicate Here(s: System, d: Delivery) {
    (d.phase.Cleaning? || d.phase.Returned?) && d.phase.at == s.sish.source
  }

  lemma QuietBegin(s: System, a: Step, d: Delivery)
    requires a.Begin? && Can(s, a) && NormalDomain(s.domain) && Registered(s) && Quiet(s, d)
    ensures Quiet(Do(s, a), d)
  {
    var q := RequestOf(d.effect, s.domain).value;
    if Here(s, d) {
      LetInIsAhead(s, a, q);
    }
  }

  lemma QuietAnswer(s: System, g: Grant, d: Delivery)
    requires g.principal.generation == s.db.generation && Quiet(s, d)
    requires d.effect.Disconnects() ==> d.effect.generation <= s.db.generation
    ensures Quiet(AfterAnswer(s, g), d)
  {
  }

  lemma QuietHandle(s: System, a: Step, d: Delivery)
    requires a.Handle? && Can(s, a) && Quiet(s, d)
    ensures Quiet(Do(s, a), d)
  {
    var raised := RequestOf(s.deliveries[a.delivery].effect, s.domain);
    var q := RequestOf(d.effect, s.domain).value;
    if raised.Some? && Here(s, d) {
      RaiseKeepsReached(s.sish.table, raised.value, q);
    }
  }

  lemma QuietHandled(s: System, a: Step)
    requires a.Handle? && Can(s, a) && Registered(s) && Quiet(s, s.deliveries[a.delivery])
    ensures Quiet(Do(s, a), Do(s, a).deliveries[a.delivery])
  {
    var q := RequestOf(s.deliveries[a.delivery].effect, s.domain).value;
    RaiseReaches(s.sish.table, q);
  }

  lemma QuietCleaned(s: System, a: Step)
    requires a.CleanUp? && Can(s, a) && Quiet(s, s.deliveries[a.delivery])
    ensures Quiet(Do(s, a), Do(s, a).deliveries[a.delivery])
  {
  }

  lemma QuietRestart(s: System, a: Step, i: nat)
    requires a.Restart? && Can(s, a) && i < |s.deliveries| && Quiet(s, s.deliveries[i])
    ensures Quiet(Do(s, a), Do(s, a).deliveries[i])
  {
  }

  /** Steps of the control plane on its index. */
  predicate OnIndex(a: Step) {
    a.Mutate? || a.DeliverConnect? || a.DeliverDisconnect? || a.DeliverSnapshot? || a.SyncFails?
  }

  /** sish holds nothing that it did not hold, or was not about to hold, before. */
  ghost predicate NothingNew(s: System, s': System) {
    var t, t' := s.sish.table, s'.sish.table;
    && s'.domain == s.domain && s'.past.sources == s.past.sources && s'.sish.source == s.sish.source
    && t'.keyBarrier == t.keyBarrier && t'.userBarrier == t.userBarrier
    && t'.hostBarrier == t.hostBarrier && t'.portBarrier == t.portBarrier
    && s'.sish.answers == s.sish.answers
    && (forall g :: g in s'.sish.grants ==> g in s.sish.grants || g in s.sish.answers)
    && (forall id :: id in t'.tunnels ==>
          || (id in t.tunnels && t'.tunnels[id] == t.tunnels[id])
          || (s.sish.pending.Some? && s.sish.pending.value.tunnel == t'.tunnels[id]))
    && (s'.sish.pending.Some? ==>
          s.sish.pending.Some? && s'.sish.pending.value.tunnel == s.sish.pending.value.tunnel)
  }

  lemma DbAddsNothing(s: System, db: Db)
    ensures NothingNew(s, s.(db := db))
  {
  }

  lemma ConnectAddsNothing(s: System, event: string)
    requires event in s.net.connects
    ensures NothingNew(s, AfterConnect(s, event))
  {
  }

  lemma IndexStepsAddNothing(s: System, a: Step)
    requires Can(s, a) && OnIndex(a)
    ensures NothingNew(s, Do(s, a))
  {
    if a.DeliverConnect? {
      ConnectAddsNothing(s, a.event);
    } else {
      assert Do(s, a) == s.(db := Do(s, a).db);
      DbAddsNothing(s, Do(s, a).db);
    }
  }

  lemma RemovalAddsNothing(s: System, id: string, event: string)
    ensures NothingNew(s, AfterUnregister(s, id, event))
  {
  }

  lemma OthersAddNothing(s: System, a: Step)
    requires Can(s, a) && !a.Begin? && !a.Answer? && !a.Handle? && !a.Restart?
    ensures NothingNew(s, Do(s, a))
  {
    if OnIndex(a) {
      IndexStepsAddNothing(s, a);
    } else if a.Unregister? || a.CleanUp? {
      RemovalAddsNothing(s, a.id, a.event);
    }
  }

  lemma QuietStays(s: System, s': System, d: Delivery)
    requires NothingNew(s, s') && Quiet(s, d)
    ensures Quiet(s', d)
  {
  }

  /** The remaining steps take nothing into the registry that a request could still be about. */
  lemma QuietOther(s: System, a: Step, d: Delivery)
    requires Can(s, a) && !a.Begin? && !a.Answer? && !a.Handle? && !a.Restart?
    requires Quiet(s, d)
    ensures Quiet(Do(s, a), d)
  {
    OthersAddNothing(s, a);
    QuietStays(s, Do(s, a), d);
  }

  /** Where a delivery of the next state comes from. */
  lemma DeliveryComesFrom(s: System, a: Step, i: nat)
    requires Can(s, a) && Registered(s) && Delivered(s) && i < |Do(s, a).deliveries|
    ensures var d := Do(s, a).deliveries[i];
      if i < |s.deliveries| then d.item == s.deliveries[i].item && d.effect == s.deliveries[i].effect
      else a.Send? && d == Delivery(a.item, s.db.outbox[a.item].effect, Sent)
    ensures i < |s.deliveries| && Do(s, a).deliveries[i] != s.deliveries[i] ==>
      || ((a.Handle? || a.CleanUp? || a.Acknowledge?) && i == a.delivery)
      || a.Restart?
  {
  }

  lemma QuietAcknowledged(s: System, a: Step)
    requires a.Acknowledge? && Can(s, a) && Registered(s) && Quiet(s, s.deliveries[a.delivery])
    ensures Quiet(Do(s, a), Do(s, a).deliveries[a.delivery])
  {
  }

  /** A delivery the step itself works on. */
  predicate WorkedOn(a: Step, i: nat) {
    (a.Handle? || a.CleanUp? || a.Acknowledge?) && i == a.delivery
  }

  lemma QuietWorkedOn(s: System, a: Step, i: nat)
    requires Can(s, a) && Registered(s) && i < |s.deliveries| && WorkedOn(a, i) && Quiet(s, s.deliveries[i])
    ensures i < |Do(s, a).deliveries| && Quiet(Do(s, a), Do(s, a).deliveries[i])
  {
    if a.Handle? {
      QuietHandled(s, a);
    } else if a.CleanUp? {
      QuietCleaned(s, a);
    } else if a.Acknowledge? {
      QuietAcknowledged(s, a);
    }
  }

  lemma QuietElsewhere(s: System, a: Step, d: Delivery)
    requires Can(s, a) && !a.Restart? && NormalDomain(s.domain) && Registered(s) && Quiet(s, d)
    requires d.effect.Disconnects() ==> d.effect.generation <= s.db.generation
    ensures Quiet(Do(s, a), d)
  {
    if a.Handle? {
      QuietHandle(s, a, d);
    } else if a.Begin? {
      QuietBegin(s, a, d);
    } else if a.Answer? {
      QuietAnswer(s, a.grant, d);
    } else {
      QuietOther(s, a, d);
    }
  }

  lemma QuietStep(s: System, a: Step, i: nat)
    requires Can(s, a) && NormalDomain(s.domain) && Sound(s.db) && Registered(s) && Delivered(s)
    requires i < |Do(s, a).deliveries|
    ensures Quiet(Do(s, a), Do(s, a).deliveries[i])
  {
    DeliveryComesFrom(s, a, i);
    if i < |s.deliveries| {
      var d := s.deliveries[i];
      assert Quiet(s, d);
      assert ItemSound(s.db.rights, s.db.generation, s.db.outbox[d.item]);
      if a.Restart? {
        QuietRestart(s, a, i);
      } else if WorkedOn(a, i) {
        QuietWorkedOn(s, a, i);
      } else {
        QuietElsewhere(s, a, d);
      }
    }
  }

  lemma DeliveredStep(s: System, a: Step)
    requires Can(s, a) && NormalDomain(s.domain) && Sound(s.db) && Registered(s) && Delivered(s)
    ensures Delivered(Do(s, a))
  {
    var s' := Do(s, a);
    OutboxGrows(s, a);
    forall i | 0 <= i < |s'.deliveries|
      ensures s'.deliveries[i].item < |s'.db.outbox|
           && s'.db.outbox[s'.deliveries[i].item].effect == s'.deliveries[i].effect
           && Quiet(s', s'.deliveries[i])
    {
      DeliveryComesFrom(s, a, i);
      QuietStep(s, a, i);
    }
  }

  // ----------------------------------------------------------------------- barriers

  lemma InOutboxCarries(before: seq<Item>, after: seq<Item>, e: Effect)
    requires Extends(before, after) && InOutbox(before, e)
    ensures InOutbox(after, e)
  {
    var i :| 0 <= i < |before| && before[i].effect == e;
    assert after[i].effect == e;
  }

  lemma BarriersCarry(s: System, s': System)
    requires BarriersQueued(s) && Extends(s.db.outbox, s'.db.outbox)
    requires s'.sish.table.keyBarrier == s.sish.table.keyBarrier
    requires s'.sish.table.userBarrier == s.sish.table.userBarrier
    requires s'.sish.table.portBarrier == s.sish.table.portBarrier
    requires s'.sish.table.hostBarrier == s.sish.table.hostBarrier
    ensures BarriersQueued(s')
  {
    var t := s.sish.table;
    forall k | k in t.keyBarrier ensures InOutbox(s'.db.outbox, DisconnectKey(k, t.keyBarrier[k])) {
      InOutboxCarries(s.db.outbox, s'.db.outbox, DisconnectKey(k, t.keyBarrier[k]));
    }
    forall u | u in t.userBarrier ensures InOutbox(s'.db.outbox, DisconnectUser(u, t.userBarrier[u])) {
      InOutboxCarries(s.db.outbox, s'.db.outbox, DisconnectUser(u, t.userBarrier[u]));
    }
    forall p | p in t.portBarrier ensures InOutbox(s'.db.outbox, DisconnectPort(p, t.portBarrier[p])) {
      InOutboxCarries(s.db.outbox, s'.db.outbox, DisconnectPort(p, t.portBarrier[p]));
    }
    forall h | h in t.hostBarrier ensures exists n :: InOutbox(s'.db.outbox, DisconnectHost(n, t.hostBarrier[h])) {
      var n :| InOutbox(s.db.outbox, DisconnectHost(n, t.hostBarrier[h]));
      InOutboxCarries(s.db.outbox, s'.db.outbox, DisconnectHost(n, t.hostBarrier[h]));
    }
  }

  lemma HandleKeepsBarriers(s: System, a: Step)
    requires a.Handle? && Can(s, a) && Delivered(s) && BarriersQueued(s)
    ensures BarriersQueued(Do(s, a))
  {
    var d := s.deliveries[a.delivery];
    assert InOutbox(s.db.outbox, d.effect) by {
      assert s.db.outbox[d.item].effect == d.effect;
    }
  }

  /** Only a handled disconnect raises barriers, and only a restart forgets them. */
  lemma BarriersFrame(s: System, a: Step)
    requires Can(s, a) && !a.Handle? && !a.Restart?
    ensures var t := s.sish.table; var t' := Do(s, a).sish.table;
      && t'.keyBarrier == t.keyBarrier && t'.userBarrier == t.userBarrier
      && t'.portBarrier == t.portBarrier && t'.hostBarrier == t.hostBarrier
  {
    if KeepsRegistry(a) {
      RegistryFrame(s, a);
    }
  }

  lemma BarriersStep(s: System, a: Step)
    requires Can(s, a) && Sound(s.db) && Delivered(s) && BarriersQueued(s)
    ensures BarriersQueued(Do(s, a))
  {
    OutboxGrows(s, a);
    if a.Handle? {
      HandleKeepsBarriers(s, a);
    } else if !a.Restart? {
      BarriersFrame(s, a);
      BarriersCarry(s, Do(s, a));
    }
  }

  // -------------------------------------------------------------------------- trace

  lemma HuntedCarries(before: seq<Item>, after: seq<Item>, row: Row, row': Row)
    requires Extends(before, after) && Hunted(before, row)
    requires row'.user == row.user && row'.key == row.key && row'.protocol == row.protocol
    requires row'.host == row.host && row'.port == row.port && row'.generation == row.generation
    ensures Hunted(after, row')
  {
    var i :| 0 <= i < |before| && Picks(before[i].effect, row) && before[i].effect.Disconnects()
             && before[i].effect.generation > row.generation;
    assert after[i].effect == before[i].effect;
  }

  lemma MutateKeepsTrace(s: System, m: Mutation)
    requires Allowed(s.db.rights, m) && Sound(s.db) && Registered(s) && RowsBorn(s.db.index, s.past.births)
    requires Traced(s.db)
    ensures Traced(After(s.db, m))
  {
    var after := After(s.db, m);
    if after != s.db {
      var p := MutationPlan(s.db, m);
      FreshNotesAppend(s.db.outbox, p.notes);
      PerformKeepsTrace(s, p, after);
    }
  }

  lemma PerformKeepsTrace(s: System, p: Plan, after: Db)
    requires Registered(s) && RowsBorn(s.db.index, s.past.births) && Traced(s.db)
    requires after.index == Perform(s.db, p).index && after.outbox == s.db.outbox + ItemsOf(p.notes)
    requires p.cut.Some? ==> exists i :: 0 <= i < |p.notes| && p.notes[i].effect == p.cut.value
    requires p.cut.Some? ==> p.cut.value.Disconnects() && p.cut.value.generation == s.db.generation + 1
    ensures Traced(after)
  {
    forall id | id in after.index.tunnels && after.index.tunnels[id].status.Disconnecting?
      ensures Hunted(after.outbox, after.index.tunnels[id])
    {
      var row := s.db.index.tunnels[id];
      if row.status.Disconnecting? {
        assert Hunted(s.db.outbox, row);
        HuntedCarries(s.db.outbox, after.outbox, row, after.index.tunnels[id]);
      } else {
        assert BirthSound(s, id);
        var i :| 0 <= i < |p.notes| && p.notes[i].effect == p.cut.value;
        assert after.outbox[|s.db.outbox| + i].effect == p.cut.value;
      }
    }
  }

  /** Outside of mutations no row becomes `disconnecting`, and one that stays so keeps its
      identity and generation. */
  ghost predicate NoneNewlyLeaving(x: Index, y: Index) {
    forall id :: id in y.tunnels && y.tunnels[id].status.Disconnecting? ==>
      && id in x.tunnels && x.tunnels[id].status.Disconnecting?
      && y.tunnels[id] == x.tunnels[id].(sequence := y.tunnels[id].sequence)
  }

  lemma ConnectLeavesNone(x: Index, t: Tunnel, source: string, event: string)
    ensures NoneNewlyLeaving(x, OrElse(ConnectIndex(x, t, source, event), x))
  {
  }

  lemma DisconnectLeavesNone(x: Index, id: string, source: string, event: string, sequence: int)
    ensures NoneNewlyLeaving(x, OrElse(DisconnectIndex(x, id, source, event, sequence), x))
  {
  }

  lemma {:induction false} RestoreLeavesNone(r: Rights, x: Index, s: Snapshot, n: nat)
    requires n <= |s.tunnels|
    ensures NoneNewlyLeaving(x, RestoreFirst(r, x, s, n))
  {
    if n > 0 {
      RestoreLeavesNone(r, x, s, n - 1);
      RestoreOneLeavesNone(r, RestoreFirst(r, x, s, n - 1), s, s.tunnels[n - 1]);
      LeavesNoneThen(x, RestoreFirst(r, x, s, n - 1), RestoreFirst(r, x, s, n));
    }
  }

  lemma RestoreOneLeavesNone(r: Rights, x: Index, s: Snapshot, t: Tunnel)
    ensures NoneNewlyLeaving(x, Restore(r, x, s, t))
  {
  }

  lemma PreparedLeavesNone(x: Index, s: Snapshot)
    ensures NoneNewlyLeaving(x, Prepared(x, s))
  {
  }

  lemma LeavesNoneThen(x: Index, y: Index, z: Index)
    requires NoneNewlyLeaving(x, y) && NoneNewlyLeaving(y, z)
    ensures NoneNewlyLeaving(x, z)
  {
  }

  lemma SnapshotLeavesNone(r: Rights, x: Index, s: Snapshot)
    ensures NoneNewlyLeaving(x, OrElse(ReconcileIndex(r, x, s), x))
  {
    if SnapshotError(x, s).None? {
      PreparedLeavesNone(x, s);
      RestoreLeavesNone(r, Prepared(x, s), s, |s.tunnels|);
      LeavesNoneThen(x, Prepared(x, s), RestoreFirst(r, Prepared(x, s), s, |s.tunnels|));
    }
  }

  lemma IndexFrame(s: System, a: Step)
    requires Can(s, a) && !OnIndex(a)
    ensures Do(s, a).db.index == s.db.index
  {
  }

  lemma ConnectStepLeavesNone(s: System, event: string)
    requires NormalDomain(s.domain) && Registered(s) && event in s.net.connects
    ensures NoneNewlyLeaving(s.db.index, AfterConnect(s, event).db.index)
  {
    var post := s.net.connects[event];
    HandlerPassesThrough(s, post, event);
    ConnectLeavesNone(s.db.index, post.tunnel, post.source, event);
  }

  lemma IndexStepLeavesNone(s: System, a: Step)
    requires Can(s, a) && NormalDomain(s.domain) && Registered(s) && !a.Mutate?
    ensures NoneNewlyLeaving(s.db.index, Do(s, a).db.index)
  {
    if !OnIndex(a) {
      IndexFrame(s, a);
    } else if a.DeliverConnect? {
      ConnectStepLeavesNone(s, a.event);
    } else if a.DeliverDisconnect? {
      var post := s.net.disconnects[a.event];
      DisconnectLeavesNone(s.db.index, post.id, post.source, a.event, post.sequence);
    } else if a.DeliverSnapshot? {
      SnapshotLeavesNone(s.db.rights, s.db.index, a.snapshot);
    } else if a.SyncFails? {
      StaleLeavesNone(s.db.index);
    }
  }

  lemma StaleLeavesNone(x: Index)
    ensures NoneNewlyLeaving(x, MarkStale(x))
  {
  }

  lemma TracedStep(s: System, a: Step)
    requires Can(s, a) && NormalDomain(s.domain) && Sound(s.db) && Registered(s)
    requires RowsBorn(s.db.index, s.past.births) && Traced(s.db)
    ensures Traced(Do(s, a).db)
  {
    var db' := Do(s, a).db;
    if a.Mutate? {
      MutateKeepsTrace(s, a.m);
    } else {
      OutboxGrows(s, a);
      IndexStepLeavesNone(s, a);
      forall id | id in db'.index.tunnels && db'.index.tunnels[id].status.Disconnecting?
        ensures Hunted(db'.outbox, db'.index.tunnels[id])
      {
        assert Hunted(s.db.outbox, s.db.index.tunnels[id]);
        HuntedCarries(s.db.outbox, db'.outbox, s.db.index.tunnels[id], db'.index.tunnels[id]);
      }
    }
  }

  // -------------------------------------------------------------------- the invariant

  lemma InvInit(s: System)
    requires Init(s)
    ensures Inv(s)
  {
  }

  /** Every step keeps every invariant. */
  lemma InvStep(s: System, a: Step)
    requires Inv(s) && Can(s, a)
    ensures Inv(Do(s, a))
  {
    OutboxGrows(s, a);
    SoundStep(s, a);
    RegisteredStep(s, a);
    IndexedStep(s, a);
    TracedStep(s, a);
    SafeStep(s, a);
    DeliveredStep(s, a);
    BarriersStep(s, a);
  }

  lemma InvStepAt(states: seq<System>, steps: seq<Step>, i: nat)
    requires Run(states, steps) && 0 < i < |states| && Inv(states[i - 1])
    ensures Inv(states[i])
  {
    assert TakesStep(states, steps, i - 1);
    InvStep(states[i - 1], steps[i - 1]);
  }

  lemma InvAtFirst(states: seq<System>, steps: seq<Step>)
    requires Run(states, steps)
    ensures Inv(states[0])
  {
    InvInit(states[0]);
  }

  lemma {:induction false} InvAlways(states: seq<System>, steps: seq<Step>, i: nat)
    requires Run(states, steps) && i < |states|
    ensures Inv(states[i])
  {
    if i == 0 {
      InvAtFirst(states, steps);
    } else {
      InvAlways(states, steps, i - 1);
      InvStepAt(states, steps, i);
    }
  }

  lemma SoundAlways(states: seq<System>, steps: seq<Step>, i: nat)
    requires Run(states, steps) && i < |states|
    ensures Sound(states[i].db) && NormalDomain(states[i].domain)
  {
    InvAlways(states, steps, i);
  }

  lemma RegisteredAlways(states: seq<System>, steps: seq<Step>, i: nat)
    requires Run(states, steps) && i < |states|
    ensures Registered(states[i])
  {
    InvAlways(states, steps, i);
  }
}
