/**
 The rollback of `AddKey` deletes the key's row, or switches the key off, without a generation and
 without a disconnect.  When that is right.
 */
module Rollback {
  import opened Hostnames
  import opened Tables
  import opened Lifecycle
  import opened Registry
  import opened Coordination
  import opened Safety
  import opened Theorems

  /** A tunnel sish serves, or has had acknowledged and is about to serve. */
  ghost predicate Served(s: System, t: Tunnel) {
    || (t.id in s.sish.table.tunnels && s.sish.table.tunnels[t.id] == t)
    || (s.sish.pending.Some? && s.sish.pending.value.acknowledged && s.sish.pending.value.tunnel == t)
  }

  /** The same rights, with one key gone or switched off. */
  ghost predicate KeyTakenBack(r: Rights, r': Rights, id: int) {
    && r'.(keys := r.keys) == r
    && (forall k :: k != id ==> (k in r'.keys <==> k in r.keys) && (k in r.keys ==> r'.keys[k] == r.keys[k]))
    && (id in r'.keys ==> !r'.keys[id].enabled)
  }

  lemma PlainDeletionTakesBack(r: Rights, id: int)
    ensures KeyTakenBack(r, r.(keys := r.keys - {id}), id)
  {
  }

  lemma PlainDisableTakesBack(r: Rights, id: int)
    requires id in r.keys
    ensures KeyTakenBack(r, r.(keys := r.keys[id := r.keys[id].(enabled := false)]), id)
  {
  }

  /** Exactly the claims of that key are lost. */
  lemma ClaimsOfKeyLost(r: Rights, r': Rights, id: int, c: Claim)
    requires KeyTakenBack(r, r', id) && id > 0
    ensures Entitled(r', c) <==> Entitled(r, c) && c.key != id
  {
    assert OwnsName(r', c.user, c.name) == OwnsName(r, c.user, c.name);
    assert OwnsPort(r', c.user, c.port) == OwnsPort(r, c.user, c.port);
  }

  /** Taking a key back without a disconnect keeps the main safety property exactly if every tunnel
      served with that key is already selected by a newer disconnect that is still to be completed;
      and it keeps the live rows backed exactly if none is held by that key. */
  lemma TakingBackIsSafeExactlyWhen(s: System, r': Rights, id: int)
    requires Inv(s) && id > 0 && KeyTakenBack(s.db.rights, r', id)
    ensures Safe(s.(db := s.db.(rights := r'))) <==>
      forall t :: Served(s, t) && t.key == id ==> Doomed(s.db.outbox, s.domain, t)
    ensures LiveRowsEntitled(r', s.db.index) <==>
      forall t :: t in s.db.index.tunnels && s.db.index.tunnels[t].Live() ==> s.db.index.tunnels[t].key != id
  {
    var s' := s.(db := s.db.(rights := r'));
    forall t: Tunnel | Served(s, t) ensures Covered(s', t) <==> (t.key == id ==> Doomed(s.db.outbox, s.domain, t)) {
      CoveredAfter(s, r', id, t);
    }
    assert Safe(s') <==> forall t :: Served(s, t) ==> Covered(s', t) by {
      ServedIsSafe(s, s');
    }
    forall t | t in s.db.index.tunnels && s.db.index.tunnels[t].Live()
      ensures Entitled(r', RowClaim(s.db.index.tunnels[t])) <==> s.db.index.tunnels[t].key != id
    {
      ClaimsOfKeyLost(s.db.rights, r', id, RowClaim(s.db.index.tunnels[t]));
    }
  }

  lemma CoveredAfter(s: System, r': Rights, id: int, t: Tunnel)
    requires Inv(s) && id > 0 && KeyTakenBack(s.db.rights, r', id) && Served(s, t)
    ensures Covered(s.(db := s.db.(rights := r')), t) <==> (t.key == id ==> Doomed(s.db.outbox, s.domain, t))
  {
    assert Covered(s, t);
    ClaimsOfKeyLost(s.db.rights, r', id, TunnelClaim(t, LabelOf(t.host)));
  }

  lemma ServedIsSafe(s: System, s': System)
    requires TunnelsBorn(s) && s'.sish == s.sish
    ensures Safe(s') <==> forall t :: Served(s, t) ==> Covered(s', t)
  {
    if forall t :: Served(s, t) ==> Covered(s', t) {
      forall id | id in s.sish.table.tunnels ensures Covered(s', s.sish.table.tunnels[id]) {
        assert Served(s, s.sish.table.tunnels[id]);
      }
      if s.sish.pending.Some? && s.sish.pending.value.acknowledged {
        assert Served(s, s.sish.pending.value.tunnel);
      }
    }
  }

  // --------------------------------------------------- a rollback that comes too late

  /** The control plane reads this host as this name, and sish leaves it as it is. */
  predicate HostFor(host: string, name: string, domain: string) {
    Canonical(host, domain) == Some(HostName(name, host)) && Clean(host) == host && LabelOf(host) == name
  }

  function GrantFor(host: string): Grant {
    Grant(Http, Principal(1, 1, 1, host, 0))
  }

  function TunnelFor(host: string): Tunnel {
    Tunnel("t", 1, 1, Http, host, 0, 1, 1)
  }

  /** User 1 has key 1 and a name, and nobody has asked for a tunnel yet. */
  ghost predicate Waiting(s: System, host: string, name: string) {
    && Quiescent(s) && s.db.rights.keys == map[1 := Key(1, "f", "k", true)]
    && KeyLive(s.db.rights, 1, 1) && OwnsName(s.db.rights, 1, name)
    && s.db.outbox == [NewItem(KeyAdded(1), WriteKey(1, 0))]
    && HostFor(host, name, s.domain)
  }

  lemma FirstAuthorized(r: Rights, name: string)
    requires r.keys == map[1 := Key(1, "f", "k", true)] && KeyLive(r, 1, 1) && OwnsName(r, 1, name)
    ensures Authorizes(r, "f", Claim(1, 1, Http, name, 0))
  {
    assert KeyFor(r, "f", 1);
  }

  lemma FirstAnswer(s: System, host: string, name: string)
    requires Waiting(s, host, name)
    ensures Leads(s, Answer("f", host, name, GrantFor(host)), AfterAnswer(s, GrantFor(host)))
  {
    FirstAuthorized(s.db.rights, name);
  }

  lemma NothingBarred(p: Principal)
    requires p.generation > 0
    ensures !Barred(EMPTY, p)
  {
  }

  lemma FirstAccept(s: System, host: string)
    requires s.sish == Sish("s", EMPTY, {}, {}, None)
    ensures var s' := AfterAnswer(s, GrantFor(host));
      Leads(s', Accept(GrantFor(host)), s'.(sish := s'.sish.(grants := {GrantFor(host)})))
  {
    NothingBarred(GrantFor(host).principal);
    var s' := AfterAnswer(s, GrantFor(host));
    assert s'.sish.grants + {GrantFor(host)} == {GrantFor(host)};
  }

  lemma FirstBegin(s: System, host: string)
    requires s.sish == Sish("s", EMPTY, {GrantFor(host)}, {GrantFor(host)}, None)
    requires s.net == Net(map[], map[], {}) && s.past == Past(map[], {"s"})
    ensures Leads(s, Begin(GrantFor(host), "t", 0, "e"), AfterBegin(s, GrantFor(host), "t", 0, "e"))
    ensures var s' := AfterBegin(s, GrantFor(host), "t", 0, "e");
      && s'.sish.pending == Some(Pending(TunnelFor(host), "e", false))
      && s'.net.connects == map["e" := ConnectPost(TunnelFor(host), "s")] && s'.db == s.db && s'.domain == s.domain
      && s'.net.disconnects == map[] && s'.sish.source == "s" && s'.sish.table.sequence == 1
  {
    NothingBarred(GrantFor(host).principal);
  }

  /** What the callback of the first tunnel makes of the index. */
  function Bound(host: string): Index {
    Index(map["t" := RowOf(TunnelFor(host), 1)], map["t" := Cursor("s", 1, false)],
          map["e" := EventKey("s", 1)], "", 1, false, {})
  }

  lemma FirstIndexed(t: Tunnel)
    requires t.id == "t" && t.sequence == 1
    ensures ConnectIndex(Index(map[], map[], map[], "", 0, false, {}), t, "s", "e")
         == Ok(Index(map["t" := RowOf(t, 1)], map["t" := Cursor("s", 1, false)], map["e" := EventKey("s", 1)], "", 1,
                     false, {}))
  {
  }

  lemma FirstHandled(db: Db, domain: string, host: string, name: string)
    requires HostFor(host, name, domain)
    requires db.generation == 1 && KeyLive(db.rights, 1, 1) && OwnsName(db.rights, 1, name)
    requires db.index == Index(map[], map[], map[], "", 0, false, {})
    ensures HandleConnect(db, domain, TunnelFor(host), "s", "e") == Ok(db.(index := Bound(host)))
  {
    assert Entitled(db.rights, TunnelClaim(TunnelFor(host), name));
    FirstIndexed(TunnelFor(host));
  }

  /** A callback that is accepted acknowledges the registration it belongs to. */
  lemma ConnectAccepted(s: System, event: string, db: Db)
    requires event in s.net.connects
    requires s.sish.pending.Some? && s.sish.pending.value.event == event
    requires HandleConnect(s.db, s.domain, s.net.connects[event].tunnel, s.net.connects[event].source, event) == Ok(db)
    ensures Leads(s, DeliverConnect(event), AfterConnect(s, event))
    ensures var s' := AfterConnect(s, event);
      && s'.db == db && s'.sish.pending == Some(s.sish.pending.value.(acknowledged := true))
      && s'.net == s.net && s'.sish.source == s.sish.source && s'.sish.table == s.sish.table
  {
  }

  /** From there a key that has just been added holds a tunnel in four steps. */
  lemma FirstTunnel(s: System, host: string, name: string) returns (s1: System, s2: System, s3: System, s4: System)
    requires Waiting(s, host, name)
    ensures var g := GrantFor(host);
      && Leads(s, Answer("f", host, name, g), s1) && Leads(s1, Accept(g), s2)
      && Leads(s2, Begin(g, "t", 0, "e"), s3) && Leads(s3, DeliverConnect("e"), s4)
    ensures s4.db == s.db.(index := Bound(host)) && s4.sish.pending == Some(Pending(TunnelFor(host), "e", true))
    ensures s4.sish.source == "s" && s4.sish.table.sequence == 1
    ensures s4.net.connects.Keys == {"e"} && s4.net.disconnects == map[]
  {
    var g := GrantFor(host);
    FirstAnswer(s, host, name);
    s1 := AfterAnswer(s, g);
    FirstAccept(s, host);
    s2 := s1.(sish := s1.sish.(grants := {g}));
    FirstBegin(s2, host);
    s3 := AfterBegin(s2, g, "t", 0, "e");
    FirstHandled(s3.db, s3.domain, host, name);
    ConnectAccepted(s3, "e", s3.db.(index := Bound(host)));
    s4 := AfterConnect(s3, "e");
  }

  lemma NothingDoomed(s: System, t: Tunnel)
    requires s.db.outbox == [NewItem(KeyAdded(1), WriteKey(1, 0))]
    ensures !Doomed(s.db.outbox, s.domain, t)
  {
  }

  lemma TakenBackTooLate(s: System, r': Rights, host: string)
    requires Inv(s) && KeyTakenBack(s.db.rights, r', 1)
    requires s.db.index == Bound(host) && s.sish.pending == Some(Pending(TunnelFor(host), "e", true))
    requires s.db.outbox == [NewItem(KeyAdded(1), WriteKey(1, 0))]
    ensures !Safe(s.(db := s.db.(rights := r'))) && !LiveRowsEntitled(r', s.db.index)
  {
    TakingBackIsSafeExactlyWhen(s, r', 1);
    NothingDoomed(s, TunnelFor(host));
    assert Served(s, TunnelFor(host));
    assert s.db.index.tunnels["t"].Live();
  }

  lemma FirstHost() returns (host: string)
    ensures HostFor(host, "a", "d")
  {
    assert ToLower("d") == "d";
    host := Fqdn("a", "d");
    BoundariesAgree("a", "d");
  }

  /** A run in which a user adds a key and binds a tunnel with it. */
  lemma BoundRun() returns (states: seq<System>, steps: seq<Step>, host: string)
    ensures Run(states, steps) && |steps| == 7
    ensures var s := states[7];
      && s.db.index == Bound(host) && s.sish.pending == Some(Pending(TunnelFor(host), "e", true))
      && s.db.outbox == [NewItem(KeyAdded(1), WriteKey(1, 0))] && 1 in s.db.rights.keys
      && s.sish.source == "s" && s.sish.table.sequence == 1
      && s.net.connects.Keys == {"e"} && s.net.disconnects == map[]
  {
    states, steps := OneReservation();
    host := FirstHost();
    var s1, s2, s3, s4 := FirstTunnel(states[3], host, "a");
    states, steps := ExtendToFourth(states, steps, Answer("f", host, "a", GrantFor(host)), s1, Accept(GrantFor(host)), s2,
                                    Begin(GrantFor(host), "t", 0, "e"), s3, DeliverConnect("e"), s4);
  }

  /** A user adds a key and binds a tunnel with it before the rollback: taking the key back then, by
      deleting it or by switching it off, leaves a tunnel without a right that nothing disconnects,
      and a live row without one. */
  lemma LateRollbackRun() returns (states: seq<System>, steps: seq<Step>)
    ensures Run(states, steps) && |steps| == 7 && 1 in states[7].db.rights.keys
    ensures var s := states[7]; forall r' :: KeyTakenBack(s.db.rights, r', 1) ==>
      !Safe(s.(db := s.db.(rights := r'))) && !LiveRowsEntitled(r', s.db.index)
    ensures var r := states[7].db.rights;
      && KeyTakenBack(r, r.(keys := r.keys - {1}), 1)
      && KeyTakenBack(r, r.(keys := r.keys[1 := r.keys[1].(enabled := false)]), 1)
  {
    var host;
    states, steps, host := BoundRun();
    var s := states[7];
    InvAlways(states, steps, 7);
    PlainDeletionTakesBack(s.db.rights, 1);
    PlainDisableTakesBack(s.db.rights, 1);
    forall r' | KeyTakenBack(s.db.rights, r', 1)
      ensures !Safe(s.(db := s.db.(rights := r'))) && !LiveRowsEntitled(r', s.db.index)
    {
      TakenBackTooLate(s, r', host);
    }
  }
}
