/**
 The control plane and sish together, as one transition system.  Database transactions and the
 registry's critical sections are single steps; everything between them (callbacks, answers,
 snapshots, disconnect deliveries) travels and may be delayed, repeated, overtaken or lost, and
 sish may restart at any time.
 */
module Coordination {
  import opened Hostnames
  import opened Tables
  import opened Lifecycle
  import opened Registry

  /** An answered authorization inside sish. */
  datatype Grant = Grant(protocol: Protocol, principal: Principal)

  /** A registration that holds the lock: its callback is on its way. */
  datatype Pending = Pending(tunnel: Tunnel, event: string, acknowledged: bool)

  datatype Sish = Sish(source: string, table: Table, answers: set<Grant>, grants: set<Grant>,
                       pending: Option<Pending>)

  datatype ConnectPost = ConnectPost(tunnel: Tunnel, source: string)
  datatype DisconnectPost = DisconnectPost(id: string, source: string, sequence: int)

  /** Everything sish ever sent, by event id; any of it may arrive, again and again. */
  datatype Net = Net(connects: map<string, ConnectPost>, disconnects: map<string, DisconnectPost>,
                     snapshots: set<Snapshot>)

  /** A disconnect on its way to sish, being worked on by the sish process it reached, answered
      by that process, or lost with it. */
  datatype Phase =
    | Sent
    | Cleaning(ids: set<string>, at: string)
    | Returned(at: string)
    | Lost

  datatype Delivery = Delivery(item: nat, effect: Effect, phase: Phase)

  /** The random ids handed out so far: every tunnel id with its registration, every source. */
  datatype Past = Past(births: map<string, Birth>, sources: set<string>)

  datatype System = System(db: Db, domain: string, sish: Sish, net: Net, deliveries: seq<Delivery>, past: Past)

  // ------------------------------------------------------------------------ steps

  datatype Step =
    | Mutate(m: Mutation)
    | Answer(fingerprint: string, hostname: string, name: string, grant: Grant)
    | Accept(grant: Grant)
    | Begin(grant: Grant, id: string, bound: int, event: string)
    | DeliverConnect(event: string)
    | Finish
    | Abandon
    | Unregister(id: string, event: string)
    | DeliverDisconnect(event: string)
    | TakeSnapshot(list: seq<Tunnel>)
    | DeliverSnapshot(snapshot: Snapshot)
    | SyncFails
    | Send(item: nat)
    | Handle(delivery: nat)
    | CleanUp(delivery: nat, id: string, event: string)
    | Acknowledge(delivery: nat)
    | Complete(item: nat)
    | Retry(item: nat, attempts: nat, available: int)
    | Restart(source: string)

  /** `/v1/authorize`: the claim is authorized now, under the current generation; sish keeps the
      requested port of a TCP bind. */
  ghost predicate Answers(s: System, fingerprint: string, hostname: string, name: string, g: Grant) {
    var p := g.principal;
    && p.generation == s.db.generation
    && Authorizes(s.db.rights, fingerprint, Claim(p.user, p.key, g.protocol, name, p.port))
    && (if g.protocol.Tcp? then name == "" && p.host == ""
        else
          && Canonical(hostname, s.domain).Some? && name == Canonical(hostname, s.domain).value.name
          && p.host == Clean(Canonical(hostname, s.domain).value.fqdn) && p.port == 0)
  }

  /** `/v1/tunnels/connect`: the host is read again before the transaction. */
  function HandleConnect(db: Db, domain: string, t: Tunnel, source: string, event: string): Result<Db> {
    if t.protocol.Tcp? then Connect(db, t.(host := ""), "", source, event)
    else match Canonical(t.host, domain)
      case None => Err(NoRows)
      case Some(h) => Connect(db, t.(host := h.fqdn), h.name, source, event)
  }

  ghost predicate Fresh(s: System, event: string) {
    event !in s.net.connects && event !in s.net.disconnects
  }

  ghost predicate Unlocked(s: System) {
    s.sish.pending.None?
  }

  ghost predicate Enumerates(list: seq<Tunnel>, tunnels: map<string, Tunnel>) {
    && (forall i :: 0 <= i < |list| ==> list[i].id in tunnels && tunnels[list[i].id] == list[i])
    && (forall id :: id in tunnels ==> tunnels[id] in list)
  }

  /** Some delivery of this item has been answered. */
  ghost predicate AnsweredItem(s: System, i: nat) {
    exists d :: 0 <= d < |s.deliveries| && s.deliveries[d].item == i && s.deliveries[d].phase.Returned?
  }

  /** When a step can be taken. */
  ghost predicate Can(s: System, a: Step) {
    match a
    case Mutate(m) => Allowed(s.db.rights, m)
    case Answer(fingerprint, hostname, name, g) => Answers(s, fingerprint, hostname, name, g)
    case Accept(g) => Unlocked(s) && g in s.sish.answers && !Barred(s.sish.table, g.principal)
    case Begin(g, id, bound, event) =>
      && Unlocked(s) && g in s.sish.grants && !Barred(s.sish.table, g.principal)
      && id !in s.past.births && id != "" && Fresh(s, event)
      && (g.protocol.Tcp? ==> bound == g.principal.port)
    case DeliverConnect(event) => event in s.net.connects
    case Finish => s.sish.pending.Some? && s.sish.pending.value.acknowledged
    case Abandon => s.sish.pending.Some?
    case Unregister(id, event) => Unlocked(s) && id != "" && Fresh(s, event)
    case DeliverDisconnect(event) => event in s.net.disconnects
    case TakeSnapshot(list) => Unlocked(s) && Enumerates(list, s.sish.table.tunnels)
    case DeliverSnapshot(snapshot) => snapshot in s.net.snapshots
    case SyncFails => true
    case Send(i) => i < |s.db.outbox| && !s.db.outbox[i].completed && s.db.outbox[i].effect.Disconnects()
    case Handle(d) => Unlocked(s) && d < |s.deliveries| && s.deliveries[d].phase.Sent?
    case CleanUp(d, id, event) =>
      && Unlocked(s) && Fresh(s, event) && d < |s.deliveries|
      && s.deliveries[d].phase.Cleaning? && id in s.deliveries[d].phase.ids
    case Acknowledge(d) =>
      d < |s.deliveries| && s.deliveries[d].phase.Cleaning? && s.deliveries[d].phase.ids == {}
    case Complete(i) =>
      && i < |s.db.outbox| && !s.db.outbox[i].completed
      && (s.db.outbox[i].effect.Disconnects() ==>
            AnsweredItem(s, i))
    case Retry(i, _, _) => i < |s.db.outbox| && !s.db.outbox[i].completed
    case Restart(source) => source != "" && source !in s.past.sources
  }

  function AfterBegin(s: System, g: Grant, id: string, bound: int, event: string): System {
    var t := Bind(g.principal, g.protocol, id, bound, s.sish.table.sequence + 1);
    s.(sish := s.sish.(table := s.sish.table.(sequence := s.sish.table.sequence + 1),
                       pending := Some(Pending(t, event, false))),
       net := s.net.(connects := s.net.connects[event := ConnectPost(t, s.sish.source)]),
       past := s.past.(births := s.past.births[id := Birth(s.sish.source, t)]))
  }

  function AfterConnect(s: System, event: string): System
    requires event in s.net.connects
  {
    var post := s.net.connects[event];
    match HandleConnect(s.db, s.domain, post.tunnel, post.source, event)
    case Err(_) => s
    case Ok(db) =>
      var pending := s.sish.pending;
      if pending.Some? && pending.value.event == event then
        s.(db := db, sish := s.sish.(pending := Some(pending.value.(acknowledged := true))))
      else s.(db := db)
  }

  function AfterUnregister(s: System, id: string, event: string): System {
    var table := Unregistered(s.sish.table, id);
    var post := DisconnectPost(id, s.sish.source, table.sequence);
    s.(sish := s.sish.(table := table),
       net := if id in s.sish.table.tunnels then s.net.(disconnects := s.net.disconnects[event := post]) else s.net)
  }

  function SetPhase(s: System, d: nat, phase: Phase): System
    requires d < |s.deliveries|
  {
    s.(deliveries := s.deliveries[d := s.deliveries[d].(phase := phase)])
  }

  function AfterAnswer(s: System, g: Grant): System {
    s.(sish := s.sish.(answers := s.sish.answers + {g}))
  }

  function AfterFinish(s: System): System
    requires s.sish.pending.Some?
  {
    var t := s.sish.pending.value.tunnel;
    s.(sish := s.sish.(table := s.sish.table.(tunnels := s.sish.table.tunnels[t.id := t]), pending := None))
  }

  function AfterHandle(s: System, d: nat, q: Request): System
    requires d < |s.deliveries|
  {
    SetPhase(s.(sish := s.sish.(table := Raise(s.sish.table, q))), d,
             Cleaning(Collected(s.sish.table, q), s.sish.source))
  }

  function AfterComplete(s: System, i: nat): System
    requires i < |s.db.outbox|
  {
    s.(db := s.db.(outbox := s.db.outbox[i := s.db.outbox[i].(completed := true)]))
  }

  /** A restarted sish has a new source, an empty registry, and no memory of authorizations; the
      requests it was working on are lost. */
  function AfterRestart(s: System, source: string): System {
    s.(sish := Sish(source, EMPTY, {}, {}, None),
       deliveries := seq(|s.deliveries|, i requires 0 <= i < |s.deliveries| =>
         if s.deliveries[i].phase.Cleaning? then s.deliveries[i].(phase := Lost) else s.deliveries[i]),
       past := s.past.(sources := s.past.sources + {source}))
  }

  function SetIndex(s: System, x: Result<Index>): System {
    s.(db := s.db.(index := OrElse(x, s.db.index)))
  }

  /** What a step does. */
  ghost function Do(s: System, a: Step): System
    requires Can(s, a)
  {
    match a
    case Mutate(m) => s.(db := After(s.db, m))
    case Answer(_, _, _, g) => AfterAnswer(s, g)
    case Accept(g) => s.(sish := s.sish.(grants := s.sish.grants + {g}))
    case Begin(g, id, bound, event) => AfterBegin(s, g, id, bound, event)
    case DeliverConnect(event) => AfterConnect(s, event)
    case Finish => AfterFinish(s)
    case Abandon => s.(sish := s.sish.(pending := None))
    case Unregister(id, event) => AfterUnregister(s, id, event)
    case DeliverDisconnect(event) =>
      var post := s.net.disconnects[event];
      SetIndex(s, DisconnectIndex(s.db.index, post.id, post.source, event, post.sequence))
    case TakeSnapshot(list) =>
      s.(net := s.net.(snapshots := s.net.snapshots + {Snapshot(s.sish.source, s.sish.table.sequence, list)}))
    case DeliverSnapshot(snapshot) => SetIndex(s, ReconcileIndex(s.db.rights, s.db.index, snapshot))
    case SyncFails => s.(db := s.db.(index := MarkStale(s.db.index)))
    case Send(i) => s.(deliveries := s.deliveries + [Delivery(i, s.db.outbox[i].effect, Sent)])
    case Handle(d) =>
      var q := RequestOf(s.deliveries[d].effect, s.domain);
      if q.None? then s else AfterHandle(s, d, q.value)
    case CleanUp(d, id, event) =>
      var phase := s.deliveries[d].phase;
      SetPhase(AfterUnregister(s, id, event), d, Cleaning(phase.ids - {id}, phase.at))
    case Acknowledge(d) => SetPhase(s, d, Returned(s.deliveries[d].phase.at))
    case Complete(i) => AfterComplete(s, i)
    case Retry(i, attempts, available) =>
      s.(db := s.db.(outbox := s.db.outbox[i := s.db.outbox[i].(attempts := attempts, available := available)]))
    case Restart(source) => AfterRestart(s, source)
  }

  /** The first state: an empty database with its system tables, sish just started. */
  ghost predicate Init(s: System) {
    && s.db.generation == 1 && s.db.outbox == []
    && s.db.rights.users == map[] && s.db.rights.keys == map[]
    && s.db.rights.subdomains == map[] && s.db.rights.ports == map[]
    && s.db.rights.nextUser == 1 && s.db.rights.nextKey == 1
    && s.db.rights.nextSubdomain == 1 && s.db.rights.nextPort == 1
    && SystemBounded(s.db.rights)
    && s.db.index == Index(map[], map[], map[], "", 0, false, {})
    && NormalDomain(s.domain)
    && s.sish.source != "" && s.sish == Sish(s.sish.source, EMPTY, {}, {}, None)
    && s.net == Net(map[], map[], {}) && s.deliveries == []
    && s.past == Past(map[], {s.sish.source})
  }

  ghost predicate TakesStep(states: seq<System>, steps: seq<Step>, i: nat)
    requires i < |steps| && |states| == |steps| + 1
  {
    Can(states[i], steps[i]) && states[i + 1] == Do(states[i], steps[i])
  }

  /** A run: any steps, one after the other. */
  ghost predicate Run(states: seq<System>, steps: seq<Step>) {
    && |states| == |steps| + 1 && Init(states[0])
    && forall i :: 0 <= i < |steps| ==> TakesStep(states, steps, i)
  }

  // ------------------------------------------------------------------- invariants

  /** Tunnels and grants carry a label's full name exactly for named protocols. */
  ghost predicate Shaped(protocol: Protocol, host: string, domain: string) {
    && (protocol.Named() || protocol.Tcp?)
    && HostShaped(protocol, host, domain)
    && (protocol.Tcp? ==> host == "")
  }

  ghost predicate GrantSound(s: System, g: Grant) {
    Shaped(g.protocol, g.principal.host, s.domain) && 1 <= g.principal.generation <= s.db.generation
  }

  ghost predicate BirthSound(s: System, id: string) {
    id in s.past.births ==>
      var b := s.past.births[id];
      && b.tunnel.id == id && b.source in s.past.sources && b.source != ""
      && Shaped(b.tunnel.protocol, b.tunnel.host, s.domain)
      && 1 <= b.tunnel.generation <= s.db.generation
  }

  ghost predicate Born(s: System, t: Tunnel, source: string) {
    t.id in s.past.births && s.past.births[t.id] == Birth(source, t)
  }

  ghost predicate GrantsSound(s: System) {
    forall g :: g in s.sish.answers || g in s.sish.grants ==> GrantSound(s, g)
  }

  ghost predicate TunnelsBorn(s: System) {
    forall id :: id in s.sish.table.tunnels ==>
      s.sish.table.tunnels[id].id == id && Born(s, s.sish.table.tunnels[id], s.sish.source)
  }

  ghost predicate PendingBorn(s: System) {
    s.sish.pending.Some? ==>
      && Born(s, s.sish.pending.value.tunnel, s.sish.source)
      && s.sish.pending.value.tunnel.id !in s.sish.table.tunnels
      && s.sish.pending.value.event in s.net.connects
      && s.net.connects[s.sish.pending.value.event].tunnel == s.sish.pending.value.tunnel
  }

  ghost predicate PostsBorn(s: System) {
    && (forall e :: e in s.net.connects ==> Born(s, s.net.connects[e].tunnel, s.net.connects[e].source))
    && (forall e :: e in s.net.disconnects ==>
          s.net.disconnects[e].id in s.past.births
          && s.past.births[s.net.disconnects[e].id].source == s.net.disconnects[e].source)
    && (forall snapshot :: snapshot in s.net.snapshots ==> Lists(s.past.births, snapshot))
  }

  /** Whatever names a tunnel id describes the one registration that id was drawn for. */
  ghost predicate Registered(s: System) {
    && s.sish.source in s.past.sources && s.sish.source != ""
    && (forall id :: BirthSound(s, id))
    && GrantsSound(s) && TunnelsBorn(s) && PendingBorn(s) && PostsBorn(s)
  }

  /** The index agrees with the registrations, and its live rows with the rights. */
  ghost predicate Indexed(s: System) {
    IndexSound(s.db.index, s.past.births) && LiveRowsEntitled(s.db.rights, s.db.index)
  }

  /** An item still to be completed disconnects this tunnel and is newer than it. */
  ghost predicate Doomed(outbox: seq<Item>, domain: string, t: Tunnel) {
    exists i :: 0 <= i < |outbox| && !outbox[i].completed && Aims(outbox[i].effect, domain, t)
  }

  ghost predicate Aims(e: Effect, domain: string, t: Tunnel) {
    RequestOf(e, domain).Some? && Matches(RequestOf(e, domain).value, t) && e.generation > t.generation
  }

  ghost predicate Covered(s: System, t: Tunnel) {
    Entitled(s.db.rights, TunnelClaim(t, LabelOf(t.host))) || Doomed(s.db.outbox, s.domain, t)
  }

  /** The main safety property: a tunnel sish serves, or is about to serve because its connect has
      been acknowledged, either holds its right or is aimed at by an uncompleted disconnect. */
  ghost predicate Safe(s: System) {
    && (forall id :: id in s.sish.table.tunnels ==> Covered(s, s.sish.table.tunnels[id]))
    && (s.sish.pending.Some? && s.sish.pending.value.acknowledged ==> Covered(s, s.sish.pending.value.tunnel))
  }

  /** A tunnel the request is about and that is not newer than it. */
  predicate Behind(q: Request, t: Tunnel) {
    Matches(q, t) && t.generation <= q.generation
  }

  /** A delivery that has been handled: its barriers stand in the process that handled it, and
      what it has not closed there yet is what it still has to close. */
  ghost predicate Quiet(s: System, d: Delivery) {
    d.effect.Disconnects() &&
    match d.phase
    case Sent => true
    case Lost => true
    case Cleaning(ids, at) => at == s.sish.source && Quiesced(s, RequestOf(d.effect, s.domain).value, ids)
    case Returned(at) =>
      var q := RequestOf(d.effect, s.domain).value;
      at in s.past.sources && if at == s.sish.source then Quiesced(s, q, {}) else NotOlder(s.sish, q.generation)
  }

  /** The barriers of a request stand, and no tunnel it still has to close is left but these. */
  ghost predicate Quiesced(s: System, q: Request, left: set<string>) {
    && Reached(s.sish.table, q)
    && (forall id :: id in s.sish.table.tunnels ==> Behind(q, s.sish.table.tunnels[id]) ==> id in left)
    && (s.sish.pending.Some? ==> !Behind(q, s.sish.pending.value.tunnel))
  }

  /** Nothing in this sish process was authorized before generation g. */
  ghost predicate NotOlder(sish: Sish, g: int) {
    && (forall x :: x in sish.answers || x in sish.grants ==> x.principal.generation >= g)
    && (forall id :: id in sish.table.tunnels ==> sish.table.tunnels[id].generation >= g)
    && (sish.pending.Some? ==> sish.pending.value.tunnel.generation >= g)
  }

  ghost predicate Delivered(s: System) {
    forall d :: 0 <= d < |s.deliveries| ==>
      && s.deliveries[d].item < |s.db.outbox|
      && s.db.outbox[s.deliveries[d].item].effect == s.deliveries[d].effect
      && Quiet(s, s.deliveries[d])
  }

  ghost predicate InOutbox(outbox: seq<Item>, e: Effect) {
    exists i :: 0 <= i < |outbox| && outbox[i].effect == e
  }

  /** Every barrier was raised by an item of the outbox. */
  ghost predicate BarriersQueued(s: System) {
    var t := s.sish.table;
    && (forall k :: k in t.keyBarrier ==> InOutbox(s.db.outbox, DisconnectKey(k, t.keyBarrier[k])))
    && (forall u :: u in t.userBarrier ==> InOutbox(s.db.outbox, DisconnectUser(u, t.userBarrier[u])))
    && (forall p :: p in t.portBarrier ==> InOutbox(s.db.outbox, DisconnectPort(p, t.portBarrier[p])))
    && (forall h :: h in t.hostBarrier ==>
          exists n :: InOutbox(s.db.outbox, DisconnectHost(n, t.hostBarrier[h])))
  }

  /** A disconnect of the outbox that marks this row and is newer than it. */
  ghost predicate Hunted(outbox: seq<Item>, row: Row) {
    exists i :: 0 <= i < |outbox| && Picks(outbox[i].effect, row) && outbox[i].effect.Disconnects()
                && outbox[i].effect.generation > row.generation
  }

  /** Every row on its way out has its newer disconnect in the outbox. */
  ghost predicate Traced(db: Db) {
    forall id :: id in db.index.tunnels && db.index.tunnels[id].status.Disconnecting? ==>
      Hunted(db.outbox, db.index.tunnels[id])
  }

  ghost predicate Inv(s: System) {
    && NormalDomain(s.domain)
    && Sound(s.db) && Registered(s) && Indexed(s) && Traced(s.db)
    && Safe(s) && Delivered(s) && BarriersQueued(s)
  }
}
