/**
 sish's side: the registry of live tunnels with its generation barriers, all behind one lock.
 The functions describe one critical section each; the class carries them out.
 */
module Registry {
  import opened Hostnames
  import opened Tables

  /** What the control plane's answer to an authorization becomes inside sish. */
  datatype Principal = Principal(user: int, key: int, generation: int, host: string, port: int)

  /** A disconnect request; an absent selector is zero or empty. */
  datatype Request = Request(key: int, user: int, host: string, port: int, generation: int)

  datatype Table = Table(
    tunnels: map<string, Tunnel>,
    keyBarrier: map<int, int>, userBarrier: map<int, int>,
    hostBarrier: map<string, int>, portBarrier: map<int, int>,
    sequence: int)

  const EMPTY: Table := Table(map[], map[], map[], map[], map[], 0)

  /** Reading a missing key of a Go map gives zero. */
  function At<K>(m: map<K, int>, k: K): int {
    if k in m then m[k] else 0
  }

  /** `barredLocked`. */
  predicate Barred(t: Table, p: Principal) {
    || At(t.keyBarrier, p.key) >= p.generation
    || At(t.userBarrier, p.user) >= p.generation
    || (p.host != "" && At(t.hostBarrier, Clean(p.host)) >= p.generation)
    || (p.port != 0 && At(t.portBarrier, p.port) >= p.generation)
  }

  function Raised<K>(m: map<K, int>, k: K, selected: bool, generation: int): map<K, int> {
    if selected && generation > At(m, k) then m[k := generation] else m
  }

  function Raise(t: Table, q: Request): Table {
    t.(keyBarrier := Raised(t.keyBarrier, q.key, q.key > 0, q.generation),
       userBarrier := Raised(t.userBarrier, q.user, q.user > 0, q.generation),
       hostBarrier := Raised(t.hostBarrier, q.host, q.host != "", q.generation),
       portBarrier := Raised(t.portBarrier, q.port, q.port > 0, q.generation))
  }

  /** Whether a request is about a tunnel, whatever their generations. */
  predicate Matches(q: Request, t: Tunnel) {
    || (q.key > 0 && t.key == q.key)
    || (q.user > 0 && t.user == q.user)
    || (q.host != "" && t.host == q.host)
    || (q.port > 0 && t.protocol.Tcp? && t.port == q.port)
  }

  /** Whether `disconnectManaged` closes a tunnel: only the port selector looks at generations. */
  predicate Collects(q: Request, t: Tunnel) {
    || (q.key > 0 && t.key == q.key)
    || (q.user > 0 && t.user == q.user)
    || (q.host != "" && t.host == q.host)
    || (q.port > 0 && t.protocol.Tcp? && t.port == q.port && t.generation <= q.generation)
  }

  function Collected(t: Table, q: Request): set<string> {
    set id | id in t.tunnels && Collects(q, t.tunnels[id])
  }

  /** `ControlPlaneUnregister` of an id: the sequence advances even if the tunnel
      is already gone. */
  function Unregistered(t: Table, id: string): Table {
    t.(tunnels := t.tunnels - {id}, sequence := t.sequence + 1)
  }

  /** The request the outbox worker sends for an item, if the item is a disconnect. */
  function RequestOf(e: Effect, domain: string): Option<Request> {
    match e
    case DisconnectKey(k, g) => Some(Request(k, 0, "", 0, g))
    case DisconnectUser(u, g) => Some(Request(0, u, "", 0, g))
    case DisconnectHost(n, g) => Some(Request(0, 0, Clean(OutboxHost(n, domain)), 0, g))
    case DisconnectPort(p, g) => Some(Request(0, 0, "", p, g))
    case _ => None
  }

  /** Every barrier a request names stands at its generation or beyond. */
  predicate Reached(t: Table, q: Request) {
    && (q.key > 0 ==> At(t.keyBarrier, q.key) >= q.generation)
    && (q.user > 0 ==> At(t.userBarrier, q.user) >= q.generation)
    && (q.host != "" ==> At(t.hostBarrier, q.host) >= q.generation)
    && (q.port > 0 ==> At(t.portBarrier, q.port) >= q.generation)
  }

  /** The tunnel a principal becomes once it is bound. */
  function Bind(p: Principal, protocol: Protocol, id: string, bound: int, sequence: int): Tunnel {
    Tunnel(id, p.user, p.key, protocol, p.host, bound, p.generation, sequence)
  }

  // -------------------------------------------------------------------- lemmas

  lemma RaiseReaches(t: Table, q: Request)
    ensures Reached(Raise(t, q), q)
  {
  }

  lemma RaiseKeepsReached(t: Table, q: Request, other: Request)
    requires Reached(t, other)
    ensures Reached(Raise(t, q), other)
  {
  }

  /** A barrier shuts out every principal it is about that is not newer than it. */
  lemma ReachedBars(t: Table, q: Request, p: Principal, protocol: Protocol, id: string, bound: int, sequence: int)
    requires Reached(t, q) && Matches(q, Bind(p, protocol, id, bound, sequence))
    requires protocol.Tcp? ==> bound == p.port
    requires Clean(p.host) == p.host
    requires p.generation <= q.generation
    ensures Barred(t, p)
  {
  }

  /** Requests handled one after the other. */
  function HandledAll(qs: seq<Request>): Table {
    if qs == [] then EMPTY else Raise(HandledAll(qs[..|qs| - 1]), qs[|qs| - 1])
  }

  /** A request that is about this principal and not older than it. */
  predicate ShutsOut(q: Request, p: Principal) {
    && p.generation <= q.generation
    && (|| (q.key > 0 && p.key == q.key)
        || (q.user > 0 && p.user == q.user)
        || (q.host != "" && p.host != "" && Clean(p.host) == q.host)
        || (q.port > 0 && p.port == q.port))
  }

  lemma RaiseBarsExactly(t: Table, q: Request, p: Principal)
    requires p.generation > 0
    ensures Barred(Raise(t, q), p) <==> Barred(t, p) || ShutsOut(q, p)
  {
  }

  /** The barriers remember exactly what matters of all requests handled: a principal is shut out if and
      only if one of them was about it and not older than it. */
  lemma {:induction false} BarredExactlyBy(qs: seq<Request>, p: Principal)
    requires p.generation > 0
    ensures Barred(HandledAll(qs), p) <==> exists i :: 0 <= i < |qs| && ShutsOut(qs[i], p)
  {
    if qs != [] {
      var n := |qs| - 1;
      BarredExactlyBy(qs[..n], p);
      RaiseBarsExactly(HandledAll(qs[..n]), qs[n], p);
      assert forall i :: 0 <= i < n ==> qs[..n][i] == qs[i];
    }
  }

  /** A request collects the tunnels of its key, its user and its host, whatever their generation, the
      TCP tunnels of its port that are not newer, and no other. */
  lemma CollectedExactly(t: Table, q: Request)
    ensures forall id :: id in Collected(t, q) ==> id in t.tunnels
    ensures forall id :: id in t.tunnels ==> (id in Collected(t, q) <==>
      || (q.key > 0 && t.tunnels[id].key == q.key)
      || (q.user > 0 && t.tunnels[id].user == q.user)
      || (q.host != "" && t.tunnels[id].host == q.host)
      || (q.port > 0 && t.tunnels[id].protocol.Tcp? && t.tunnels[id].port == q.port
          && t.tunnels[id].generation <= q.generation))
  {
  }

  /** The registry of one sish process.  Each method is one critical section of the lock, or,
      for `Disconnect`, the two phases one after the other. */
  class TunnelRegistry {
    var tunnels: map<string, Tunnel>
    var keyBarrier: map<int, int>
    var userBarrier: map<int, int>
    var hostBarrier: map<string, int>
    var portBarrier: map<int, int>
    var sequence: int

    constructor ()
      ensures State() == EMPTY && Valid()
    {
      tunnels, keyBarrier, userBarrier, hostBarrier, portBarrier := map[], map[], map[], map[], map[];
      sequence := 0;
    }

    function State(): Table
      reads this
    {
      Table(tunnels, keyBarrier, userBarrier, hostBarrier, portBarrier, sequence)
    }

    /** Tunnel ids are random and never empty. */
    predicate Valid()
      reads this
    {
      "" !in tunnels
    }

    /** `ControlPlaneRegister`: the connect callback is answered while the lock is held, and the
        tunnel is inserted only when it was acknowledged. */
    method Register(p: Principal, protocol: Protocol, id: string, bound: int, acknowledged: bool)
      returns (registered: bool)
      requires Valid() && id != ""
      modifies this
      ensures Valid()
      ensures registered <==> !Barred(old(State()), p) && acknowledged
      ensures Barred(old(State()), p) ==> State() == old(State())
      ensures !Barred(old(State()), p) ==> State() == old(State()).(
                sequence := old(sequence) + 1,
                tunnels := if acknowledged
                           then old(tunnels)[id := Bind(p, protocol, id, bound, old(sequence) + 1)]
                           else old(tunnels))
      ensures registered ==>
        && id in tunnels && tunnels[id].id == id && tunnels[id].user == p.user && tunnels[id].key == p.key
        && tunnels[id].protocol == protocol && tunnels[id].host == p.host && tunnels[id].port == bound
        && tunnels[id].generation == p.generation && tunnels[id].sequence == sequence == old(sequence) + 1
    {
      if Barred(State(), p) {
        return false;
      }
      sequence := sequence + 1;
      var t := Bind(p, protocol, id, bound, sequence);
      if !acknowledged {
        return false;
      }
      tunnels := tunnels[id := t];
      return true;
    }

    /** `ControlPlaneUnregister`: tells whether a disconnect event is due, and its number.  Without an
        id there is nothing to do. */
    method Unregister(id: string) returns (present: bool, at: int)
      requires Valid()
      modifies this
      ensures Valid()
      ensures State() == if id == "" then old(State()) else Unregistered(old(State()), id)
      ensures tunnels == old(tunnels) - {id} && (id != "" ==> sequence == old(sequence) + 1)
      ensures present <==> id in old(tunnels)
      ensures at == sequence
    {
      if id == "" {
        return false, sequence;
      }
      present := id in tunnels;
      if present {
        tunnels := tunnels - {id};
      }
      sequence := sequence + 1;
      at := sequence;
    }

    /** The cleanup of a tunnel: it tears the bind down, which unregisters the tunnel unless that has
        happened before, and unregisters it once more in any case. */
    method CleanUp(id: string)
      requires Valid() && id != ""
      modifies this
      ensures Valid()
      ensures State() == Unregistered(old(State()), id) || State() == Unregistered(Unregistered(old(State()), id), id)
      ensures tunnels == old(tunnels) - {id} && old(sequence) < sequence <= old(sequence) + 2
    {
      var first: bool := *;
      if first {
        var _, _ := Unregister(id);
      }
      var _, _ := Unregister(id);
    }

    /** `ControlPlaneHostActive`. */
    method HostActive(host: string) returns (active: bool)
      ensures active <==> exists id :: id in tunnels && tunnels[id].host == Clean(host)
    {
      var todo := tunnels.Keys;
      while todo != {}
        invariant todo <= tunnels.Keys
        invariant forall id :: id in tunnels && id !in todo ==> tunnels[id].host != Clean(host)
        decreases todo
      {
        var id :| id in todo;
        if tunnels[id].host == Clean(host) {
          return true;
        }
        todo := todo - {id};
      }
      return false;
    }

    /** The locked phase of `disconnectManaged`: raise the barriers, collect the tunnels. */
    method Collect(q: Request) returns (ids: seq<string>)
      modifies this
      ensures tunnels == old(tunnels)
      ensures State() == Raise(old(State()), q)
      ensures (forall id :: id in ids <==> id in Collected(old(State()), q))
      ensures forall id :: id in ids ==> id in old(tunnels)
      ensures forall id :: id in old(tunnels) ==> (id in ids <==>
        || (q.key > 0 && old(tunnels)[id].key == q.key)
        || (q.user > 0 && old(tunnels)[id].user == q.user)
        || (q.host != "" && old(tunnels)[id].host == q.host)
        || (q.port > 0 && old(tunnels)[id].protocol.Tcp? && old(tunnels)[id].port == q.port
            && old(tunnels)[id].generation <= q.generation))
      ensures forall i, j :: 0 <= i < j < |ids| ==> ids[i] != ids[j]
    {
      RaiseBarriers(q);
      ids := Gather(q);
      CollectedExactly(old(State()), q);
    }

    /** Its barriers. */
    method RaiseBarriers(q: Request)
      modifies this
      ensures State() == Raise(old(State()), q)
    {
      if q.key > 0 && q.generation > At(keyBarrier, q.key) {
        keyBarrier := keyBarrier[q.key := q.generation];
      }
      if q.user > 0 && q.generation > At(userBarrier, q.user) {
        userBarrier := userBarrier[q.user := q.generation];
      }
      if q.host != "" && q.generation > At(hostBarrier, q.host) {
        hostBarrier := hostBarrier[q.host := q.generation];
      }
      if q.port > 0 && q.generation > At(portBarrier, q.port) {
        portBarrier := portBarrier[q.port := q.generation];
      }
    }

    /** Its loop over the tunnels. */
    method Gather(q: Request) returns (ids: seq<string>)
      ensures forall id :: id in ids <==> id in Collected(State(), q)
      ensures forall i, j :: 0 <= i < j < |ids| ==> ids[i] != ids[j]
    {
      ids := [];
      var todo := tunnels.Keys;
      while todo != {}
        invariant todo <= tunnels.Keys
        invariant forall id :: id in ids <==> id in tunnels && id !in todo && Collects(q, tunnels[id])
        invariant forall i, j :: 0 <= i < j < |ids| ==> ids[i] != ids[j]
        decreases todo
      {
        var id :| id in todo;
        if Collects(q, tunnels[id]) {
          ids := ids + [id];
        }
        todo := todo - {id};
      }
    }

    /** `disconnectManaged` with nothing in between its phases: gone are exactly the tunnels of the key,
        the user or the host it names, and the TCP tunnels of the port that are not newer; the barriers
        stand, and every cleanup has taken one or two sequence numbers. */
    method Disconnect(q: Request)
      requires Valid()
      modifies this
      ensures Valid()
      ensures State() == Raise(old(State()), q).(
                tunnels := old(tunnels) - Collected(old(State()), q), sequence := sequence)
      ensures forall id :: id in tunnels ==> id in old(tunnels) && tunnels[id] == old(tunnels)[id]
      ensures forall id :: id in old(tunnels) ==> (id !in tunnels <==>
        || (q.key > 0 && old(tunnels)[id].key == q.key)
        || (q.user > 0 && old(tunnels)[id].user == q.user)
        || (q.host != "" && old(tunnels)[id].host == q.host)
        || (q.port > 0 && old(tunnels)[id].protocol.Tcp? && old(tunnels)[id].port == q.port
            && old(tunnels)[id].generation <= q.generation))
      ensures var n := |Collected(old(State()), q)|; old(sequence) + n <= sequence <= old(sequence) + 2 * n
    {
      var ids := Collect(q);
      ghost var doomed := Collected(old(State()), q);
      var i := 0;
      assert ids[..0] == [];
      while i < |ids|
        invariant 0 <= i <= |ids| && Valid()
        invariant State() == Raise(old(State()), q).(
                    tunnels := old(tunnels) - (set id | id in ids[..i]), sequence := sequence)
        invariant old(sequence) + i <= sequence <= old(sequence) + 2 * i
      {
        assert ids[i] in ids;
        assert ids[..i + 1] == ids[..i] + [ids[i]];
        CleanUp(ids[i]);
        i := i + 1;
      }
      assert ids[..i] == ids;
      assert (set id | id in ids) == doomed;
      DistinctCount(ids);
      CollectedExactly(old(State()), q);
    }
  }

  lemma {:induction false} DistinctCount(ids: seq<string>)
    requires forall i, j :: 0 <= i < j < |ids| ==> ids[i] != ids[j]
    ensures |set id | id in ids| == |ids|
  {
    if ids != [] {
      DistinctCount(ids[1..]);
      assert (set id | id in ids) == (set id | id in ids[1..]) + {ids[0]};
    }
  }
}
