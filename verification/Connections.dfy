/**
 sish's connection limiter: every accepted connection holds a place in its entry until the release
 closure it was given runs, and entries in use are never evicted.  Times are seconds.
 */
module Connections {
  import opened Hostnames
  import opened Buckets
  import opened Addresses

  const IDLE := 600.0
  const MAX_ENTRIES := 10000

  datatype Kind = Http | Ssh | Tcp

  /** What an entry is kept for. */
  datatype Key =
    | Connection(kind: Kind, listener: string, ip: string)
    | Request(ip: string, host: string)

  /** The limits of the configuration; every reading of them is at least one. */
  datatype Settings = Settings(burst: nat, rate: nat, httpMax: nat, sshMax: nat,
                               tcpBurst: nat, tcpRate: nat, tcpMax: nat,
                               requestBurst: nat, requestRate: nat, block: real)

  datatype Limits = Limits(burst: nat, rate: nat, max: nat)

  function AtLeastOne(n: nat): nat {
    if n < 1 then 1 else n
  }

  function LimitsOf(s: Settings, kind: Kind): Limits {
    match kind
    case Http => Limits(AtLeastOne(s.burst), AtLeastOne(s.rate), AtLeastOne(s.httpMax))
    case Ssh => Limits(AtLeastOne(s.burst), AtLeastOne(s.rate), AtLeastOne(s.sshMax))
    case Tcp => Limits(AtLeastOne(s.tcpBurst), AtLeastOne(s.tcpRate), AtLeastOne(s.tcpMax))
  }

  function BlockOf(s: Settings): real {
    if s.block <= 0.0 then 300.0 else s.block
  }

  /** The values of an entry at one moment. */
  datatype Levels = Levels(tokens: real, updated: real, blocked: Option<real>, connections: int, violations: int)

  datatype Verdict = Verdict(levels: Levels, ok: bool)

  predicate Blocked(l: Levels, now: real) {
    l.blocked.Some? && now < l.blocked.value
  }

  /** What a refusal adds up to: every so many of them earn a block. */
  function Violated(s: Settings, l: Levels, now: real, limit: nat): Levels {
    if l.violations + 1 >= limit then l.(blocked := Some(now + BlockOf(s)), violations := 0)
    else l.(violations := l.violations + 1)
  }

  function Inflow(elapsed: real, rate: nat): real {
    elapsed * rate as real
  }

  /** What flows in before an attempt is judged. */
  function Refilled(l: Levels, burst: nat, rate: nat, now: real): Levels {
    l.(tokens := Min(burst as real, l.tokens + Inflow(now - l.updated, rate)), updated := now)
  }

  /** One attempt to connect. */
  function Admit(s: Settings, kind: Kind, l: Levels, now: real): Verdict {
    var limits := LimitsOf(s, kind);
    if Blocked(l, now) then Verdict(l, false)
    else
      var f := Refilled(l, limits.burst, limits.rate, now);
      if f.tokens < 1.0 || f.connections >= limits.max then Verdict(Violated(s, f, now, 5), false)
      else Verdict(f.(tokens := f.tokens - 1.0, violations := 0, connections := f.connections + 1), true)
  }

  /** One request. */
  function Ask(s: Settings, l: Levels, now: real): Verdict {
    if Blocked(l, now) then Verdict(l, false)
    else
      var f := Refilled(l, AtLeastOne(s.requestBurst), AtLeastOne(s.requestRate), now);
      if f.tokens < 1.0 then Verdict(Violated(s, f, now, 10), false)
      else Verdict(f.(tokens := f.tokens - 1.0, violations := 0), true)
  }

  function NewLevels(burst: nat, now: real): Levels {
    Levels(burst as real, now, None, 0, 0)
  }

  /** `abuseEntry`. */
  class Entry {
    var tokens: real
    var updated: real
    var blocked: Option<real>
    var connections: int
    var violations: int

    constructor (burst: nat, now: real)
      ensures State() == NewLevels(burst, now)
    {
      tokens, updated, blocked, connections, violations := burst as real, now, None, 0, 0;
    }

    function State(): Levels
      reads this
    {
      Levels(tokens, updated, blocked, connections, violations)
    }

    method Violate(s: Settings, now: real, limit: nat)
      modifies this
      ensures State() == Violated(s, old(State()), now, limit)
    {
      violations := violations + 1;
      if violations >= limit {
        blocked := Some(now + BlockOf(s));
        violations := 0;
      }
    }

    /** What `allowConnection` does to the entry. */
    method AdmitConnection(s: Settings, kind: Kind, now: real) returns (ok: bool)
      modifies this
      ensures Verdict(State(), ok) == Admit(s, kind, old(State()), now)
    {
      var limits := LimitsOf(s, kind);
      if Blocked(State(), now) {
        return false;
      }
      tokens := Min(limits.burst as real, tokens + Inflow(now - updated, limits.rate));
      updated := now;
      assert State() == Refilled(old(State()), limits.burst, limits.rate, now);
      if tokens < 1.0 || connections >= limits.max {
        Violate(s, now, 5);
        return false;
      }
      tokens := tokens - 1.0;
      violations := 0;
      connections := connections + 1;
      return true;
    }

    /** What `AbuseAllow` does to the entry. */
    method AskRequest(s: Settings, now: real) returns (ok: bool)
      modifies this
      ensures Verdict(State(), ok) == Ask(s, old(State()), now)
    {
      if Blocked(State(), now) {
        return false;
      }
      tokens := Min(AtLeastOne(s.requestBurst) as real, tokens + Inflow(now - updated, AtLeastOne(s.requestRate)));
      updated := now;
      assert State() == Refilled(old(State()), AtLeastOne(s.requestBurst), AtLeastOne(s.requestRate), now);
      if tokens < 1.0 {
        Violate(s, now, 10);
        return false;
      }
      tokens := tokens - 1.0;
      violations := 0;
      return true;
    }
  }

  /** The release closure of an accepted connection: it runs at most once. */
  class Grant {
    const entry: Entry
    var released: bool

    constructor (entry: Entry)
      ensures this.entry == entry && !released
    {
      this.entry, released := entry, false;
    }
  }

  /** `abuseState`: the table of entries, with all closures ever handed out. */
  class AbuseState {
    const settings: Settings
    var m: map<Key, Entry>
    ghost var grants: set<Grant>

    /** The closures of an entry that have not run. */
    ghost function Outstanding(e: Entry): set<Grant>
      reads this`grants, grants
    {
      set g | g in grants && g.entry == e && !g.released
    }

    /** What holds of a table of entries: keys have entries of their own, every outstanding closure
        finds its entry there, and an entry counts exactly its outstanding closures, never more
        than its kind allows. */
    ghost predicate Sound(t: map<Key, Entry>)
      reads this`grants, t.Values, grants
    {
      && (forall a, b :: a in t && b in t && t[a] == t[b] ==> a == b)
      && (forall g :: g in grants && !g.released ==> Homes(t, g.entry))
      && (forall k :: k in t ==> t[k].connections == |Outstanding(t[k])| && InBounds(k, t[k].connections))
    }

    /** An entry is in the table. */
    static ghost predicate Homes(t: map<Key, Entry>, e: Entry) {
      exists k :: k in t && t[k] == e
    }

    predicate InBounds(k: Key, connections: int) {
      if k.Connection? then 0 <= connections <= LimitsOf(settings, k.kind).max else connections == 0
    }

    ghost predicate Valid()
      reads this, m.Values, grants
    {
      Sound(m)
    }

    /** No entry has been looked at after this time, and none is blocked for longer than a block from
        the time it was last looked at. */
    ghost predicate Timed(t: map<Key, Entry>, now: real)
      reads t.Values
    {
      forall k :: k in t ==> t[k].updated <= now && BlockSound(settings, t[k].State())
    }

    constructor (settings: Settings)
      ensures Valid() && this.settings == settings && m == map[] && grants == {}
    {
      this.settings, m, grants := settings, map[], {};
    }

    lemma InUse(g: Grant)
      requires g in grants && !g.released
      ensures |Outstanding(g.entry)| >= 1
    {
      assert g in Outstanding(g.entry);
    }

    static predicate Evictable(l: Levels, now: real) {
      now - l.updated > IDLE && l.connections == 0
    }

    /** The entries a sweep keeps. */
    ghost function Kept(t: map<Key, Entry>, now: real): map<Key, Entry>
      reads t.Values
    {
      map k | k in t && !Evictable(t[k].State(), now) :: t[k]
    }

    /** An entry with a connection outstanding is always kept. */
    lemma KeptSound(t: map<Key, Entry>, now: real)
      requires Sound(t)
      ensures Sound(Kept(t, now)) && |Kept(t, now)| <= |t|
    {
      var kept := Kept(t, now);
      forall g | g in grants && !g.released ensures Homes(kept, g.entry) {
        var k :| k in t && t[k] == g.entry;
        InUse(g);
        assert k in kept && kept[k] == g.entry;
      }
      KeptFewer(t, kept);
    }

    /** Blocks no longer than the idle time survive the sweep. */
    lemma KeptKeepsBlocked(t: map<Key, Entry>, now: real)
      requires Timed(t, now)
      ensures Timed(Kept(t, now), now)
      ensures BlockOf(settings) <= IDLE ==>
        forall k :: k in t && Blocked(t[k].State(), now) ==> k in Kept(t, now)
    {
    }

    /** The sweep of `allowConnection`. */
    method Sweep(now: real)
      modifies this`m
      ensures m == old(Kept(m, now))
    {
      ghost var t, kept := m, Kept(m, now);
      var todo := m.Keys;
      while todo != {}
        invariant todo <= m.Keys <= t.Keys && kept.Keys <= m.Keys
        invariant forall k :: k in m ==> m[k] == t[k] && (k in todo || k in kept)
        decreases |todo|
      {
        var k :| k in todo;
        todo := todo - {k};
        assert k in kept <==> !Evictable(m[k].State(), now);
        if now - m[k].updated > 600.0 && m[k].connections == 0 {
          m := m - {k};
        }
      }
      assert m == kept;
    }

    /** The table in which room is looked for. */
    ghost function Swept(t: map<Key, Entry>, now: real): map<Key, Entry>
      reads t.Values
    {
      if |t| >= MAX_ENTRIES then Kept(t, now) else t
    }

    /** Room is looked for only among ten thousand entries, and then at the cost of exactly those that have
        no connection and have not been looked at for ten minutes. */
    lemma SweptExactly(t: map<Key, Entry>, now: real)
      ensures |t| < 10000 ==> Swept(t, now) == t
      ensures |t| >= 10000 ==> forall k :: k in Swept(t, now) <==>
        k in t && (t[k].connections != 0 || now - t[k].updated <= 600.0)
      ensures forall k :: k in Swept(t, now) ==> k in t && Swept(t, now)[k] == t[k]
    {
    }

    /** A new entry has no connections. */
    lemma AddedSound(t: map<Key, Entry>, key: Key, e: Entry)
      requires Sound(t) && key !in t && !Homes(t, e) && e.connections == 0
      requires forall g :: g in grants ==> g.entry != e
      ensures Sound(t[key := e])
    {
      var t' := t[key := e];
      assert Outstanding(e) == {};
      forall k | k in t' ensures t'[k].connections == |Outstanding(t'[k])| && InBounds(k, t'[k].connections) {
        assert k != key ==> t'[k] == t[k];
      }
      forall g | g in grants && !g.released ensures Homes(t', g.entry) {
        StillHome(t, key, e, g.entry);
      }
    }

    static lemma StillHome(t: map<Key, Entry>, key: Key, e: Entry, other: Entry)
      requires key !in t && Homes(t, other)
      ensures Homes(t[key := e], other)
    {
      var k :| k in t && t[k] == other;
      assert t[key := e][k] == other;
    }

    /** The lookup of an entry, creating it if the table has room; a full table is swept first. */
    method FindOrAdd(key: Key, burst: nat, now: real) returns (e: Entry?)
      requires Valid() && key.Connection?
      modifies this`m
      ensures Valid()
      ensures old(Timed(m, now)) ==> Timed(m, now)
      ensures old(Timed(m, now)) && BlockOf(settings) <= IDLE ==>
        forall k :: k in old(m) && old(Blocked(m[k].State(), now)) ==> k in m && m[k] == old(m)[k]
      ensures key in old(m) ==> m == old(m) && e == m[key]
      ensures key !in old(m) && |old(Swept(m, now))| >= MAX_ENTRIES ==> e == null && m == old(Swept(m, now))
      ensures key !in old(m) && |old(Swept(m, now))| < MAX_ENTRIES ==>
        e != null && fresh(e) && e.State() == NewLevels(burst, now) && m == old(Swept(m, now))[key := e]
      ensures e != null ==> key in m && m[key] == e
      ensures |m| <= MAX_ENTRIES || |m| <= |old(m)|
    {
      if key in m {
        return m[key];
      }
      MakeRoom(now);
      if |m| >= MAX_ENTRIES {
        return null;
      }
      e := Add(key, burst, now);
    }

    method MakeRoom(now: real)
      requires Valid()
      modifies this`m
      ensures Valid() && m == old(Swept(m, now)) && |m| <= |old(m)|
      ensures old(Timed(m, now)) ==> Timed(m, now)
      ensures old(Timed(m, now)) && BlockOf(settings) <= IDLE ==>
        forall k :: k in old(m) && old(Blocked(m[k].State(), now)) ==> k in m && m[k] == old(m)[k]
    {
      if |m| >= MAX_ENTRIES {
        KeptSound(m, now);
        if Timed(m, now) {
          KeptKeepsBlocked(m, now);
        }
        Sweep(now);
      }
    }

    method Add(key: Key, burst: nat, now: real) returns (e: Entry)
      requires Valid() && key !in m
      modifies this`m
      ensures Valid() && fresh(e) && e.State() == NewLevels(burst, now)
      ensures m == old(m)[key := e] && |m| == |old(m)| + 1
      ensures old(Timed(m, now)) ==> Timed(m, now)
    {
      e := new Entry(burst, now);
      Put(key, e, now);
    }

    /** A new entry goes into the table. */
    method Put(key: Key, e: Entry, ghost now: real)
      requires Valid() && key !in m && !Homes(m, e) && forall g :: g in grants ==> g.entry != e
      requires e.connections == 0 && e.updated == now && e.blocked == None
      modifies this`m
      ensures Valid() && m == old(m)[key := e] && |m| == |old(m)| + 1
      ensures old(Timed(m, now)) ==> Timed(m, now)
    {
      AddedSound(m, key, e);
      AddedTimed(m, key, e, now);
      OneMoreKey(m, key, e);
      m := m[key := e];
    }

    lemma AddedTimed(t: map<Key, Entry>, key: Key, e: Entry, now: real)
      requires key !in t && e.updated == now && e.blocked == None
      ensures Timed(t, now) ==> Timed(t[key := e], now)
    {
    }

    /** A place taken: the entry counts one closure more, the others are as they were. */
    twostate lemma PlaceTaken(key: Key, new g: Grant)
      requires old(Valid()) && m == old(m) && key in m && g.entry == m[key]
      requires grants == old(grants) + {g} && !g.released && g !in old(grants)
      requires forall h :: h in old(grants) ==> h.released == old(h.released)
      requires forall k :: k in m && k != key ==> m[k].connections == old(m[k].connections)
      requires m[key].connections == old(m[key].connections) + 1 && InBounds(key, m[key].connections)
      ensures Valid()
    {
      assert Outstanding(m[key]) == old(Outstanding(m[key])) + {g};
      forall k | k in m && k != key ensures Outstanding(m[k]) == old(Outstanding(m[k])) {
      }
    }

    /** A place given back. */
    twostate lemma PlaceGivenBack(key: Key, new g: Grant)
      requires old(Valid()) && m == old(m) && key in m && g.entry == m[key]
      requires grants == old(grants) && g in old(grants) && g.released && !old(g.released)
      requires forall h :: h in grants && h != g ==> h.released == old(h.released)
      requires forall k :: k in m && k != key ==> m[k].connections == old(m[k].connections)
      requires m[key].connections == old(m[key].connections) - 1
      ensures Valid()
    {
      assert old(Outstanding(m[key])) == Outstanding(m[key]) + {g};
      forall k | k in m && k != key ensures Outstanding(m[k]) == old(Outstanding(m[k])) {
      }
      assert InBounds(key, old(m[key].connections));
    }

    /** `allowConnection` once the entry is there. */
    method Serve(key: Key, now: real) returns (grant: Grant?)
      requires Valid() && key in m && key.Connection?
      modifies this`grants, m[key]
      ensures Valid()
      ensures old(Timed(m, now)) ==> Timed(m, now)
      ensures Verdict(m[key].State(), grant != null) == Admit(settings, key.kind, old(m[key].State()), now)
      ensures grant == null ==> grants == old(grants)
      ensures grant != null ==>
        fresh(grant) && !grant.released && grant.entry == m[key] && grants == old(grants) + {grant}
    {
      var ok := Judge(key, now);
      if !ok {
        return null;
      }
      grant := new Grant(m[key]);
      grants := grants + {grant};
      PlaceTaken(key, grant);
    }

    /** The entry's verdict. */
    method Judge(key: Key, now: real) returns (ok: bool)
      requires key in m && key.Connection?
      modifies m[key]
      ensures old(Timed(m, now)) ==> Timed(m, now)
      ensures Verdict(m[key].State(), ok) == Admit(settings, key.kind, old(m[key].State()), now)
    {
      if Timed(m, now) {
        AdmitKeepsBlockSound(settings, key.kind, m[key].State(), now);
      }
      ok := m[key].AdmitConnection(settings, key.kind, now);
    }

    /** The entry a call works on, if there is one already. */
    ghost function Existing(key: Key): set<Entry>
      reads this`m
    {
      if key in m then {m[key]} else {}
    }

    /** `allowConnection`: refused for want of room in the table, because of a block, or for want of
        a token or a place; otherwise the caller gets a closure for the place taken.  With blocks no
        longer than the idle time, nobody's block is forgotten to make room. */
    method AllowConnection(kind: Kind, listener: string, addr: string, now: real) returns (grant: Grant?)
      requires Valid()
      modifies this`m, this`grants, Existing(Connection(kind, listener, RemoteIP(addr)))
      ensures Valid()
      ensures old(Timed(m, now)) ==> Timed(m, now)
      ensures old(Timed(m, now)) && BlockOf(settings) <= IDLE ==>
        forall k :: k in old(m) && old(Blocked(m[k].State(), now)) ==> k in m && m[k] == old(m)[k]
      ensures var key := Connection(kind, listener, RemoteIP(addr));
        && (key in old(m) ==>
              && m == old(m)
              && Verdict(m[key].State(), grant != null) == Admit(settings, kind, old(m[key].State()), now))
        && (key !in old(m) && |old(Swept(m, now))| >= MAX_ENTRIES ==> grant == null && m == old(Swept(m, now)))
        && (key !in old(m) && |old(Swept(m, now))| < MAX_ENTRIES ==>
              && key in m && m == old(Swept(m, now))[key := m[key]] && fresh(m[key])
              && Verdict(m[key].State(), grant != null)
                   == Admit(settings, kind, NewLevels(LimitsOf(settings, kind).burst, now), now))
      ensures grant == null ==> grants == old(grants)
      ensures grant != null ==>
        && fresh(grant) && !grant.released && grants == old(grants) + {grant}
        && Connection(kind, listener, RemoteIP(addr)) in m && grant.entry == m[Connection(kind, listener, RemoteIP(addr))]
    {
      var key := Connection(kind, listener, RemoteIP(addr));
      var e := FindOrAdd(key, LimitsOf(settings, kind).burst, now);
      if e == null {
        return null;
      }
      grant := Serve(key, now);
    }

    lemma HomeOf(g: Grant) returns (key: Key)
      requires Valid() && g in grants && !g.released
      ensures key in m && m[key] == g.entry && g.entry.connections >= 1
    {
      key :| key in m && m[key] == g.entry;
      InUse(g);
    }

    /** The release closure: the first call gives the place back, any other does nothing. */
    method Release(g: Grant)
      requires Valid() && g in grants
      modifies g, g.entry
      ensures Valid() && g.released
      ensures forall now :: old(Timed(m, now)) ==> Timed(m, now)
      ensures old(g.released) ==> g.entry.State() == old(g.entry.State())
      ensures !old(g.released) ==> g.entry.State() == old(g.entry.State()).(connections := old(g.entry.connections) - 1)
      ensures !old(g.released) ==> g.entry.connections >= 0
    {
      if !g.released {
        ghost var key := HomeOf(g);
        GiveBack(g, key);
      }
    }

    /** What the closure does under the lock. */
    method GiveBack(g: Grant, ghost key: Key)
      requires Valid() && g in grants && !g.released
      requires key in m && m[key] == g.entry && g.entry.connections >= 1
      modifies g, g.entry
      ensures Valid() && g.released
      ensures g.entry.State() == old(g.entry.State()).(connections := old(g.entry.connections) - 1)
    {
      g.released := true;
      if g.entry.connections > 0 {
        g.entry.connections := g.entry.connections - 1;
      }
      PlaceGivenBack(key, g);
    }

    /** `AbuseAllow`: a bucket of its own, without a look at the size of the table. */
    method AllowRequest(addr: string, host: string, now: real) returns (ok: bool)
      requires Valid()
      modifies this`m, Existing(Request(RemoteIP(addr), RequestHost(host)))
      ensures Valid()
      ensures old(Timed(m, now)) ==> Timed(m, now)
      ensures var key := Request(RemoteIP(addr), RequestHost(host));
        && key in m
        && (key in old(m) ==> m == old(m) && Verdict(m[key].State(), ok) == Ask(settings, old(m[key].State()), now))
        && (key !in old(m) ==>
              && m == old(m)[key := m[key]] && fresh(m[key])
              && Verdict(m[key].State(), ok)
                   == Ask(settings, NewLevels(AtLeastOne(settings.requestBurst), now), now))
    {
      var key := Request(RemoteIP(addr), RequestHost(host));
      if key !in m {
        var _ := Add(key, AtLeastOne(settings.requestBurst), now);
      }
      ok := Question(key, now);
    }

    method Question(key: Key, now: real) returns (ok: bool)
      requires Valid() && key in m
      modifies m[key]
      ensures Valid() && Verdict(m[key].State(), ok) == Ask(settings, old(m[key].State()), now)
      ensures old(Timed(m, now)) ==> Timed(m, now)
    {
      var e := m[key];
      if Timed(m, now) {
        AskKeepsBlockSound(settings, e.State(), now);
      }
      ok := e.AskRequest(settings, now);
    }
  }

  lemma KeptFewer(m: map<Key, Entry>, kept: map<Key, Entry>)
    requires kept.Keys <= m.Keys
    ensures |kept| <= |m|
  {
    assert m.Keys == kept.Keys + (m.Keys - kept.Keys);
  }

  lemma OneMoreKey(m: map<Key, Entry>, key: Key, e: Entry)
    requires key !in m
    ensures |m[key := e]| == |m| + 1
  {
    assert m[key := e].Keys == m.Keys + {key};
  }

  // -------------------------------------------------------------------- properties

  /** Violations never reach the limit that earns a block, nothing is let in while a block stands,
      and a place is taken only while one is free. */
  lemma AdmitKeepsBounds(s: Settings, kind: Kind, l: Levels, now: real)
    requires 0 <= l.violations <= 4 && 0 <= l.connections <= LimitsOf(s, kind).max
    ensures var v := Admit(s, kind, l, now);
      && 0 <= v.levels.violations <= 4
      && 0 <= v.levels.connections <= LimitsOf(s, kind).max
      && (Blocked(l, now) ==> v == Verdict(l, false))
      && (v.ok ==> v.levels.connections == l.connections + 1)
      && (!v.ok ==> v.levels.connections == l.connections)
  {
  }

  /** A block ends no later than its length after the entry was last looked at. */
  predicate BlockSound(s: Settings, l: Levels) {
    l.blocked.Some? ==> l.blocked.value <= l.updated + BlockOf(s)
  }

  /** A second brings as many tokens as the rate says. */
  lemma InflowExactly(elapsed: real, rate: nat)
    ensures Inflow(elapsed, rate) == elapsed * rate as real
    ensures Inflow(1.0, rate) == rate as real
  {
  }

  /** An attempt to connect in numbers: it is let in exactly if no block stands, the level has reached one,
      and a place is free, and then costs one token and one place; every fifth refusal in a row blocks,
      for as long as configured or else five minutes. */
  lemma AdmitExactly(s: Settings, kind: Kind, l: Levels, now: real)
    ensures var burst, rate, places := LimitsOf(s, kind).burst, LimitsOf(s, kind).rate, LimitsOf(s, kind).max;
      Counted(s, l, now, burst, rate, l.connections < places, 5, 1, Admit(s, kind, l, now))
  {
  }

  /** TCP has limits of its own, HTTP and SSH share theirs but for the number of places; none is below one. */
  lemma LimitsExactly(s: Settings)
    ensures LimitsOf(s, Http).burst == LimitsOf(s, Ssh).burst == (if s.burst == 0 then 1 else s.burst)
    ensures LimitsOf(s, Http).rate == LimitsOf(s, Ssh).rate == (if s.rate == 0 then 1 else s.rate)
    ensures LimitsOf(s, Tcp).burst == (if s.tcpBurst == 0 then 1 else s.tcpBurst)
    ensures LimitsOf(s, Tcp).rate == (if s.tcpRate == 0 then 1 else s.tcpRate)
    ensures LimitsOf(s, Http).max == (if s.httpMax == 0 then 1 else s.httpMax)
    ensures LimitsOf(s, Ssh).max == (if s.sshMax == 0 then 1 else s.sshMax)
    ensures LimitsOf(s, Tcp).max == (if s.tcpMax == 0 then 1 else s.tcpMax)
  {
  }

  /** The same for a request, which takes no place and of which every tenth refusal blocks. */
  lemma AskExactly(s: Settings, l: Levels, now: real)
    ensures Counted(s, l, now, if s.requestBurst == 0 then 1 else s.requestBurst,
                    if s.requestRate == 0 then 1 else s.requestRate, true, 10, 0, Ask(s, l, now))
  {
  }

  /** The verdict of a bucket, in numbers. */
  predicate Counted(s: Settings, l: Levels, now: real, burst: nat, rate: nat, free: bool, limit: nat, places: nat,
                    v: Verdict)
  {
    var refilled := l.tokens + Inflow(now - l.updated, rate);
    var level := if refilled < burst as real then refilled else burst as real;
    if l.blocked.Some? && now < l.blocked.value then v == Verdict(l, false)
    else
      && (v.ok <==> level >= 1.0 && free)
      && v.levels.updated == now
      && v.levels.tokens == (if v.ok then level - 1.0 else level)
      && v.levels.connections == (if v.ok then l.connections + places else l.connections)
      && v.levels.violations == (if v.ok || l.violations + 1 >= limit then 0 else l.violations + 1)
      && v.levels.blocked == (if !v.ok && l.violations + 1 >= limit
                              then Some(now + if s.block > 0.0 then s.block else 300.0) else l.blocked)
  }

  lemma AdmitKeepsBlockSound(s: Settings, kind: Kind, l: Levels, now: real)
    requires BlockSound(s, l) && l.updated <= now
    ensures BlockSound(s, Admit(s, kind, l, now).levels) && Admit(s, kind, l, now).levels.updated <= now
  {
  }

  lemma AskKeepsBlockSound(s: Settings, l: Levels, now: real)
    requires BlockSound(s, l) && l.updated <= now
    ensures BlockSound(s, Ask(s, l, now).levels) && Ask(s, l, now).levels.updated <= now
  {
  }
}
