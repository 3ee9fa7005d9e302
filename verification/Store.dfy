/**
 The store: one method per SQL transaction, statement by statement.  A transaction works on a
 copy and commits it at the end, so an early return is a rollback; every statement may also fail
 in the database itself, which rolls back too.
 */
module Storage {
  import opened Hostnames
  import opened Tables
  import opened Lifecycle
  import opened KeyFiles
  import opened Replay

  /** What an authorization returns. */
  datatype Authorization = Authorization(user: int, key: int, generation: int)

  // ---------------------------------------------------------------- join counts

  /** The rows and the `count(*)` of the joins behind authorization, connect and snapshot. */
  function NameRows(r: Rights, user: int, name: string): set<int> {
    set id | id in r.subdomains && r.subdomains[id].user == user && r.subdomains[id].name == name
  }

  function PortRows(r: Rights, user: int, port: int): set<int> {
    set id | id in r.ports && r.ports[id].user == user && r.ports[id].port == port
  }

  function NameCount(r: Rights, user: int, name: string): nat {
    |NameRows(r, user, name)|
  }

  function PortCount(r: Rights, user: int, port: int): nat {
    |PortRows(r, user, port)|
  }

  function NameJoin(r: Rights, c: Claim): nat {
    if KeyLive(r, c.key, c.user) then NameCount(r, c.user, c.name) else 0
  }

  function PortJoin(r: Rights, c: Claim): nat {
    if KeyLive(r, c.key, c.user) then PortCount(r, c.user, c.port) else 0
  }

  function SystemJoin(r: Rights, c: Claim): nat {
    if SystemLive(r, -c.key, c.name) then 1 else 0
  }

  lemma SomeMember(ids: set<int>)
    ensures ids == {} || exists id: int :: id in ids
  {
    if forall id: int :: id !in ids {
      assert ids == {};
    }
  }

  /** Names are unique, so the count is one exactly when the user holds the name. */
  lemma NameCountIsOwnership(r: Rights, user: int, name: string)
    requires UniqueNames(r)
    ensures NameCount(r, user, name) == 1 <==> OwnsName(r, user, name)
  {
    var ids := NameRows(r, user, name);
    forall id | id in ids ensures OwnsName(r, user, name) {
      assert r.subdomains[id] == Subdomain(user, name);
    }
    if OwnsName(r, user, name) {
      var id: int :| id in r.subdomains && r.subdomains[id] == Subdomain(user, name);
      forall other | other in ids ensures other == id {
        assert r.subdomains[other].name == r.subdomains[id].name;
      }
      assert ids == {id};
    } else {
      assert forall id :: id !in ids;
      assert ids == {};
    }
  }

  lemma PortCountIsOwnership(r: Rights, user: int, port: int)
    requires UniquePorts(r)
    ensures PortCount(r, user, port) == 1 <==> OwnsPort(r, user, port)
  {
    var ids := PortRows(r, user, port);
    forall id | id in ids ensures OwnsPort(r, user, port) {
      assert r.ports[id] == Port(user, port);
    }
    if OwnsPort(r, user, port) {
      var id: int :| id in r.ports && r.ports[id] == Port(user, port);
      forall other | other in ids ensures other == id {
        assert r.ports[other].port == r.ports[id].port;
      }
      assert ids == {id};
    } else {
      assert forall id :: id !in ids;
      assert ids == {};
    }
  }

  // --------------------------------------------------------------------- outbox

  predicate Due(item: Item, now: int) {
    !item.completed && item.available <= now
  }

  /** The ids of the due items from position i on, in order. */
  function DueFrom(outbox: seq<Item>, now: int, i: nat): seq<nat>
    requires i <= |outbox|
    decreases |outbox| - i
  {
    if i == |outbox| then []
    else (if Due(outbox[i], now) then [i] else []) + DueFrom(outbox, now, i + 1)
  }

  /** Distinct ids of items not yet completed, in order. */
  ghost predicate Outstanding(outbox: seq<Item>, ids: seq<nat>) {
    && (forall a :: 0 <= a < |ids| ==> ids[a] < |outbox| && !outbox[ids[a]].completed)
    && Ascending(ids)
  }

  lemma {:induction false} DueIds(outbox: seq<Item>, now: int, i: nat)
    requires i <= |outbox|
    ensures forall id :: id in DueFrom(outbox, now, i) <==> i <= id < |outbox| && Due(outbox[id], now)
    ensures Ascending(DueFrom(outbox, now, i))
    decreases |outbox| - i
  {
    if i < |outbox| {
      DueIds(outbox, now, i + 1);
      var ids, tail := DueFrom(outbox, now, i), DueFrom(outbox, now, i + 1);
      var head: seq<nat> := if Due(outbox[i], now) then [i] else [];
      assert ids == head + tail;
      forall a, b | 0 <= a < b < |ids| ensures ids[a] < ids[b] {
        assert tail[b - |head|] in tail;
        assert ids[a] == if a < |head| then i else tail[a - |head|];
      }
      forall id: nat ensures id in ids <==> i <= id < |outbox| && Due(outbox[id], now) {
        assert id in head <==> id == i && Due(outbox[i], now);
        assert id in tail <==> i + 1 <= id < |outbox| && Due(outbox[id], now);
      }
    }
  }

  predicate Ascending(ids: seq<nat>) {
    forall a, b :: 0 <= a < b < |ids| ==> ids[a] < ids[b]
  }

  function First(ids: seq<nat>, limit: nat): seq<nat> {
    if |ids| <= limit then ids else ids[..limit]
  }

  lemma FirstAreLeast(ids: seq<nat>, limit: nat)
    requires Ascending(ids)
    ensures |First(ids, limit)| <= limit && Ascending(First(ids, limit))
    ensures forall i :: i in First(ids, limit) ==> i in ids
    ensures forall i :: i in ids ==>
      i in First(ids, limit) || (|First(ids, limit)| == limit && forall j :: j in First(ids, limit) ==> j < i)
  {
    forall b | 0 <= b < |ids| && b < limit ensures ids[b] in First(ids, limit) {
      assert First(ids, limit)[b] == ids[b];
    }
  }

  /** Seconds until the next attempt: doubling, and never more than five minutes. */
  function Backoff(attempts: nat): nat {
    var doublings := if attempts < 8 then attempts else 8;
    var delay := DoubleOf(doublings);
    if delay > 300 then 300 else delay
  }

  function DoubleOf(n: nat): nat {
    if n == 0 then 1 else 2 * DoubleOf(n - 1)
  }

  /** The database behind a store may refuse a statement for reasons of its own, unless the store is
      reliable. */
  class Store {
    const reliable: bool
    var db: Db

    ghost predicate Valid()
      reads this
    {
      Sound(db)
    }

    constructor (reliable: bool, systemKeys: map<int, SystemKey>, systemNames: map<string, int>)
      requires SystemBounded(Rights(map[], 1, map[], 1, map[], 1, map[], 1, systemKeys, systemNames))
      ensures Valid() && this.reliable == reliable
      ensures db == Db(1, Rights(map[], 1, map[], 1, map[], 1, map[], 1, systemKeys, systemNames),
                       Index(map[], map[], map[], "", 0, false, {}), [])
    {
      this.reliable := reliable;
      db := Db(1, Rights(map[], 1, map[], 1, map[], 1, map[], 1, systemKeys, systemNames),
               Index(map[], map[], map[], "", 0, false, {}), []);
    }

    /** One SQL statement. */
    method Execute() returns (r: Result<()>)
      ensures r.Ok? || (r == Err(Database) && !reliable)
    {
      var failed: bool := *;
      r := if failed && !reliable then Err(Database) else Ok(());
    }

    /** `UserByID`. */
    method UserByID(id: int) returns (r: Result<User>)
      ensures r.Ok? ==> id in db.rights.users && r.value == db.rights.users[id]
      ensures r.Err? ==> (r.error == Database && !reliable) || (r.error == NoRows && id !in db.rights.users)
    {
      var _ :- Execute();
      if id !in db.rights.users {
        return Err(NoRows);
      }
      return Ok(db.rights.users[id]);
    }

    /** `Key`. */
    method KeyByID(id: int) returns (r: Result<SshKey>)
      ensures r.Ok? ==> id in db.rights.keys && r.value == RecordOf(db.rights, id)
      ensures r.Err? ==> (r.error == Database && !reliable) || (r.error == NoRows && id !in db.rights.keys)
    {
      var _ :- Execute();
      if id !in db.rights.keys {
        return Err(NoRows);
      }
      return Ok(RecordOf(db.rights, id));
    }

    /** The selected rows, in some order. */
    method Select(ids: set<int>) returns (keys: seq<SshKey>)
      requires ids <= db.rights.keys.Keys
      ensures forall k :: k in keys <==> k.id in ids && k == RecordOf(db.rights, k.id)
    {
      keys := [];
      var left := ids;
      while left != {}
        invariant left <= ids
        invariant forall k :: k in keys <==> k.id in ids - left && k == RecordOf(db.rights, k.id)
        decreases |left|
      {
        SomeMember(left);
        var id: int :| id in left;
        keys := keys + [RecordOf(db.rights, id)];
        left := left - {id};
      }
    }

    /** `KeysByUser`: enabled or not. */
    method KeysByUser(user: int) returns (r: Result<seq<SshKey>>)
      ensures r.Ok? ==> forall k :: k in r.value <==>
        k.id in db.rights.keys && k == RecordOf(db.rights, k.id) && k.user == user
      ensures r.Err? ==> r.error == Database && !reliable
    {
      var _ :- Execute();
      var keys := Select(set id | id in db.rights.keys && db.rights.keys[id].user == user);
      return Ok(keys);
    }

    /** `AuthorizedKeys`: the enabled keys of active users. */
    method AuthorizedKeys() returns (r: Result<seq<SshKey>>)
      ensures r.Ok? ==> ListsAuthorized(db.rights, r.value)
      ensures r.Err? ==> r.error == Database && !reliable
    {
      var _ :- Execute();
      var keys := Select(set id | id in db.rights.keys && Authorized(db.rights, id));
      forall i | 0 <= i < |keys| ensures Authorized(db.rights, keys[i].id) && keys[i] == RecordOf(db.rights, keys[i].id) {
        assert keys[i] in keys;
      }
      return Ok(keys);
    }

    /** `DeleteKey`, the plain row deletion that undoes an insertion: no generation, no outbox. */
    method PlainDeleteKey(id: int) returns (r: Result<()>)
      requires Valid()
      modifies this
      ensures Valid()
      ensures r.Ok? ==> id in old(db).rights.keys
                        && db == old(db).(rights := old(db).rights.(keys := old(db).rights.keys - {id}))
      ensures r.Err? ==> db == old(db) && (id !in db.rights.keys || !reliable)
    {
      var _ :- Execute();
      if id !in db.rights.keys {
        return Err(NoRows);
      }
      KeyRowStaysSound(db, db.rights.keys - {id});
      db := db.(rights := db.rights.(keys := db.rights.keys - {id}));
      return Ok(());
    }

    /** `SetKeyEnabled`, the plain update, here to switch a key off: no generation, no outbox. */
    method PlainDisableKey(id: int) returns (r: Result<()>)
      requires Valid()
      modifies this
      ensures Valid()
      ensures r.Ok? ==> id in old(db).rights.keys
                        && db == old(db).(rights := old(db).rights.(keys :=
                             old(db).rights.keys[id := old(db).rights.keys[id].(enabled := false)]))
      ensures r.Err? ==> db == old(db) && (id !in db.rights.keys || !reliable)
    {
      var _ :- Execute();
      if id !in db.rights.keys {
        return Err(NoRows);
      }
      KeyRowStaysSound(db, db.rights.keys[id := db.rights.keys[id].(enabled := false)]);
      db := db.(rights := db.rights.(keys := db.rights.keys[id := db.rights.keys[id].(enabled := false)]));
      return Ok(());
    }

    /** What every rights transaction promises: it is the mutation, or nothing happened. */
    twostate predicate Performs(m: Mutation, error: Option<Error>)
      reads this
    {
      && (error.Some? ==> db == old(db)) && (error == Some(Database) ==> !reliable)
      && (error != Some(Database) ==>
            && db == After(old(db), m)
            && error == (match Apply(old(db), m) case Ok(_) => None case Err(e) => Some(e)))
    }

    static function ErrorOf<T>(r: Result<T>): Option<Error> {
      match r case Ok(_) => None case Err(e) => Some(e)
    }

    /** The statements of `InsertKeyAtomic`. */
    method InsertKeyStatements(user: int, fingerprint: string, publicKey: string) returns (r: Result<Db>)
      ensures r == Apply(db, InsertKey(user, fingerprint, publicKey)) || (r == Err(Database) && !reliable)
    {
      InsertKeyOutcome(db, user, fingerprint, publicKey);
      var tx := db;
      var _ :- Execute();
      if !UserActive(tx.rights, user) {
        return Err(NoRows);
      }
      if FingerprintTaken(tx.rights, fingerprint) {
        return Err(Constraint);
      }
      var id := tx.rights.nextKey;
      tx := tx.(rights := tx.rights.(keys := tx.rights.keys[id := Key(user, fingerprint, publicKey, true)], nextKey := id + 1));
      var _ :- Execute(); // audit
      var _ :- Execute();
      tx := tx.(outbox := Enqueue(tx.outbox, KeyAdded(id), WriteKey(id, 0)));
      var _ :- Execute(); // commit
      return Ok(tx);
    }

    method InsertKeyAtomic(user: int, fingerprint: string, publicKey: string) returns (r: Result<int>)
      requires Valid()
      modifies this
      ensures Valid() && Performs(InsertKey(user, fingerprint, publicKey), ErrorOf(r))
      ensures r.Ok? ==> r.value == old(db).rights.nextKey
    {
      SoundKept(db, InsertKey(user, fingerprint, publicKey));
      var id := db.rights.nextKey;
      var tx :- InsertKeyStatements(user, fingerprint, publicKey);
      db := tx;
      return Ok(id);
    }

    /** The statements of `SetKeyEnabledAtomic`. */
    method SetKeyEnabledStatements(id: int, enabled: bool) returns (r: Result<Db>)
      ensures r == Apply(db, SetKeyEnabled(id, enabled)) || (r == Err(Database) && !reliable)
    {
      SetKeyEnabledOutcome(db, id, enabled);
      var tx := db;
      var _ :- Execute();
      if id !in tx.rights.keys || !UserActive(tx.rights, tx.rights.keys[id].user) {
        return Err(NoRows);
      }
      if tx.rights.keys[id].enabled == enabled {
        var _ :- Execute(); // commit
        return Ok(tx);
      }
      var _ :- Execute();
      tx := tx.(generation := tx.generation + 1);
      var g := tx.generation;
      var _ :- Execute();
      tx := tx.(rights := tx.rights.(keys := tx.rights.keys[id := tx.rights.keys[id].(enabled := enabled)]));
      var _ :- Execute(); // audit
      var _ :- Execute();
      tx := if enabled
            then tx.(outbox := Enqueue(tx.outbox, AtGeneration(g, Enabled, OfKey(id)), WriteKey(id, g)))
            else tx.(outbox := Enqueue(tx.outbox, AtGeneration(g, Disabled, OfKey(id)), RemoveKey(id, 0, g)));
      if !enabled {
        var _ :- Execute();
        tx := tx.(index := tx.index.(tunnels := Mark(tx.index.tunnels, DisconnectKey(id, g))));
        var _ :- Execute();
        tx := tx.(outbox := Enqueue(tx.outbox, AtGeneration(g, Cut, OfKey(id)), DisconnectKey(id, g)));
      }
      var _ :- Execute(); // commit
      return Ok(tx);
    }

    method SetKeyEnabledAtomic(id: int, enabled: bool) returns (r: Result<()>)
      requires Valid()
      modifies this
      ensures Valid() && Performs(SetKeyEnabled(id, enabled), ErrorOf(r))
    {
      SoundKept(db, SetKeyEnabled(id, enabled));
      var tx :- SetKeyEnabledStatements(id, enabled);
      db := tx;
      return Ok(());
    }

    /** The statements of `DeleteKeyAtomic`. */
    method DeleteKeyStatements(id: int, owner: int) returns (r: Result<Db>)
      ensures r == Apply(db, DeleteKey(id, owner)) || (r == Err(Database) && !reliable)
    {
      var tx := db;
      var _ :- Execute();
      tx := tx.(generation := tx.generation + 1);
      var g := tx.generation;
      var _ :- Execute();
      tx := tx.(outbox := Enqueue(tx.outbox, AtGeneration(g, Removed, OfKey(id)), RemoveKey(id, owner, g)));
      var _ :- Execute();
      tx := tx.(outbox := Enqueue(tx.outbox, AtGeneration(g, Cut, OfKey(id)), DisconnectKey(id, g)));
      var _ :- Execute();
      tx := tx.(index := tx.index.(tunnels := Mark(tx.index.tunnels, DisconnectKey(id, g))));
      var _ :- Execute(); // audit
      var _ :- Execute();
      if id !in tx.rights.keys {
        return Err(NoRows);
      }
      tx := tx.(rights := tx.rights.(keys := tx.rights.keys - {id}));
      var _ :- Execute(); // commit
      ghost var p := PlanOf(db.rights, g, DeleteKey(id, owner)).value;
      EnqueueFew(db.outbox, p.notes);
      assert tx == Perform(db, p);
      return Ok(tx);
    }

    method DeleteKeyAtomic(id: int, owner: int) returns (r: Result<()>)
      requires Valid()
      modifies this
      ensures old(Allowed(db.rights, DeleteKey(id, owner))) ==> Valid()
      ensures Performs(DeleteKey(id, owner), ErrorOf(r))
    {
      if Allowed(db.rights, DeleteKey(id, owner)) {
        SoundKept(db, DeleteKey(id, owner));
      }
      var tx :- DeleteKeyStatements(id, owner);
      db := tx;
      return Ok(());
    }

    /** The statements of `InsertSubdomainAtomic`. */
    method InsertSubdomainStatements(user: int, name: string) returns (r: Result<Db>)
      ensures r == Apply(db, InsertSubdomain(user, name)) || (r == Err(Database) && !reliable)
    {
      InsertSubdomainOutcome(db, user, name);
      var tx := db;
      var _ :- Execute();
      if !UserActive(tx.rights, user) {
        return Err(NoRows);
      }
      if NameTaken(tx.rights, name) {
        return Err(Constraint);
      }
      var id := tx.rights.nextSubdomain;
      tx := tx.(rights := tx.rights.(subdomains := tx.rights.subdomains[id := Subdomain(user, name)],
                                     nextSubdomain := id + 1));
      var _ :- Execute(); // audit
      var _ :- Execute(); // commit
      return Ok(tx);
    }

    method InsertSubdomainAtomic(user: int, name: string) returns (r: Result<int>)
      requires Valid()
      modifies this
      ensures old(Allowed(db.rights, InsertSubdomain(user, name))) ==> Valid()
      ensures Performs(InsertSubdomain(user, name), ErrorOf(r))
      ensures r.Ok? ==> r.value == old(db).rights.nextSubdomain
    {
      if Allowed(db.rights, InsertSubdomain(user, name)) {
        SoundKept(db, InsertSubdomain(user, name));
      }
      var id := db.rights.nextSubdomain;
      var tx :- InsertSubdomainStatements(user, name);
      db := tx;
      return Ok(id);
    }

    /** The statements of `DeleteSubdomainAtomic`. */
    method DeleteSubdomainStatements(id: int, name: string) returns (r: Result<Db>)
      ensures r == Apply(db, DeleteSubdomain(id, name)) || (r == Err(Database) && !reliable)
    {
      var tx := db;
      var _ :- Execute();
      tx := tx.(generation := tx.generation + 1);
      var g := tx.generation;
      var _ :- Execute();
      tx := tx.(index := tx.index.(tunnels := Mark(tx.index.tunnels, DisconnectHost(name, g))));
      var _ :- Execute();
      tx := tx.(outbox := Enqueue(tx.outbox, AtGeneration(g, Cut, OfHost(name)), DisconnectHost(name, g)));
      var _ :- Execute(); // audit
      var _ :- Execute();
      if id !in tx.rights.subdomains {
        return Err(NoRows);
      }
      tx := tx.(rights := tx.rights.(subdomains := tx.rights.subdomains - {id}));
      var _ :- Execute(); // commit
      ghost var p := PlanOf(db.rights, g, DeleteSubdomain(id, name)).value;
      EnqueueFew(db.outbox, p.notes);
      assert tx == Perform(db, p);
      return Ok(tx);
    }

    method DeleteSubdomainAtomic(id: int, name: string) returns (r: Result<()>)
      requires Valid()
      modifies this
      ensures old(Allowed(db.rights, DeleteSubdomain(id, name))) ==> Valid()
      ensures Performs(DeleteSubdomain(id, name), ErrorOf(r))
    {
      if Allowed(db.rights, DeleteSubdomain(id, name)) {
        SoundKept(db, DeleteSubdomain(id, name));
      }
      var tx :- DeleteSubdomainStatements(id, name);
      db := tx;
      return Ok(());
    }

    /** The statements of `InsertTCPPortAtomic`. */
    method InsertTCPPortStatements(user: int, port: int) returns (r: Result<Db>)
      ensures r == Apply(db, InsertPort(user, port)) || (r == Err(Database) && !reliable)
    {
      InsertPortOutcome(db, user, port);
      var tx := db;
      var _ :- Execute();
      if !UserActive(tx.rights, user) {
        return Err(NoRows);
      }
      if Reserved(tx.rights, port) || !InPublicRange(port) {
        return Err(Constraint);
      }
      var id := tx.rights.nextPort;
      tx := tx.(rights := tx.rights.(ports := tx.rights.ports[id := Port(user, port)], nextPort := id + 1));
      var _ :- Execute();
      tx := tx.(generation := tx.generation + 1);
      var _ :- Execute(); // audit
      var _ :- Execute(); // commit
      return Ok(tx);
    }

    method InsertTCPPortAtomic(user: int, port: int) returns (r: Result<int>)
      requires Valid()
      modifies this
      ensures Valid() && Performs(InsertPort(user, port), ErrorOf(r))
      ensures r.Ok? ==> r.value == old(db).rights.nextPort
    {
      SoundKept(db, InsertPort(user, port));
      var id := db.rights.nextPort;
      var tx :- InsertTCPPortStatements(user, port);
      db := tx;
      return Ok(id);
    }

    /** The statements of `DeleteTCPPortAtomic`. */
    method DeleteTCPPortStatements(id: int, port: int) returns (r: Result<Db>)
      ensures r == Apply(db, DeletePort(id, port)) || (r == Err(Database) && !reliable)
    {
      var tx := db;
      var _ :- Execute();
      tx := tx.(generation := tx.generation + 1);
      var g := tx.generation;
      var _ :- Execute();
      tx := tx.(index := tx.index.(tunnels := Mark(tx.index.tunnels, DisconnectPort(port, g))));
      var _ :- Execute();
      tx := tx.(outbox := Enqueue(tx.outbox, AtGeneration(g, Cut, OfPort(port)), DisconnectPort(port, g)));
      var _ :- Execute(); // audit
      var _ :- Execute();
      if id !in tx.rights.ports || tx.rights.ports[id].port != port {
        return Err(NoRows);
      }
      tx := tx.(rights := tx.rights.(ports := tx.rights.ports - {id}));
      var _ :- Execute(); // commit
      ghost var p := PlanOf(db.rights, g, DeletePort(id, port)).value;
      EnqueueFew(db.outbox, p.notes);
      assert tx == Perform(db, p);
      return Ok(tx);
    }

    method DeleteTCPPortAtomic(id: int, port: int) returns (r: Result<()>)
      requires Valid()
      modifies this
      ensures Valid() && Performs(DeletePort(id, port), ErrorOf(r))
    {
      SoundKept(db, DeletePort(id, port));
      var tx :- DeleteTCPPortStatements(id, port);
      db := tx;
      return Ok(());
    }

    /** The statements of `SetUserStatusAtomic`. */
    method SetUserStatusStatements(id: int, active: bool) returns (r: Result<Db>)
      ensures r == Apply(db, SetUserStatus(id, active)) || (r == Err(Database) && !reliable)
    {
      SetUserStatusOutcome(db, id, active);
      var tx := db;
      var _ :- Execute();
      if id !in tx.rights.users {
        return Err(NoRows);
      }
      if tx.rights.users[id].active == active {
        var _ :- Execute(); // commit
        return Ok(tx);
      }
      var _ :- Execute();
      tx := tx.(generation := tx.generation + 1);
      var g := tx.generation;
      var _ :- Execute();
      tx := tx.(rights := tx.rights.(users := tx.rights.users[id := tx.rights.users[id].(active := active)]));
      if !active {
        var _ :- Execute(); // sessions
        var _ :- Execute();
        tx := tx.(index := tx.index.(tunnels := Mark(tx.index.tunnels, DisconnectUser(id, g))));
        var _ :- Execute();
        tx := tx.(outbox := Enqueue(tx.outbox, AtGeneration(g, Cut, OfUser(id)), DisconnectUser(id, g)));
      }
      var _ :- Execute();
      tx := tx.(outbox := Enqueue(tx.outbox, AtGeneration(g, Reconciled, OfUser(id)), ReconcileKeys(g)));
      var _ :- Execute(); // audit
      var _ :- Execute(); // commit
      return Ok(tx);
    }

    method SetUserStatusAtomic(id: int, active: bool) returns (r: Result<()>)
      requires Valid()
      modifies this
      ensures Valid() && Performs(SetUserStatus(id, active), ErrorOf(r))
    {
      SoundKept(db, SetUserStatus(id, active));
      var tx :- SetUserStatusStatements(id, active);
      db := tx;
      return Ok(());
    }

    /** `AuthorizeBind`: accepts exactly the claims the database authorizes for the fingerprint,
        and returns the current generation with the principal. */
    method AuthorizeBind(fingerprint: string, name: string, protocol: Protocol, port: int)
      returns (r: Result<Authorization>)
      requires Valid()
      ensures r.Ok? ==>
        && Authorizes(db.rights, fingerprint, Claim(r.value.user, r.value.key, protocol, name, port))
        && r.value.generation == db.generation
      ensures r == Err(NoRows) ==>
        forall user, key :: !Authorizes(db.rights, fingerprint, Claim(user, key, protocol, name, port))
      ensures r.Err? ==> r.error == NoRows || (r.error == Database && !reliable)
    {
      var rights := db.rights;
      var _ :- Execute();
      var found := set k | k in rights.keys && rights.keys[k].fingerprint == fingerprint
                           && KeyLive(rights, k, rights.keys[k].user);
      assert forall k :: KeyFor(rights, fingerprint, k) <==> k in found;
      if found == {} {
        if !protocol.Named() {
          return Err(NoRows);
        }
        var _ :- Execute();
        if name in rights.systemNames {
          var system := rights.systemNames[name];
          if rights.systemKeys[system].fingerprint == fingerprint && rights.systemKeys[system].enabled {
            var _ :- Execute(); // generation
            return Ok(Authorization(0, -system, db.generation));
          }
        }
        return Err(NoRows);
      }
      var key :| key in found;
      assert forall k :: k in found ==> k == key;
      var user := rights.keys[key].user;
      var _ :- Execute();
      if protocol.Named() {
        NameCountIsOwnership(rights, user, name);
        if NameCount(rights, user, name) != 1 {
          return Err(NoRows);
        }
      } else if protocol.Tcp? && port >= PORT_MIN && port <= PORT_MAX {
        PortCountIsOwnership(rights, user, port);
        if PortCount(rights, user, port) != 1 {
          return Err(NoRows);
        }
      } else {
        return Err(NoRows);
      }
      var _ :- Execute(); // generation
      return Ok(Authorization(user, key, db.generation));
    }

    /** The rows of the join that backs a tunnel; a protocol or port outside the joins has none. */
    method CountRights(c: Claim) returns (r: Result<nat>)
      requires Valid()
      ensures r.Err? ==> r.error == Database && !reliable
      ensures r.Ok? ==> (r.value == 1 <==> Entitled(db.rights, c))
    {
      var _ :- Execute();
      if c.protocol.Named() {
        if c.user == 0 && c.key < 0 {
          return Ok(SystemJoin(db.rights, c));
        }
        NameCountIsOwnership(db.rights, c.user, c.name);
        return Ok(NameJoin(db.rights, c));
      }
      if c.protocol.Tcp? && c.port >= PORT_MIN && c.port <= PORT_MAX {
        PortCountIsOwnership(db.rights, c.user, c.port);
        return Ok(PortJoin(db.rights, c));
      }
      return Ok(0);
    }

    /** The same for a listed tunnel, whose host has to begin with a label. */
    method CountListed(t: Tunnel) returns (r: Result<nat>)
      requires Valid()
      ensures r.Err? ==> r.error == Database && !reliable
      ensures r.Ok? ==> (r.value == 1 <==> ListedEntitled(db.rights, t))
    {
      var name := "";
      if t.protocol.Named() {
        var dot := FirstDot(t.host);
        if !(0 < dot < |t.host|) {
          NoLabelNoName(db.rights, t);
          return Ok(0);
        }
        name := t.host[..dot];
      }
      r := CountRights(TunnelClaim(t, name));
    }

    /** `ApplyTunnelConnect`. */
    method ApplyTunnelConnect(t: Tunnel, name: string, source: string, event: string) returns (r: Result<()>)
      requires Valid()
      modifies this
      ensures Valid()
      ensures r == Err(Database) ==> db == old(db) && !reliable
      ensures r != Err(Database) ==>
        && db == OrElse(Connect(old(db), t, name, source, event), old(db))
        && ErrorOf(r) == ErrorOf(Connect(old(db), t, name, source, event))
    {
      var x := db.index;
      var _ :- Execute();
      if t.generation != db.generation {
        return Err(StaleGeneration);
      }
      var c := TunnelClaim(t, name);
      var valid :- CountRights(c);
      if valid != 1 {
        return Err(NoRows);
      }
      var _ :- Execute();
      if SourceError(x, source).Some? {
        return Err(SourceError(x, source).value);
      }
      var _ :- Execute();
      if event in x.events {
        return Ok(());
      }
      if SequenceUsed(x, source, t.sequence) {
        return Err(Constraint);
      }
      x := x.(events := x.events[event := EventKey(source, t.sequence)]);
      var _ :- Execute();
      if t.id in x.cursors && !(source != x.cursors[t.id].source || t.sequence > x.cursors[t.id].sequence) {
        var _ :- Execute(); // commit
        db := db.(index := x);
        return Ok(());
      }
      x := x.(cursors := x.cursors[t.id := Cursor(source, t.sequence, false)]);
      var _ :- Execute();
      if t.id !in x.tunnels || t.sequence > x.tunnels[t.id].sequence {
        x := x.(tunnels := x.tunnels[t.id := Row(t.user, t.key, t.protocol, t.host, t.port, t.generation,
                                                 t.sequence, Active)]);
      }
      var _ :- Execute();
      if t.sequence > x.lastSequence {
        x := x.(lastSequence := t.sequence);
      }
      var _ :- Execute(); // commit
      db := db.(index := x);
      return Ok(());
    }

    /** `ApplyTunnelDisconnect`. */
    method ApplyTunnelDisconnect(id: string, source: string, event: string, sequence: int) returns (r: Result<()>)
      requires Valid()
      modifies this
      ensures Valid()
      ensures r == Err(Database) ==> db == old(db) && !reliable
      ensures r != Err(Database) ==>
        var result := DisconnectIndex(old(db).index, id, source, event, sequence);
        && db == old(db).(index := OrElse(result, old(db).index))
        && ErrorOf(r) == ErrorOf(result)
    {
      var x := db.index;
      var _ :- Execute();
      if SourceError(x, source).Some? {
        return Err(SourceError(x, source).value);
      }
      var _ :- Execute();
      if event in x.events {
        return Ok(());
      }
      if SequenceUsed(x, source, sequence) {
        return Err(Constraint);
      }
      x := x.(events := x.events[event := EventKey(source, sequence)]);
      var _ :- Execute();
      if id in x.cursors && !(source != x.cursors[id].source || sequence > x.cursors[id].sequence) {
        var _ :- Execute(); // commit
        db := db.(index := x);
        return Ok(());
      }
      x := x.(cursors := x.cursors[id := Cursor(source, sequence, true)]);
      var _ :- Execute();
      if id in x.tunnels && x.tunnels[id].sequence < sequence {
        x := x.(tunnels := x.tunnels[id := x.tunnels[id].(status := Disconnected, sequence := sequence)]);
      }
      var _ :- Execute();
      if sequence > x.lastSequence {
        x := x.(lastSequence := sequence);
      }
      var _ :- Execute(); // commit
      db := db.(index := x);
      return Ok(());
    }

    /** One listed tunnel of a snapshot. */
    method RestoreListed(before: Index, s: Snapshot, t: Tunnel) returns (r: Result<Index>)
      requires Valid()
      ensures r.Err? ==> r.error == Database && !reliable
      ensures r.Ok? ==> r.value == Restore(db.rights, before, s, t)
    {
      var x := before;
      var valid :- CountListed(t);
      if valid != 1 {
        return Ok(x);
      }
      var _ :- Execute();
      x := x.(cursors := x.cursors[t.id := Cursor(s.source, s.sequence, false)]);
      var _ :- Execute();
      x := x.(tunnels := UpsertListed(x.tunnels, t, s.sequence));
      return Ok(x);
    }

    /** What `ReconcileActiveSnapshot` does before its loop: the checks, and closing what the snapshot
        has seen. */
    method PrepareSnapshot(s: Snapshot) returns (r: Result<Index>)
      ensures || r == (if SnapshotError(db.index, s).Some? then Err(SnapshotError(db.index, s).value)
                       else Ok(Prepared(db.index, s)))
              || (r == Err(Database) && !reliable)
    {
      var x := db.index;
      var _ :- Execute();
      if s.source == "" {
        return Err(MissingSource);
      }
      if s.source == x.source && s.sequence < x.lastSequence {
        return Err(StaleSnapshot);
      }
      if s.source != x.source {
        var _ :- Execute();
        if s.source in x.retired {
          return Err(RetiredSource);
        }
        var _ :- Execute();
        x := Adopt(x);
      }
      var _ :- Execute();
      return Ok(Sweep(x, s));
    }

    /** Its loop over the listed tunnels. */
    method RestoreAll(prepared: Index, s: Snapshot) returns (r: Result<Index>)
      requires Valid()
      ensures r == Ok(RestoreFirst(db.rights, prepared, s, |s.tunnels|)) || (r == Err(Database) && !reliable)
    {
      var x := prepared;
      var i := 0;
      while i < |s.tunnels|
        invariant 0 <= i <= |s.tunnels|
        invariant x == RestoreFirst(db.rights, prepared, s, i)
      {
        RestoreNext(db.rights, prepared, s, i);
        x :- RestoreListed(x, s, s.tunnels[i]);
        i := i + 1;
      }
      return Ok(x);
    }

    /** The statements of `ReconcileActiveSnapshot`. */
    method SnapshotStatements(s: Snapshot) returns (r: Result<Index>)
      requires Valid()
      ensures r == ReconcileIndex(db.rights, db.index, s) || (r == Err(Database) && !reliable)
    {
      var x :- PrepareSnapshot(s);
      x :- RestoreAll(x, s);
      var _ :- Execute();
      return Ok(x.(source := s.source, lastSequence := s.sequence, synced := true));
    }

    /** `ReconcileActiveSnapshot`. */
    method ReconcileActiveSnapshot(s: Snapshot) returns (r: Result<()>)
      requires Valid()
      modifies this
      ensures Valid()
      ensures r == Err(Database) ==> db == old(db) && !reliable
      ensures r != Err(Database) ==>
        var result := ReconcileIndex(old(db).rights, old(db).index, s);
        && db == old(db).(index := OrElse(result, old(db).index))
        && ErrorOf(r) == ErrorOf(result)
    {
      var x :- SnapshotStatements(s);
      var _ :- Execute(); // commit
      db := db.(index := x);
      return Ok(());
    }

    /** `MarkTunnelSyncUnavailable`. */
    method MarkTunnelSyncUnavailable() returns (r: Result<()>)
      requires Valid()
      modifies this
      ensures Valid()
      ensures db == if r.Ok? then old(db).(index := MarkStale(old(db).index)) else old(db)
      ensures r.Ok? || (r == Err(Database) && !reliable)
      ensures r.Ok? ==> !db.index.synced && forall id :: id in db.index.tunnels ==> db.index.tunnels[id].status != Active
    {
      var _ :- Execute();
      var _ :- Execute();
      db := db.(index := MarkStale(db.index));
      return Ok(());
    }

    /** `PendingOutbox`: the due items in id order, up to a limit. */
    method PendingOutbox(now: int, limit: nat) returns (r: Result<seq<nat>>)
      ensures r.Ok? ==> r.value == First(DueFrom(db.outbox, now, 0), limit) && Outstanding(db.outbox, r.value)
      ensures r.Ok? ==>
        && |r.value| <= limit
        && (forall i :: i in r.value ==> i < |db.outbox| && !db.outbox[i].completed && db.outbox[i].available <= now)
        && (forall i, j :: 0 <= i < j < |r.value| ==> r.value[i] < r.value[j])
        && (forall i :: 0 <= i < |db.outbox| && !db.outbox[i].completed && db.outbox[i].available <= now ==>
              i in r.value || (|r.value| == limit && forall j :: j in r.value ==> j < i))
      ensures r.Err? ==> r.error == Database && !reliable
    {
      var _ :- Execute();
      var ids: seq<nat> := [];
      var i := |db.outbox|;
      while i > 0
        invariant 0 <= i <= |db.outbox|
        invariant ids == DueFrom(db.outbox, now, i)
      {
        i := i - 1;
        if !db.outbox[i].completed && db.outbox[i].available <= now {
          ids := [i] + ids;
        }
      }
      DueIds(db.outbox, now, 0);
      assert forall a :: 0 <= a < |ids| ==> ids[a] in ids;
      FirstAreLeast(ids, limit);
      if |ids| > limit {
        ids := ids[..limit];
      }
      return Ok(ids);
    }

    /** `CompleteOutbox`: an item is completed once; a second completion finds no row. */
    method CompleteOutbox(id: nat) returns (r: Result<()>)
      requires Valid()
      modifies this
      ensures Valid()
      ensures r.Ok? ==> id < |old(db).outbox| && !old(db).outbox[id].completed
                        && db == old(db).(outbox := old(db).outbox[id := old(db).outbox[id].(completed := true)])
      ensures r.Err? ==> db == old(db)
      ensures r.Err? ==> (r.error == Database && !reliable)
                         || (r.error == NoRows && (id >= |old(db).outbox| || old(db).outbox[id].completed))
    {
      var _ :- Execute();
      if id >= |db.outbox| || db.outbox[id].completed {
        return Err(NoRows);
      }
      ghost var before := db;
      db := db.(outbox := db.outbox[id := db.outbox[id].(completed := true)]);
      ItemsStaySound(before, db);
      return Ok(());
    }

    /** `RetryOutbox`: the item stays, to be tried again after a delay. */
    method RetryOutbox(id: nat, attempts: nat, now: int) returns (r: Result<()>)
      requires Valid()
      modifies this
      ensures Valid()
      ensures r.Err? ==> db == old(db) && !reliable
      ensures r.Ok? && id < |old(db).outbox| && !old(db).outbox[id].completed ==>
        db == old(db).(outbox := old(db).outbox[id :=
                old(db).outbox[id].(attempts := attempts, available := now + Backoff(attempts))])
      ensures id >= |old(db).outbox| || old(db).outbox[id].completed ==> db == old(db)
    {
      var _ :- Execute();
      if id < |db.outbox| && !db.outbox[id].completed {
        ghost var before := db;
        db := db.(outbox := db.outbox[id :=
                db.outbox[id].(attempts := attempts, available := now + Backoff(attempts))]);
        ItemsStaySound(before, db);
      }
      return Ok(());
    }
  }

  /** Keeps the index in step with sish; what it fetched is an argument. */
  class TunnelSynchronizer {
    const store: Store

    constructor (store: Store)
      ensures this.store == store
    {
      this.store := store;
    }

    /** `once`: a snapshot that cannot be fetched or reconciled makes the index stale, if the store
        can still say so. */
    method Once(fetched: Option<Snapshot>) returns (accepted: bool)
      requires store.Valid()
      modifies store
      ensures store.Valid()
      ensures accepted ==>
        && fetched.Some? && SnapshotError(old(store.db).index, fetched.value).None?
        && store.db == old(store.db).(index :=
             OrElse(ReconcileIndex(old(store.db).rights, old(store.db).index, fetched.value), old(store.db).index))
      ensures !accepted ==>
        || store.db == old(store.db).(index := MarkStale(old(store.db).index))
        || (store.db == old(store.db) && !store.reliable)
      ensures fetched.None? || SnapshotError(old(store.db).index, fetched.value).Some? ==> !accepted
      ensures fetched.Some? && SnapshotError(old(store.db).index, fetched.value).None? && store.reliable ==> accepted
    {
      if fetched.Some? {
        var r := store.ReconcileActiveSnapshot(fetched.value);
        if r.Ok? {
          return true;
        }
      }
      var _ := store.MarkTunnelSyncUnavailable();
      return false;
    }

    /** `SyncOnce`: only a failed fetch makes the index stale; a refused snapshot changes nothing. */
    method SyncOnce(fetched: Option<Snapshot>) returns (accepted: bool)
      requires store.Valid()
      modifies store
      ensures store.Valid()
      ensures fetched.None? ==>
        && !accepted
        && (|| store.db == old(store.db).(index := MarkStale(old(store.db).index))
            || (store.db == old(store.db) && !store.reliable))
      ensures fetched.Some? ==>
        store.db == if accepted
          then old(store.db).(index :=
                 OrElse(ReconcileIndex(old(store.db).rights, old(store.db).index, fetched.value), old(store.db).index))
          else old(store.db)
      ensures fetched.Some? && SnapshotError(old(store.db).index, fetched.value).Some? ==> !accepted
      ensures fetched.Some? && SnapshotError(old(store.db).index, fetched.value).None? && store.reliable ==> accepted
    {
      if fetched.None? {
        var _ := store.MarkTunnelSyncUnavailable();
        return false;
      }
      var r := store.ReconcileActiveSnapshot(fetched.value);
      return r.Ok?;
    }
  }

  // ------------------------------------------- the transactions, one by one, in full

  lemma InsertKeyOutcome(db: Db, user: int, fingerprint: string, publicKey: string)
    ensures var id := db.rights.nextKey;
      Apply(db, InsertKey(user, fingerprint, publicKey)) ==
      if !UserActive(db.rights, user) then Err(NoRows)
      else if FingerprintTaken(db.rights, fingerprint) then Err(Constraint)
      else Ok(db.(rights := db.rights.(keys := db.rights.keys[id := Key(user, fingerprint, publicKey, true)],
                                       nextKey := id + 1),
                  outbox := Enqueue(db.outbox, KeyAdded(id), WriteKey(id, 0))))
  {
    EnqueueFew(db.outbox, [Note(KeyAdded(db.rights.nextKey), WriteKey(db.rights.nextKey, 0))]);
  }

  /** The database after a change of a key's state. */
  function KeySwitched(db: Db, id: int, enabled: bool): Db
    requires id in db.rights.keys
  {
    var g := db.generation + 1;
    var outbox := if enabled then Enqueue(db.outbox, AtGeneration(g, Enabled, OfKey(id)), WriteKey(id, g))
                  else Enqueue(Enqueue(db.outbox, AtGeneration(g, Disabled, OfKey(id)), RemoveKey(id, 0, g)),
                               AtGeneration(g, Cut, OfKey(id)), DisconnectKey(id, g));
    Db(g, db.rights.(keys := db.rights.keys[id := db.rights.keys[id].(enabled := enabled)]),
       if enabled then db.index else db.index.(tunnels := Mark(db.index.tunnels, DisconnectKey(id, g))), outbox)
  }

  lemma SetKeyEnabledOutcome(db: Db, id: int, enabled: bool)
    ensures Apply(db, SetKeyEnabled(id, enabled)) ==
      if id !in db.rights.keys || !UserActive(db.rights, db.rights.keys[id].user) then Err(NoRows)
      else if db.rights.keys[id].enabled == enabled then Ok(db)
      else Ok(KeySwitched(db, id, enabled))
  {
    if PlanOf(db.rights, db.generation + 1, SetKeyEnabled(id, enabled)).Ok? {
      EnqueueFew(db.outbox, PlanOf(db.rights, db.generation + 1, SetKeyEnabled(id, enabled)).value.notes);
    }
  }

  /** The database after a change of a user's state. */
  function UserSwitched(db: Db, id: int, active: bool): Db
    requires id in db.rights.users
  {
    var g := db.generation + 1;
    var outbox := if active then db.outbox
                  else Enqueue(db.outbox, AtGeneration(g, Cut, OfUser(id)), DisconnectUser(id, g));
    Db(g, db.rights.(users := db.rights.users[id := db.rights.users[id].(active := active)]),
       if active then db.index else db.index.(tunnels := Mark(db.index.tunnels, DisconnectUser(id, g))),
       Enqueue(outbox, AtGeneration(g, Reconciled, OfUser(id)), ReconcileKeys(g)))
  }

  lemma SetUserStatusOutcome(db: Db, id: int, active: bool)
    ensures Apply(db, SetUserStatus(id, active)) ==
      if id !in db.rights.users then Err(NoRows)
      else if db.rights.users[id].active == active then Ok(db)
      else Ok(UserSwitched(db, id, active))
  {
    if PlanOf(db.rights, db.generation + 1, SetUserStatus(id, active)).Ok? {
      EnqueueFew(db.outbox, PlanOf(db.rights, db.generation + 1, SetUserStatus(id, active)).value.notes);
    }
  }

  lemma InsertSubdomainOutcome(db: Db, user: int, name: string)
    ensures var id := db.rights.nextSubdomain;
      Apply(db, InsertSubdomain(user, name)) ==
      if !UserActive(db.rights, user) then Err(NoRows)
      else if NameTaken(db.rights, name) then Err(Constraint)
      else Ok(db.(rights := db.rights.(subdomains := db.rights.subdomains[id := Subdomain(user, name)],
                                       nextSubdomain := id + 1)))
  {
  }

  lemma InsertPortOutcome(db: Db, user: int, port: int)
    ensures var id := db.rights.nextPort;
      Apply(db, InsertPort(user, port)) ==
      if !UserActive(db.rights, user) then Err(NoRows)
      else if Reserved(db.rights, port) || !InPublicRange(port) then Err(Constraint)
      else Ok(db.(generation := db.generation + 1,
                  rights := db.rights.(ports := db.rights.ports[id := Port(user, port)], nextPort := id + 1)))
  {
  }

  lemma EnqueueFew(outbox: seq<Item>, notes: seq<Note>)
    requires |notes| <= 2
    ensures |notes| == 0 ==> EnqueueAll(outbox, notes) == outbox
    ensures |notes| == 1 ==> EnqueueAll(outbox, notes) == Enqueue(outbox, notes[0].dedupe, notes[0].effect)
    ensures |notes| == 2 ==>
      EnqueueAll(outbox, notes)
        == Enqueue(Enqueue(outbox, notes[0].dedupe, notes[0].effect), notes[1].dedupe, notes[1].effect)
  {
    if |notes| == 2 {
      var once := Enqueue(outbox, notes[0].dedupe, notes[0].effect);
      assert EnqueueAll(once, notes[1..]) == EnqueueAll(Enqueue(once, notes[1].dedupe, notes[1].effect), notes[1..][1..]);
    }
  }

  /** Taking keys away, or switching them off, keeps the database sound. */
  lemma KeyRowStaysSound(db: Db, keys: map<int, Tables.Key>)
    requires Sound(db) && keys.Keys <= db.rights.keys.Keys
    requires forall k :: k in keys ==> keys[k] == db.rights.keys[k].(enabled := keys[k].enabled)
                                       && (keys[k].enabled ==> db.rights.keys[k].enabled)
    ensures Sound(db.(rights := db.rights.(keys := keys)))
  {
    var r := db.rights.(keys := keys);
    forall i | 0 <= i < |db.outbox| ensures ItemSound(r, db.generation, db.outbox[i]) {
      assert ItemSound(db.rights, db.generation, db.outbox[i]);
    }
  }

  lemma ItemsStaySound(before: Db, after: Db)
    requires Sound(before) && after.generation == before.generation && after.rights == before.rights
    requires |after.outbox| == |before.outbox|
    requires forall i :: 0 <= i < |before.outbox| ==>
      after.outbox[i].effect == before.outbox[i].effect && after.outbox[i].dedupe == before.outbox[i].dedupe
    ensures Sound(after)
  {
    forall i | 0 <= i < |after.outbox| ensures ItemSound(after.rights, after.generation, after.outbox[i]) {
      assert ItemSound(before.rights, before.generation, before.outbox[i]);
    }
  }

  /** A host without a label in front of a dot holds no name: reserved names are never empty. */
  lemma NoLabelNoName(r: Rights, t: Tunnel)
    requires Schema(r) && t.protocol.Named() && FirstLabel(t.host).None?
    ensures !ListedEntitled(r, t)
  {
  }

  /** The retry delay never exceeds five minutes and never shrinks. */
  lemma {:induction false} BackoffGrows(a: nat, b: nat)
    requires a <= b
    ensures 1 <= Backoff(a) <= Backoff(b) <= 300
  {
    DoubleOfGrows(if a < 8 then a else 8, if b < 8 then b else 8);
  }

  /** It is a second before the first attempt, doubles with each of the first eight, and then stays. */
  lemma BackoffDoubles(n: nat)
    ensures Backoff(0) == 1
    ensures n < 8 ==> Backoff(n + 1) == 2 * Backoff(n)
    ensures n >= 8 ==> Backoff(n) == 256
  {
    DoubleOfGrows(n, if n < 8 then 8 else n);
    assert DoubleOf(8) == 256;
  }

  lemma {:induction false} DoubleOfGrows(a: nat, b: nat)
    requires a <= b
    ensures 1 <= DoubleOf(a) <= DoubleOf(b)
    decreases b
  {
    if a > 0 {
      DoubleOfGrows(a - 1, b - 1);
    } else if b > 0 {
      DoubleOfGrows(0, b - 1);
    }
  }
}
