/**
 The service: what it checks before a transaction, and in which order it changes the database and
 the key files.  The methods run one at a time, as they do under the service's key lock.
 */
module KeyService {
  import opened Hostnames
  import opened Tables
  import opened KeyFiles
  import opened Replay
  import opened Storage

  /** What sish and the database show at one moment. */
  datatype Moment = Moment(rights: Rights, files: map<string, string>)

  datatype ParsedKey = ParsedKey(publicKey: string, fingerprint: string)

  // ------------------------------------------------------------------- fail closed

  /** No file admits what the database does not: a managed file belongs to an authorized key. */
  ghost predicate FailsClosed(m: Moment) {
    forall u, k :: u > 0 && k > 0 && Filename(u, k) in m.files ==>
      Authorized(m.rights, k) && m.rights.keys[k].user == u
  }

  ghost predicate Submap(a: map<string, string>, b: map<string, string>) {
    forall name :: name in a ==> name in b && a[name] == b[name]
  }

  /** A revocation on its way: files have only been removed, no key has been authorized, and no
      key that lost its authorization still has its file. */
  ghost predicate Revoking(before: Moment, m: Moment) {
    && Submap(m.files, before.files)
    && (forall k :: Authorized(m.rights, k) ==>
          Authorized(before.rights, k) && m.rights.keys[k].user == before.rights.keys[k].user)
    && (forall k :: Authorized(before.rights, k) && !Authorized(m.rights, k) ==>
          NameOf(before.rights, k) !in m.files)
  }

  /** A revocation that stops anywhere leaves nothing open that was closed before. */
  lemma RevocationFailsClosed(before: Moment, m: Moment)
    requires Referenced(before.rights) && FailsClosed(before) && Revoking(before, m)
    ensures FailsClosed(m)
  {
    forall u, k | u > 0 && k > 0 && Filename(u, k) in m.files
      ensures Authorized(m.rights, k) && m.rights.keys[k].user == u
    {
      assert Authorized(before.rights, k) && NameOf(before.rights, k) == Filename(u, k);
    }
  }

  /** Removing files alone is on the way of a revocation. */
  lemma RemovalRevokes(r: Rights, before: map<string, string>, files: map<string, string>)
    requires Submap(files, before)
    ensures Revoking(Moment(r, before), Moment(r, files))
  {
  }

  /** The transaction of a disable, once the file is gone. */
  lemma DisableRevokes(db: Db, id: int, before: map<string, string>, files: map<string, string>)
    requires Submap(files, before) && (id in db.rights.keys ==> NameOf(db.rights, id) !in files)
    ensures Revoking(Moment(db.rights, before), Moment(After(db, Mutation.SetKeyEnabled(id, false)).rights, files))
  {
  }

  lemma DeleteRevokes(db: Db, id: int, owner: int, before: map<string, string>, files: map<string, string>)
    requires Submap(files, before) && (id in db.rights.keys ==> NameOf(db.rights, id) !in files)
    ensures Revoking(Moment(db.rights, before), Moment(After(db, Mutation.DeleteKey(id, owner)).rights, files))
  {
  }

  lemma SuspendRevokes(db: Db, user: int, before: map<string, string>, files: map<string, string>)
    requires Submap(files, before)
    requires forall k :: k in db.rights.keys && db.rights.keys[k].user == user ==> NameOf(db.rights, k) !in files
    ensures Revoking(Moment(db.rights, before), Moment(After(db, SetUserStatus(user, false)).rights, files))
  {
  }

  /** A reconciliation that stops anywhere keeps the directory closed. */
  lemma ReconciliationFailsClosed(r: Rights, before: map<string, string>, files: map<string, string>)
    requires Referenced(r) && FailsClosed(Moment(r, before)) && Between(before, files, Wanted(r))
    ensures FailsClosed(Moment(r, files))
  {
    forall u, k | u > 0 && k > 0 && Filename(u, k) in files ensures Authorized(r, k) && r.keys[k].user == u {
      BetweenMeans(before, files, Wanted(r), Filename(u, k));
      WantedIsDesired(r, u, k);
    }
  }

  /** A complete one closes it, whatever it held. */
  lemma CompleteReconciliationCloses(r: Rights, before: map<string, string>)
    requires Referenced(r)
    ensures FailsClosed(Moment(r, Reconciliation(before, Wanted(r))))
  {
    forall u, k | u > 0 && k > 0 && Filename(u, k) in Reconciliation(before, Wanted(r))
      ensures Authorized(r, k) && r.keys[k].user == u
    {
      ReconcileDecides(r, before, u, k);
    }
  }

  /** If at most the file of one key changes, the directory stays closed exactly if that file is
      absent or its key authorized. */
  lemma OneFileFailsClosedExactly(r: Rights, before: map<string, string>, files: map<string, string>, k: int)
    requires Referenced(r) && FailsClosed(Moment(r, before)) && k in r.keys
    requires forall name :: name != NameOf(r, k) ==> Lookup(files, name) == Lookup(before, name)
    ensures FailsClosed(Moment(r, files)) <==> (NameOf(r, k) in files ==> Authorized(r, k))
  {
    forall u, j | u > 0 && j > 0 && Filename(u, j) in files && (NameOf(r, k) in files ==> Authorized(r, k))
      ensures Authorized(r, j) && r.keys[j].user == u
    {
      if Filename(u, j) == NameOf(r, k) {
        FilenameInjective(u, j, r.keys[k].user, k);
      } else {
        assert Lookup(files, Filename(u, j)) == Lookup(before, Filename(u, j));
      }
    }
  }

  /** What an enable of a key may leave in the directory while the key is as it was: everything as
      before, the key's file gone, or the key's file written. */
  predicate EnableLeaves(r: Rights, k: int, before: map<string, string>, files: map<string, string>)
    requires k in r.keys
  {
    || files == before
    || files == before - {NameOf(r, k)}
    || files == before[NameOf(r, k) := Content(r.keys[k].publicKey)]
  }

  function SwitchedOn(r: Rights, k: int): Rights
    requires k in r.keys
  {
    r.(keys := r.keys[k := r.keys[k].(enabled := true)])
  }

  /** A moment on the way of an enable: the key is as it was, or it is on and its file written. */
  predicate Enabling(before: Moment, m: Moment, k: int)
    requires k in before.rights.keys
  {
    || (m.rights == before.rights && EnableLeaves(before.rights, k, before.files, m.files))
    || (m.rights == SwitchedOn(before.rights, k)
        && m.files == before.files[NameOf(before.rights, k) := Content(before.rights.keys[k].publicKey)])
  }

  /** An enable that fails leaves a closed directory closed, whichever way it fails, exactly if the key
      was authorized before. */
  lemma EnableFailsClosedExactly(r: Rights, before: map<string, string>, k: int)
    requires Referenced(r) && FailsClosed(Moment(r, before)) && k in r.keys
    ensures (forall files :: EnableLeaves(r, k, before, files) ==> FailsClosed(Moment(r, files))) <==> Authorized(r, k)
  {
    var written := before[NameOf(r, k) := Content(r.keys[k].publicKey)];
    assert EnableLeaves(r, k, before, written);
    OneFileFailsClosedExactly(r, before, written, k);
    forall files | EnableLeaves(r, k, before, files) && Authorized(r, k) ensures FailsClosed(Moment(r, files)) {
      OneFileFailsClosedExactly(r, before, files, k);
    }
  }

  /** The same for every moment of an enable, failed or not: for a key of an active user, the directory
      is closed all the way exactly if the key was on already. */
  lemma EnablingFailsClosedExactly(before: Moment, k: int)
    requires Referenced(before.rights) && FailsClosed(before) && k in before.rights.keys
    requires UserActive(before.rights, before.rights.keys[k].user)
    ensures (forall m :: Enabling(before, m, k) ==> FailsClosed(m)) <==> before.rights.keys[k].enabled
  {
    EnableFailsClosedExactly(before.rights, before.files, k);
    if before.rights.keys[k].enabled {
      assert SwitchedOn(before.rights, k) == before.rights;
      forall m | Enabling(before, m, k) ensures FailsClosed(m) {
        assert EnableLeaves(before.rights, k, before.files, m.files);
      }
    } else {
      var files :| EnableLeaves(before.rights, k, before.files, files) && !FailsClosed(Moment(before.rights, files));
      assert Enabling(before, Moment(before.rights, files), k);
    }
  }

  /** The failure that opens it, for every key that is off: the write reports an error after it has
      taken place. */
  lemma FailedEnableOpens(r: Rights, before: map<string, string>, k: int) returns (files: map<string, string>)
    requires Referenced(r) && k in r.keys && !r.keys[k].enabled
    ensures EnableLeaves(r, k, before, files) && files == before[NameOf(r, k) := Content(r.keys[k].publicKey)]
    ensures !FailsClosed(Moment(r, files))
  {
    files := before[NameOf(r, k) := Content(r.keys[k].publicKey)];
    assert Filename(r.keys[k].user, k) in files && !Authorized(r, k);
  }

  /** Delivering one outbox event keeps the directory closed, except a write for a key that exists
      and is not authorized: the worker does not look at that again. */
  lemma DeliveryFailsClosedExactly(r: Rights, files: map<string, string>, e: Effect)
    requires Referenced(r) && FailsClosed(Moment(r, files))
    ensures FailsClosed(Moment(r, Deliver(r, files, e)))
        <==> !(e.WriteKey? && e.key in r.keys && !Authorized(r, e.key))
  {
    match e
    case WriteKey(k, _) =>
      if k in r.keys {
        OneFileFailsClosedExactly(r, files, Deliver(r, files, e), k);
      }
    case ReconcileKeys(_) =>
      CompleteReconciliationCloses(r, files);
    case _ =>
      assert Submap(Deliver(r, files, e), files);
      RemovalFailsClosed(r, files, Deliver(r, files, e));
  }

  lemma RemovalFailsClosed(r: Rights, before: map<string, string>, files: map<string, string>)
    requires FailsClosed(Moment(r, before)) && Submap(files, before)
    ensures FailsClosed(Moment(r, files))
  {
  }

  /** In a settled log such a write always has a later event for its key behind it, which may have been
      completed before the write is tried again. */
  lemma LateWriteIsOvertaken(db: Db, i: nat)
    requires Settled(db.rights, db.outbox) && i < |db.outbox| && db.outbox[i].effect.WriteKey?
    requires var k := db.outbox[i].effect.key; k in db.rights.keys && !Authorized(db.rights, k)
    ensures Overtaken(db.outbox, i, db.outbox[i].effect.key)
  {
    assert SettledAt(db.rights, db.outbox, i);
  }

  /** What an insertion may change: the new key's row, and its file while it is authorized. */
  ghost predicate AddsOnly(before: Moment, after: Moment, user: int, id: int) {
    && after.rights.users == before.rights.users
    && (forall k :: k != id ==> (k in after.rights.keys <==> k in before.rights.keys))
    && (forall k :: k != id && k in before.rights.keys ==> after.rights.keys[k] == before.rights.keys[k])
    && (id in after.rights.keys ==> after.rights.keys[id].user == user)
    && (forall name :: name != Filename(user, id) ==> Lookup(after.files, name) == Lookup(before.files, name))
    && (Filename(user, id) in after.files ==> Filename(user, id) in before.files || Authorized(after.rights, id))
  }

  lemma AddingFailsClosed(before: Moment, after: Moment, user: int, id: int)
    requires FailsClosed(before) && user > 0 && id > 0 && id !in before.rights.keys
    requires AddsOnly(before, after, user, id)
    ensures FailsClosed(after)
  {
    forall u, k | u > 0 && k > 0 && Filename(u, k) in after.files
      ensures Authorized(after.rights, k) && after.rights.keys[k].user == u
    {
      if Filename(u, k) == Filename(user, id) {
        FilenameInjective(u, k, user, id);
        assert Filename(u, k) !in before.files;
      } else {
        assert Lookup(after.files, Filename(u, k)) == Lookup(before.files, Filename(u, k));
        assert Authorized(before.rights, k);
      }
    }
  }

  lemma InsertedAddsOnly(db: Db, user: int, key: ParsedKey, files: map<string, string>)
    requires Sound(db) && Apply(db, InsertKey(user, key.fingerprint, key.publicKey)).Ok?
    ensures var after := After(db, InsertKey(user, key.fingerprint, key.publicKey));
      && AddsOnly(Moment(db.rights, files), Moment(after.rights, files), user, db.rights.nextKey)
      && Authorized(after.rights, db.rights.nextKey)
      && RecordOf(after.rights, db.rights.nextKey) == SshKey(db.rights.nextKey, user, key.publicKey, true)
      && after.generation == db.generation && after.index == db.index
    ensures user > 0 && db.rights.nextKey > 0 && db.rights.nextKey !in db.rights.keys
  {
    InsertKeyOutcome(db, user, key.fingerprint, key.publicKey);
  }

  /** Once its file is gone the new row may be deleted or switched off. */
  lemma TakingBackAddsOnly(before: Moment, m: Moment, user: int, id: int)
    requires AddsOnly(before, m, user, id) && Filename(user, id) !in m.files && id in m.rights.keys
    ensures AddsOnly(before, m.(rights := m.rights.(keys := m.rights.keys - {id})), user, id)
    ensures AddsOnly(before, m.(rights := m.rights.(keys := m.rights.keys[id :=
                       m.rights.keys[id].(enabled := false)])), user, id)
  {
  }

  lemma StartsBetween(r: Rights, files: map<string, string>)
    requires Referenced(r)
    ensures Between(files, files, Wanted(r))
  {
    StageStart(files, Wanted(r));
    StageIsBetween(files, Wanted(r), {}, {});
  }

  function NamesOf(listed: seq<SshKey>): set<string> {
    set k | k in listed :: Filename(k.user, k.id)
  }

  /** The files of a user's keys. */
  function NamesOfUser(r: Rights, user: int): set<string> {
    set k | k in r.keys && r.keys[k].user == user :: NameOf(r, k)
  }

  /** At most these files are gone, and nothing else has changed. */
  ghost predicate LosesOnly(before: map<string, string>, files: map<string, string>, names: set<string>) {
    exists gone :: gone <= names && files == before - gone
  }

  lemma LosesNothing(files: map<string, string>, names: set<string>)
    ensures LosesOnly(files, files, names)
  {
    assert files - {} == files;
  }

  lemma OneNameMore(files: map<string, string>, listed: seq<SshKey>, i: nat)
    requires i < |listed|
    ensures files - NamesOf(listed[..i]) - {Filename(listed[i].user, listed[i].id)} == files - NamesOf(listed[..i + 1])
    ensures LosesOnly(files, files - NamesOf(listed[..i]), NamesOf(listed))
    ensures LosesOnly(files, files - NamesOf(listed[..i + 1]), NamesOf(listed))
  {
    assert listed[..i + 1] == listed[..i] + [listed[i]];
    assert NamesOf(listed[..i + 1]) == NamesOf(listed[..i]) + {Filename(listed[i].user, listed[i].id)};
    assert forall k :: k in listed[..i + 1] ==> k in listed;
    assert NamesOf(listed[..i + 1]) <= NamesOf(listed);
  }

  lemma ListedNames(r: Rights, user: int, listed: seq<SshKey>)
    requires forall k :: k in listed <==> k.id in r.keys && k == RecordOf(r, k.id) && k.user == user
    ensures NamesOf(listed) == NamesOfUser(r, user)
  {
    forall k | k in r.keys && r.keys[k].user == user ensures NameOf(r, k) in NamesOf(listed) {
      assert RecordOf(r, k) in listed;
    }
  }

  lemma WrittenIsTakenBack(files: map<string, string>, name: string, content: string)
    ensures files[name := content] - {name} == files - {name}
  {
  }

  lemma KeyHasIds(db: Db, id: int)
    requires Sound(db) && id in db.rights.keys
    ensures id > 0 && db.rights.keys[id].user > 0
  {
  }

  lemma EnableSwitchesOn(db: Db, id: int)
    requires id in db.rights.keys && UserActive(db.rights, db.rights.keys[id].user)
    ensures After(db, Mutation.SetKeyEnabled(id, true)).rights == SwitchedOn(db.rights, id)
  {
    if db.rights.keys[id].enabled {
      assert SwitchedOn(db.rights, id) == db.rights;
    }
  }

  lemma AuthorizedHaveIds(r: Rights, listed: seq<SshKey>)
    requires Referenced(r) && ListsAuthorized(r, listed)
    ensures forall k :: k in listed ==> k.id > 0 && k.user > 0
  {
    forall k | k in listed ensures k.id > 0 && k.user > 0 {
      var i :| 0 <= i < |listed| && listed[i] == k;
      assert Authorized(r, listed[i].id) && listed[i] == RecordOf(r, listed[i].id);
    }
  }

  class Service {
    const store: Store
    const keys: PublicKeyWriter
    const controlPlane: string
    ghost var trace: seq<Moment>

    constructor (store: Store, keys: PublicKeyWriter, controlPlane: string)
      ensures this.store == store && this.keys == keys && this.controlPlane == controlPlane && trace == []
    {
      this.store, this.keys, this.controlPlane, trace := store, keys, controlPlane, [];
    }

    ghost function Now(): Moment
      reads store, keys
    {
      Moment(store.db.rights, keys.files)
    }

    /** Since a former state the trace has only grown, by moments on the way of a revocation. */
    twostate predicate OnlyRevoked()
      reads this, store, keys
    {
      && old(trace) <= trace
      && (forall i :: |old(trace)| <= i < |trace| ==> Revoking(old(Now()), trace[i]))
      && Revoking(old(Now()), Now())
    }

    /** The same for operations that may also grant: every moment is closed. */
    twostate predicate StaysClosed()
      reads this
    {
      && old(trace) <= trace
      && (forall i :: |old(trace)| <= i < |trace| ==> FailsClosed(trace[i]))
    }

    /** An error that comes from the database or from the file system. */
    predicate Failed(error: Error) {
      (error == Database && !store.reliable) || (error == Files && !keys.reliable)
    }

    /** What can be seen between two steps. */
    ghost method Observe()
      modifies this`trace
      ensures trace == old(trace) + [Now()]
    {
      trace := trace + [Now()];
    }

    method EnsureActive(user: int) returns (r: Result<()>)
      ensures r.Ok? ==> UserActive(store.db.rights, user)
      ensures r.Err? ==>
        || (r.error == Database && !store.reliable)
        || (r.error == NoRows && user !in store.db.rights.users)
        || (r.error == Suspended && user in store.db.rights.users && !store.db.rights.users[user].active)
    {
      var u :- store.UserByID(user);
      if !u.active {
        return Err(Suspended);
      }
      return Ok(());
    }

    /** What every revocation of one key begins with: its file goes. */
    method TakeFile(k: SshKey) returns (removed: bool)
      modifies this`trace, keys
      ensures OnlyRevoked()
      ensures keys.files == old(keys.files) || keys.files == old(keys.files) - {Filename(k.user, k.id)}
      ensures removed ==> keys.files == old(keys.files) - {Filename(k.user, k.id)}
      ensures keys.reliable && k.user > 0 && k.id > 0 ==> removed
    {
      ghost var rights, files := store.db.rights, keys.files;
      removed := keys.Remove(k.user, k.id);
      RemovalRevokes(rights, files, keys.files);
      Observe();
    }

    /** The disabling half of `SetKeyEnabled`: the file goes first, then the database. */
    method Disable(k: SshKey) returns (r: Result<()>)
      requires store.Valid() && k.id in store.db.rights.keys && k == RecordOf(store.db.rights, k.id)
      modifies this, store, keys
      ensures store.Valid() && OnlyRevoked()
      ensures r.Err? ==> store.db == old(store.db)
      ensures keys.files == old(keys.files) - {NameOf(old(store.db).rights, k.id)}
              || (r.Err? && keys.files == old(keys.files))
      ensures r.Ok? ==> store.db == After(old(store.db), Mutation.SetKeyEnabled(k.id, false))
      ensures r.Err? ==> Failed(r.error) || !UserActive(store.db.rights, k.user)
    {
      ghost var db, files := store.db, keys.files;
      var removed := TakeFile(k);
      if !removed {
        return Err(Files);
      }
      DisableRevokes(db, k.id, files, keys.files);
      r := store.SetKeyEnabledAtomic(k.id, false);
      Observe();
    }

    /** Since a former state the trace has only grown, by moments on the way of an enable. */
    twostate predicate OnlyEnabling(id: int)
      requires id in old(store.db.rights.keys)
      reads this, store, keys
    {
      && old(trace) <= trace
      && (forall i :: |old(trace)| <= i < |trace| ==> Enabling(old(Now()), trace[i], id))
      && Enabling(old(Now()), Now(), id)
    }

    /** The enabling half: here the file comes first as well, so a failure may leave it behind. */
    method Enable(k: SshKey) returns (r: Result<()>)
      requires store.Valid() && k.id in store.db.rights.keys && k == RecordOf(store.db.rights, k.id)
      requires UserActive(store.db.rights, k.user)
      modifies this, store, keys
      ensures store.Valid() && OnlyEnabling(k.id) && |old(trace)| < |trace|
      ensures r.Err? ==>
        store.db == old(store.db) && EnableLeaves(store.db.rights, k.id, old(keys.files), keys.files)
      ensures r.Ok? ==>
        && store.db == After(old(store.db), Mutation.SetKeyEnabled(k.id, true))
        && keys.files == old(keys.files)[NameOf(old(store.db).rights, k.id) := Content(k.publicKey)]
      ensures r.Err? ==> Failed(r.error)
      ensures r.Err? && keys.reliable ==>
        keys.files == old(keys.files) - {NameOf(old(store.db).rights, k.id)}
    {
      ghost var before := Now();
      var written := keys.Write(k);
      Observe();
      if !written {
        return Err(Files);
      }
      r := SwitchOn(k, before);
    }

    /** The rest of an enable, with the file written: the transaction, and the file taken back if that
        fails. */
    method SwitchOn(k: SshKey, ghost before: Moment) returns (r: Result<()>)
      requires store.Valid() && k.id in store.db.rights.keys && k == RecordOf(store.db.rights, k.id)
      requires UserActive(store.db.rights, k.user) && before.rights == store.db.rights
      requires keys.files == before.files[NameOf(store.db.rights, k.id) := Content(k.publicKey)]
      modifies this, store, keys
      ensures store.Valid() && old(trace) <= trace && Enabling(before, Now(), k.id)
      ensures forall i :: |old(trace)| <= i < |trace| ==> Enabling(before, trace[i], k.id)
      ensures r.Err? ==> store.db == old(store.db) && Failed(r.error)
      ensures r.Ok? ==>
        store.db == After(old(store.db), Mutation.SetKeyEnabled(k.id, true)) && keys.files == old(keys.files)
      ensures r.Err? && keys.reliable ==> keys.files == before.files - {NameOf(store.db.rights, k.id)}
    {
      EnableSwitchesOn(store.db, k.id);
      r := store.SetKeyEnabledAtomic(k.id, true);
      Observe();
      if r.Err? {
        WrittenIsTakenBack(before.files, Filename(k.user, k.id), Content(k.publicKey));
        KeyHasIds(store.db, k.id);
        var _ := keys.Remove(k.user, k.id);
        Observe();
      }
    }

    /** What `SetKeyEnabled` checks first: the key is there, it is the actor's own or the actor is an admin, and
        its user is active. */
    method KeyToSwitch(actor: int, admin: bool, id: int) returns (r: Result<SshKey>)
      requires store.Valid()
      ensures var rights := store.db.rights;
        r.Ok? ==>
          && id in rights.keys && r.value == RecordOf(rights, id) && (admin || rights.keys[id].user == actor)
          && UserActive(rights, rights.keys[id].user)
      ensures var rights := store.db.rights;
        r.Err? ==>
          || (r.error == Database && !store.reliable)
          || (r.error == NoRows && id !in rights.keys)
          || (r.error == Forbidden && id in rights.keys && !admin && rights.keys[id].user != actor)
          || (r.error == Suspended && id in rights.keys && !rights.users[rights.keys[id].user].active)
    {
      var k :- store.KeyByID(id);
      if !admin && k.user != actor {
        return Err(Forbidden);
      }
      var _ :- EnsureActive(k.user);
      return Ok(k);
    }

    /** `SetKeyEnabled`: a disable fails closed wherever it stops; an enable passes through moments at
        which this key's file may be there before the key is on. */
    method SetKeyEnabled(actor: int, admin: bool, id: int, enabled: bool) returns (r: Result<()>)
      requires store.Valid()
      modifies this, store, keys
      ensures store.Valid()
      ensures !enabled ==> OnlyRevoked()
      ensures enabled && id in old(store.db.rights.keys) ==> OnlyEnabling(id)
      ensures r.Err? ==> store.db == old(store.db)
      ensures r.Ok? ==>
        && id in old(store.db).rights.keys
        && store.db == After(old(store.db), Mutation.SetKeyEnabled(id, enabled))
        && Lookup(keys.files, NameOf(old(store.db).rights, id))
             == (if enabled then Some(Content(old(store.db).rights.keys[id].publicKey)) else None)
      ensures forall name :: (id in old(store.db).rights.keys && name == NameOf(old(store.db).rights, id))
                             || Lookup(keys.files, name) == Lookup(old(keys.files), name)
      ensures id in old(store.db).rights.keys && !admin && old(store.db).rights.keys[id].user != actor ==>
        r.Err? && keys.files == old(keys.files)
      ensures enabled && r.Err? && keys.reliable && keys.files != old(keys.files) ==>
        id in store.db.rights.keys && NameOf(store.db.rights, id) !in keys.files
      ensures r.Ok? ==> var k := old(store.db).rights.keys[id];
        (admin || k.user == actor) && old(store.db).rights.users[k.user].active
      ensures r.Err? ==> var rights := store.db.rights;
        || Failed(r.error)
        || (r.error == NoRows && id !in rights.keys)
        || (r.error == Forbidden && id in rights.keys && !admin && rights.keys[id].user != actor)
        || (r.error == Suspended && id in rights.keys && !rights.users[rights.keys[id].user].active)
    {
      RemovalRevokes(store.db.rights, keys.files, keys.files);
      var k :- KeyToSwitch(actor, admin, id);
      if enabled {
        r := Enable(k);
      } else {
        r := Disable(k);
      }
    }

    /** `DeleteKey`: the file goes first, then the row. */
    method DeleteKey(actor: int, admin: bool, id: int) returns (r: Result<()>)
      requires store.Valid()
      modifies this, store, keys
      ensures store.Valid() && OnlyRevoked()
      ensures r.Err? ==> store.db == old(store.db)
      ensures r.Ok? ==>
        && id in old(store.db).rights.keys
        && store.db == After(old(store.db), Mutation.DeleteKey(id, old(store.db).rights.keys[id].user))
        && keys.files == old(keys.files) - {NameOf(old(store.db).rights, id)}
      ensures keys.files == old(keys.files)
        || (id in old(store.db).rights.keys && keys.files == old(keys.files) - {NameOf(old(store.db).rights, id)})
      ensures id in old(store.db).rights.keys && !admin && old(store.db).rights.keys[id].user != actor ==>
        r.Err? && keys.files == old(keys.files)
      ensures r.Ok? ==> admin || old(store.db).rights.keys[id].user == actor
      ensures r.Err? ==> var rights := store.db.rights;
        || Failed(r.error)
        || (r.error == NoRows && id !in rights.keys)
        || (r.error == Forbidden && id in rights.keys && !admin && rights.keys[id].user != actor)
    {
      ghost var db, files := store.db, keys.files;
      RemovalRevokes(db.rights, files, files);
      var k :- store.KeyByID(id);
      if !admin && k.user != actor {
        return Err(Forbidden);
      }
      var removed := TakeFile(k);
      if !removed {
        return Err(Files);
      }
      DeleteRevokes(db, id, k.user, files, keys.files);
      r := store.DeleteKeyAtomic(id, k.user);
      Observe();
    }

    /** The files of all the listed keys, one after the other. */
    method RemoveAll(listed: seq<SshKey>) returns (ok: bool)
      modifies this`trace, keys
      ensures OnlyRevoked()
      ensures LosesOnly(old(keys.files), keys.files, NamesOf(listed))
      ensures ok ==> keys.files == old(keys.files) - NamesOf(listed)
      ensures keys.reliable && (forall k :: k in listed ==> k.id > 0 && k.user > 0) ==> ok
    {
      ghost var rights, files := store.db.rights, keys.files;
      RemovalRevokes(rights, files, files);
      var i := 0;
      assert files - NamesOf(listed[..0]) == files;
      while i < |listed|
        invariant 0 <= i <= |listed|
        invariant OnlyRevoked()
        invariant keys.files == files - NamesOf(listed[..i])
      {
        OneNameMore(files, listed, i);
        var removed := keys.Remove(listed[i].user, listed[i].id);
        RemovalRevokes(rights, files, keys.files);
        Observe();
        if !removed {
          return false;
        }
        i := i + 1;
      }
      assert listed[..i] == listed;
      return true;
    }

    /** The suspending half of `SetUserSuspended`: every file of the user goes first. */
    method Suspend(target: int) returns (r: Result<()>)
      requires store.Valid()
      modifies this, store, keys
      ensures store.Valid() && OnlyRevoked()
      ensures r.Err? ==> store.db == old(store.db)
      ensures LosesOnly(old(keys.files), keys.files, NamesOfUser(old(store.db).rights, target))
      ensures r.Ok? ==>
        && store.db == After(old(store.db), SetUserStatus(target, false))
        && keys.files == old(keys.files) - NamesOfUser(old(store.db).rights, target)
      ensures r.Err? ==> Failed(r.error) || target !in store.db.rights.users
    {
      ghost var db, files := store.db, keys.files;
      RemovalRevokes(db.rights, files, files);
      LosesNothing(files, NamesOfUser(db.rights, target));
      var listed :- store.KeysByUser(target);
      ListedNames(db.rights, target, listed);
      var removed := RemoveAll(listed);
      if !removed {
        return Err(Files);
      }
      SuspendRevokes(db, target, files, keys.files);
      r := store.SetUserStatusAtomic(target, false);
      Observe();
    }

    /** `SetUserSuspended`: an admin is never suspended; a suspension fails closed wherever it stops;
        lifting one changes the database first and the files, as far as possible, afterwards. */
    method SetUserSuspended(target: int, suspended: bool) returns (r: Result<()>)
      requires store.Valid()
      modifies this, store, keys
      ensures store.Valid()
      ensures suspended ==> OnlyRevoked()
      ensures r.Err? ==> store.db == old(store.db)
      ensures r.Ok? ==> store.db == After(old(store.db), SetUserStatus(target, !suspended))
      ensures r.Ok? && suspended ==> keys.files == old(keys.files) - NamesOfUser(old(store.db).rights, target)
      ensures suspended ==> LosesOnly(old(keys.files), keys.files, NamesOfUser(old(store.db).rights, target))
      ensures suspended && target in old(store.db).rights.users && old(store.db).rights.users[target].admin ==>
        r.Err? && keys.files == old(keys.files)
      ensures !suspended ==> Between(old(keys.files), keys.files, Wanted(store.db.rights))
      ensures r.Ok? && !suspended && store.reliable && keys.reliable ==>
        keys.files == Reconciliation(old(keys.files), Wanted(store.db.rights))
      ensures r.Ok? ==> target in old(store.db).rights.users && (suspended ==> !old(store.db).rights.users[target].admin)
      ensures r.Err? ==> var users := store.db.rights.users;
        || Failed(r.error)
        || (r.error == NoRows && target !in users)
        || (r.error == Refused && suspended && target in users && users[target].admin)
    {
      RemovalRevokes(store.db.rights, keys.files, keys.files);
      StartsBetween(store.db.rights, keys.files);
      LosesNothing(keys.files, NamesOfUser(store.db.rights, target));
      var u :- store.UserByID(target);
      if u.admin && suspended {
        return Err(Refused);
      }
      if suspended {
        r := Suspend(target);
      } else {
        r := store.SetUserStatusAtomic(target, true);
        StartsBetween(store.db.rights, keys.files);
        if r.Ok? {
          var _ := Reconcile();
        }
      }
    }

    /** `syncLocked` and `Reconcile`. */
    method Reconcile() returns (ok: bool)
      requires store.Valid()
      modifies keys
      ensures Between(old(keys.files), keys.files, Wanted(store.db.rights))
      ensures ok ==> keys.files == Reconciliation(old(keys.files), Wanted(store.db.rights))
      ensures store.reliable && keys.reliable ==> ok
    {
      StartsBetween(store.db.rights, keys.files);
      var listed := store.AuthorizedKeys();
      if listed.Err? {
        return false;
      }
      ListedIsWanted(store.db.rights, listed.value);
      AuthorizedHaveIds(store.db.rights, listed.value);
      ok := keys.Reconcile(listed.value);
    }

    /** `AddKey`: a key whose file cannot be written is taken back, file first; if even that fails its
        row stays, so that a file possibly written is still accounted for. */
    method AddKey(user: int, parsed: Option<ParsedKey>) returns (r: Result<int>)
      requires store.Valid()
      modifies this, store, keys
      ensures store.Valid()
      ensures FailsClosed(old(Now())) ==> StaysClosed() && FailsClosed(Now())
      ensures r.Ok? ==>
        && parsed.Some? && r.value == old(store.db).rights.nextKey
        && store.db == After(old(store.db), InsertKey(user, parsed.value.fingerprint, parsed.value.publicKey))
        && keys.files == old(keys.files)[Filename(user, r.value) := Content(parsed.value.publicKey)]
      ensures r.Err? ==>
        || Now() == old(Now())
        || AddsOnly(old(Now()), Now(), user, old(store.db).rights.nextKey)
      ensures store.db.generation == old(store.db).generation && store.db.index == old(store.db).index
      ensures r.Ok? ==> UserActive(old(store.db).rights, user)
      ensures r.Err? ==> var rights := old(store.db).rights;
        || (r.error == Database && !store.reliable)
        || (r.error in {Files, Unrevoked} && TakenBack(user, old(store.db).rights.nextKey, r.error))
        || (r.error == NoRows && user !in rights.users)
        || (r.error == Suspended && user in rights.users && !rights.users[user].active)
        || (r.error == Invalid && parsed.None?)
        || (r.error == Duplicate && parsed.Some?
            && exists k :: k in rights.keys && rights.keys[k].fingerprint == parsed.value.fingerprint)
    {
      Observe();
      var _ :- EnsureActive(user);
      if parsed.None? {
        return Err(Invalid);
      }
      r := Insert(user, parsed.value);
    }

    /** The row, then the file. */
    method Insert(user: int, key: ParsedKey) returns (r: Result<int>)
      requires store.Valid() && UserActive(store.db.rights, user)
      modifies this, store, keys
      ensures store.Valid()
      ensures FailsClosed(old(Now())) ==> StaysClosed() && FailsClosed(Now())
      ensures r.Ok? ==>
        && r.value == old(store.db).rights.nextKey
        && store.db == After(old(store.db), InsertKey(user, key.fingerprint, key.publicKey))
        && keys.files == old(keys.files)[Filename(user, r.value) := Content(key.publicKey)]
      ensures r.Err? ==> Now() == old(Now()) || AddsOnly(old(Now()), Now(), user, old(store.db).rights.nextKey)
      ensures store.db.generation == old(store.db).generation && store.db.index == old(store.db).index
      ensures r.Err? ==>
        || (r.error == Database && !store.reliable)
        || (r.error in {Files, Unrevoked} && TakenBack(user, old(store.db).rights.nextKey, r.error))
        || (r.error == Duplicate && FingerprintTaken(old(store.db).rights, key.fingerprint))
    {
      ghost var before := Now();
      var inserted := store.InsertKeyAtomic(user, key.fingerprint, key.publicKey);
      if inserted.Err? {
        return Err(if inserted.error == Constraint then Duplicate else inserted.error);
      }
      var id := inserted.value;
      InsertedAddsOnly(old(store.db), user, key, keys.files);
      CheckAdded(before, user, id);
      var published := Publish(user, id, before);
      return if published.Ok? then Ok(id) else Err(published.error);
    }

    /** What is left of a new key whose file could not be written: the file is gone and the row too, unless the
        database refuses; or, if even the file cannot be removed, the row stays and the key authorized. */
    predicate TakenBack(user: int, id: int, error: Error)
      reads store, keys
    {
      && (!store.reliable || !keys.reliable)
      && (error == Files ==>
            Filename(user, id) !in keys.files && (id !in store.db.rights.keys || !store.reliable))
      && (error == Unrevoked ==> !keys.reliable && Authorized(store.db.rights, id))
    }

    /** Writes the file of a new key, or takes the key back. */
    method Publish(user: int, id: int, ghost before: Moment) returns (r: Result<()>)
      requires store.Valid() && user > 0 && id > 0 && id !in before.rights.keys
      requires Authorized(store.db.rights, id) && AddsOnly(before, Now(), user, id)
      modifies this, store, keys
      ensures store.Valid() && AddsOnly(before, Now(), user, id)
      ensures FailsClosed(before) ==> StaysClosed() && FailsClosed(Now())
      ensures r.Ok? ==>
        && store.db == old(store.db)
        && keys.files == old(keys.files)[Filename(user, id) := Content(store.db.rights.keys[id].publicKey)]
      ensures store.db.generation == old(store.db).generation && store.db.index == old(store.db).index
      ensures r.Err? ==> r.error in {Files, Unrevoked} && TakenBack(user, id, r.error)
    {
      var written := WriteNew(user, id, before);
      if !written {
        var removed := TakeBack(user, id, before);
        return Err(if removed then Files else Unrevoked);
      }
      return Ok(());
    }

    method WriteNew(user: int, id: int, ghost before: Moment) returns (written: bool)
      requires store.Valid() && user > 0 && id > 0 && id !in before.rights.keys
      requires Authorized(store.db.rights, id) && AddsOnly(before, Now(), user, id)
      modifies this`trace, keys
      ensures AddsOnly(before, Now(), user, id)
      ensures FailsClosed(before) ==> StaysClosed() && FailsClosed(Now())
      ensures written ==>
        keys.files == old(keys.files)[Filename(user, id) := Content(store.db.rights.keys[id].publicKey)]
      ensures written || !store.reliable || !keys.reliable
    {
      var created := store.KeyByID(id);
      written := false;
      if created.Ok? {
        written := keys.Write(created.value);
      }
      CheckAdded(before, user, id);
    }

    method TakeBack(user: int, id: int, ghost before: Moment) returns (removed: bool)
      requires store.Valid() && user > 0 && id > 0 && id !in before.rights.keys
      requires Authorized(store.db.rights, id) && AddsOnly(before, Now(), user, id)
      modifies this, store, keys
      ensures store.Valid() && AddsOnly(before, Now(), user, id)
      ensures FailsClosed(before) ==> StaysClosed() && FailsClosed(Now())
      ensures store.db.generation == old(store.db).generation && store.db.index == old(store.db).index
      ensures removed ==> Filename(user, id) !in keys.files && (id !in store.db.rights.keys || !store.reliable)
      ensures !removed ==> !keys.reliable && store.db == old(store.db)
    {
      removed := keys.Remove(user, id);
      CheckAdded(before, user, id);
      if !removed {
        return;
      }
      DropRow(user, id, before);
      CheckAdded(before, user, id);
    }

    /** Deletes the row, or failing that switches the key off. */
    method DropRow(user: int, id: int, ghost before: Moment)
      requires store.Valid() && id in store.db.rights.keys
      requires AddsOnly(before, Now(), user, id) && Filename(user, id) !in keys.files
      modifies store
      ensures store.Valid() && AddsOnly(before, Now(), user, id)
      ensures store.db.generation == old(store.db).generation && store.db.index == old(store.db).index
      ensures id !in store.db.rights.keys || !store.reliable
    {
      TakingBackAddsOnly(before, Now(), user, id);
      var deleted := store.PlainDeleteKey(id);
      if deleted.Err? {
        var _ := store.PlainDisableKey(id);
      }
    }

    /** Records a moment of an insertion. */
    ghost method CheckAdded(before: Moment, user: int, id: int)
      requires user > 0 && id > 0 && id !in before.rights.keys && AddsOnly(before, Now(), user, id)
      modifies this`trace
      ensures trace == old(trace) + [Now()]
      ensures FailsClosed(before) ==> FailsClosed(Now())
    {
      if FailsClosed(before) {
        AddingFailsClosed(before, Now(), user, id);
      }
      Observe();
    }

    /** `ParseTCPPort`: digits between outer spaces that name a public port. */
    static method ParseTCPPort(raw: string) returns (port: Option<int>)
      ensures var s := TrimSpace(raw);
        port == if s != "" && Digits(s) && InPublicRange(Value(s)) then Some(Value(s)) else None
    {
      var s := TrimSpace(raw);
      if s == "" {
        return None;
      }
      var i := 0;
      while i < |s|
        invariant 0 <= i <= |s|
        invariant Digits(s[..i])
      {
        if s[i] < '0' || s[i] > '9' {
          return None;
        }
        i := i + 1;
      }
      assert s[..i] == s;
      if Value(s) < PORT_MIN || Value(s) > PORT_MAX {
        return None;
      }
      return Some(Value(s));
    }

    /** `ReserveSubdomain`, with the answer of the DNS provider as an argument: what reaches the
        transaction is a normalized label that is free. */
    method ReserveSubdomain(user: int, raw: string, taken: Option<bool>) returns (r: Result<int>)
      requires store.Valid()
      modifies store
      ensures store.Valid()
      ensures r.Err? ==> store.db == old(store.db)
      ensures r.Ok? ==>
        && IsLabel(Normalized(raw)) && Normalized(raw) !in RESERVED && taken == Some(false)
        && Normalized(raw) != Normalized(controlPlane)
        && store.db == After(old(store.db), InsertSubdomain(user, Normalized(raw)))
        && OwnsName(store.db.rights, user, Normalized(raw))
      ensures r.Err? ==> var rights, name := store.db.rights, Normalized(raw);
        || (r.error == Database && !store.reliable)
        || (r.error == NoRows && user !in rights.users)
        || (r.error == Suspended && user in rights.users && !rights.users[user].active)
        || (r.error == Refused && (name == Normalized(controlPlane) || name in RESERVED))
        || (r.error == Invalid && !IsLabel(name))
        || (r.error == Duplicate && exists d :: d in rights.subdomains && rights.subdomains[d].name == name)
        || (r.error == Unavailable && taken == None)
        || (r.error == Conflict && taken == Some(true))
    {
      var _ :- EnsureActive(user);
      var name := ToLower(TrimSpace(raw));
      if name != "" && name == ToLower(TrimSpace(controlPlane)) {
        return Err(Refused);
      }
      var normal := NormalizeSubdomain(name);
      NormalizedTwice(raw);
      if normal.ReservedWord? {
        return Err(Refused);
      }
      if normal.Malformed? {
        return Err(Invalid);
      }
      name := normal.name;
      var _ :- store.Execute();
      if NameTaken(store.db.rights, name) {
        return Err(Duplicate);
      }
      if taken.None? {
        return Err(Unavailable);
      }
      if taken.value {
        return Err(Conflict);
      }
      ReservedIsOwned(store.db, user, name);
      r := store.InsertSubdomainAtomic(user, name);
      if r == Err(Constraint) {
        return Err(Duplicate);
      }
    }

    /** `ReleaseSubdomain`: the transaction gets the row's own name. */
    method ReleaseSubdomain(actor: int, admin: bool, id: int) returns (r: Result<()>)
      requires store.Valid()
      modifies store
      ensures store.Valid()
      ensures r.Err? ==> store.db == old(store.db)
      ensures r.Ok? ==>
        && id in old(store.db).rights.subdomains
        && (admin || old(store.db).rights.subdomains[id].user == actor)
        && store.db == After(old(store.db), DeleteSubdomain(id, old(store.db).rights.subdomains[id].name))
        && !NameTaken(store.db.rights, old(store.db).rights.subdomains[id].name)
      ensures r.Err? ==> var rights := store.db.rights;
        || (r.error == Database && !store.reliable)
        || (r.error == NoRows && id !in rights.subdomains)
        || (r.error == Forbidden && id in rights.subdomains && !admin && rights.subdomains[id].user != actor)
    {
      var _ :- store.Execute();
      if id !in store.db.rights.subdomains {
        return Err(NoRows);
      }
      var d := store.db.rights.subdomains[id];
      if !admin && d.user != actor {
        return Err(Forbidden);
      }
      ReleasedIsFree(store.db, id);
      r := store.DeleteSubdomainAtomic(id, d.name);
    }

    /** `ReserveTCPPort`. */
    method ReserveTCPPort(user: int, raw: string) returns (r: Result<int>)
      requires store.Valid()
      modifies store
      ensures store.Valid()
      ensures r.Err? ==> store.db == old(store.db)
      ensures r.Ok? ==>
        && Digits(TrimSpace(raw)) && InPublicRange(Value(TrimSpace(raw)))
        && store.db == After(old(store.db), InsertPort(user, Value(TrimSpace(raw))))
        && store.db.generation == old(store.db).generation + 1
        && OwnsPort(store.db.rights, user, Value(TrimSpace(raw)))
      ensures r.Err? ==> var rights, s := store.db.rights, TrimSpace(raw);
        || (r.error == Database && !store.reliable)
        || (r.error == NoRows && user !in rights.users)
        || (r.error == Suspended && user in rights.users && !rights.users[user].active)
        || (r.error == Invalid && !(s != "" && Digits(s) && InPublicRange(Value(s))))
        || (r.error == Duplicate && Digits(s) && exists p :: p in rights.ports && rights.ports[p].port == Value(s))
    {
      var _ :- EnsureActive(user);
      var port := ParseTCPPort(raw);
      if port.None? {
        return Err(Invalid);
      }
      PortReservedIsOwned(store.db, user, port.value);
      r := store.InsertTCPPortAtomic(user, port.value);
      if r == Err(Constraint) {
        return Err(Duplicate);
      }
    }

    /** `ReleaseTCPPort`. */
    method ReleaseTCPPort(actor: int, admin: bool, id: int) returns (r: Result<()>)
      requires store.Valid()
      modifies store
      ensures store.Valid()
      ensures r.Err? ==> store.db == old(store.db)
      ensures r.Ok? ==>
        && id in old(store.db).rights.ports
        && (admin || old(store.db).rights.ports[id].user == actor)
        && store.db == After(old(store.db), DeletePort(id, old(store.db).rights.ports[id].port))
        && !Tables.Reserved(store.db.rights, old(store.db).rights.ports[id].port)
      ensures r.Err? ==> var rights := store.db.rights;
        || (r.error == Database && !store.reliable)
        || (r.error == NoRows && id !in rights.ports)
        || (r.error == Forbidden && id in rights.ports && !admin && rights.ports[id].user != actor)
    {
      var _ :- store.Execute();
      if id !in store.db.rights.ports {
        return Err(NoRows);
      }
      var p := store.db.rights.ports[id];
      if !admin && p.user != actor {
        return Err(Forbidden);
      }
      PortReleasedIsFree(store.db, id);
      r := store.DeleteTCPPortAtomic(id, p.port);
    }
  }

  lemma ReservedIsOwned(db: Db, user: int, name: string)
    requires Sound(db) && IsLabel(name)
    ensures UserActive(db.rights, user) && !NameTaken(db.rights, name) ==>
      OwnsName(After(db, InsertSubdomain(user, name)).rights, user, name)
    ensures Apply(db, InsertSubdomain(user, name)).Ok? <==> UserActive(db.rights, user) && !NameTaken(db.rights, name)
  {
    var after := After(db, InsertSubdomain(user, name)).rights;
    if UserActive(db.rights, user) && !NameTaken(db.rights, name) {
      assert after.subdomains[db.rights.nextSubdomain] == Subdomain(user, name);
    }
  }

  lemma ReleasedIsFree(db: Db, id: int)
    requires Sound(db) && id in db.rights.subdomains
    ensures var name := db.rights.subdomains[id].name; !NameTaken(After(db, DeleteSubdomain(id, name)).rights, name)
  {
  }

  lemma PortReservedIsOwned(db: Db, user: int, port: int)
    requires Sound(db) && InPublicRange(port)
    ensures UserActive(db.rights, user) && !Tables.Reserved(db.rights, port) ==>
      OwnsPort(After(db, InsertPort(user, port)).rights, user, port)
      && After(db, InsertPort(user, port)).generation == db.generation + 1
    ensures Apply(db, InsertPort(user, port)).Ok? <==> UserActive(db.rights, user) && !Tables.Reserved(db.rights, port)
  {
    var after := After(db, InsertPort(user, port)).rights;
    if UserActive(db.rights, user) && !Tables.Reserved(db.rights, port) {
      assert after.ports[db.rights.nextPort] == Port(user, port);
    }
  }

  lemma PortReleasedIsFree(db: Db, id: int)
    requires Sound(db) && id in db.rights.ports
    ensures var port := db.rights.ports[id].port; !Tables.Reserved(After(db, DeletePort(id, port)).rights, port)
  {
  }
}
