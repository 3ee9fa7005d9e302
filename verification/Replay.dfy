/**
 The outbox as a log of key file events: what delivering one does to the directory, and why
 delivering a whole tail of the log reproduces the authorized keys.
 */
module Replay {
  import opened Hostnames
  import opened Tables
  import opened KeyFiles

  // ------------------------------------------------------------------- table views

  function RecordOf(r: Rights, id: int): SshKey
    requires id in r.keys
  {
    SshKey(id, r.keys[id].user, r.keys[id].publicKey, r.keys[id].enabled)
  }

  /** The rows `AuthorizedKeys` selects. */
  predicate Authorized(r: Rights, id: int) {
    id in r.keys && KeyLive(r, id, r.keys[id].user)
  }

  ghost predicate ListsAuthorized(r: Rights, keys: seq<SshKey>) {
    && (forall i :: 0 <= i < |keys| ==> Authorized(r, keys[i].id) && keys[i] == RecordOf(r, keys[i].id))
    && (forall id :: Authorized(r, id) ==> RecordOf(r, id) in keys)
  }

  function NameOf(r: Rights, id: int): string
    requires id in r.keys
  {
    Filename(r.keys[id].user, id)
  }

  lemma NamesApart(r: Rights)
    requires Referenced(r)
    ensures forall i, j :: i in r.keys && j in r.keys && NameOf(r, i) == NameOf(r, j) ==> i == j
  {
    forall i, j | i in r.keys && j in r.keys && NameOf(r, i) == NameOf(r, j) ensures i == j {
      FilenameInjective(r.keys[i].user, i, r.keys[j].user, j);
    }
  }

  /** The keys a reconciliation wants when it reads these rights. */
  ghost function Wanted(r: Rights): map<string, SshKey>
    requires Referenced(r)
  {
    NamesApart(r);
    map id | id in r.keys && Authorized(r, id) :: NameOf(r, id) := RecordOf(r, id)
  }

  lemma {:induction false} WantedFromList(keys: seq<SshKey>, name: string)
    requires name in WantedOf(keys)
    ensures WantedOf(keys)[name] in keys
    ensures name == Filename(WantedOf(keys)[name].user, WantedOf(keys)[name].id)
  {
    var n := |keys| - 1;
    if name != Filename(keys[n].user, keys[n].id) {
      WantedFromList(keys[..n], name);
    }
  }

  /** The file name of the last key is wanted, and so is every name wanted before it. */
  lemma LastIsWanted(keys: seq<SshKey>, init: seq<SshKey>, last: SshKey, name: string)
    requires keys == init + [last]
    requires name == Filename(last.user, last.id) || name in WantedOf(init)
    ensures name in WantedOf(keys)
  {
    assert keys[..|keys| - 1] == init && keys[|keys| - 1] == last;
  }

  lemma {:induction false} ListedInWanted(keys: seq<SshKey>, k: SshKey, name: string)
    requires k in keys && name == Filename(k.user, k.id)
    ensures name in WantedOf(keys)
    decreases |keys|
  {
    var init, last := keys[..|keys| - 1], keys[|keys| - 1];
    assert keys == init + [last];
    if k != last {
      ListedInWanted(init, k, name);
    }
    LastIsWanted(keys, init, last, name);
  }

  lemma ListHolds(r: Rights, keys: seq<SshKey>, name: string)
    requires Referenced(r) && ListsAuthorized(r, keys) && name in WantedOf(keys)
    ensures name in Wanted(r) && WantedOf(keys)[name] == Wanted(r)[name]
  {
    NamesApart(r);
    WantedFromList(keys, name);
    var k := WantedOf(keys)[name];
    assert Authorized(r, k.id) && k == RecordOf(r, k.id) && name == NameOf(r, k.id);
  }

  lemma WantedIsListed(r: Rights, keys: seq<SshKey>, name: string)
    requires Referenced(r) && ListsAuthorized(r, keys) && name in Wanted(r)
    ensures name in WantedOf(keys)
  {
    var id :| Authorized(r, id) && name == NameOf(r, id);
    ListedInWanted(keys, RecordOf(r, id), name);
  }

  /** What the writer computes from the selected rows is what the rights want. */
  lemma ListedIsWanted(r: Rights, keys: seq<SshKey>)
    requires Referenced(r) && ListsAuthorized(r, keys)
    ensures WantedOf(keys) == Wanted(r)
  {
    forall name | name in WantedOf(keys) ensures name in Wanted(r) && WantedOf(keys)[name] == Wanted(r)[name] {
      ListHolds(r, keys, name);
    }
    forall name | name in Wanted(r) ensures name in WantedOf(keys) {
      WantedIsListed(r, keys, name);
    }
  }

  // --------------------------------------------------------------------- delivery

  /** A complete delivery of one event while the rights are r. */
  ghost function Deliver(r: Rights, files: map<string, string>, e: Effect): map<string, string>
    requires Referenced(r)
  {
    match e
    case WriteKey(k, _) =>
      if k in r.keys then files[NameOf(r, k) := Content(r.keys[k].publicKey)] else files
    case RemoveKey(k, u, _) =>
      if u != 0 then files - {Filename(u, k)}
      else if k in r.keys then files - {NameOf(r, k)}
      else files
    case ReconcileKeys(_) => Reconciliation(files, Wanted(r))
    case _ => files
  }

  ghost function DeliverAll(r: Rights, files: map<string, string>, events: seq<Effect>): map<string, string>
    requires Referenced(r)
  {
    if events == [] then files
    else Deliver(r, DeliverAll(r, files, events[..|events| - 1]), events[|events| - 1])
  }

  function Lookup(files: map<string, string>, name: string): Option<string> {
    if name in files then Some(files[name]) else None
  }

  /** Whether an event decides over the file of user v and key k. */
  predicate Touches(r: Rights, e: Effect, v: int, k: int) {
    match e
    case WriteKey(k', _) => k' == k && k in r.keys && r.keys[k].user == v
    case RemoveKey(k', u, _) => k' == k && if u == 0 then k in r.keys && r.keys[k].user == v else u == v
    case ReconcileKeys(_) => true
    case _ => false
  }

  /** The file user v and key k should have: its public key while it is authorized. */
  function Desired(r: Rights, v: int, k: int): Option<string> {
    if Authorized(r, k) && r.keys[k].user == v then Some(Content(r.keys[k].publicKey)) else None
  }

  /** What an event that decides over the file makes of it. */
  function Verdict(r: Rights, e: Effect, v: int, k: int): Option<string>
    requires Touches(r, e, v, k)
  {
    match e
    case WriteKey(_, _) => Some(Content(r.keys[k].publicKey))
    case RemoveKey(_, _, _) => None
    case ReconcileKeys(_) => Desired(r, v, k)
  }

  lemma WantedIsDesired(r: Rights, v: int, k: int)
    requires Referenced(r) && v > 0 && k > 0
    ensures var name := Filename(v, k);
      Desired(r, v, k) == if name in Wanted(r) then Some(Content(Wanted(r)[name].publicKey)) else None
  {
    NamesApart(r);
    var name := Filename(v, k);
    forall id | id in r.keys && NameOf(r, id) == name ensures id == k && r.keys[k].user == v {
      FilenameInjective(r.keys[id].user, id, v, k);
    }
    if Desired(r, v, k).Some? {
      assert NameOf(r, k) == name;
    }
  }

  lemma ReconcileDecides(r: Rights, files: map<string, string>, v: int, k: int)
    requires Referenced(r) && v > 0 && k > 0
    ensures Lookup(Reconciliation(files, Wanted(r)), Filename(v, k)) == Desired(r, v, k)
  {
    WantedIsDesired(r, v, k);
    FilenameManaged(v, k);
  }

  /** One delivery sets the files it decides over, and no other managed file. */
  lemma DeliverDecides(r: Rights, files: map<string, string>, e: Effect, v: int, k: int)
    requires Referenced(r) && v > 0 && k > 0
    requires e.RemoveKey? ==> e.key > 0 && e.user >= 0
    ensures Lookup(Deliver(r, files, e), Filename(v, k))
         == if Touches(r, e, v, k) then Verdict(r, e, v, k) else Lookup(files, Filename(v, k))
  {
    match e
    case ReconcileKeys(_) => ReconcileDecides(r, files, v, k);
    case WriteKey(k', _) =>
      if k' in r.keys && NameOf(r, k') == Filename(v, k) {
        FilenameInjective(r.keys[k'].user, k', v, k);
      }
    case RemoveKey(k', u, _) =>
      if k' in r.keys && NameOf(r, k') == Filename(v, k) {
        FilenameInjective(r.keys[k'].user, k', v, k);
      }
      if u > 0 && Filename(u, k') == Filename(v, k) {
        FilenameInjective(u, k', v, k);
      }
    case _ =>
  }

  ghost predicate Effective(events: seq<Effect>) {
    forall i :: 0 <= i < |events| && events[i].RemoveKey? ==> events[i].key > 0 && events[i].user >= 0
  }

  /** A file outside the reserved name space is never written or removed. */
  lemma {:induction false} UnmanagedUntouched(r: Rights, files: map<string, string>, events: seq<Effect>, name: string)
    requires Referenced(r) && !Managed(name) && Effective(events)
    ensures Lookup(DeliverAll(r, files, events), name) == Lookup(files, name)
  {
    if events != [] {
      var before := DeliverAll(r, files, events[..|events| - 1]);
      UnmanagedUntouched(r, files, events[..|events| - 1], name);
      var e := events[|events| - 1];
      match e
      case ReconcileKeys(_) =>
        assert name !in Wanted(r) by {
          forall id | id in r.keys ensures NameOf(r, id) != name {
            FilenameManaged(r.keys[id].user, id);
          }
        }
      case WriteKey(k, _) =>
        if k in r.keys { FilenameManaged(r.keys[k].user, k); }
      case RemoveKey(k, u, _) =>
        if k in r.keys { FilenameManaged(r.keys[k].user, k); }
        if u > 0 { FilenameManaged(u, k); }
      case _ =>
    }
  }

  /** The last event that decides over a file, decides. */
  lemma {:induction false} LastDecides(r: Rights, files: map<string, string>, events: seq<Effect>, v: int, k: int,
                                       last: nat)
    requires Referenced(r) && v > 0 && k > 0 && Effective(events)
    requires last < |events| && Touches(r, events[last], v, k)
    requires forall j :: last < j < |events| ==> !Touches(r, events[j], v, k)
    ensures Lookup(DeliverAll(r, files, events), Filename(v, k)) == Verdict(r, events[last], v, k)
  {
    var n := |events| - 1;
    DeliverDecides(r, DeliverAll(r, files, events[..n]), events[n], v, k);
    if last < n {
      LastDecides(r, files, events[..n], v, k, last);
    }
  }

  lemma {:induction false} NoneDecides(r: Rights, files: map<string, string>, events: seq<Effect>, v: int, k: int)
    requires Referenced(r) && v > 0 && k > 0 && Effective(events)
    requires forall j :: 0 <= j < |events| ==> !Touches(r, events[j], v, k)
    ensures Lookup(DeliverAll(r, files, events), Filename(v, k)) == Lookup(files, Filename(v, k))
  {
    if events != [] {
      var n := |events| - 1;
      DeliverDecides(r, DeliverAll(r, files, events[..n]), events[n], v, k);
      NoneDecides(r, files, events[..n], v, k);
    }
  }

  // ------------------------------------------------------------ the log is settled

  predicate Concerns(e: Effect, k: int) {
    (e.WriteKey? || e.RemoveKey?) && e.key == k
  }

  /** A later event of the log concerns the key again. */
  ghost predicate Overtaken(outbox: seq<Item>, i: nat, k: int) {
    exists j :: i < j < |outbox| && (Concerns(outbox[j].effect, k) || outbox[j].effect.ReconcileKeys?)
  }

  /** The event says about its key what the rights say. */
  predicate Truthful(r: Rights, e: Effect) {
    match e
    case WriteKey(k, _) => Authorized(r, k)
    case RemoveKey(k, u, _) => if u == 0 then k in r.keys && !Authorized(r, k) else k !in r.keys
    case _ => true
  }

  /** Every key file event is the truth about its key, unless a later event concerns the key; and
      the last event about a deleted key names the owner whose file has to go. */
  ghost predicate SettledAt(r: Rights, outbox: seq<Item>, i: nat)
    requires i < |outbox|
  {
    var e := outbox[i].effect;
    && (e.WriteKey? || e.RemoveKey? ==> Truthful(r, e) || Overtaken(outbox, i, e.key))
    && (e.RemoveKey? && e.user != 0 ==> e.key !in r.keys)
    && (e.WriteKey? || e.RemoveKey? ==> e.key in r.keys || Farewell(outbox, i, e.key))
  }

  ghost predicate Farewell(outbox: seq<Item>, i: nat, k: int) {
    exists j :: i <= j < |outbox| && outbox[j].effect.RemoveKey? && outbox[j].effect.key == k && outbox[j].effect.user != 0
  }

  ghost predicate Settled(r: Rights, outbox: seq<Item>) {
    forall i :: 0 <= i < |outbox| ==> SettledAt(r, outbox, i)
  }

  /** Some note of a transaction concerns the key. */
  ghost predicate Noted(notes: seq<Note>, k: int) {
    exists i :: 0 <= i < |notes| && (Concerns(notes[i].effect, k) || notes[i].effect.ReconcileKeys?)
  }

  ghost predicate NotedFarewell(notes: seq<Note>, k: int) {
    exists i :: 0 <= i < |notes| && notes[i].effect.RemoveKey? && notes[i].effect.key == k && notes[i].effect.user != 0
  }

  /** A change of rights is announced for a key: if its authorization or its existence changes, a
      note concerns it, and if it is deleted, a note names its owner. */
  ghost predicate Announced(r: Rights, r': Rights, notes: seq<Note>, k: int) {
    && (Authorized(r, k) != Authorized(r', k) || (k in r.keys) != (k in r'.keys) ==> Noted(notes, k))
    && (k in r.keys && k !in r'.keys ==> NotedFarewell(notes, k))
    && (k in r'.keys && k !in r.keys ==> k == r.nextKey)
  }

  /** No transaction changes what a key may do without an event that concerns it, and none deletes
      a key without the event that names its owner. */
  lemma ChangesAreAnnounced(r: Rights, g: int, m: Mutation, p: Plan, k: int)
    requires Schema(r) && Allowed(r, m) && PlanOf(r, g, m) == Ok(p)
    ensures Announced(r, p.rights, p.notes, k)
  {
    DeletionsAreAnnounced(r, g, m, p, k);
    if Authorized(r, k) != Authorized(p.rights, k) || (k in r.keys) != (k in p.rights.keys) {
      var i := if m.SetUserStatus? then |p.notes| - 1 else 0;
      assert Concerns(p.notes[i].effect, k) || p.notes[i].effect.ReconcileKeys?;
    }
  }

  lemma DeletionsAreAnnounced(r: Rights, g: int, m: Mutation, p: Plan, k: int)
    requires Schema(r) && Allowed(r, m) && PlanOf(r, g, m) == Ok(p)
    ensures k in r.keys && k !in p.rights.keys ==> NotedFarewell(p.notes, k)
    ensures k in p.rights.keys && k !in r.keys ==> k == r.nextKey
  {
    if k in r.keys && k !in p.rights.keys {
      assert p.notes[0].effect.RemoveKey? && p.notes[0].effect.key == k && p.notes[0].effect.user != 0;
    }
  }

  /** What a transaction writes about a key is the truth after it. */
  lemma NotesAreTrue(r: Rights, g: int, m: Mutation, p: Plan, i: nat)
    requires Schema(r) && Allowed(r, m) && PlanOf(r, g, m) == Ok(p) && i < |p.notes|
    ensures Truthful(p.rights, p.notes[i].effect) && EffectHasKey(p.rights, p.notes[i].effect)
  {
  }

  /** A transaction seen from the log: what it appends is true, and announces what changes. */
  ghost predicate Logs(r: Rights, r': Rights, notes: seq<Note>) {
    && (forall k :: k < r.nextKey ==> Announced(r, r', notes, k))
    && (forall i :: 0 <= i < |notes| ==> Truthful(r', notes[i].effect) && EffectHasKey(r', notes[i].effect))
  }

  predicate EffectHasKey(r: Rights, e: Effect) {
    e.WriteKey? || (e.RemoveKey? && e.user == 0) ==> e.key in r.keys
  }

  lemma MutationLogs(r: Rights, g: int, m: Mutation, p: Plan)
    requires Schema(r) && Allowed(r, m) && PlanOf(r, g, m) == Ok(p)
    ensures Logs(r, p.rights, p.notes)
  {
    forall k | k < r.nextKey ensures Announced(r, p.rights, p.notes, k) {
      ChangesAreAnnounced(r, g, m, p, k);
    }
    forall i | 0 <= i < |p.notes| ensures Truthful(p.rights, p.notes[i].effect) && EffectHasKey(p.rights, p.notes[i].effect) {
      NotesAreTrue(r, g, m, p, i);
    }
  }

  lemma KeysBelowNext(db: Db)
    requires Sound(db)
    ensures KeysKnown(db.rights, db.outbox)
  {
    forall i | 0 <= i < |db.outbox| && (db.outbox[i].effect.WriteKey? || db.outbox[i].effect.RemoveKey?)
      ensures db.outbox[i].effect.key < db.rights.nextKey
    {
      assert ItemSound(db.rights, db.generation, db.outbox[i]);
    }
  }

  ghost predicate KeysKnown(r: Rights, outbox: seq<Item>) {
    forall i :: 0 <= i < |outbox| && (outbox[i].effect.WriteKey? || outbox[i].effect.RemoveKey?) ==>
      outbox[i].effect.key < r.nextKey
  }

  lemma SettledCarries(r: Rights, r': Rights, before: seq<Item>, notes: seq<Note>)
    requires Settled(r, before) && KeysKnown(r, before) && Logs(r, r', notes)
    ensures Settled(r', before + ItemsOf(notes))
  {
    var after := before + ItemsOf(notes);
    forall i | 0 <= i < |after| ensures SettledAt(r', after, i) {
      if i < |before| {
        OldStaysSettled(r, r', before, after, notes, i);
      } else {
        assert after[i].effect == notes[i - |before|].effect;
      }
    }
  }

  lemma LoggedPlan(db: Db, m: Mutation) returns (p: Plan)
    requires Sound(db) && Allowed(db.rights, m) && After(db, m) != db
    ensures After(db, m) == Perform(db, p)
    ensures FreshNotes(db.outbox, p.notes) && Logs(db.rights, p.rights, p.notes)
  {
    p := PlanPerformed(db, m);
    PlanIsFresh(db, m, p);
    MutationLogs(db.rights, db.generation + 1, m, p);
  }

  lemma PlanPerformed(db: Db, m: Mutation) returns (p: Plan)
    requires After(db, m) != db
    ensures PlanOf(db.rights, db.generation + 1, m) == Ok(p) && After(db, m) == Perform(db, p)
  {
    p := PlanOf(db.rights, db.generation + 1, m).value;
  }

  /** Every transaction keeps the log settled. */
  lemma SettledKept(db: Db, m: Mutation)
    requires Sound(db) && Allowed(db.rights, m) && Settled(db.rights, db.outbox)
    ensures Settled(After(db, m).rights, After(db, m).outbox)
  {
    var after := After(db, m);
    if after != db {
      var p := LoggedPlan(db, m);
      FreshNotesAppend(db.outbox, p.notes);
      KeysBelowNext(db);
      SettledCarries(db.rights, p.rights, db.outbox, p.notes);
    }
  }

  lemma OldStaysSettled(r: Rights, r': Rights, before: seq<Item>, after: seq<Item>, notes: seq<Note>, i: nat)
    requires i < |before| && after == before + ItemsOf(notes) && SettledAt(r, before, i)
    requires var e := before[i].effect;
      e.WriteKey? || e.RemoveKey? ==> e.key < r.nextKey && Announced(r, r', notes, e.key)
    ensures SettledAt(r', after, i)
  {
    var e := before[i].effect;
    if e.WriteKey? || e.RemoveKey? {
      OvertakenCarries(before, after, notes, i, e.key);
      FarewellCarries(before, after, notes, i, e.key);
    }
  }

  lemma OvertakenCarries(before: seq<Item>, after: seq<Item>, notes: seq<Note>, i: nat, k: int)
    requires i < |before| && after == before + ItemsOf(notes)
    ensures Noted(notes, k) || Overtaken(before, i, k) ==> Overtaken(after, i, k)
  {
    if Noted(notes, k) {
      var n :| 0 <= n < |notes| && (Concerns(notes[n].effect, k) || notes[n].effect.ReconcileKeys?);
      assert after[|before| + n].effect == notes[n].effect;
    } else if Overtaken(before, i, k) {
      var j :| i < j < |before| && (Concerns(before[j].effect, k) || before[j].effect.ReconcileKeys?);
      assert after[j] == before[j];
    }
  }

  lemma FarewellCarries(before: seq<Item>, after: seq<Item>, notes: seq<Note>, i: nat, k: int)
    requires i < |before| && after == before + ItemsOf(notes)
    ensures NotedFarewell(notes, k) || Farewell(before, i, k) ==> Farewell(after, i, k)
  {
    if NotedFarewell(notes, k) {
      var n :| 0 <= n < |notes| && notes[n].effect.RemoveKey? && notes[n].effect.key == k && notes[n].effect.user != 0;
      assert after[|before| + n].effect == notes[n].effect;
    } else if Farewell(before, i, k) {
      var j :| i <= j < |before| && before[j].effect.RemoveKey? && before[j].effect.key == k
               && before[j].effect.user != 0;
      assert after[j] == before[j];
    }
  }

  // ------------------------------------------------------------------ convergence

  function EffectsOf(items: seq<Item>): (es: seq<Effect>)
    ensures |es| == |items|
    ensures forall i :: 0 <= i < |items| ==> es[i] == items[i].effect
  {
    seq(|items|, i requires 0 <= i < |items| => items[i].effect)
  }

  /** Position of the last event that decides over the file. */
  lemma {:induction false} LastTouch(r: Rights, events: seq<Effect>, v: int, k: int, some: nat) returns (last: nat)
    requires some < |events| && Touches(r, events[some], v, k)
    ensures last < |events| && Touches(r, events[last], v, k)
    ensures forall j :: last < j < |events| ==> !Touches(r, events[j], v, k)
    decreases |events| - some
  {
    if j :| some < j < |events| && Touches(r, events[j], v, k) {
      last := LastTouch(r, events, v, k, j);
    } else {
      last := some;
    }
  }

  /** The last event that decides over a file of a settled log decides for what is due. */
  lemma LastIsTrue(db: Db, v: int, k: int, last: nat)
    requires Sound(db) && Settled(db.rights, db.outbox) && v > 0 && k > 0
    requires last < |db.outbox| && Touches(db.rights, db.outbox[last].effect, v, k)
    requires forall j :: last < j < |db.outbox| ==> !Touches(db.rights, db.outbox[j].effect, v, k)
    ensures Verdict(db.rights, db.outbox[last].effect, v, k) == Desired(db.rights, v, k)
  {
    var r, e := db.rights, db.outbox[last].effect;
    assert SettledAt(r, db.outbox, last);
    if !e.ReconcileKeys? && k in r.keys {
      forall j | last < j < |db.outbox|
        ensures !Concerns(db.outbox[j].effect, k) && !db.outbox[j].effect.ReconcileKeys?
      {
        assert SettledAt(r, db.outbox, j);
        assert !Touches(r, db.outbox[j].effect, v, k);
      }
      assert !Overtaken(db.outbox, last, k);
    }
  }

  /** Replay converges: while the database stands still, delivering everything from item n on, in
      order, leaves every file those items decide over as the authorized keys want it, whatever
      the directory held before, and leaves every other file as it was. */
  lemma ReplayConverges(db: Db, files: map<string, string>, n: nat, v: int, k: int)
    requires Sound(db) && Settled(db.rights, db.outbox) && n <= |db.outbox| && v > 0 && k > 0
    ensures Lookup(DeliverAll(db.rights, files, EffectsOf(db.outbox[n..])), Filename(v, k))
         == if exists i :: n <= i < |db.outbox| && Touches(db.rights, db.outbox[i].effect, v, k)
            then Desired(db.rights, v, k) else Lookup(files, Filename(v, k))
  {
    var events := EffectsOf(db.outbox[n..]);
    assert forall i :: 0 <= i < |events| ==> events[i] == db.outbox[n + i].effect;
    EventsEffective(db, n);
    if i :| n <= i < |db.outbox| && Touches(db.rights, db.outbox[i].effect, v, k) {
      assert Touches(db.rights, events[i - n], v, k);
      TouchedConverges(db, files, n, v, k, i - n);
    } else {
      NoneDecides(db.rights, files, events, v, k);
    }
  }

  lemma TouchedConverges(db: Db, files: map<string, string>, n: nat, v: int, k: int, i: nat)
    requires Sound(db) && Settled(db.rights, db.outbox) && n <= |db.outbox| && v > 0 && k > 0
    requires i < |EffectsOf(db.outbox[n..])| && Touches(db.rights, EffectsOf(db.outbox[n..])[i], v, k)
    requires Effective(EffectsOf(db.outbox[n..]))
    ensures Lookup(DeliverAll(db.rights, files, EffectsOf(db.outbox[n..])), Filename(v, k)) == Desired(db.rights, v, k)
  {
    var events := EffectsOf(db.outbox[n..]);
    var last := LastTouch(db.rights, events, v, k, i);
    LastDecides(db.rights, files, events, v, k, last);
    forall j | n + last < j < |db.outbox| ensures !Touches(db.rights, db.outbox[j].effect, v, k) {
      assert !Touches(db.rights, events[j - n], v, k);
    }
    LastIsTrue(db, v, k, n + last);
  }

  /** The file a key should have, in the fields of the tables: it is there exactly for an enabled key of an
      active user, under that user, and holds that key. */
  lemma DesiredExactly(r: Rights, v: int, k: int)
    ensures Desired(r, v, k).Some? <==>
      k in r.keys && r.keys[k].enabled && r.keys[k].user == v && v in r.users && r.users[v].active
    ensures Desired(r, v, k).Some? ==> HoldsKey(Desired(r, v, k).value, r.keys[k].publicKey)
  {
    if k in r.keys {
      ContentHolds(r.keys[k].publicKey);
    }
  }

  /** So a replay gives every authorized key it decides over back as it is in the tables, and leaves no
      file of any other. */
  lemma ReplayYieldsKeys(db: Db, files: map<string, string>, n: nat, i: nat, v: int, k: int)
    requires Sound(db) && Settled(db.rights, db.outbox) && n <= i < |db.outbox| && v > 0 && k > 0
    requires Touches(db.rights, db.outbox[i].effect, v, k)
    ensures var r := db.rights; var after := DeliverAll(r, files, EffectsOf(db.outbox[n..]));
      && (Filename(v, k) in after <==>
            k in r.keys && r.keys[k].enabled && r.keys[k].user == v && v in r.users && r.users[v].active)
      && (Filename(v, k) in after ==> HoldsKey(after[Filename(v, k)], r.keys[k].publicKey))
  {
    ReplayConverges(db, files, n, v, k);
    DesiredExactly(db.rights, v, k);
  }

  lemma EventsEffective(db: Db, n: nat)
    requires Sound(db) && n <= |db.outbox|
    ensures Effective(EffectsOf(db.outbox[n..]))
  {
    var events := EffectsOf(db.outbox[n..]);
    forall i | 0 <= i < |events| && events[i].RemoveKey? ensures events[i].key > 0 && events[i].user >= 0 {
      assert ItemSound(db.rights, db.generation, db.outbox[n + i]);
    }
  }

  /** For a key that any of those items is about: if it exists, its owner's file is as due; if it
      has been deleted, the file of the owner it had is gone. */
  lemma ConcernedKeysConverge(db: Db, files: map<string, string>, n: nat, i: nat) returns (owner: int)
    requires Sound(db) && Settled(db.rights, db.outbox) && n <= i < |db.outbox|
    requires db.outbox[i].effect.WriteKey? || db.outbox[i].effect.RemoveKey?
    ensures owner > 0
    ensures var k := db.outbox[i].effect.key; var r := db.rights;
      && (k in r.keys ==> owner == r.keys[k].user)
      && (k !in r.keys ==> exists j, g :: i <= j < |db.outbox| && db.outbox[j].effect == RemoveKey(k, owner, g))
      && Lookup(DeliverAll(r, files, EffectsOf(db.outbox[n..])), Filename(owner, k)) == Desired(r, owner, k)
  {
    var r, e := db.rights, db.outbox[i].effect;
    var k := e.key;
    assert SettledAt(r, db.outbox, i);
    assert ItemSound(r, db.generation, db.outbox[i]);
    if k in r.keys {
      owner := r.keys[k].user;
      assert Touches(r, e, owner, k);
    } else {
      var j :| i <= j < |db.outbox| && db.outbox[j].effect.RemoveKey? && db.outbox[j].effect.key == k
               && db.outbox[j].effect.user != 0;
      assert ItemSound(r, db.generation, db.outbox[j]);
      owner := db.outbox[j].effect.user;
      assert db.outbox[j].effect == RemoveKey(k, owner, db.outbox[j].effect.generation);
      assert Touches(r, db.outbox[j].effect, owner, k);
    }
    ReplayConverges(db, files, n, owner, k);
  }
}
